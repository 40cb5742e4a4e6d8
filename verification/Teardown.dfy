/** Teardown over whole runs: every attempt works on the same tasks, so repeating it after a
    crash ends where one complete attempt would have. */
module Teardown {
  import opened Types
  import opened Names
  import opened World
  import opened Harvester
  import opened Reconciler
  import opened Invariants
  import opened Safety
  import opened Phases
  import opened Theorems
  import opened Frames

  /** From the first deleting version on, the refs are frozen. */
  lemma {:induction false} DeletingRefsFixed(w: World, i: nat, j: nat)
    requires WorldOk(w) && i <= j <= |w.past| && Version(w, i).deleting
    ensures Version(w, j).deleting && Version(w, j).status.refs == Version(w, i).status.refs
    decreases j
  {
    if i < j {
      DeletingRefsFixed(w, i, j - 1);
      hide WorldOk, ClassOf, ExpectedNetwork, Ledger;
      HistoryAt(w, j);
    }
  }

  /** `v` is `w` without some of `keys`. */
  ghost predicate Shrinks(w: World, v: World, keys: set<Key>) {
    && v.id == w.id && v.ns == w.ns
    && v.cluster.Keys <= w.cluster.Keys <= v.cluster.Keys + keys
    && (forall k | k in v.cluster :: v.cluster[k] == w.cluster[k])
  }

  lemma DispatchShrinks(s: Session)
    requires Fresh(s) && s.inst.obj.deleting
    ensures Shrinks(s.w, Dispatch(s).w, TeardownKeys(s.w.ns, St(s).refs))
  {
    hide Fresh, ReconcileDelete, TeardownKeys;
    if s.inst.obj.finalizer { DeleteFrame(s); }
  }

  lemma ReconcileShrinks(w: World, script: seq<Turn>)
    requires WorldOk(w) && Version(w, w.cached).deleting
    ensures var v := Reconcile(w, script).w;
            && Version(v, v.cached).deleting && v.cur.status.refs == w.cur.status.refs
            && Shrinks(w, v, TeardownKeys(w.ns, w.cur.status.refs))
  {
    var v := Reconcile(w, script).w;
    ReconcileOk(w, script);
    ReadOk(Begin(w, script));
    ReadFrame(w, script);
    var s := Read(Begin(w, script));
    StillDeleting(w, v);
    StillDeleting(w, s.w);
    SameRefs(w, v);
    SameRefs(w, s.w);
    if !Halted(s) && s.err == NoErr {
      DeletingRefsFixed(s.w, s.inst.rv, |s.w.past|);
      hide WorldOk, Dispatch, Read, TeardownKeys;
      DispatchShrinks(s);
    }
  }

  lemma SameRefs(w: World, v: World)
    requires WorldOk(w) && WorldOk(v) && Grows(w, v) && Version(w, w.cached).deleting
    ensures v.cur.status.refs == w.cur.status.refs
  {
    assert Version(v, w.cached) == Version(w, w.cached) && Version(v, |w.past|) == w.cur;
    DeletingRefsFixed(w, w.cached, |w.past|);
    DeletingRefsFixed(v, w.cached, |v.past|);
  }

  lemma {:induction false} RunShrinks(w: World, scripts: seq<seq<Turn>>)
    requires WorldOk(w) && Version(w, w.cached).deleting
    ensures Shrinks(w, Run(w, scripts), TeardownKeys(w.ns, w.cur.status.refs))
    decreases |scripts|
  {
    if scripts != [] {
      ReconcileShrinks(w, scripts[0]);
      ReconcileOk(w, scripts[0]);
      hide WorldOk, Reconcile, TeardownKeys;
      RunShrinks(Reconcile(w, scripts[0]).w, scripts[1..]);
    }
  }

  /** After the first teardown, through any further crashes, partial teardowns and retries, the
      cluster only loses tasks of that same teardown; once all of them are gone it never
      changes again. */
  lemma AfterTeardown(w: World, scripts: seq<seq<Turn>>)
    requires Reachable(w) && TornDown in w.log
    ensures var v, keys := Run(w, scripts), TeardownKeys(w.ns, w.cur.status.refs);
            Shrinks(w, v, keys) && (w.cluster.Keys !! keys ==> v.cluster == w.cluster)
  {
    ReachableOk(w);
    RunShrinks(w, scripts);
    hide Run, TeardownKeys, WorldOk, Reachable;
    var v, keys := Run(w, scripts), TeardownKeys(w.ns, w.cur.status.refs);
    if w.cluster.Keys !! keys { assert v.cluster.Keys == w.cluster.Keys; }
  }
}
