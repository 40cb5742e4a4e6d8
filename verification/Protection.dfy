/** Deletion protection and the children: what decides is the version a reconcile reads. */
module Protection {
  import opened Types
  import opened World
  import opened Harvester
  import opened Reconciler
  import opened Invariants
  import opened Safety
  import opened Phases
  import opened Frames

  /** The exact condition: a delete that runs to its end tears the children down if and only if
      the version it read is unprotected, whatever the stored object says by then. A protected
      read never touches the cluster, even if the reconcile is cut short. */
  lemma TearsIffReadUnprotected(s: Session)
    ensures var v := ReconcileDelete(s).w;
            && v.log in {s.w.log, s.w.log + [TornDown]}
            && (s.inst.obj.spec.deletionProtection ==> v.log == s.w.log && v.cluster == s.w.cluster)
            && (v.log == s.w.log ==> v.cluster == s.w.cluster)
            && (!Halted(ReconcileDelete(s)) ==> (v.log == s.w.log + [TornDown] <==> !s.inst.obj.spec.deletionProtection))
  {
    hide StatusUpdate, FinalizerUpdate, TeardownKeys, Take;
    StatusUpdateFrame(s);
    var m := Mark(s, Deleting);
    StatusUpdateFrame(m);
    var t := StatusUpdate(m);
    TakeFrame(t);
    var u := TeardownAll(t);
    FinalizerUpdateFrame(u, false);
    assert |s.w.log + [TornDown]| != |s.w.log|;
  }

  /** Whether a reconcile logged a teardown. */
  ghost predicate Tears(w: World, v: World) { exists i | |w.log| <= i < |v.log| :: v.log[i] == TornDown }

  /** The version a reconcile reads, if it gets that far, is deleting, finalized and unprotected. */
  ghost predicate ReadsUnprotected(w: World, script: seq<Turn>) {
    var s := Read(Begin(w, script));
    && !Halted(s) && s.err == NoErr
    && s.inst.obj.deleting && s.inst.obj.finalizer && !s.inst.obj.spec.deletionProtection
  }

  /** The same for whole reconciles, from every reachable world. */
  lemma ReconcileTearsIff(w: World, script: seq<Turn>)
    requires WorldOk(w)
    ensures Tears(w, Reconcile(w, script).w) ==> ReadsUnprotected(w, script)
    ensures !Halted(Reconcile(w, script)) && ReadsUnprotected(w, script) ==> Tears(w, Reconcile(w, script).w)
  {
    ReadOk(Begin(w, script));
    ReadFrame(w, script);
    var s := Read(Begin(w, script));
    if !Halted(s) && s.err == NoErr {
      DispatchOk(s);
      if s.inst.obj.deleting {
        hide WorldOk, Read, ReconcileDelete, Fresh;
        TearsIffReadUnprotected(s);
        assert (s.w.log + [TornDown])[|s.w.log|] == TornDown;
      } else {
        LiveReadTearsNothing(s);
        hide WorldOk, Read, Dispatch, Fresh;
      }
    }
  }

  /** After reading a version that is not deleting, no teardown is on record at all. */
  lemma LiveReadTearsNothing(s: Session)
    requires Fresh(s) && s.inst.rv == s.w.cached && !s.inst.obj.deleting
    ensures TornDown !in Dispatch(s).w.log
  {
    DispatchOk(s);
    hide HistoryOk, Dispatch;
    assert Version(Dispatch(s).w, s.inst.rv) == s.inst.obj;
  }

  // ---- Whole runs ----

  lemma DispatchKeepsChildren(s: Session)
    requires Fresh(s) && (s.inst.obj.deleting ==> s.inst.obj.spec.deletionProtection)
    ensures s.w.cluster.Keys <= Dispatch(s).w.cluster.Keys
  {
    hide Fresh, Provision, ReconcileModify, ReconcileDelete, FinalizerUpdate, StatusUpdate, SetVMRunning, PhaseKeys;
    var o := s.inst.obj;
    if o.deleting {
      TearsIffReadUnprotected(s);
    } else if !o.finalizer {
      FinalizerUpdateFrame(s, true);
    } else if o.spec.running == Some(false) && o.status.phase == Available {
      PowerFrame(s, Stopping, false);
    } else if o.spec.running == Some(true) && o.status.phase == Stopped {
      PowerFrame(s, Starting, true);
    } else if o.status.phase == Available && o.generation != o.status.observedGeneration {
      ModifyFrame(s);
    } else {
      ProvisionAdds(s);
    }
  }

  /** Every version from the last one `w` has read up to the newest one of `v` is protected. */
  ghost predicate Guarded(w: World, v: World) {
    forall i: nat | w.cached <= i <= |v.past| :: Version(v, i).spec.deletionProtection
  }

  lemma ReconcileProtected(w: World, script: seq<Turn>)
    requires WorldOk(w)
    requires Guarded(w, Reconcile(w, script).w)
    ensures var v := Reconcile(w, script).w; !Tears(w, v) && w.cluster.Keys <= v.cluster.Keys
  {
    var v := Reconcile(w, script).w;
    ReconcileOk(w, script);
    ReadOk(Begin(w, script));
    ReadFrame(w, script);
    ReconcileTearsIff(w, script);
    var s := Read(Begin(w, script));
    if !Halted(s) && s.err == NoErr {
      DispatchOk(s);
      assert w.cached <= s.inst.rv && Version(v, s.inst.rv) == s.inst.obj;
      DispatchKeepsChildren(s);
    }
  }

  /** While every version that may still be read is protected, no run tears down or removes a
      child, whatever else happens. */
  lemma {:induction false} ProtectedChildrenStay(w: World, scripts: seq<seq<Turn>>)
    requires WorldOk(w)
    requires Guarded(w, Run(w, scripts))
    ensures var v := Run(w, scripts);
            w.log <= v.log && !Tears(w, v) && w.cluster.Keys <= v.cluster.Keys
    decreases |scripts|
  {
    if scripts != [] {
      var v, u := Reconcile(w, scripts[0]).w, Run(w, scripts);
      ReconcileOk(w, scripts[0]);
      RunOk(v, scripts[1..]);
      assert u == Run(v, scripts[1..]);
      hide *;
      GuardedParts(w, v, u);
      ReconcileProtected(w, scripts[0]);
      ProtectedChildrenStay(v, scripts[1..]);
      TearsTransitive(w, v, u);
    }
  }

  lemma GuardedParts(w: World, v: World, u: World)
    requires Guarded(w, u) && Grows(w, v) && Grows(v, u)
    ensures Guarded(w, v) && Guarded(v, u) && w.log <= v.log
  {
    forall i: nat | w.cached <= i <= |v.past| ensures Version(v, i).spec.deletionProtection {
      assert Version(u, i) == Version(v, i);
    }
  }

  lemma TearsTransitive(w: World, v: World, u: World)
    requires w.log <= v.log <= u.log && !Tears(w, v) && !Tears(v, u)
    ensures w.log <= u.log && !Tears(w, u)
  {
    forall i | |w.log| <= i < |u.log| ensures u.log[i] != TornDown {
      if i < |v.log| { assert u.log[i] == v.log[i]; }
    }
  }
}
