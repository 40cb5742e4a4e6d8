/** What the controller does not guarantee, although a reader might expect it: each property
    that fails is stated as what happens instead, for every state in which it fails. */
module Limits {
  import opened Types
  import opened Names
  import opened World
  import opened Harvester
  import opened Reconciler
  import opened Invariants
  import opened Safety
  import opened Phases
  import opened Theorems
  import opened Frames
  import opened Keeping
  import opened Progress
  import opened Modify

  /** "stopped" is not stable: a reconcile of a stopped instance whose write lands stores
      `available` again. It stays stopped only if the write does not land. */
  lemma StoppedBecomesAvailable(s: Session)
    requires Fresh(s) && MayCreate(s) && !Halted(s) && St(s).phase == Stopped && s.inst.obj.spec.running == Some(false)
    ensures Dispatch(s).w.lost == s.w.lost ==> Dispatch(s).w.cur.status.phase == Available
  {
    hide WorldOk, Grows, Legal, Anchored, Evolves, Version, PhaseAvailableStep;
    FreshOk(s);
    if Dispatch(s).w.lost == s.w.lost { AvailableObserves(s); }
  }

  /** A modify interrupted after its first write is forgotten: the next reconcile declares the
      generation observed without touching any child. */
  lemma InterruptedModifyForgotten(s: Session)
    requires Fresh(s) && MayCreate(s) && !Halted(s) && St(s).phase == Modifying
    ensures Dispatch(s).w.cluster == s.w.cluster
    ensures Dispatch(s).w.lost == s.w.lost ==>
              Dispatch(s).w.cur.status.phase == Available
              && Dispatch(s).w.cur.status.observedGeneration == s.inst.obj.generation
  {
    hide WorldOk, Grows, Legal, Anchored, Evolves, Version, PhaseAvailableStep;
    FreshOk(s);
    AvailableAdds(s);
    if Dispatch(s).w.lost == s.w.lost { AvailableObserves(s); }
  }

  /** Same children, same sizes: at most power flags differ. */
  predicate SameSizes(w: World, v: World) {
    && v.cluster.Keys == w.cluster.Keys
    && (forall k | k in w.cluster ::
          v.cluster[k] == w.cluster[k] || exists on :: v.cluster[k] == SetRunning(w.cluster[k], on))
  }

  /** The fate of a pending spec change, for every state of a provisioned instance: it is
      resized, or fails, exactly when the read version says `available` and does not ask for a
      stop; in every other case the generation is declared observed, or the instance fails,
      and no size changes. */
  lemma PendingChangeFate(s: Session)
    requires Fresh(s) && MayCreate(s) && !Halted(s) && At(s.w.id, s.inst.obj, PhaseAvailable)
    requires s.inst.obj.generation != St(s).observedGeneration && Dispatch(s).w.lost == s.w.lost
    ensures var v := Dispatch(s).w;
            if St(s).phase == Available && s.inst.obj.spec.running != Some(false)
            then v.cur.status.phase == Failed || (v.cur.status.observedGeneration == v.cur.generation && Fits(v, v.cur.spec))
            else SameSizes(s.w, v)
                 && (v.cur.status.phase == Failed || v.cur.status.observedGeneration == s.inst.obj.generation)
  {
    hide WorldOk, Grows, Legal, Anchored, Evolves, Version, ReconcileModify, StatusUpdate, SetVMRunning, Fits,
         PhaseAvailableStep;
    FreshOk(s);
    var o := s.inst.obj;
    if o.spec.running == Some(false) && o.status.phase == Available {
      PowerFate(s, Stopping, Stopped, false);
    } else if o.spec.running == Some(true) && o.status.phase == Stopped {
      PowerFate(s, Starting, Available, true);
    } else if o.status.phase == Available {
      ModifyApplies(s);
    } else {
      AvailableAdds(s);
      AvailableObserves(s);
    }
  }

  lemma WriteFate(u: Session, st: Status)
    requires SessionOk(u) && !Halted(u)
    ensures var x := StatusUpdate(WithStatus(u, st)).w; u.w.lost <= x.lost && (x.lost == u.w.lost ==> x.cur.status == st)
  {
    hide WorldOk, Legal, Anchored, StatusUpdate;
    UnwrittenOk(u, st);
    StatusUpdatePays(WithStatus(u, st));
  }

  lemma PowerSizes(w: World, v: World, k: Key, on: bool)
    requires v.cluster == w.cluster || (k in w.cluster && v.cluster == w.cluster[k := SetRunning(w.cluster[k], on)])
    ensures SameSizes(w, v)
  {
  }

  lemma PowerFate(s: Session, during: Phase, after: Phase, running: bool)
    requires Fresh(s) && At(s.w.id, s.inst.obj, PhaseAvailable) && !Halted(s)
    requires during in {Stopping, Starting} && after in {Stopped, Available}
    ensures var t := StatusUpdate(Mark(s, during));
            (Halted(t) ==> s.w.lost < t.w.lost) && (!Halted(t) ==>
              var u := SetVMRunning(t, St(t).refs.vm, running); var x, y := Fail(u).w, Settle(u, after).w;
              (Halted(u) ==> s.w.lost < u.w.lost) && (!Halted(u) ==>
                && (x.lost == s.w.lost ==> x.cur.status.phase == Failed && SameSizes(s.w, x))
                && (y.lost == s.w.lost ==> y.cur.status.observedGeneration == s.inst.obj.generation && SameSizes(s.w, y))))
  {
    hide WorldOk, Grows, Legal, Anchored, Evolves, StatusUpdate, SetVMRunning, Version, ObjectOk, Within,
         SameSizes, SetRunning;
    FreshOk(s);
    PowerEdit(s.w.id, s.w.faults, s.inst.obj, during);
    FirstWrite(s, during);
    UnwrittenOk(s, St(s).(phase := during));
    StatusUpdatePays(Mark(s, during));
    PowerFrame(s, during, running);
    var t := StatusUpdate(Mark(s, during));
    if !Halted(t) {
      SetVMRunningOk(t, St(t).refs.vm, running);
      var u := SetVMRunning(t, St(t).refs.vm, running);
      if !Halted(u) {
        var a, b := St(u).(phase := Failed, provisioning := PhaseFailed),
                    St(u).(phase := after, observedGeneration := u.inst.obj.generation);
        WriteFate(u, a);
        WriteFate(u, b);
        PowerSizes(s.w, Fail(u).w, Key(Vm, s.w.ns, St(t).refs.vm), running);
        PowerSizes(s.w, Settle(u, after).w, Key(Vm, s.w.ns, St(t).refs.vm), running);
      }
    }
  }

  lemma AvailableObserves(s: Session)
    requires Fresh(s) && !Halted(s) && PhaseAvailableStep(s).w.lost == s.w.lost
    ensures PhaseAvailableStep(s).w.cur.status.phase == Available
    ensures PhaseAvailableStep(s).w.cur.status.observedGeneration == s.inst.obj.generation
  {
    hide WorldOk, Grows, Legal, Anchored, Evolves, StatusUpdate, Take, Version, ReadinessOf;
    var o := s.inst.obj;
    var st := St(s).(phase := Available, provisioning := PhaseAvailable, observedGeneration := o.generation);
    UnwrittenOk(s, st);
    var s1 := WithStatus(s, st);
    TakeOk(s1);
    var t := Take(s1);
    var u := WithStatus(t, RefreshAddresses(St(t), o.spec, ReadinessOf(t.now)));
    UnwrittenOk(t, St(u));
    StatusUpdatePays(u);
  }

  /** A failed instance is never retried: reconciling it has no effect at all. */
  lemma FailedIsFinal(s: Session)
    requires Fresh(s) && MayCreate(s) && St(s).provisioning == PhaseFailed
    ensures Dispatch(s) == s
  {
    hide WorldOk, Grows, Legal, Anchored, Evolves, Version;
    FreshOk(s);
  }

  /** The failure has been read: from then on it is all that can be read. */
  ghost predicate FailureSeen(w: World) { Version(w, w.cached).status.provisioning == PhaseFailed }

  lemma ReconcileFailed(w: World, script: seq<Turn>)
    requires WorldOk(w) && FailureSeen(w) && !Reconcile(w, script).w.cur.deleting
    ensures var v := Reconcile(w, script).w;
            FailureSeen(v) && v.cluster == w.cluster && v.log == w.log && v.cur.status == w.cur.status
  {
    ReadOk(Begin(w, script));
    ReadFrame(w, script);
    var s := Read(Begin(w, script));
    assert s.w.cur.status == w.cur.status by { TakeKeeps(Begin(w, script)); }
    LaterVersions(s.w, w.cached, s.w.cached);
    assert Version(s.w, w.cached) == Version(w, w.cached);
    if !Halted(s) && s.err == NoErr {
      DispatchOk(s);
      NotDeletingBefore(s, Dispatch(s).w);
      FreshOk(s);
      FailedIsFinal(s);
    }
  }

  lemma NotDeletingBefore(s: Session, v: World)
    requires Fresh(s) && WorldOk(v) && Grows(s.w, v) && !v.cur.deleting
    ensures !s.inst.obj.deleting
  {
    hide HistoryOk;
    assert Version(v, s.inst.rv) == s.inst.obj && Version(v, |v.past|) == v.cur;
  }

  /** Over every run without a delete, once the failure has been read: status and cluster stay as
      they are, whatever users patch and however often the instance is requeued. */
  lemma {:induction false} FailedStays(w: World, scripts: seq<seq<Turn>>)
    requires WorldOk(w) && FailureSeen(w) && !Run(w, scripts).cur.deleting
    ensures var v := Run(w, scripts); v.cluster == w.cluster && v.log == w.log && v.cur.status == w.cur.status
    decreases |scripts|
  {
    if scripts != [] {
      var v := Reconcile(w, scripts[0]).w;
      ReconcileOk(w, scripts[0]);
      RunOk(v, scripts[1..]);
      DeletingStays(v, Run(v, scripts[1..]));
      hide WorldOk, Reconcile, FailureSeen;
      ReconcileFailed(w, scripts[0]);
      FailedStays(v, scripts[1..]);
    }
  }

  lemma DeletingStays(w: World, v: World)
    requires WorldOk(v) && Grows(w, v)
    ensures w.cur.deleting ==> v.cur.deleting
  {
    hide HistoryOk;
    assert Version(v, |w.past|) == w.cur && Version(v, |v.past|) == v.cur;
  }

  /** Once its phase is over, a teardown of any later version deletes the ServiceMonitor if and
      only if the phase recorded it: what was not recorded then is never recorded, what was is
      never lost. */
  lemma MonitorTornDownIffRecorded(w: World, i: nat, j: nat)
    requires Reachable(w) && i <= j <= |w.past| && Rank(Version(w, i).status.provisioning) >= 6
    ensures MonitorKey(w.id, w.ns) in TeardownKeys(w.ns, Version(w, j).status.refs)
            <==> Version(w, i).status.refs.monitor != ""
  {
    hide Reachable, WorldOk, TeardownKeys, Rank, Version, MonitorKey;
    ReachableOk(w);
    LedgerIsPrefix(w, j);
    MonitorListed(w.id, w.ns, Version(w, j).status.refs);
    if Version(w, i).status.refs.monitor == "" {
      NoLateMonitor(w, i, j);
    } else {
      NeverBack(w, i, j);
    }
  }

  lemma MonitorListed(id: string, ns: string, refs: Refs)
    requires refs.monitor in {"", MonitorName(id)}
    ensures MonitorKey(id, ns) in TeardownKeys(ns, refs) <==> refs.monitor != ""
  {
  }

  lemma {:induction false} NoLateMonitor(w: World, i: nat, j: nat)
    requires WorldOk(w) && i <= j <= |w.past|
    requires Rank(Version(w, i).status.provisioning) >= 6 && Version(w, i).status.refs.monitor == ""
    ensures Rank(Version(w, j).status.provisioning) >= 6 && Version(w, j).status.refs.monitor == ""
    decreases j
  {
    if i < j {
      hide WorldOk, ExpectedNetwork, ClassOf, WriteOnce;
      NoLateMonitor(w, i, j - 1);
      HistoryAt(w, j);
    }
  }

  /** Monotone reads are needed: a reconcile served a version from before the deletion creates
      children again after a teardown. */
  lemma BackwardReadResurrects(w: World, stale: nat, t: Turn, u: Turn)
    requires TornDown in w.log && stale <= |w.past| && VpcKey(w.id) !in w.cluster
    requires var o := Version(w, stale);
             !o.deleting && o.finalizer && o.status == NewStatus && o.spec.networkRef == ""
    requires t.users == u.users == [] && t.store == Normal && t.readAt == stale && u.api == Normal && w.live
    ensures var v := Reconcile(w.(cached := stale), [t, u]).w;
            Created(VpcKey(w.id)) in v.log && v.log[..|w.log|] == w.log && VpcKey(w.id) in v.cluster
  {
    var back := w.(cached := stale);
    var s := Read(Begin(back, [t, u]));
    assert Take(Begin(back, [t, u])).w == back;
    assert s.inst == Instance(Version(w, stale), stale) && s.script == [u] && s.halt == Going && s.err == NoErr;
    var vlan := Vlan(s.inst.obj.spec);
    var c := WithStatus(s, St(s).(phase := Creating));
    CreatesVpc(c, u, vlan);
    assert Dispatch(s) == PhaseNetwork(s);
    assert PhaseNetwork(s) == CreateVPCNetwork(c, vlan);
  }

  lemma CreatesVpc(c: Session, u: Turn, vlan: string)
    requires c.halt == Going && c.script == [u] && u.users == [] && u.api == Normal && VpcKey(c.w.id) !in c.w.cluster
    ensures var t := CreateVPCNetwork(c, vlan);
            Halted(t) && t.w.log == c.w.log + [Created(VpcKey(c.w.id))] && VpcKey(c.w.id) in t.w.cluster
  {
    var s1 := Create(c, VpcKey(c.w.id), VpcChild(c.w.ns, []));
    assert s1.script == [] && s1.halt == Going && s1.err == NoErr;
    var s3 := Create(s1, NadKey(c.w.id, c.w.ns), NadChild);
    assert Halted(s3);
  }
}
