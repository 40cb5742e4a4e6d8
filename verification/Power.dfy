/** A VM that was powered off on request stays off while the request stands. */
module Power {
  import opened Types
  import opened Names
  import opened World
  import opened Harvester
  import opened Reconciler
  import opened Invariants
  import opened Safety
  import opened Phases
  import opened Theorems
  import opened Frames

  predicate PoweredOn(w: World) {
    var k := VmKey(w.id, w.ns);
    k in w.cluster && w.cluster[k].VmChild? && w.cluster[k].running
  }

  /** Off, and not about to be created again: the VM exists or the deletion has been seen. */
  predicate Off(w: World, deleting: bool) {
    !PoweredOn(w) && (deleting || VmKey(w.id, w.ns) in w.cluster)
  }

  /** The only version on which the VM is started: it asks to run and says stopped. */
  predicate Startable(o: Object) { o.spec.running == Some(true) && o.status.phase == Stopped }

  lemma DispatchStaysOff(s: Session)
    requires Fresh(s) && Off(s.w, s.inst.obj.deleting) && !Startable(s.inst.obj)
    ensures Off(Dispatch(s).w, s.inst.obj.deleting)
  {
    hide WorldOk, Grows, Legal, Anchored, Evolves, Version, Provision, ReconcileModify, ReconcileDelete,
         FinalizerUpdate, StatusUpdate, SetVMRunning;
    FreshOk(s);
    var o := s.inst.obj;
    if o.deleting {
      if o.finalizer { DeleteFrame(s); }
    } else if !o.finalizer {
      FinalizerUpdateFrame(s, true);
    } else if o.spec.running == Some(false) && o.status.phase == Available {
      PowerFrame(s, Stopping, false);
      StatusKept(Mark(s, Stopping));
      assert St(s).refs.vm in {"", VmName(s.w.id)};
    } else if o.status.phase == Available && o.generation != o.status.observedGeneration {
      ModifyFrame(s);
    } else {
      ProvisionAdds(s);
    }
  }

  /** No version from the last one `w` has read up to the newest one of `v` can start the VM. */
  ghost predicate NeverStartable(w: World, v: World) {
    forall i: nat | w.cached <= i <= |v.past| :: !Startable(Version(v, i))
  }

  lemma ReconcileStaysOff(w: World, script: seq<Turn>)
    requires WorldOk(w) && Off(w, Version(w, w.cached).deleting) && NeverStartable(w, Reconcile(w, script).w)
    ensures var v := Reconcile(w, script).w; Off(v, Version(v, v.cached).deleting)
  {
    var v := Reconcile(w, script).w;
    ReconcileOk(w, script);
    ReadOk(Begin(w, script));
    ReadFrame(w, script);
    var s := Read(Begin(w, script));
    assert Version(v, w.cached).deleting ==> Version(v, v.cached).deleting;
    assert Version(v, w.cached) == Version(w, w.cached);
    if !Halted(s) && s.err == NoErr {
      assert Version(s.w, w.cached) == Version(w, w.cached);
      assert Version(w, w.cached).deleting ==> s.inst.obj.deleting;
      DispatchOk(s);
      assert Version(v, s.inst.rv) == s.inst.obj;
      DispatchStaysOff(s);
    }
  }

  /** A VM that is off stays off through any later run, with any stale but monotone reads, as long
      as no version that may be read both asks to run and says stopped. */
  lemma {:induction false} OffUnlessStartable(w: World, scripts: seq<seq<Turn>>)
    requires WorldOk(w) && Off(w, Version(w, w.cached).deleting) && NeverStartable(w, Run(w, scripts))
    ensures !PoweredOn(Run(w, scripts))
    decreases |scripts|
  {
    if scripts != [] {
      var v := Reconcile(w, scripts[0]).w;
      var u := Run(w, scripts);
      ReconcileOk(w, scripts[0]);
      RunOk(v, scripts[1..]);
      assert u == Run(v, scripts[1..]);
      hide Reconcile, WorldOk, Off, PoweredOn, Run, Startable;
      NeverStartableParts(w, v, u);
      ReconcileStaysOff(w, scripts[0]);
      OffUnlessStartable(v, scripts[1..]);
    }
  }

  lemma NeverStartableParts(w: World, v: World, u: World)
    requires NeverStartable(w, u) && Grows(w, v) && Grows(v, u)
    ensures NeverStartable(w, v) && NeverStartable(v, u)
  {
    hide Startable;
    forall i: nat | w.cached <= i <= |v.past| ensures !Startable(Version(v, i)) {
      assert Version(u, i) == Version(v, i);
    }
  }

  /** Power-off stability: the VM stays off as long as every version from the last one read on asks
      for it, although `status.phase` may return to `available`. */
  lemma StaysOff(w: World, scripts: seq<seq<Turn>>)
    requires WorldOk(w) && Off(w, Version(w, w.cached).deleting)
    requires forall i: nat | w.cached <= i <= |Run(w, scripts).past| ::
               Version(Run(w, scripts), i).spec.running == Some(false)
    ensures !PoweredOn(Run(w, scripts))
  {
    hide WorldOk, Run, Off, PoweredOn;
    OffUnlessStartable(w, scripts);
  }

  /** A start request is honoured exactly by a reconcile that reads `stopped`: read in any other
      phase it is treated as a modify, or as nothing, and the VM stays off. */
  lemma StartsIffStopped(s: Session)
    requires Fresh(s) && MayCreate(s) && s.inst.obj.spec.running == Some(true) && !PoweredOn(s.w)
    requires VmKey(s.w.id, s.w.ns) in s.w.cluster && s.w.cluster[VmKey(s.w.id, s.w.ns)].VmChild?
    requires St(s).phase == Stopped ==>
               var t := StatusUpdate(Mark(s, Starting)); var u := SetVMRunning(t, St(t).refs.vm, true);
               !Halted(t) && !Halted(u) && u.err == NoErr
    ensures PoweredOn(Dispatch(s).w) <==> St(s).phase == Stopped
  {
    hide Fresh, ReconcileStart, StatusUpdate, SetVMRunning, PoweredOn;
    if St(s).phase == Stopped {
      StartTurnsOn(s);
    } else {
      OffNow(s.w);
      DispatchStaysOff(s);
      OffMeans(Dispatch(s).w);
    }
  }

  lemma OffNow(w: World)
    requires !PoweredOn(w) && VmKey(w.id, w.ns) in w.cluster
    ensures Off(w, false)
  {
  }

  lemma OffMeans(w: World)
    ensures forall d :: Off(w, d) ==> !PoweredOn(w)
  {
  }

  /** A stop that succeeded establishes the starting point of `OffUnlessStartable`. */
  lemma StopTurnsOff(s: Session)
    requires Fresh(s) && St(s).phase == Available && !s.inst.obj.deleting
    requires var t := StatusUpdate(Mark(s, Stopping)); var u := SetVMRunning(t, St(t).refs.vm, false);
             !Halted(t) && !Halted(u) && u.err == NoErr
    ensures Off(ReconcileStop(s).w, false)
  {
    hide WorldOk, Grows, Legal, Anchored, Evolves, Version, StatusUpdate, SetVMRunning;
    FreshOk(s);
    PowerFrame(s, Stopping, false);
    StatusKept(Mark(s, Stopping));
    var t := StatusUpdate(Mark(s, Stopping));
    SetVMRunningFrame(t, St(t).refs.vm, false);
    assert St(s).refs.vm == VmName(s.w.id);
  }

  /** A start that succeeded leaves the VM switched on. */
  lemma StartTurnsOn(s: Session)
    requires Fresh(s) && St(s).phase == Stopped && !s.inst.obj.deleting
    requires var t := StatusUpdate(Mark(s, Starting)); var u := SetVMRunning(t, St(t).refs.vm, true);
             !Halted(t) && !Halted(u) && u.err == NoErr
    requires VmKey(s.w.id, s.w.ns) in s.w.cluster ==> s.w.cluster[VmKey(s.w.id, s.w.ns)].VmChild?
    ensures PoweredOn(ReconcileStart(s).w)
  {
    hide WorldOk, Grows, Legal, Anchored, Evolves, Version, StatusUpdate, SetVMRunning;
    FreshOk(s);
    PowerFrame(s, Starting, true);
    StatusKept(Mark(s, Starting));
    var t := StatusUpdate(Mark(s, Starting));
    SetVMRunningFrame(t, St(t).refs.vm, true);
    assert St(s).refs.vm == VmName(s.w.id);
  }

  /** The reconcile takes the stop branch and its `StopVM` call succeeds. */
  ghost predicate Stops(w: World, script: seq<Turn>) {
    var s := Read(Begin(w, script)); var o := s.inst.obj;
    && !Halted(s) && s.err == NoErr && !o.deleting && o.finalizer
    && o.spec.running == Some(false) && o.status.phase == Available
    && var t := StatusUpdate(Mark(s, Stopping));
       !Halted(t) && var u := SetVMRunning(t, St(t).refs.vm, false); !Halted(u) && u.err == NoErr
  }

  lemma StopReconcile(w: World, script: seq<Turn>)
    requires WorldOk(w) && Stops(w, script)
    ensures Off(Reconcile(w, script).w, false)
  {
    hide WorldOk, Read, StatusUpdate, SetVMRunning, ReconcileStop;
    ReadOk(Begin(w, script));
    StopTurnsOff(Read(Begin(w, script)));
  }

  /** End to end: once `StopVM` has succeeded in some reconcile, whatever became of its status
      writes, the VM is off after every later run in which no version that may be read both asks
      to run and says stopped; so in particular while the request stands. */
  lemma StopIsStable(w: World, script: seq<Turn>, later: seq<seq<Turn>>)
    requires Reachable(w) && Stops(w, script)
    requires NeverStartable(Reconcile(w, script).w, Run(w, [script] + later))
    ensures !PoweredOn(Run(w, [script] + later))
  {
    hide *;
    ReachableOk(w);
    ReconcileOk(w, script);
    StopReconcile(w, script);
    RunCons(w, script, later);
    OffEither(Reconcile(w, script).w);
    OffUnlessStartable(Reconcile(w, script).w, later);
  }

  lemma RunCons(w: World, script: seq<Turn>, later: seq<seq<Turn>>)
    ensures Run(w, [script] + later) == Run(Reconcile(w, script).w, later)
  {
    hide Reconcile;
    assert ([script] + later)[1..] == later;
  }

  lemma OffEither(w: World)
    requires Off(w, false)
    ensures Off(w, Version(w, w.cached).deleting)
  {
  }

  /** Stop, start and modify keep the set of children. */
  lemma PowerAndModifyKeepChildren(s: Session)
    ensures ReconcileStop(s).w.cluster.Keys == s.w.cluster.Keys
    ensures ReconcileStart(s).w.cluster.Keys == s.w.cluster.Keys
    ensures ReconcileModify(s).w.cluster.Keys == s.w.cluster.Keys
  {
    hide StatusUpdate, SetVMRunning, ReconcileModify;
    PowerFrame(s, Stopping, false);
    PowerFrame(s, Starting, true);
    ModifyFrame(s);
  }
}
