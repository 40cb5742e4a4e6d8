/** What one reconcile stores, told from the fates of its calls: when stop, start, modify, delete
    and provisioning report success, and when they report failure. */
module Outcomes {
  import opened Types
  import opened Names
  import opened World
  import opened Harvester
  import opened Reconciler
  import opened Invariants
  import opened Safety
  import opened Phases
  import opened Frames
  import opened Progress
  import opened Power
  import opened Modify
  import Keeping
  import Limits

  // ---- Calls and turns ----

  /** A call that comes back took one turn, and succeeded exactly as that turn says. */
  lemma CallFates(s: Session, k: Key, c: Child)
    ensures !Halted(StatusUpdate(s)) ==> s.script != [] && StatusUpdate(s).script == s.script[1..]
    ensures !Halted(Get(s, k)) ==>
              && s.script != [] && Get(s, k).script == s.script[1..]
              && (Get(s, k).err == NoErr <==> s.script[0].api == Normal && k in s.w.cluster)
    ensures !Halted(Put(s, k, c)) ==>
              && s.script != [] && Put(s, k, c).script == s.script[1..]
              && (Put(s, k, c).err == NoErr <==> s.script[0].api == Normal && k in s.w.cluster)
  {
    hide Users;
    if s.script != [] { UsersFrame(s.w, s.script[0].users); }
  }

  lemma PowerFates(s: Session, vm: string, running: bool)
    requires !Halted(SetVMRunning(s, vm, running))
    ensures SetVMRunning(s, vm, running).err == NoErr <==>
              && |s.script| >= 2 && s.script[0].api == Normal && s.script[1].api == Normal
              && Key(Vm, s.w.ns, vm) in s.w.cluster
  {
    hide Get, Put;
    var k := Key(Vm, s.w.ns, vm);
    CallFates(s, k, NadChild);
    GetFrame(s, k);
    var t := Get(s, k);
    if k in t.w.cluster { CallFates(t, k, SetRunning(t.w.cluster[k], running)); }
  }

  /** A reconcile with a first write, work in between, and a second write, none of them lost. */
  lemma FirstLands(s: Session, during: Phase)
    requires Fresh(s) && At(s.w.id, s.inst.obj, PhaseAvailable) && !Halted(s)
    requires during in {Stopping, Starting, Modifying}
    ensures var t := StatusUpdate(Mark(s, during));
            && s.w.lost <= t.w.lost && (Halted(t) ==> s.w.lost < t.w.lost)
            && SessionOk(t) && St(t) == St(s).(phase := during) && Apart(s.w, t.w)
            && t.inst.obj == s.inst.obj.(status := St(t))
            && (!Halted(t) ==> s.script != [] && t.script == s.script[1..])
  {
    hide WorldOk, Grows, Legal, Anchored, Evolves, StatusUpdate, Version;
    FreshOk(s);
    PowerEdit(s.w.id, s.w.faults, s.inst.obj, during);
    FirstWrite(s, during);
    UnwrittenOk(s, St(s).(phase := during));
    StatusUpdatePays(Mark(s, during));
    StatusUpdateFrame(Mark(s, during));
    StatusKept(Mark(s, during));
    CallFates(Mark(s, during), VmKey(s.w.id, s.w.ns), NadChild);
    SpecUntouched(s, during);
  }

  lemma SpecUntouched(s: Session, during: Phase)
    requires Fresh(s) && At(s.w.id, s.inst.obj, PhaseAvailable) && during in {Stopping, Starting, Modifying}
    ensures StatusUpdate(Mark(s, during)).inst.obj == s.inst.obj.(status := St(StatusUpdate(Mark(s, during))))
  {
    hide WorldOk;
    UnwrittenOk(s, St(s).(phase := during));
    TakeOk(Mark(s, during));
  }

  lemma SecondLands(u: Session, st: Status)
    requires SessionOk(u) && !Halted(u)
    ensures var x := StatusUpdate(WithStatus(u, st)).w;
            u.w.lost <= x.lost && (x.lost == u.w.lost ==> x.cur.status == st) && x.cluster == u.w.cluster
  {
    hide WorldOk, Legal, Anchored, StatusUpdate;
    Limits.WriteFate(u, st);
    StatusUpdateFrame(WithStatus(u, st));
  }

  // ---- Stop and start ----

  /** The two calls of `StopVM` or `StartVM`, which follow the first status write. */
  predicate PowerCallsSucceed(s: Session) {
    && |s.script| >= 3 && s.script[1].api == Normal && s.script[2].api == Normal
    && VmKey(s.w.id, s.w.ns) in s.w.cluster
  }

  lemma PowerLands(s: Session, during: Phase, running: bool)
    requires Fresh(s) && At(s.w.id, s.inst.obj, PhaseAvailable) && !Halted(s) && during in {Stopping, Starting}
    ensures var t := StatusUpdate(Mark(s, during)); var u := SetVMRunning(t, St(t).refs.vm, running);
            && (Halted(t) ==> s.w.lost < t.w.lost)
            && (!Halted(t) ==>
                  && s.w.lost <= u.w.lost && (Halted(u) ==> s.w.lost < u.w.lost) && SessionOk(u)
                  && St(u) == St(s).(phase := during) && u.inst.obj == s.inst.obj.(status := St(u))
                  && (!Halted(u) ==> (u.err == NoErr <==> PowerCallsSucceed(s))))
  {
    VmRecorded(s);
    hide Fresh, StatusUpdate, SetVMRunning, WorldOk, Grows, Legal, Anchored, ObjectOk, Version;
    FirstLands(s, during);
    var t := StatusUpdate(Mark(s, during));
    if !Halted(t) {
      SetVMRunningOk(t, St(t).refs.vm, running);
      var u := SetVMRunning(t, St(t).refs.vm, running);
      if !Halted(u) { PowerFates(t, St(t).refs.vm, running); }
    }
  }

  lemma VmRecorded(s: Session)
    requires At(s.w.id, s.inst.obj, PhaseAvailable)
    ensures St(s).refs.vm == VmName(s.w.id) && St(s).refs.dataVolume == DataVolumeName(s.w.id)
  {
  }

  /** A stop none of whose writes is lost stores `stopped` if and only if its VM calls succeeded,
      and then the VM is off; otherwise it stores the instance as failed. */
  lemma StopOutcome(s: Session)
    requires Fresh(s) && At(s.w.id, s.inst.obj, PhaseAvailable) && St(s).phase == Available && !Halted(s)
    requires ReconcileStop(s).w.lost == s.w.lost
    ensures var v := ReconcileStop(s).w;
            if PowerCallsSucceed(s)
            then v.cur.status.phase == Stopped && v.cur.status.observedGeneration == s.inst.obj.generation
                 && v.cur.status.provisioning == PhaseAvailable && Off(v, false)
            else v.cur.status.phase == Failed && v.cur.status.provisioning == PhaseFailed
  {
    hide Fresh, StatusUpdate, SetVMRunning, ObjectOk, Off, WorldOk, Anchored;
    PowerLands(s, Stopping, false);
    var t := StatusUpdate(Mark(s, Stopping));
    var u := SetVMRunning(t, St(t).refs.vm, false);
    if !Halted(t) && !Halted(u) {
      SecondLands(u, St(u).(phase := Failed, provisioning := PhaseFailed));
      SecondLands(u, St(u).(phase := Stopped, observedGeneration := u.inst.obj.generation));
      if u.err == NoErr { StopTurnsOff(s); }
    }
  }

  /** A start none of whose writes is lost stores `available` if and only if its VM calls
      succeeded, and then the VM is on; otherwise it stores the instance as failed. */
  lemma StartOutcome(s: Session)
    requires Fresh(s) && At(s.w.id, s.inst.obj, PhaseAvailable) && St(s).phase == Stopped && !Halted(s)
    requires ReconcileStart(s).w.lost == s.w.lost
    requires VmKey(s.w.id, s.w.ns) in s.w.cluster ==> s.w.cluster[VmKey(s.w.id, s.w.ns)].VmChild?
    ensures var v := ReconcileStart(s).w;
            if PowerCallsSucceed(s)
            then v.cur.status.phase == Available && v.cur.status.observedGeneration == s.inst.obj.generation
                 && v.cur.status.provisioning == PhaseAvailable && PoweredOn(v)
            else v.cur.status.phase == Failed && v.cur.status.provisioning == PhaseFailed
  {
    hide Fresh, StatusUpdate, SetVMRunning, ObjectOk, PoweredOn, WorldOk, Anchored;
    PowerLands(s, Starting, true);
    var t := StatusUpdate(Mark(s, Starting));
    var u := SetVMRunning(t, St(t).refs.vm, true);
    if !Halted(t) && !Halted(u) {
      SecondLands(u, St(u).(phase := Failed, provisioning := PhaseFailed));
      SecondLands(u, St(u).(phase := Available, observedGeneration := u.inst.obj.generation));
      if u.err == NoErr { StartTurnsOn(s); }
    }
  }

  // ---- Modify ----

  /** The four calls of the two resizes, taken in turn after the first status write. */
  predicate ResizeCallsSucceed(s: Session) {
    && |s.script| >= 5 && s.script[1].api == s.script[2].api == s.script[3].api == s.script[4].api == Normal
    && VmKey(s.w.id, s.w.ns) in s.w.cluster && DataVolumeKey(s.w.id, s.w.ns) in s.w.cluster
  }

  lemma ResizeFates(s: Session, vm: string, size: ClassSpec, volume: string, sizeGiB: int)
    requires var u := ResizeVM(s, vm, size); !Halted(u) && !Halted(ResizeDataVolume(u, volume, sizeGiB))
    ensures var u := ResizeVM(s, vm, size); var v := ResizeDataVolume(u, volume, sizeGiB);
            (u.err == NoErr && v.err == NoErr) <==>
              && |s.script| >= 4
              && s.script[0].api == s.script[1].api == s.script[2].api == s.script[3].api == Normal
              && Key(Vm, s.w.ns, vm) in s.w.cluster && Key(DataVolume, s.w.ns, volume) in s.w.cluster
  {
    hide Get, Put;
    var k, d := Key(Vm, s.w.ns, vm), Key(DataVolume, s.w.ns, volume);
    CallFates(s, k, NadChild);
    GetFrame(s, k);
    var g := Get(s, k);
    if g.err == NoErr && k in g.w.cluster {
      var c := SetSize(g.w.cluster[k], size);
      CallFates(g, k, c);
      PutFrame(g, k, c);
      var u := ResizeVM(s, vm, size);
      if u.err == NoErr {
        CallFates(u, d, NadChild);
        GetFrame(u, d);
        var h := Get(u, d);
        if d in h.w.cluster { CallFates(h, d, SetCapacity(h.w.cluster[d], sizeGiB)); }
      }
    }
  }

  lemma ResizesLand(s: Session, size: ClassSpec)
    requires Fresh(s) && At(s.w.id, s.inst.obj, PhaseAvailable) && !Halted(s)
    ensures var t := StatusUpdate(Mark(s, Modifying));
            var u := ResizeVM(t, St(t).refs.vm, size);
            var v := ResizeDataVolume(u, St(u).refs.dataVolume, u.inst.obj.spec.allocatedStorage);
            !Halted(t) ==>
              && s.w.lost <= u.w.lost && (Halted(u) ==> s.w.lost < u.w.lost)
              && (!Halted(u) ==>
                    && s.w.lost <= v.w.lost && (Halted(v) ==> s.w.lost < v.w.lost) && SessionOk(v)
                    && St(v) == St(s).(phase := Modifying) && v.inst.obj == s.inst.obj.(status := St(v))
                    && (!Halted(v) ==> ((u.err == NoErr && v.err == NoErr) <==> ResizeCallsSucceed(s))))
  {
    VmRecorded(s);
    hide Fresh, At, StatusUpdate, ResizeVM, ResizeDataVolume, ResizeCallsSucceed, SessionOk, Grows, Legal;
    FirstLands(s, Modifying);
    var t := StatusUpdate(Mark(s, Modifying));
    if !Halted(t) {
      ResizeVMOk(t, St(t).refs.vm, size);
      var u := ResizeVM(t, St(t).refs.vm, size);
      ResizeDataVolumeOk(u, St(u).refs.dataVolume, u.inst.obj.spec.allocatedStorage);
      var v := ResizeDataVolume(u, St(u).refs.dataVolume, u.inst.obj.spec.allocatedStorage);
      if !Halted(u) && !Halted(v) {
        ResizeFates(t, St(t).refs.vm, size, St(u).refs.dataVolume, u.inst.obj.spec.allocatedStorage);
        ResizeCallsShifted(s, t);
      }
    }
  }

  lemma ResizeCallsShifted(s: Session, t: Session)
    requires s.script != [] && t.script == s.script[1..] && Apart(s.w, t.w)
    ensures ResizeCallsSucceed(s) <==>
              && |t.script| >= 4 && t.script[0].api == t.script[1].api == t.script[2].api == t.script[3].api == Normal
              && VmKey(t.w.id, t.w.ns) in t.w.cluster && DataVolumeKey(t.w.id, t.w.ns) in t.w.cluster
  {
  }

  /** A modify none of whose writes is lost reports success if and only if the class is known and
      all calls succeeded, and then VM and volume fit the spec; otherwise the instance fails. */
  lemma ModifyOutcome(s: Session)
    requires Fresh(s) && At(s.w.id, s.inst.obj, PhaseAvailable) && !Halted(s)
    requires ReconcileModify(s).w.lost == s.w.lost
    ensures var v := ReconcileModify(s).w;
            if ClassOf(s.inst.obj.spec.instanceClass).Some? && ResizeCallsSucceed(s)
            then v.cur.status.phase == Available && v.cur.status.observedGeneration == s.inst.obj.generation
                 && v.cur.status.provisioning == PhaseAvailable && Fits(v, s.inst.obj.spec)
            else v.cur.status.phase == Failed && v.cur.status.provisioning == PhaseFailed
  {
    ModifyFits(s);
    hide Fresh, StatusUpdate, ResizeVM, ResizeDataVolume, ResizeCallsSucceed, ClassOf, ObjectOk, SessionOk, Fits;
    FirstLands(s, Modifying);
    var t := StatusUpdate(Mark(s, Modifying));
    if !Halted(t) {
      SecondLands(t, St(t).(phase := Failed, provisioning := PhaseFailed));
      var size := ClassOf(s.inst.obj.spec.instanceClass);
      if size.Some? {
        ResizesLand(s, size.value);
        var u := ResizeVM(t, St(t).refs.vm, size.value);
        var v := ResizeDataVolume(u, St(u).refs.dataVolume, u.inst.obj.spec.allocatedStorage);
        if !Halted(u) && !Halted(v) {
          SecondLands(v, St(v).(phase := Failed, provisioning := PhaseFailed));
          SecondLands(v, St(v).(phase := Available, observedGeneration := v.inst.obj.generation));
        }
      }
    }
  }

  lemma ModifyFits(s: Session)
    requires Fresh(s) && At(s.w.id, s.inst.obj, PhaseAvailable) && !Halted(s) && ReconcileModify(s).w.lost == s.w.lost
    ensures ReconcileModify(s).w.cur.status.phase != Failed ==> Fits(ReconcileModify(s).w, s.inst.obj.spec)
  {
    hide Fresh, ReconcileModify, Fits;
    ModifyApplies(s);
  }

  // ---- Delete ----

  /** A delete none of whose writes is lost: a protected instance keeps status and children; an
      unprotected one leaves the store, marked as deleting, without the children whose delete
      succeeded. */
  lemma DeleteOutcome(s: Session)
    requires Fresh(s) && s.inst.obj.deleting && s.inst.obj.finalizer && s.inst.rv == s.w.cached && !Halted(s)
    requires ReconcileDelete(s).w.lost == s.w.lost
    ensures var v := ReconcileDelete(s).w;
            if s.inst.obj.spec.deletionProtection
            then v.live && v.cur.status == St(s) && v.cluster == s.w.cluster && v.log == s.w.log
            else |s.script| >= 2 && !v.live && !v.cur.finalizer && v.cur.status == St(s).(phase := Deleting)
                 && v.log == s.w.log + [TornDown]
                 && v.cluster == s.w.cluster - (TeardownKeys(s.w.ns, St(s).refs) * s.script[1].deleted)
  {
    hide Fresh, WorldOk, SessionOk, StatusUpdate, FinalizerUpdate, TeardownAll, TeardownKeys;
    if s.inst.obj.spec.deletionProtection {
      ProtectedLands(s);
    } else {
      DeletingLands(s);
      var t := StatusUpdate(Mark(s, Deleting));
      if !Halted(t) {
        TearFate(t);
        var u := TeardownAll(t);
        if !Halted(u) {
          RemovalLands(u);
          FinalizerUpdateFrame(u, false);
          Keeping.FinalizerStores(u, false);
        }
      }
    }
  }

  lemma ProtectedLands(s: Session)
    requires Fresh(s) && s.inst.obj.deleting && !Halted(s)
    ensures var v := StatusUpdate(s).w;
            v.cluster == s.w.cluster && v.log == s.w.log && (v.lost == s.w.lost ==> v.live && v.cur.status == St(s))
  {
    hide WorldOk, StatusUpdate;
    StatusUpdatePays(s);
    StatusUpdateFrame(s);
  }

  lemma DeletingLands(s: Session)
    requires Fresh(s) && s.inst.obj.deleting && s.inst.obj.finalizer && s.inst.rv == s.w.cached && !Halted(s)
    ensures var t := StatusUpdate(Mark(s, Deleting));
            && s.w.lost <= t.w.lost && (Halted(t) ==> s.w.lost < t.w.lost) && Apart(s.w, t.w)
            && St(t) == St(s).(phase := Deleting) && t.inst.obj.deleting
            && (t.w.lost == s.w.lost ==> t.w.cur.status == St(t))
            && (!Halted(t) ==> s.script != [] && t.script == s.script[1..] && SessionOk(TeardownAll(t)))
  {
    hide WorldOk, Grows, Legal, Anchored, Evolves, StatusUpdate, Version, TeardownAll;
    FreshOk(s);
    DeleteEdit(s.w.id, s.w.faults, s.inst.obj);
    FirstWrite(s, Deleting);
    UnwrittenOk(s, St(s).(phase := Deleting));
    var m := Mark(s, Deleting);
    StatusUpdatePays(m);
    StatusUpdateFrame(m);
    StatusKept(m);
    CallFates(m, VmKey(s.w.id, s.w.ns), NadChild);
    var t := StatusUpdate(m);
    if !Halted(t) {
      StillDeleting(s.w, t.w);
      TeardownAllOk(t);
    }
  }

  lemma TearFate(t: Session)
    requires !Halted(t)
    ensures var u := TeardownAll(t);
            && u.w.lost == t.w.lost + (if Halted(u) then 1 else 0) && u.inst == t.inst
            && (!Halted(u) ==>
                  && t.script != [] && u.w.log == t.w.log + [TornDown] && u.w.cur.status == t.w.cur.status
                  && u.w.cluster == t.w.cluster - (TeardownKeys(t.w.ns, St(t).refs) * t.script[0].deleted))
  {
    hide Users, TeardownKeys;
    if t.script != [] {
      UsersFrame(t.w, t.script[0].users);
      UsersStatus(t.w, t.script[0].users);
      UsersCounts(t.w, t.script[0].users);
    }
  }

  lemma {:induction false} UsersCounts(w: World, actions: seq<UserAction>)
    ensures Users(w, actions).lost == w.lost
    decreases |actions|
  {
    if actions != [] { UsersCounts(User(w, actions[0]), actions[1..]); }
  }

  lemma RemovalLands(u: Session)
    requires SessionOk(u) && !Halted(u) && u.inst.obj.deleting
    ensures var v := FinalizerUpdate(u, false).w;
            u.w.lost <= v.lost && (v.lost == u.w.lost ==> !v.live && !v.cur.finalizer)
  {
    hide WorldOk;
    TakeOk(u);
    TakeCounts(u);
  }

  // ---- Provisioning ----

  /** A create of a child whose failure is fatal: it fails exactly when that is tallied. */
  lemma CreateFatal(s: Session, k: Key, c: Child)
    requires k.kind !in {Service, ServiceMonitor, VpcPeering}
    ensures var t := Create(s, k, c);
            && t.inst == s.inst && t.w.id == s.w.id && t.w.ns == s.w.ns && s.w.faults.fatal <= t.w.faults.fatal
            && (!Halted(t) ==> (t.err == OtherErr <==> s.w.faults.fatal < t.w.faults.fatal))
  {
    hide Take, Tally;
    TakeFrame(s);
    TallyFatal(s.w.faults, k.kind);
  }

  lemma TallyFatal(f: Faults, k: Kind)
    requires k !in {Service, ServiceMonitor, VpcPeering}
    ensures forall took :: Tally(f, k, took).fatal == f.fatal + 1
  {
  }

  lemma CheckFatal(s: Session)
    ensures forall t | t in {Check(s), GenerateKeys(s)} ::
              && t.inst == s.inst && t.w.id == s.w.id && t.w.ns == s.w.ns && s.w.faults.fatal <= t.w.faults.fatal
              && (!Halted(t) ==> (t.err != NoErr <==> s.w.faults.fatal < t.w.faults.fatal))
  {
    hide Take;
    TakeFrame(s);
  }

  lemma RewriteFatal(s: Session, k: Key, c: Child)
    ensures Get(s, k).w.faults == s.w.faults && Put(s, k, c).w.faults == s.w.faults
    ensures Get(s, k).w.id == s.w.id && Get(s, k).w.ns == s.w.ns && Get(s, k).inst == s.inst
  {
    hide Take;
    TakeFrame(s);
  }

  lemma NetworkFatal(s: Session, vlan: string)
    ensures var t := CreateVPCNetwork(s, vlan);
            !Halted(t) ==> (t.err != NoErr <==> s.w.faults.fatal < t.w.faults.fatal)
  {
    hide Create, Get, Put;
    var id, ns := s.w.id, s.w.ns;
    CreateFatal(s, VpcKey(id), VpcChild(ns, []));
    var s1 := Create(s, VpcKey(id), VpcChild(ns, []));
    RewriteFatal(s1, VpcKey(id), NadChild);
    var s2 := if s1.err == AlreadyExists then Get(s1, VpcKey(id)) else s1;
    CreateFatal(s2, NadKey(id, ns), NadChild);
    var s3 := Create(s2, NadKey(id, ns), NadChild);
    CreateFatal(s3, SubnetKey(id), SubnetChild(VpcName(id), vlan));
    var s4 := Create(s3, SubnetKey(id), SubnetChild(VpcName(id), vlan));
    if VpcKey(id) in s2.w.cluster { RewriteFatal(s4, VpcKey(id), AddRoute(s2.w.cluster[VpcKey(id)], vlan)); }
  }

  lemma VMFatal(s: Session, size: ClassSpec)
    ensures var t := CreatePostgresVM(s, size);
            !Halted(t) ==> (t.err != NoErr <==> s.w.faults.fatal < t.w.faults.fatal)
  {
    hide Create, Check, GenerateKeys;
    var id, ns, refs := s.w.id, s.w.ns, St(s).refs;
    CheckFatal(s);
    var s1 := GenerateKeys(s);
    CheckFatal(s1);
    var s2 := if s.inst.obj.spec.s3Backup then Check(s1) else s1;
    if !Halted(s1) && s1.err == NoErr {
      Keeping.KeysDrawn(s);
      var n := s1.w.nonce - 1;
      CreateFatal(s2, SecretKey(id, ns), SecretChild(n, n, n));
      var s3 := Create(s2, SecretKey(id, ns), SecretChild(n, n, n));
      CheckFatal(s3);
      CreateFatal(Check(s3), VmKey(id, ns),
        VmChild(true, size.cpuCores, size.memoryMB, refs.dataVolume, refs.nad, SecretName(id)));
    }
  }

  /** The write that ends a phase, if it is not lost: it says what the phase said, and tallies
      nothing of its own. */
  lemma PhaseWrites(t: Session, st: Status)
    requires SessionOk(t) && !Halted(t)
    ensures var v := StatusUpdate(WithStatus(t, st)).w;
            && t.w.lost <= v.lost && (v.lost == t.w.lost ==> v.cur.status == st)
            && v.faults == t.w.faults
  {
    hide WorldOk, Legal, Anchored, StatusUpdate;
    Limits.WriteFate(t, st);
    Keeping.WriteStores(WithStatus(t, st));
  }

  /** The network, storage and VM phases, when their write is not lost: the instance is stored as
      failed if and only if one of the calls failed fatally or the class is unknown; otherwise
      the phase is over. */
  lemma ProvisionOutcome(s: Session)
    requires Fresh(s) && MayCreate(s) && !Halted(s) && Provision(s).w.lost == s.w.lost
    requires St(s).provisioning in {Unset, NetworkProvisioned, StorageProvisioned}
    ensures var v := Provision(s).w; var st := v.cur.status;
            if s.w.faults.fatal < v.faults.fatal
               || (St(s).provisioning == StorageProvisioned && ClassOf(s.inst.obj.spec.instanceClass) == None)
            then st.phase == Failed && st.provisioning == PhaseFailed
            else st.phase == Creating && Follows(St(s).provisioning, st.provisioning)
  {
    FreshOk(s);
    assert At(s.w.id, s.inst.obj, St(s).provisioning);
    hide Fresh, Legal, ObjectOk, PhaseNetwork, PhaseStorage, PhaseVM, ClassOf;
    match St(s).provisioning
    case Unset => NetworkOutcome(s);
    case NetworkProvisioned => StorageOutcome(s);
    case StorageProvisioned => VMOutcome(s);
  }

  lemma NetworkOutcome(s: Session)
    requires Fresh(s) && MayCreate(s) && !Halted(s) && At(s.w.id, s.inst.obj, Unset) && PhaseNetwork(s).w.lost == s.w.lost
    ensures var v := PhaseNetwork(s).w; var st := v.cur.status;
            if s.w.faults.fatal < v.faults.fatal then st.phase == Failed && st.provisioning == PhaseFailed
            else st.phase == Creating && st.provisioning == NetworkProvisioned
  {
    UnsetRefs(s.w.id, s.inst.obj);
    hide Fresh, WorldOk, Grows, Legal, Anchored, ObjectOk, StatusUpdate, CreateVPCNetwork, Version;
    var c := WithStatus(s, St(s).(phase := Creating));
    var spec, id := s.inst.obj.spec, s.w.id;
    UnwrittenOk(s, St(c));
    if spec.networkRef != "" {
      PhaseWrites(c, St(c).(refs := NoRefs.(nad := spec.networkRef), provisioning := NetworkProvisioned));
    } else {
      CreateVPCNetworkOk(c, Vlan(spec));
      NetworkFatal(c, Vlan(spec));
      var t := CreateVPCNetwork(c, Vlan(spec));
      if !Halted(t) {
        PhaseWrites(t, St(t).(phase := Failed, provisioning := PhaseFailed));
        PhaseWrites(t, St(t).(refs := NoRefs.(vpc := VpcName(t.w.id), subnet := SubnetName(t.w.id), nad := NadName(t.w.id)),
                                 provisioning := NetworkProvisioned));
      }
    }
  }

  lemma StorageOutcome(s: Session)
    requires Fresh(s) && MayCreate(s) && !Halted(s) && At(s.w.id, s.inst.obj, NetworkProvisioned)
    requires PhaseStorage(s).w.lost == s.w.lost
    ensures var v := PhaseStorage(s).w; var st := v.cur.status;
            if s.w.faults.fatal < v.faults.fatal then st.phase == Failed && st.provisioning == PhaseFailed
            else st.phase == Creating && st.provisioning == StorageProvisioned
  {
    assert St(s).refs.dataVolume == "" && St(s).phase == Creating;
    hide Fresh, WorldOk, Grows, Legal, Anchored, ObjectOk, StatusUpdate, Create, Version;
    var spec, id, ns := s.inst.obj.spec, s.w.id, s.w.ns;
    var k, c := DataVolumeKey(id, ns), VolumeChild(spec.allocatedStorage, StorageClass(spec));
    CreateOk(s, k, c);
    CreateFatal(s, k, c);
    var t := CreateDataVolume(s, spec.allocatedStorage, StorageClass(spec));
    if !Halted(t) {
      PhaseWrites(t, St(t).(phase := Failed, provisioning := PhaseFailed));
      PhaseWrites(t, St(t).(refs := St(t).refs.(dataVolume := DataVolumeName(t.w.id)), provisioning := StorageProvisioned));
    }
  }

  lemma VMOutcome(s: Session)
    requires Fresh(s) && MayCreate(s) && !Halted(s) && At(s.w.id, s.inst.obj, StorageProvisioned)
    requires PhaseVM(s).w.lost == s.w.lost
    ensures var v := PhaseVM(s).w; var st := v.cur.status;
            if s.w.faults.fatal < v.faults.fatal || ClassOf(s.inst.obj.spec.instanceClass) == None
            then st.phase == Failed && st.provisioning == PhaseFailed
            else st.phase == Creating && st.provisioning == VMCreated
  {
    assert St(s).refs.vm == "" && St(s).phase == Creating;
    hide Fresh, WorldOk, Grows, Legal, Anchored, ObjectOk, StatusUpdate, CreatePostgresVM, ClassOf, Version;
    var size := ClassOf(s.inst.obj.spec.instanceClass);
    UnwrittenOk(s, St(s));
    assert WithStatus(s, St(s)) == s;
    PhaseWrites(s, St(s).(phase := Failed, provisioning := PhaseFailed));
    if size.Some? {
      CreatePostgresVMOk(s, size.value);
      VMFatal(s, size.value);
      var t := CreatePostgresVM(s, size.value);
      if !Halted(t) {
        PhaseWrites(t, St(t).(phase := Failed, provisioning := PhaseFailed));
        PhaseWrites(t, St(RecordVM(t)));
      }
    }
  }

  lemma CheckFate(s: Session)
    requires s.halt == Going && s.script != []
    ensures forall t | t in {Check(s), GenerateKeys(s)} ::
              && t.halt == Going && t.script == s.script[1..] && t.inst == s.inst
              && (t.err == NoErr <==> s.script[0].usable)
  {
    hide Users;
  }

  /** Keys that cannot be generated, or an S3 secret that a backup asks for and that is unusable,
      fail the VM phase before anything is created. */
  lemma ChecksNeeded(s: Session, size: ClassSpec)
    requires s.halt == Going && |s.script| >= 2
    requires !s.script[0].usable || (s.inst.obj.spec.s3Backup && !s.script[1].usable)
    ensures var t := CreatePostgresVM(s, size); !Halted(t) && t.err != NoErr && t.w.cluster == s.w.cluster && t.w.log == s.w.log
  {
    hide Check, GenerateKeys, SecretAndVM;
    CheckFate(s);
    var s1 := GenerateKeys(s);
    CheckFate(s1);
    SameCluster(s);
    SameCluster(s1);
  }

  /** A VM that the call creates is switched on. */
  lemma NewVmIsOn(s: Session, size: ClassSpec)
    requires VmKey(s.w.id, s.w.ns) !in s.w.cluster && VmKey(s.w.id, s.w.ns) in CreatePostgresVM(s, size).w.cluster
    ensures PoweredOn(CreatePostgresVM(s, size).w)
  {
    hide CreatePostgresVM;
    CreatePostgresVMFrame(s, size);
  }

  /** A VM image that cannot be resolved fails the call after the Secret and before the VM. */
  lemma ImageNeeded(s: Session, id: string, ns: string, refs: Refs, n: nat, size: ClassSpec)
    requires s.halt == Going && |s.script| >= 2 && s.script[0].api == Normal && !s.script[1].usable
    ensures var t := SecretAndVM(s, id, ns, refs, n, size);
            && t.halt == Going && t.err != NoErr && SecretKey(id, ns) in t.w.cluster
            && (VmKey(id, ns) in t.w.cluster <==> VmKey(id, ns) in s.w.cluster)
  {
    hide Create, Check, SecretName, VmName;
    CreateFate(s, SecretKey(id, ns), SecretChild(n, n, n));
    var s3 := Create(s, SecretKey(id, ns), SecretChild(n, n, n));
    CheckFate(s3);
    SameCluster(s3);
  }

  lemma SameCluster(s: Session)
    ensures forall t | t in {Check(s), GenerateKeys(s)} :: t.w.cluster == s.w.cluster && t.w.log == s.w.log
  {
    hide Take;
    TakeFrame(s);
  }

  // ---- Monitoring and peering ----

  /** The Service's fate does not touch the ServiceMonitor's: that call succeeds exactly when the
      monitor is new and its own turn is good, whatever became of the Service. */
  lemma MonitoringFates(s: Session)
    requires s.halt == Going && |s.script| >= 2
    ensures var t := DeployMonitoring(s); var id, ns := s.w.id, s.w.ns;
            && t.halt == Going
            && (t.err == NoErr <==> s.script[1].api == Normal && MonitorKey(id, ns) !in s.w.cluster)
            && (ServiceKey(id, ns) in t.w.cluster <==> ServiceKey(id, ns) in s.w.cluster || s.script[0].api != Lost)
            && (MonitorKey(id, ns) in t.w.cluster <==> MonitorKey(id, ns) in s.w.cluster || s.script[1].api != Lost)
  {
    hide Create, ServiceName, MonitorName;
    CreateFate(s, ServiceKey(s.w.id, s.w.ns), ServiceChild);
    var t := Create(s, ServiceKey(s.w.id, s.w.ns), ServiceChild);
    CreateFate(t, MonitorKey(s.w.id, s.w.ns), MonitorChild);
  }

  lemma CreateFate(s: Session, k: Key, c: Child)
    requires s.halt == Going && s.script != []
    ensures var t := Create(s, k, c);
            && t.halt == Going && t.script == s.script[1..] && t.w.id == s.w.id && t.w.ns == s.w.ns && t.inst == s.inst
            && t.err == (if s.script[0].api != Normal then OtherErr else if k in s.w.cluster then AlreadyExists else NoErr)
            && t.w.cluster == if k in s.w.cluster || s.script[0].api == Lost then s.w.cluster else s.w.cluster[k := c]
  {
    hide Users;
    UsersFrame(s.w, s.script[0].users);
  }

  /** The peering call succeeds exactly when its turn is good, whether or not the peering exists. */
  lemma PeeringFates(s: Session, remote: Peering)
    requires s.halt == Going && s.script != []
    ensures var t := CreateVpcPeering(s, remote); var k := PeeringKey(s.w.id);
            && t.halt == Going && (t.err == NoErr <==> s.script[0].api == Normal)
            && (k in t.w.cluster <==> k in s.w.cluster || s.script[0].api != Lost)
  {
    hide Create;
    CreateFate(s, PeeringKey(s.w.id), PeeringChild(St(s).refs.vpc, St(s).refs.subnet, remote));
  }

  // ---- Requeues ----

  /** Read with nothing to do for it, or halfway through an interrupted stop, start or modify, a
      provisioned instance is left alone: no child changes, and the write, if it is not lost,
      stores `available` with the generation observed. */
  lemma LeftAlone(s: Session)
    requires Fresh(s) && MayCreate(s) && !Halted(s) && At(s.w.id, s.inst.obj, PhaseAvailable) && !Startable(s.inst.obj)
    requires St(s).phase == Available ==>
               s.inst.obj.spec.running != Some(false) && s.inst.obj.generation == St(s).observedGeneration
    ensures var v := Dispatch(s).w;
            && v.cluster == s.w.cluster && v.log == s.w.log
            && (v.lost == s.w.lost ==>
                  v.cur.status.phase == Available && v.cur.status.observedGeneration == s.inst.obj.generation)
  {
    hide Fresh, ObjectOk, PhaseAvailableStep, ReconcileStop, ReconcileStart, ReconcileModify, ReconcileDelete;
    assert Dispatch(s) == PhaseAvailableStep(s);
    AvailableCluster(s);
    if Dispatch(s).w.lost == s.w.lost { Limits.AvailableObserves(s); }
  }

  lemma AvailableCluster(s: Session)
    ensures PhaseAvailableStep(s).w.cluster == s.w.cluster && PhaseAvailableStep(s).w.log == s.w.log
  {
    hide StatusUpdate, Take, ReadinessOf, RefreshAddresses;
    var s1 := WithStatus(s, St(s).(phase := Available, provisioning := PhaseAvailable,
                                   observedGeneration := s.inst.obj.generation));
    TakeFrame(s1);
    var t := Take(s1);
    StatusUpdateFrame(WithStatus(t, RefreshAddresses(St(t), t.inst.obj.spec, ReadinessOf(t.now))));
  }
}
