/** What a reconcile may store, branch by branch: only the VM phase records a CA, and only a fatal
    API error or a call that creates nothing can fail the instance. */
module Writes {
  import opened Types
  import opened Names
  import opened World
  import opened Harvester
  import opened Reconciler
  import opened Invariants
  import opened Safety
  import opened Phases
  import opened Theorems
  import opened Frames
  import opened Keeping

  /** No new CA was stored. */
  ghost predicate CaKept(s: Session, t: Session) {
    t.w.cur.status.caCert in {s.w.cur.status.caCert, St(s).caCert}
  }

  /** If the instance is stored as failed, it was before, or a call failed fatally, or nothing
      was created. */
  ghost predicate Spared(s: Session, t: Session) {
    t.w.cur.status.provisioning == PhaseFailed ==>
      || PhaseFailed in {s.w.cur.status.provisioning, St(s).provisioning}
      || t.w.faults.fatal > 0 || t.w.log == s.w.log
  }

  ghost predicate Tame(s: Session, t: Session) { CaKept(s, t) && Spared(s, t) && Logs(s.w, t.w) }

  /** A write after operations that keep the status. */
  lemma WriteTame(s: Session, t: Session, st: Status)
    requires t.w.cur.status == s.w.cur.status && Logs(s.w, t.w)
    ensures var v := StatusUpdate(WithStatus(t, st));
            && ((st.provisioning != PhaseFailed || t.w.faults.fatal > 0 || t.w.log == s.w.log) ==> Spared(s, v))
            && (st.caCert == St(s).caCert ==> CaKept(s, v))
            && Logs(s.w, v.w) && v.w.log == t.w.log && v.w.cur.status in {s.w.cur.status, st} && St(v) == st
  {
    hide StatusUpdate;
    WriteStores(WithStatus(t, st));
    StatusUpdateFrame(WithStatus(t, st));
  }

  lemma LogsNothing(w: World, v: World)
    requires v.log == w.log && v.cluster.Keys == w.cluster.Keys
    ensures Logs(w, v)
  {
  }

  /** Operations alone store nothing. */
  lemma KeptTame(s: Session, t: Session)
    requires t.w.cur.status == s.w.cur.status && Logs(s.w, t.w)
    ensures Tame(s, t)
  {
  }

  // ---- Phases ----

  lemma NetworkTame(s: Session)
    requires Fresh(s) && MayCreate(s)
    ensures Tame(s, PhaseNetwork(s))
  {
    hide Fresh, CaKept, Spared, StatusUpdate, CreateVPCNetwork;
    var c := if St(s).phase == NoPhase then WithStatus(s, St(s).(phase := Creating)) else s;
    var refs, spec := St(c).refs, s.inst.obj.spec;
    WriteTame(s, c, St(c).(provisioning := NetworkProvisioned));
    WriteTame(s, c, St(c).(refs := refs.(nad := spec.networkRef), provisioning := NetworkProvisioned));
    NetworkKeeps(c, Vlan(spec));
    UnwrittenFresh(s, St(c));
    CreateVPCNetworkOk(c, Vlan(spec));
    var t := CreateVPCNetwork(c, Vlan(spec));
    var id := t.w.id;
    KeptTame(s, t);
    WriteTame(s, t, St(t).(phase := Failed, provisioning := PhaseFailed));
    WriteTame(s, t, St(t).(refs := refs.(vpc := VpcName(id), subnet := SubnetName(id), nad := NadName(id)),
                           provisioning := NetworkProvisioned));
  }

  lemma UnwrittenFresh(s: Session, st: Status)
    requires Fresh(s)
    ensures SessionOk(WithStatus(s, st)) && SessionOk(s)
  {
    UnwrittenOk(s, st);
  }

  lemma StorageTame(s: Session)
    requires Fresh(s) && MayCreate(s)
    ensures Tame(s, PhaseStorage(s))
  {
    hide Fresh, CaKept, Spared, StatusUpdate, Create;
    UnwrittenFresh(s, St(s));
    var refs, spec := St(s).refs, s.inst.obj.spec;
    WriteTame(s, s, St(s).(provisioning := StorageProvisioned));
    var k, c := DataVolumeKey(s.w.id, s.w.ns), VolumeChild(spec.allocatedStorage, StorageClass(spec));
    CreateKeeps(s, k, c);
    CreateOk(s, k, c);
    var t := CreateDataVolume(s, spec.allocatedStorage, StorageClass(spec));
    KeptTame(s, t);
    WriteTame(s, t, St(t).(phase := Failed, provisioning := PhaseFailed));
    WriteTame(s, t, St(t).(refs := refs.(dataVolume := DataVolumeName(t.w.id)), provisioning := StorageProvisioned));
  }

  lemma VMTame(s: Session)
    requires Fresh(s) && MayCreate(s)
    ensures Spared(s, PhaseVM(s)) && Logs(s.w, PhaseVM(s).w)
  {
    hide Fresh, CaKept, Spared, StatusUpdate, CreatePostgresVM, ClassOf;
    UnwrittenFresh(s, St(s));
    WriteTame(s, s, St(s).(provisioning := VMCreated));
    WriteTame(s, s, St(s).(phase := Failed, provisioning := PhaseFailed));
    var size := ClassOf(s.inst.obj.spec.instanceClass);
    if size.Some? {
      VMKeeps(s, size.value);
      CreatePostgresVMOk(s, size.value);
      var t := CreatePostgresVM(s, size.value);
      KeptTame(s, t);
      WriteTame(s, t, St(t).(phase := Failed, provisioning := PhaseFailed));
      WriteTame(s, t, St(RecordVM(t)));
    }
  }

  lemma WaitTame(s: Session)
    ensures Tame(s, PhaseWaitReady(s))
  {
    hide CaKept, Spared, StatusUpdate, Take, ReadinessOf;
    TakeKeeps(s);
    TakeFrame(s);
    var t := Take(s);
    var r := ReadinessOf(t.now);
    KeptTame(s, t);
    WriteTame(s, Poll(t), St(t).(provisioning := WaitingForCloudInit));
    WriteTame(s, Poll(t), St(t));
    assert WithStatus(Poll(t), St(t)) == Poll(t);
    WriteTame(s, t, St(t).(endpoint := Some(Endpoint(r.ip, SpecPort(t.inst.obj.spec.port))),
                           managementAddress := r.mgmtIp, provisioning := DatabaseReady));
  }

  lemma MonitoringTame(s: Session)
    ensures Tame(s, PhaseMonitoring(s))
  {
    hide CaKept, Spared, StatusUpdate, DeployMonitoring;
    var refs := St(s).refs;
    WriteTame(s, s, St(s).(provisioning := MonitoringDeployed));
    KeptTame(s, s.(halt := Panicked));
    MonitoringKeeps(s);
    var t := DeployMonitoring(s);
    KeptTame(s, t);
    WriteTame(s, t, St(t).(refs := refs.(monitor := MonitorName(t.w.id)), provisioning := MonitoringDeployed));
    WriteTame(s, t, St(t).(provisioning := MonitoringDeployed));
  }

  lemma PeeringTame(s: Session)
    ensures Tame(s, PhaseVpcPeering(s))
  {
    hide CaKept, Spared, StatusUpdate, Create;
    var refs, peering := St(s).refs, s.inst.obj.spec.vpcPeering;
    WriteTame(s, s, St(s).(provisioning := VpcPeeringCreated));
    if peering.Some? {
      CreateKeeps(s, PeeringKey(s.w.id), PeeringChild(refs.vpc, refs.subnet, peering.value));
      var t := CreateVpcPeering(s, peering.value);
      KeptTame(s, t);
      WriteTame(s, t, St(t).(refs := refs.(peering := PeeringName(t.w.id)), provisioning := VpcPeeringCreated));
      WriteTame(s, t, St(t).(provisioning := VpcPeeringCreated));
    }
  }

  lemma AvailableTame(s: Session)
    ensures Tame(s, PhaseAvailableStep(s))
  {
    hide CaKept, Spared, StatusUpdate, Take, ReadinessOf;
    var s1 := WithStatus(s, St(s).(phase := Available, provisioning := PhaseAvailable,
                                   observedGeneration := s.inst.obj.generation));
    TakeKeeps(s1);
    var t := Take(s1);
    KeptTame(s, t);
    WriteTame(s, t, RefreshAddresses(St(t), t.inst.obj.spec, ReadinessOf(t.now)));
  }

  // ---- Stop, start, modify, delete ----

  /** The second write of a reconcile whose first one only marked the phase. */
  lemma SecondTame(s: Session, t: Session, u: Session, p: Phase, st: Status)
    requires t == StatusUpdate(Mark(s, p)) && Keeps(t, u) && u.w.log == s.w.log && st.caCert == St(s).caCert
    ensures Tame(s, t) && Tame(s, u) && Tame(s, StatusUpdate(WithStatus(u, st)))
  {
    hide StatusUpdate;
    WriteStores(Mark(s, p));
    WriteStores(WithStatus(u, st));
    StatusUpdateFrame(Mark(s, p));
    StatusUpdateFrame(WithStatus(u, st));
  }

  lemma PowerTame(s: Session, during: Phase, running: bool, after: Phase)
    ensures var t := StatusUpdate(Mark(s, during)); var u := SetVMRunning(t, St(t).refs.vm, running);
            Tame(s, t) && Tame(s, u) && Tame(s, Fail(u)) && Tame(s, Settle(u, after))
  {
    hide Tame, StatusUpdate, SetVMRunning;
    PowerFrame(s, during, running);
    WriteStores(Mark(s, during));
    var t := StatusUpdate(Mark(s, during));
    SetVMRunningKeeps(t, St(t).refs.vm, running);
    var u := SetVMRunning(t, St(t).refs.vm, running);
    SecondTame(s, t, u, during, St(u).(phase := Failed, provisioning := PhaseFailed));
    SecondTame(s, t, u, during, St(u).(phase := after, observedGeneration := u.inst.obj.generation));
  }

  lemma ModifyTame(s: Session)
    ensures Tame(s, ReconcileModify(s))
  {
    hide Tame, StatusUpdate, ResizeVM, ResizeDataVolume, ClassOf;
    WriteStores(Mark(s, Modifying));
    var t := StatusUpdate(Mark(s, Modifying));
    KeepsReflexive(t);
    SecondTame(s, t, t, Modifying, St(t).(phase := Failed, provisioning := PhaseFailed));
    var size := ClassOf(t.inst.obj.spec.instanceClass);
    if size.Some? {
      ResizesKeep(t, St(t).refs.vm, size.value, "", 0);
      ResizeVMFrame(t, St(t).refs.vm, size.value);
      var u := ResizeVM(t, St(t).refs.vm, size.value);
      ResizesKeep(u, "", size.value, St(u).refs.dataVolume, u.inst.obj.spec.allocatedStorage);
      ResizeDataVolumeFrame(u, St(u).refs.dataVolume, u.inst.obj.spec.allocatedStorage);
      var v := ResizeDataVolume(u, St(u).refs.dataVolume, u.inst.obj.spec.allocatedStorage);
      KeepsTransitive(t, u, v);
      SecondTame(s, t, u, Modifying, St(s));
      SecondTame(s, t, v, Modifying, St(v).(phase := Failed, provisioning := PhaseFailed));
      SecondTame(s, t, v, Modifying, St(v).(phase := Available, observedGeneration := v.inst.obj.generation));
    }
  }

  lemma DeleteTame(s: Session)
    ensures Tame(s, ReconcileDelete(s))
  {
    hide StatusUpdate, FinalizerUpdate, Take, TeardownKeys;
    WriteStores(s);
    WriteStores(Mark(s, Deleting));
    var t := StatusUpdate(Mark(s, Deleting));
    TakeKeeps(t);
    FinalizerStores(TeardownAll(t), false);
    StatusUpdateFrame(s);
    StatusUpdateFrame(Mark(s, Deleting));
    TakeFrame(t);
    FinalizerUpdateFrame(TeardownAll(t), false);
  }

  // ---- Reconciles ----

  lemma DispatchTame(s: Session)
    requires Fresh(s)
    ensures Spared(s, Dispatch(s)) && Logs(s.w, Dispatch(s).w)
    ensures CaKept(s, Dispatch(s)) ||
            (!s.inst.obj.deleting && s.inst.obj.finalizer && St(s).provisioning == StorageProvisioned && Dispatch(s) == PhaseVM(s))
  {
    hide Fresh, CaKept, Spared, Provision, ReconcileModify, ReconcileDelete, FinalizerUpdate, StatusUpdate, SetVMRunning;
    var o := s.inst.obj;
    if o.deleting {
      if o.finalizer { DeleteTame(s); } else { KeptTame(s, s); }
    } else if !o.finalizer {
      FinalizerStores(s, true);
      FinalizerUpdateFrame(s, true);
      KeptTame(s, FinalizerUpdate(s, true));
    } else if o.spec.running == Some(false) && o.status.phase == Available {
      PowerTame(s, Stopping, false, Stopped);
    } else if o.spec.running == Some(true) && o.status.phase == Stopped {
      PowerTame(s, Starting, true, Available);
    } else if o.status.phase == Available && o.generation != o.status.observedGeneration {
      ModifyTame(s);
    } else {
      ProvisionTame(s);
    }
  }

  lemma ProvisionTame(s: Session)
    requires Fresh(s) && MayCreate(s)
    ensures Spared(s, Provision(s)) && Logs(s.w, Provision(s).w)
    ensures CaKept(s, Provision(s)) || (St(s).provisioning == StorageProvisioned && Provision(s) == PhaseVM(s))
  {
    FreshOk(s);
    assert !St(s).provisioning.Pending? && !St(s).provisioning.Unknown?;
    hide Fresh, Legal, ObjectOk, CaKept, Spared, PhaseNetwork, PhaseStorage, PhaseVM, PhaseWaitReady, PhaseMonitoring,
         PhaseVpcPeering, PhaseAvailableStep;
    match St(s).provisioning
    case Unset => NetworkTame(s);
    case NetworkProvisioned => StorageTame(s);
    case StorageProvisioned => VMTame(s);
    case VMCreated => WaitTame(s);
    case WaitingForCloudInit => WaitTame(s);
    case DatabaseReady => MonitoringTame(s);
    case MonitoringDeployed => PeeringTame(s);
    case VpcPeeringCreated => AvailableTame(s);
    case PhaseAvailable => AvailableTame(s);
    case PhaseFailed => KeptTame(s, s);
  }

  /** What was read was stored earlier, so it is no newer than what is stored. */
  lemma ReadIsOlder(s: Session)
    requires Fresh(s)
    ensures St(s).provisioning == PhaseFailed ==> s.w.cur.status.provisioning == PhaseFailed
    ensures St(s).caCert.Some? ==> s.w.cur.status.caCert == St(s).caCert
  {
    LaterVersions(s.w, s.inst.rv, |s.w.past|);
    assert Version(s.w, |s.w.past|) == s.w.cur;
  }
}
