/** What provisioning builds: while the spec is left alone, every child on the cluster is the one
    the spec asks for, through all crashes, retries, stale reads and lost writes. */
module Shapes {
  import opened Types
  import opened Names
  import opened World
  import opened Harvester
  import opened Reconciler
  import opened Invariants
  import opened Safety
  import opened Phases
  import opened Theorems
  import opened Frames
  import Modify

  /** The spec's own value, or `otherwise` when the field is empty. */
  predicate Asks(field: string, otherwise: string, value: string) {
    if field != "" then value == field else value == otherwise
  }

  /** Child `k` of instance `ns/id` as `spec` wants it. The VPC's route may be listed more than
      once: every retry of the network phase appends it again. */
  ghost predicate Wanted(id: string, ns: string, spec: Spec, k: Key, c: Child) {
    var (vpc, subnet, nad) := ExpectedNetwork(id, spec);
    match k.kind
    case Vpc => c.VpcChild? && c.namespace == ns && forall r | r in c.routes :: Asks(spec.dbSubnetGroupName, "10.50.0.0/24", r)
    case Subnet => c.SubnetChild? && c.vpc == VpcName(id) && Asks(spec.dbSubnetGroupName, "10.50.0.0/24", c.allowed)
    case Nad => c == NadChild
    case DataVolume => c.VolumeChild? && c.sizeGiB == spec.allocatedStorage && Asks(spec.storageType, "longhorn", c.storageClass)
    case Vm =>
      && c.VmChild? && ClassOf(spec.instanceClass).Some?
      && c.cpuCores == ClassOf(spec.instanceClass).value.cpuCores && c.memoryMB == ClassOf(spec.instanceClass).value.memoryMB
      && c.volume == DataVolumeName(id) && c.nad == nad && c.userdataSecret == SecretName(id)
    case Secret => c.SecretChild?
    case Service => c == ServiceChild
    case ServiceMonitor => c == MonitorChild
    case VpcPeering => spec.vpcPeering.Some? && c == PeeringChild(vpc, subnet, spec.vpcPeering.value)
  }

  ghost predicate Shaped(w: World, spec: Spec) {
    forall k | k in w.cluster && k in ChildKeys(w.id, w.ns) :: Wanted(w.id, w.ns, spec, k, w.cluster[k])
  }

  ghost predicate Same(w: World, v: World) { v.id == w.id && v.ns == w.ns }

  // ---- One call ----

  lemma ApartShaped(w: World, v: World, spec: Spec)
    requires Shaped(w, spec) && Apart(w, v)
    ensures Shaped(v, spec) && Same(w, v)
  {
    hide Wanted, ChildKeys;
  }

  lemma CreateShaped(s: Session, k: Key, c: Child, spec: Spec)
    requires Shaped(s.w, spec) && Wanted(s.w.id, s.w.ns, spec, k, c)
    ensures Shaped(Create(s, k, c).w, spec) && Same(s.w, Create(s, k, c).w) && Create(s, k, c).inst == s.inst
  {
    hide Wanted, ChildKeys, Take;
    TakeFrame(s);
  }

  lemma PutShaped(s: Session, k: Key, c: Child, spec: Spec)
    requires Shaped(s.w, spec) && Wanted(s.w.id, s.w.ns, spec, k, c)
    ensures Shaped(Put(s, k, c).w, spec) && Same(s.w, Put(s, k, c).w) && Put(s, k, c).inst == s.inst
  {
    hide Wanted, ChildKeys, Put;
    PutFrame(s, k, c);
  }

  // ---- Harvester operations ----

  lemma NetworkShaped(s: Session, spec: Spec)
    requires Shaped(s.w, spec)
    ensures Shaped(CreateVPCNetwork(s, Vlan(spec)).w, spec) && Same(s.w, CreateVPCNetwork(s, Vlan(spec)).w)
  {
    hide Create, Get, Put, Shaped, ChildKeys;
    var id, ns, vlan := s.w.id, s.w.ns, Vlan(spec);
    CreateShaped(s, VpcKey(id), VpcChild(ns, []), spec);
    var s1 := Create(s, VpcKey(id), VpcChild(ns, []));
    if !Halted(s1) && s1.err != OtherErr {
      GetFrame(s1, VpcKey(id));
      ApartShaped(s1.w, Get(s1, VpcKey(id)).w, spec);
      var s2 := if s1.err == AlreadyExists then Get(s1, VpcKey(id)) else s1;
      if !Halted(s2) {
        CreateShaped(s2, NadKey(id, ns), NadChild, spec);
        var s3 := Create(s2, NadKey(id, ns), NadChild);
        if !Halted(s3) && s3.err != OtherErr {
          CreateShaped(s3, SubnetKey(id), SubnetChild(VpcName(id), vlan), spec);
          var s4 := Create(s3, SubnetKey(id), SubnetChild(VpcName(id), vlan));
          if VpcKey(id) in s2.w.cluster {
            var vpc := s2.w.cluster[VpcKey(id)];
            RouteWanted(s2.w, spec);
            PutShaped(s4, VpcKey(id), AddRoute(vpc, vlan), spec);
          }
        }
      }
    }
  }

  lemma RouteWanted(w: World, spec: Spec)
    requires Shaped(w, spec) && VpcKey(w.id) in w.cluster
    ensures Wanted(w.id, w.ns, spec, VpcKey(w.id), AddRoute(w.cluster[VpcKey(w.id)], Vlan(spec)))
  {
    assert VpcKey(w.id) in ChildKeys(w.id, w.ns);
  }

  lemma VMShaped(s: Session, size: ClassSpec, spec: Spec)
    requires Shaped(s.w, spec) && ClassOf(spec.instanceClass) == Some(size)
    requires St(s).refs.dataVolume == DataVolumeName(s.w.id) && St(s).refs.nad == ExpectedNetwork(s.w.id, spec).2
    ensures Shaped(CreatePostgresVM(s, size).w, spec) && Same(s.w, CreatePostgresVM(s, size).w)
  {
    hide Create, Check, Shaped, ChildKeys, ClassOf, ExpectedNetwork, Apart;
    var id, ns, refs := s.w.id, s.w.ns, St(s).refs;
    CheckFrame(s);
    ApartShaped(s.w, Check(s).w, spec);
    var s1 := GenerateKeys(s);
    NonceShaped(Check(s).w, spec);
    if !Halted(s1) && s1.err == NoErr {
      var n := s1.w.nonce - 1;
      CheckFrame(s1);
      ApartShaped(s1.w, Check(s1).w, spec);
      var s2 := if s.inst.obj.spec.s3Backup then Check(s1) else s1;
      if !Halted(s2) && s2.err == NoErr {
        CreateShaped(s2, SecretKey(id, ns), SecretChild(n, n, n), spec);
        var s3 := Create(s2, SecretKey(id, ns), SecretChild(n, n, n));
        if !Halted(s3) && s3.err != OtherErr {
          CheckFrame(s3);
          ApartShaped(s3.w, Check(s3).w, spec);
          var s4 := Check(s3);
          CreateShaped(s4, VmKey(id, ns),
            VmChild(true, size.cpuCores, size.memoryMB, refs.dataVolume, refs.nad, SecretName(id)), spec);
        }
      }
    }
  }

  lemma NonceShaped(w: World, spec: Spec)
    requires Shaped(w, spec)
    ensures Shaped(w.(nonce := w.nonce + 1), spec)
  {
    hide Wanted, ChildKeys;
  }

  // ---- Phases ----

  /** A session on an unchanged spec: what it has recorded is what the spec asks for. */
  ghost predicate Steady(s: Session, spec: Spec) {
    Fresh(s) && s.inst.obj.spec == spec && Chosen(s.w.id, s.w.faults, spec, St(s)) && Shaped(s.w, spec)
  }

  lemma WriteShaped(s: Session, spec: Spec)
    requires Shaped(s.w, spec)
    ensures Shaped(StatusUpdate(s).w, spec) && Same(s.w, StatusUpdate(s).w)
  {
    hide Shaped, StatusUpdate;
    StatusUpdateFrame(s);
    ApartShaped(s.w, StatusUpdate(s).w, spec);
  }

  lemma PhaseNetworkShaped(s: Session, spec: Spec)
    requires Steady(s, spec)
    ensures Shaped(PhaseNetwork(s).w, spec)
  {
    hide Fresh, Shaped, StatusUpdate, CreateVPCNetwork, Chosen;
    var c := if St(s).phase == NoPhase then WithStatus(s, St(s).(phase := Creating)) else s;
    var refs := St(c).refs;
    WriteShaped(To(c, NetworkProvisioned), spec);
    WriteShaped(To(WithRefs(c, refs.(nad := spec.networkRef)), NetworkProvisioned), spec);
    NetworkShaped(c, spec);
    var t := CreateVPCNetwork(c, Vlan(spec));
    var id := t.w.id;
    WriteShaped(WithStatus(t, St(t).(phase := Failed, provisioning := PhaseFailed)), spec);
    WriteShaped(To(WithRefs(t, refs.(vpc := VpcName(id), subnet := SubnetName(id), nad := NadName(id))),
                   NetworkProvisioned), spec);
  }

  lemma PhaseStorageShaped(s: Session, spec: Spec)
    requires Steady(s, spec)
    ensures Shaped(PhaseStorage(s).w, spec)
  {
    hide Fresh, Shaped, StatusUpdate, Create, Chosen;
    var refs := St(s).refs;
    WriteShaped(To(s, StorageProvisioned), spec);
    CreateShaped(s, DataVolumeKey(s.w.id, s.w.ns), VolumeChild(spec.allocatedStorage, StorageClass(spec)), spec);
    var t := CreateDataVolume(s, spec.allocatedStorage, StorageClass(spec));
    WriteShaped(WithStatus(t, St(t).(phase := Failed, provisioning := PhaseFailed)), spec);
    WriteShaped(To(WithRefs(t, refs.(dataVolume := DataVolumeName(t.w.id))), StorageProvisioned), spec);
  }

  lemma PhaseVMShaped(s: Session, spec: Spec)
    requires Steady(s, spec) && At(s.w.id, s.inst.obj, StorageProvisioned)
    ensures Shaped(PhaseVM(s).w, spec)
  {
    hide Fresh, Shaped, StatusUpdate, CreatePostgresVM, ClassOf;
    var size := ClassOf(spec.instanceClass);
    WriteShaped(WithStatus(s, St(s).(phase := Failed, provisioning := PhaseFailed)), spec);
    if size.Some? {
      VMShaped(s, size.value, spec);
      var t := CreatePostgresVM(s, size.value);
      WriteShaped(WithStatus(t, St(t).(phase := Failed, provisioning := PhaseFailed)), spec);
      WriteShaped(RecordVM(t), spec);
    }
  }

  lemma TakeShaped(s: Session, spec: Spec)
    requires Shaped(s.w, spec)
    ensures Shaped(Take(s).w, spec) && Same(s.w, Take(s).w)
  {
    hide Shaped, Take;
    TakeFrame(s);
    ApartShaped(s.w, Take(s).w, spec);
  }

  lemma PhaseWaitShaped(s: Session, spec: Spec)
    requires Steady(s, spec)
    ensures Shaped(PhaseWaitReady(s).w, spec)
  {
    hide Fresh, Shaped, StatusUpdate, Take, ReadinessOf, Chosen;
    TakeShaped(s, spec);
    var t := Take(s);
    var r := ReadinessOf(t.now);
    ApartShaped(t.w, Poll(t).w, spec);
    WriteShaped(To(Poll(t), WaitingForCloudInit), spec);
    WriteShaped(Poll(t), spec);
    WriteShaped(WithStatus(t, St(t).(endpoint := Some(Endpoint(r.ip, SpecPort(t.inst.obj.spec.port))),
                                     managementAddress := r.mgmtIp, provisioning := DatabaseReady)), spec);
  }

  lemma PhaseMonitoringShaped(s: Session, spec: Spec)
    requires Steady(s, spec)
    ensures Shaped(PhaseMonitoring(s).w, spec)
  {
    hide Fresh, Shaped, StatusUpdate, Create, Chosen;
    var id, ns, refs := s.w.id, s.w.ns, St(s).refs;
    WriteShaped(To(s, MonitoringDeployed), spec);
    CreateShaped(s, ServiceKey(id, ns), ServiceChild, spec);
    CreateShaped(Create(s, ServiceKey(id, ns), ServiceChild), MonitorKey(id, ns), MonitorChild, spec);
    var t := DeployMonitoring(s);
    WriteShaped(To(WithRefs(t, refs.(monitor := MonitorName(t.w.id))), MonitoringDeployed), spec);
    WriteShaped(To(t, MonitoringDeployed), spec);
  }

  lemma PhasePeeringShaped(s: Session, spec: Spec)
    requires Steady(s, spec) && At(s.w.id, s.inst.obj, MonitoringDeployed)
    ensures Shaped(PhaseVpcPeering(s).w, spec)
  {
    hide Fresh, Shaped, StatusUpdate, Create;
    var refs := St(s).refs;
    WriteShaped(To(s, VpcPeeringCreated), spec);
    if spec.vpcPeering.Some? {
      CreateShaped(s, PeeringKey(s.w.id), PeeringChild(refs.vpc, refs.subnet, spec.vpcPeering.value), spec);
      var t := CreateVpcPeering(s, spec.vpcPeering.value);
      WriteShaped(To(WithRefs(t, refs.(peering := PeeringName(t.w.id))), VpcPeeringCreated), spec);
      WriteShaped(To(t, VpcPeeringCreated), spec);
    }
  }

  lemma PhaseAvailableShaped(s: Session, spec: Spec)
    requires Steady(s, spec)
    ensures Shaped(PhaseAvailableStep(s).w, spec)
  {
    hide Fresh, Shaped, StatusUpdate, Take, ReadinessOf, Chosen, RefreshAddresses;
    var s1 := WithStatus(s, St(s).(phase := Available, provisioning := PhaseAvailable,
                                   observedGeneration := s.inst.obj.generation));
    TakeShaped(s1, spec);
    var t := Take(s1);
    WriteShaped(WithStatus(t, RefreshAddresses(St(t), t.inst.obj.spec, ReadinessOf(t.now))), spec);
  }

  // ---- Stop, start, modify, delete ----

  /** A child whose content was rewritten to what is wanted. */
  lemma RewrittenShaped(w: World, v: World, k: Key, c: Child, spec: Spec)
    requires Shaped(w, spec) && Same(w, v) && Wanted(w.id, w.ns, spec, k, c)
    requires v.cluster == w.cluster || v.cluster == w.cluster[k := c]
    ensures Shaped(v, spec)
  {
    hide Wanted, ChildKeys;
  }

  lemma PowerShaped(s: Session, during: Phase, running: bool, spec: Spec)
    requires Steady(s, spec) && At(s.w.id, s.inst.obj, PhaseAvailable)
    ensures var t := StatusUpdate(Mark(s, during)); var u := SetVMRunning(t, St(t).refs.vm, running);
            Shaped(t.w, spec) && Shaped(u.w, spec) && Shaped(Fail(u).w, spec)
            && Shaped(Settle(u, Stopped).w, spec) && Shaped(Settle(u, Available).w, spec)
  {
    Modify.Recorded(s.w.id, s.inst.obj);
    hide Fresh, Shaped, StatusUpdate, SetVMRunning, Chosen, ChildKeys, ObjectOk;
    var k := VmKey(s.w.id, s.w.ns);
    WriteShaped(Mark(s, during), spec);
    StatusKept(Mark(s, during));
    PowerFrame(s, during, running);
    var t := StatusUpdate(Mark(s, during));
    var u := SetVMRunning(t, St(t).refs.vm, running);
    if k in s.w.cluster {
      VmWanted(s.w, spec);
      RewrittenShaped(s.w, u.w, k, SetRunning(s.w.cluster[k], running), spec);
    } else {
      ApartShaped(s.w, u.w, spec);
    }
    WriteShaped(WithStatus(u, St(u).(phase := Failed, provisioning := PhaseFailed)), spec);
    WriteShaped(WithStatus(u, St(u).(phase := Stopped, observedGeneration := u.inst.obj.generation)), spec);
    WriteShaped(WithStatus(u, St(u).(phase := Available, observedGeneration := u.inst.obj.generation)), spec);
  }

  /** Powering and resizing to the spec keep a wanted child wanted. */
  lemma VmWanted(w: World, spec: Spec)
    requires Shaped(w, spec)
    ensures VmKey(w.id, w.ns) in w.cluster ==>
              var k := VmKey(w.id, w.ns);
              && (forall on :: Wanted(w.id, w.ns, spec, k, SetRunning(w.cluster[k], on)))
              && ClassOf(spec.instanceClass).Some?
              && Wanted(w.id, w.ns, spec, k, SetSize(w.cluster[k], ClassOf(spec.instanceClass).value))
    ensures DataVolumeKey(w.id, w.ns) in w.cluster ==>
              var k := DataVolumeKey(w.id, w.ns);
              Wanted(w.id, w.ns, spec, k, SetCapacity(w.cluster[k], spec.allocatedStorage))
  {
    hide ClassOf;
    assert VmKey(w.id, w.ns) in ChildKeys(w.id, w.ns) && DataVolumeKey(w.id, w.ns) in ChildKeys(w.id, w.ns);
  }

  lemma ModifyShaped(s: Session, spec: Spec)
    requires Steady(s, spec) && At(s.w.id, s.inst.obj, PhaseAvailable)
    ensures Shaped(ReconcileModify(s).w, spec)
  {
    Modify.Recorded(s.w.id, s.inst.obj);
    SpecKept(Mark(s, Modifying));
    hide Fresh, Shaped, StatusUpdate, ResizeVM, ResizeDataVolume, Chosen, ChildKeys, ObjectOk, ClassOf, Wanted;
    WriteShaped(Mark(s, Modifying), spec);
    StatusKept(Mark(s, Modifying));
    var t := StatusUpdate(Mark(s, Modifying));
    WriteShaped(WithStatus(t, St(t).(phase := Failed, provisioning := PhaseFailed)), spec);
    var size := ClassOf(spec.instanceClass);
    if !Halted(t) && size.Some? {
      var u := ResizeVM(t, St(t).refs.vm, size.value);
      ResizeVMFrame(t, St(t).refs.vm, size.value);
      VmWanted(t.w, spec);
      var k := VmKey(s.w.id, s.w.ns);
      if k in t.w.cluster { RewrittenShaped(t.w, u.w, k, SetSize(t.w.cluster[k], size.value), spec); }
      else { ApartShaped(t.w, u.w, spec); }
      var v := ResizeDataVolume(u, St(u).refs.dataVolume, u.inst.obj.spec.allocatedStorage);
      ResizeDataVolumeFrame(u, St(u).refs.dataVolume, u.inst.obj.spec.allocatedStorage);
      VmWanted(u.w, spec);
      var d := DataVolumeKey(s.w.id, s.w.ns);
      if d in u.w.cluster { RewrittenShaped(u.w, v.w, d, SetCapacity(u.w.cluster[d], spec.allocatedStorage), spec); }
      else { ApartShaped(u.w, v.w, spec); }
      WriteShaped(WithStatus(v, St(v).(phase := Failed, provisioning := PhaseFailed)), spec);
      WriteShaped(WithStatus(v, St(v).(phase := Available, observedGeneration := v.inst.obj.generation)), spec);
    }
  }

  /** A status write that succeeds on an unchanged spec returns that spec. */
  lemma SpecKept(s: Session)
    requires SessionOk(s)
    ensures StatusUpdate(s).inst.obj.spec == s.inst.obj.spec
  {
    hide WorldOk;
    TakeOk(s);
  }

  lemma DeleteShaped(s: Session, spec: Spec)
    requires Steady(s, spec)
    ensures Shaped(ReconcileDelete(s).w, spec)
  {
    hide Fresh, ReconcileDelete, TeardownKeys, Wanted, ChildKeys, Chosen;
    DeleteFrame(s);
  }

  lemma FinalizerShaped(s: Session, spec: Spec)
    requires Shaped(s.w, spec)
    ensures Shaped(FinalizerUpdate(s, true).w, spec)
  {
    hide Shaped, FinalizerUpdate;
    FinalizerUpdateFrame(s, true);
    ApartShaped(s.w, FinalizerUpdate(s, true).w, spec);
  }

  // ---- Whole runs ----

  lemma DispatchShaped(s: Session, spec: Spec)
    requires Steady(s, spec)
    ensures Shaped(Dispatch(s).w, spec)
  {
    FreshOk(s);
    hide Steady, Fresh, Legal, Shaped, Provision, ReconcileModify, ReconcileDelete, FinalizerUpdate,
         StatusUpdate, SetVMRunning, Ledger, Canonical;
    var o := s.inst.obj;
    SteadyShaped(s, spec);
    if o.deleting {
      if o.finalizer { DeleteShaped(s, spec); }
    } else if !o.finalizer {
      FinalizerShaped(s, spec);
    } else if o.spec.running == Some(false) && o.status.phase == Available {
      PowerShaped(s, Stopping, false, spec);
    } else if o.spec.running == Some(true) && o.status.phase == Stopped {
      PowerShaped(s, Starting, true, spec);
    } else if o.status.phase == Available && o.generation != o.status.observedGeneration {
      ModifyShaped(s, spec);
    } else {
      ProvisionShaped(s, spec);
    }
  }

  lemma ProvisionShaped(s: Session, spec: Spec)
    requires Steady(s, spec) && At(s.w.id, s.inst.obj, St(s).provisioning)
    ensures Shaped(Provision(s).w, spec)
  {
    SteadyShaped(s, spec);
    hide Steady, Shaped, PhaseNetwork, PhaseStorage, PhaseVM, PhaseWaitReady, PhaseMonitoring, PhaseVpcPeering,
         PhaseAvailableStep, Ledger, Canonical;
    match St(s).provisioning
    case Unset => PhaseNetworkShaped(s, spec);
    case NetworkProvisioned => PhaseStorageShaped(s, spec);
    case StorageProvisioned => PhaseVMShaped(s, spec);
    case VMCreated => PhaseWaitShaped(s, spec);
    case WaitingForCloudInit => PhaseWaitShaped(s, spec);
    case DatabaseReady => PhaseMonitoringShaped(s, spec);
    case MonitoringDeployed => PhasePeeringShaped(s, spec);
    case VpcPeeringCreated => PhaseAvailableShaped(s, spec);
    case PhaseAvailable => PhaseAvailableShaped(s, spec);
    case PhaseFailed =>
  }

  lemma SteadyShaped(s: Session, spec: Spec)
    requires Steady(s, spec)
    ensures Shaped(s.w, spec)
  {
  }

  /** Every version of `w` has this spec, and the first had recorded nothing. */
  ghost predicate OneSpec(w: World, spec: Spec) {
    Version(w, 0).status == NewStatus && forall i: nat | i <= |w.past| :: Version(w, i).spec == spec
  }

  lemma OneSpecBefore(w: World, v: World, spec: Spec)
    requires Grows(w, v) && OneSpec(v, spec)
    ensures OneSpec(w, spec)
  {
    assert Version(v, 0) == Version(w, 0);
    forall i: nat | i <= |w.past| ensures Version(w, i).spec == spec { assert Version(v, i) == Version(w, i); }
  }

  lemma ReconcileShaped(w: World, script: seq<Turn>, spec: Spec)
    requires WorldOk(w) && Shaped(w, spec) && OneSpec(Reconcile(w, script).w, spec)
    ensures Shaped(Reconcile(w, script).w, spec)
  {
    ReconcileOk(w, script);
    ReadOk(Begin(w, script));
    ReadFrame(w, script);
    var s := Read(Begin(w, script));
    hide WorldOk, Dispatch, Read, Shaped, Grows;
    ApartShaped(w, s.w, spec);
    if !Halted(s) && s.err == NoErr {
      DispatchOk(s);
      OneSpecBefore(s.w, Dispatch(s).w, spec);
      ChoicesFollowSpec(s.w, spec, s.inst.rv);
      DispatchShaped(s, spec);
    }
  }

  lemma {:induction false} RunShaped(w: World, scripts: seq<seq<Turn>>, spec: Spec)
    requires WorldOk(w) && Shaped(w, spec) && OneSpec(Run(w, scripts), spec)
    ensures Shaped(Run(w, scripts), spec)
    decreases |scripts|
  {
    if scripts != [] {
      var v := Reconcile(w, scripts[0]).w;
      assert Run(w, scripts) == Run(v, scripts[1..]);
      hide WorldOk, Reconcile, Shaped, OneSpec, Grows;
      ReconcileOk(w, scripts[0]);
      RunOk(v, scripts[1..]);
      OneSpecBefore(v, Run(w, scripts), spec);
      ReconcileShaped(w, scripts[0], spec);
      RunShaped(v, scripts[1..], spec);
    }
  }

  /** Over every run whose spec was left alone, from a cluster where the names were free: each
      child that exists is the one the spec asks for. */
  lemma ChildrenMatchSpec(id: string, ns: string, spec: Spec, cluster: map<Key, Child>, scripts: seq<seq<Turn>>)
    requires cluster.Keys !! ChildKeys(id, ns)
    requires var w := Run(Init(id, ns, spec, cluster), scripts);
             forall i: nat | i <= |w.past| :: Version(w, i).spec == spec
    ensures Shaped(Run(Init(id, ns, spec, cluster), scripts), spec)
  {
    var w0 := Init(id, ns, spec, cluster);
    InitOk(id, ns, spec, cluster);
    hide Run, WorldOk, Wanted, ChildKeys;
    RunOk(w0, scripts);
    assert Version(Run(w0, scripts), 0) == Version(w0, 0);
    RunShaped(w0, scripts, spec);
  }
}
