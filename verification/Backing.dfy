/** No dangling refs: until a teardown, every recorded child exists on the cluster, through all
    crashes, lost and unacknowledged writes, API errors and stale reads. */
module Backing {
  import opened Types
  import opened Names
  import opened World
  import opened Harvester
  import opened Reconciler
  import opened Invariants
  import opened Phases
  import opened Theorems
  import opened Frames
  import opened Keeping
  import Conservation

  ghost predicate Covers(w: World, refs: Refs) { TeardownKeys(w.ns, refs) <= w.cluster.Keys }

  ghost predicate Backed(w: World) { TornDown in w.log || Covers(w, w.cur.status.refs) }

  /** Both the stored refs and those in memory are backed. */
  ghost predicate Good(s: Session) { Covers(s.w, s.w.cur.status.refs) && Covers(s.w, St(s).refs) }

  // ---- One call ----

  /** Operations that keep children and status keep what is backed. */
  lemma KeptGood(s: Session, t: Session)
    requires Good(s) && Keeps(s, t)
    ensures Good(t)
  {
    hide TeardownKeys;
  }

  /** A status write stores refs that were in memory, or leaves the stored ones. */
  lemma WriteGood(s: Session)
    requires Good(s)
    ensures Good(StatusUpdate(s)) && Backed(StatusUpdate(s).w)
  {
    hide TeardownKeys, StatusUpdate;
    WriteStores(s);
    StatusUpdateFrame(s);
  }

  lemma FinalizerGood(s: Session, finalizer: bool)
    requires Good(s)
    ensures Backed(FinalizerUpdate(s, finalizer).w)
  {
    hide TeardownKeys, FinalizerUpdate;
    FinalizerStores(s, finalizer);
    FinalizerUpdateFrame(s, finalizer);
  }

  /** Recording refs that are backed. */
  lemma EditGood(s: Session, st: Status)
    requires Good(s) && Covers(s.w, st.refs)
    ensures Good(WithStatus(s, st)) && Good(StatusUpdate(WithStatus(s, st)))
  {
    hide StatusUpdate, TeardownKeys;
    WriteGood(WithStatus(s, st));
  }

  lemma GoodCovers(s: Session)
    requires Good(s)
    ensures Covers(s.w, St(s).refs) && Backed(s.w)
  {
  }

  lemma PollGood(s: Session)
    requires Good(s)
    ensures Good(Poll(s))
  {
    hide TeardownKeys;
  }

  // ---- Phases ----

  /** A live version read by a session whose refs are all backed. */
  ghost predicate Ready(s: Session, p: Provisioning) { Fresh(s) && At(s.w.id, s.inst.obj, p) && Good(s) }

  lemma FailGood(s: Session)
    requires Good(s)
    ensures Good(Fail(s))
  {
    hide Good, StatusUpdate;
    GoodCovers(s);
    EditGood(s, St(s).(phase := Failed, provisioning := PhaseFailed));
  }

  lemma ReadyFacts(s: Session, p: Provisioning)
    requires Ready(s, p)
    ensures Good(s) && Covers(s.w, St(s).refs) && St(s).provisioning == p
    ensures p == Unset ==> St(s).refs == NoRefs && St(s).phase == NoPhase
    ensures p == NetworkProvisioned ==> St(s).refs.dataVolume == ""
    ensures p == StorageProvisioned ==> St(s).refs.vm == St(s).refs.secret == ""
    ensures p == DatabaseReady ==> St(s).refs.monitor == "" && St(s).endpoint.Some?
    ensures p == MonitoringDeployed ==> St(s).refs.peering == ""
  {
    hide Fresh, Covers, ClassOf;
    if p == Unset { UnsetRefs(s.w.id, s.inst.obj); }
  }

  /** Recording children that exist keeps the refs backed. */
  lemma RecordNetwork(w: World, nad: string)
    requires Covers(w, NoRefs)
    ensures Covers(w, NoRefs.(nad := nad))
    ensures VpcKey(w.id) in w.cluster && NadKey(w.id, w.ns) in w.cluster && SubnetKey(w.id) in w.cluster ==>
              Covers(w, NoRefs.(vpc := VpcName(w.id), subnet := SubnetName(w.id), nad := NadName(w.id)))
  {
    Conservation.RecordKeys(w.id, w.ns, NoRefs);
    hide TeardownKeys, VpcKey, NadKey, SubnetKey;
  }

  lemma RecordChild(w: World, refs: Refs)
    requires Covers(w, refs)
    ensures refs.dataVolume == "" && DataVolumeKey(w.id, w.ns) in w.cluster ==>
              Covers(w, refs.(dataVolume := DataVolumeName(w.id)))
    ensures refs.vm == refs.secret == "" && VmKey(w.id, w.ns) in w.cluster && SecretKey(w.id, w.ns) in w.cluster ==>
              Covers(w, refs.(vm := VmName(w.id), secret := SecretName(w.id)))
    ensures refs.monitor == "" && MonitorKey(w.id, w.ns) in w.cluster ==> Covers(w, refs.(monitor := MonitorName(w.id)))
    ensures refs.peering == "" && PeeringKey(w.id) in w.cluster ==> Covers(w, refs.(peering := PeeringName(w.id)))
  {
    Conservation.RecordKeys(w.id, w.ns, refs);
    hide TeardownKeys, VpcKey, DataVolumeKey, VmKey, SecretKey, MonitorKey, PeeringKey;
  }

  lemma PhaseNetworkGood(s: Session)
    requires Ready(s, Unset)
    ensures Good(PhaseNetwork(s))
  {
    hide Ready, Good, Covers, Create, StatusUpdate, TeardownKeys, VpcKey, NadKey, SubnetKey, DataVolumeKey,
         VmKey, SecretKey,
         ServiceKey, MonitorKey, PeeringKey, VpcName, NadName, SubnetName, DataVolumeName, VmName, SecretName,
         MonitorName, PeeringName, CreateVPCNetwork;
    ReadyFacts(s, Unset);
    var spec, id, ns := s.inst.obj.spec, s.w.id, s.w.ns;
    var c := WithStatus(s, St(s).(phase := Creating));
    GoodCovers(s);
    EditGood(s, St(c));
    if spec.networkRef != "" {
      RecordNetwork(c.w, spec.networkRef);
      EditGood(c, St(c).(refs := NoRefs.(nad := spec.networkRef), provisioning := NetworkProvisioned));
    } else {
      var vlan := Vlan(spec);
      CreateVPCNetworkFrame(c, vlan);
      NetworkKeeps(c, vlan);
      var t := CreateVPCNetwork(c, vlan);
      KeptGood(c, t);
      GoodCovers(t);
      FailGood(t);
      if !Halted(t) && t.err == NoErr {
        var refs := NoRefs.(vpc := VpcName(id), subnet := SubnetName(id), nad := NadName(id));
        RecordNetwork(t.w, "");
        EditGood(t, St(t).(refs := refs, provisioning := NetworkProvisioned));
      }
    }
  }

  lemma PhaseStorageGood(s: Session)
    requires Ready(s, NetworkProvisioned)
    ensures Good(PhaseStorage(s))
  {
    hide Ready, Good, Covers, Create, StatusUpdate, TeardownKeys, VpcKey, NadKey, SubnetKey, DataVolumeKey,
         VmKey, SecretKey,
         ServiceKey, MonitorKey, PeeringKey, VpcName, NadName, SubnetName, DataVolumeName, VmName, SecretName,
         MonitorName, PeeringName, IgnoreAlreadyExists;
    ReadyFacts(s, NetworkProvisioned);
    var spec, id, ns, refs := s.inst.obj.spec, s.w.id, s.w.ns, St(s).refs;
    var kind := StorageClass(spec);
    var k, c := DataVolumeKey(id, ns), VolumeChild(spec.allocatedStorage, kind);
    CreateKeeps(s, k, c);
    CreateFrame(s, k, c);
    Ignored(Create(s, k, c));
    var t := CreateDataVolume(s, spec.allocatedStorage, kind);
    KeptGood(s, t);
    FailGood(t);
    GoodCovers(t);
    if !Halted(t) && t.err == NoErr {
      RecordChild(t.w, refs);
      EditGood(t, St(t).(refs := refs.(dataVolume := DataVolumeName(id)), provisioning := StorageProvisioned));
    }
  }

  lemma Ignored(s: Session)
    ensures IgnoreAlreadyExists(s) == s.(err := IgnoreAlreadyExists(s).err)
    ensures IgnoreAlreadyExists(s).err == NoErr <==> s.err != OtherErr
    ensures s.err == OtherErr ==> IgnoreAlreadyExists(s).err == OtherErr
  {
  }

  lemma PhaseVMGood(s: Session)
    requires Ready(s, StorageProvisioned)
    ensures Good(PhaseVM(s))
  {
    hide Ready, Good, Covers, Create, StatusUpdate, TeardownKeys, VpcKey, NadKey, SubnetKey, DataVolumeKey,
         VmKey, SecretKey,
         ServiceKey, MonitorKey, PeeringKey, VpcName, NadName, SubnetName, DataVolumeName, VmName, SecretName,
         MonitorName, PeeringName, CreatePostgresVM, ClassOf;
    ReadyFacts(s, StorageProvisioned);
    var size, id, ns, refs := ClassOf(s.inst.obj.spec.instanceClass), s.w.id, s.w.ns, St(s).refs;
    FailGood(s);
    if size.Some? {
      CreatePostgresVMFrame(s, size.value);
      VMKeeps(s, size.value);
      var t := CreatePostgresVM(s, size.value);
      KeptGood(s, t);
      FailGood(t);
      GoodCovers(t);
      if !Halted(t) && t.err == NoErr {
        RecordChild(t.w, refs);
        EditGood(t, St(RecordVM(t)));
      }
    }
  }

  lemma PhaseWaitGood(s: Session)
    requires Good(s)
    ensures Good(PhaseWaitReady(s))
  {
    hide Good, Covers, StatusUpdate, Take, ReadinessOf;
    TakeKeeps(s);
    var t := Take(s);
    KeptGood(s, t);
    var r := ReadinessOf(t.now);
    PollGood(t);
    GoodCovers(t);
    GoodCovers(Poll(t));
    WriteGood(Poll(t));
    EditGood(Poll(t), St(t).(provisioning := WaitingForCloudInit));
    EditGood(t, St(t).(endpoint := Some(Endpoint(r.ip, SpecPort(t.inst.obj.spec.port))),
                       managementAddress := r.mgmtIp, provisioning := DatabaseReady));
  }

  lemma PhaseMonitoringGood(s: Session)
    requires Ready(s, DatabaseReady)
    ensures Good(PhaseMonitoring(s))
  {
    hide Ready, Good, Covers, Create, StatusUpdate, TeardownKeys, VpcKey, NadKey, SubnetKey, DataVolumeKey,
         VmKey, SecretKey,
         ServiceKey, MonitorKey, PeeringKey, VpcName, NadName, SubnetName, DataVolumeName, VmName, SecretName,
         MonitorName, PeeringName;
    ReadyFacts(s, DatabaseReady);
    var id, ns, refs := s.w.id, s.w.ns, St(s).refs;
    MonitoringKeeps(s);
    CreateFrame(s, ServiceKey(id, ns), ServiceChild);
    var a := Create(s, ServiceKey(id, ns), ServiceChild);
    CreateFrame(a, MonitorKey(id, ns), MonitorChild);
    var t := DeployMonitoring(s);
    KeptGood(s, t);
    if !Halted(t) {
      GoodCovers(t);
      EditGood(t, St(t).(provisioning := MonitoringDeployed));
      if t.err == NoErr {
        RecordChild(t.w, refs);
        EditGood(t, St(t).(refs := refs.(monitor := MonitorName(id)), provisioning := MonitoringDeployed));
      }
    }
  }

  lemma PhasePeeringGood(s: Session)
    requires Ready(s, MonitoringDeployed)
    ensures Good(PhaseVpcPeering(s))
  {
    hide Ready, Good, Covers, Create, StatusUpdate, TeardownKeys, VpcKey, NadKey, SubnetKey, DataVolumeKey,
         VmKey, SecretKey,
         ServiceKey, MonitorKey, PeeringKey, VpcName, NadName, SubnetName, DataVolumeName, VmName, SecretName,
         MonitorName, PeeringName, IgnoreAlreadyExists;
    ReadyFacts(s, MonitoringDeployed);
    var id, ns, refs, peering := s.w.id, s.w.ns, St(s).refs, s.inst.obj.spec.vpcPeering;
    EditGood(s, St(s).(provisioning := VpcPeeringCreated));
    if peering.Some? {
      var c := PeeringChild(refs.vpc, refs.subnet, peering.value);
      CreateKeeps(s, PeeringKey(id), c);
      CreateFrame(s, PeeringKey(id), c);
      Ignored(Create(s, PeeringKey(id), c));
      var t := CreateVpcPeering(s, peering.value);
      KeptGood(s, t);
      if !Halted(t) {
        GoodCovers(t);
        EditGood(t, St(t).(provisioning := VpcPeeringCreated));
        if t.err == NoErr {
          RecordChild(t.w, refs);
          EditGood(t, St(t).(refs := refs.(peering := PeeringName(id)), provisioning := VpcPeeringCreated));
        }
      }
    }
  }

  lemma PhaseAvailableGood(s: Session)
    requires Good(s)
    ensures Good(PhaseAvailableStep(s))
  {
    hide Good, Covers, StatusUpdate, Take, ReadinessOf;
    var st := St(s).(phase := Available, provisioning := PhaseAvailable, observedGeneration := s.inst.obj.generation);
    GoodCovers(s);
    EditGood(s, st);
    var s1 := WithStatus(s, st);
    TakeKeeps(s1);
    var t := Take(s1);
    KeptGood(s1, t);
    GoodCovers(t);
    EditGood(t, RefreshAddresses(St(t), t.inst.obj.spec, ReadinessOf(t.now)));
  }

  // ---- Stop, start, modify, delete ----

  lemma PowerGood(s: Session, during: Phase, running: bool, after: Phase)
    requires Good(s)
    ensures var t := StatusUpdate(Mark(s, during)); var u := SetVMRunning(t, St(t).refs.vm, running);
            Good(t) && Good(u) && Good(Fail(u)) && Good(Settle(u, after))
  {
    hide Good, Covers, StatusUpdate, SetVMRunning;
    GoodCovers(s);
    EditGood(s, St(s).(phase := during));
    var t := StatusUpdate(Mark(s, during));
    SetVMRunningKeeps(t, St(t).refs.vm, running);
    var u := SetVMRunning(t, St(t).refs.vm, running);
    KeptGood(t, u);
    FailGood(u);
    GoodCovers(u);
    EditGood(u, St(u).(phase := after, observedGeneration := u.inst.obj.generation));
  }

  lemma ModifyGood(s: Session)
    requires Good(s)
    ensures Good(ReconcileModify(s))
  {
    hide Good, Covers, StatusUpdate, ResizeVM, ResizeDataVolume, ClassOf;
    GoodCovers(s);
    EditGood(s, St(s).(phase := Modifying));
    var t := StatusUpdate(Mark(s, Modifying));
    FailGood(t);
    var size := ClassOf(t.inst.obj.spec.instanceClass);
    if size.Some? {
      ResizesKeep(t, St(t).refs.vm, size.value, "", 0);
      var u := ResizeVM(t, St(t).refs.vm, size.value);
      KeptGood(t, u);
      ResizesKeep(u, "", size.value, St(u).refs.dataVolume, u.inst.obj.spec.allocatedStorage);
      var v := ResizeDataVolume(u, St(u).refs.dataVolume, u.inst.obj.spec.allocatedStorage);
      KeptGood(u, v);
      FailGood(v);
      GoodCovers(v);
      EditGood(v, St(v).(phase := Available, observedGeneration := v.inst.obj.generation));
    }
  }

  /** Deletion: either nothing was touched yet, or the log says so. */
  lemma DeleteGood(s: Session)
    requires Good(s)
    ensures Backed(ReconcileDelete(s).w)
  {
    hide Good, Covers, StatusUpdate, TeardownKeys, Take, FinalizerUpdate;
    GoodCovers(s);
    WriteGood(s);
    EditGood(s, St(s).(phase := Deleting));
    var t := StatusUpdate(Mark(s, Deleting));
    GoodCovers(t);
    TakeKeeps(t);
    KeptGood(t, Take(t));
    GoodCovers(Take(t));
    var u := TeardownAll(t);
    if !Halted(u) {
      assert u.w.log[|u.w.log| - 1] == TornDown;
      FinalizerUpdateFrame(u, false);
    }
  }

  // ---- Whole runs ----

  lemma MakeReady(s: Session)
    requires Fresh(s) && Good(s) && !s.inst.obj.deleting && s.inst.obj.finalizer
    ensures Ready(s, St(s).provisioning) && !St(s).provisioning.Pending? && !St(s).provisioning.Unknown?
  {
    FreshOk(s);
    hide Fresh, Good, Ledger, Canonical;
  }

  lemma DispatchBacked(s: Session)
    requires Fresh(s) && Good(s)
    ensures Backed(Dispatch(s).w)
  {
    hide Fresh, Good, Backed, Provision, ReconcileModify, ReconcileDelete, FinalizerUpdate, StatusUpdate,
         SetVMRunning, Ready;
    var o := s.inst.obj;
    GoodCovers(s);
    if o.deleting {
      if o.finalizer { DeleteGood(s); }
    } else if !o.finalizer {
      FinalizerGood(s, true);
    } else {
      LiveGood(s);
      GoodCovers(Dispatch(s));
    }
  }

  lemma LiveGood(s: Session)
    requires Fresh(s) && Good(s) && !s.inst.obj.deleting && s.inst.obj.finalizer
    ensures Good(Dispatch(s))
  {
    hide Fresh, Good, Backed, Provision, ReconcileModify, ReconcileDelete, FinalizerUpdate, StatusUpdate,
         SetVMRunning, Ready;
    var o := s.inst.obj;
    if o.spec.running == Some(false) && o.status.phase == Available {
      PowerGood(s, Stopping, false, Stopped);
    } else if o.spec.running == Some(true) && o.status.phase == Stopped {
      PowerGood(s, Starting, true, Available);
    } else if o.status.phase == Available && o.generation != o.status.observedGeneration {
      ModifyGood(s);
    } else {
      MakeReady(s);
      ProvisionGood(s);
    }
  }

  lemma ProvisionGood(s: Session)
    requires Ready(s, St(s).provisioning) && !St(s).provisioning.Pending? && !St(s).provisioning.Unknown?
    ensures Good(Provision(s))
  {
    hide Ready, Good, Covers, PhaseNetwork, PhaseStorage, PhaseVM, PhaseWaitReady, PhaseMonitoring, PhaseVpcPeering,
         PhaseAvailableStep;
    ReadyFacts(s, St(s).provisioning);
    match St(s).provisioning
    case Unset => PhaseNetworkGood(s);
    case NetworkProvisioned => PhaseStorageGood(s);
    case StorageProvisioned => PhaseVMGood(s);
    case VMCreated => PhaseWaitGood(s);
    case WaitingForCloudInit => PhaseWaitGood(s);
    case DatabaseReady => PhaseMonitoringGood(s);
    case MonitoringDeployed => PhasePeeringGood(s);
    case VpcPeeringCreated => PhaseAvailableGood(s);
    case PhaseAvailable => PhaseAvailableGood(s);
    case PhaseFailed =>
  }

  /** Refs recorded earlier are still recorded. */
  lemma TasksGrow(id: string, ns: string, a: Refs, b: Refs)
    requires WriteOnce(a, b) && Canonical(id, a)
    ensures TeardownKeys(ns, a) <= TeardownKeys(ns, b)
  {
  }

  lemma ReadBacked(w: World, script: seq<Turn>)
    requires WorldOk(w) && Backed(w)
    ensures var s := Read(Begin(w, script));
            Backed(s.w) && (!Halted(s) && s.err == NoErr && TornDown !in w.log ==> Good(s))
  {
    ReadOk(Begin(w, script));
    ReadFrame(w, script);
    var s := Read(Begin(w, script));
    assert s.w.cur.status == w.cur.status by { TakeKeeps(Begin(w, script)); }
    if !Halted(s) && s.err == NoErr {
      FreshOk(s);
      LaterVersions(s.w, s.inst.rv, |s.w.past|);
      hide WorldOk, Read, TeardownKeys, Ledger, Coupled;
      TasksGrow(s.w.id, s.w.ns, St(s).refs, s.w.cur.status.refs);
    }
  }

  lemma ReconcileBacked(w: World, script: seq<Turn>)
    requires WorldOk(w) && Backed(w)
    ensures Backed(Reconcile(w, script).w)
  {
    ReconcileOk(w, script);
    ReadBacked(w, script);
    ReadOk(Begin(w, script));
    hide WorldOk, Read, Dispatch, Good, Covers, Fresh;
    var s := Read(Begin(w, script));
    if !Halted(s) && s.err == NoErr && TornDown !in w.log { DispatchBacked(s); }
  }

  /** Over every run: a recorded ref never dangles before a teardown. */
  lemma {:induction false} NoDanglingRefs(w: World, scripts: seq<seq<Turn>>)
    requires WorldOk(w) && Backed(w)
    ensures Backed(Run(w, scripts))
    decreases |scripts|
  {
    if scripts != [] {
      hide WorldOk, Backed, Reconcile;
      ReconcileOk(w, scripts[0]);
      ReconcileBacked(w, scripts[0]);
      NoDanglingRefs(Reconcile(w, scripts[0]).w, scripts[1..]);
    }
  }

  /** So an available instance has its volume, VM and Secret, and its network if it made one. */
  lemma AvailableIsBuilt(w: World)
    requires Reachable(w) && w.cur.status.provisioning == PhaseAvailable && TornDown !in w.log
    ensures {DataVolumeKey(w.id, w.ns), VmKey(w.id, w.ns), SecretKey(w.id, w.ns)} <= w.cluster.Keys
    ensures w.cur.status.refs.vpc != "" ==> {VpcKey(w.id), SubnetKey(w.id), NadKey(w.id, w.ns)} <= w.cluster.Keys
  {
    hide Reachable, TeardownKeys, DataVolumeKey, VmKey, SecretKey, VpcKey, SubnetKey, NadKey, Version;
    LedgerIsPrefix(w, |w.past|);
    NewestVersion(w);
    ReachableBacked(w);
    BuiltTasks(w.id, w.ns, w.cur.status.refs);
  }

  lemma NewestVersion(w: World)
    ensures Version(w, |w.past|) == w.cur
  {
  }

  lemma ReachableBacked(w: World)
    requires Reachable(w)
    ensures Backed(w)
  {
    var spec, cluster, scripts :| Run(Init(w.id, w.ns, spec, cluster), scripts) == w;
    var w0 := Init(w.id, w.ns, spec, cluster);
    InitOk(w.id, w.ns, spec, cluster);
    assert Backed(w0);
    hide *;
    NoDanglingRefs(w0, scripts);
  }

  lemma BuiltTasks(id: string, ns: string, refs: Refs)
    requires refs.dataVolume == DataVolumeName(id) && refs.vm == VmName(id) && refs.secret == SecretName(id)
    ensures {DataVolumeKey(id, ns), VmKey(id, ns), SecretKey(id, ns)} <= TeardownKeys(ns, refs)
    ensures (refs.vpc, refs.subnet, refs.nad) == (VpcName(id), SubnetName(id), NadName(id)) ==>
              {VpcKey(id), SubnetKey(id), NadKey(id, ns)} <= TeardownKeys(ns, refs)
  {
  }
}
