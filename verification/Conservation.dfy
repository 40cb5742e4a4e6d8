/** Conservation: when no store call was lost and no call failed in part, the children on the
    cluster are exactly the recorded ones plus the metrics Service, and deletion leaves at most
    that Service behind. */
module Conservation {
  import opened Types
  import opened Names
  import opened World
  import opened Harvester
  import opened Reconciler
  import opened Invariants
  import opened Safety
  import opened Phases
  import opened Theorems
  import opened Frames
  import opened Progress
  import opened Keeping
  import opened Writes
  import Protection

  /** The instance's children on the cluster, the metrics Service aside. */
  function Children(w: World): set<Key> {
    w.cluster.Keys * ChildKeys(w.id, w.ns) - {ServiceKey(w.id, w.ns)}
  }

  function Recorded(w: World): set<Key> {
    if w.live then TeardownKeys(w.ns, w.cur.status.refs) else {}
  }

  ghost predicate Accounted(w: World) { Children(w) == Recorded(w) }

  predicate Lossless(w: World) { w.lost == 0 && w.faults.leaked == 0 }

  /** No call failed in part: if the instance failed between `w` and `v`, no create call took
      effect in between. */
  ghost predicate Whole(w: World, v: World) {
    w.cur.status.provisioning != PhaseFailed && v.cur.status.provisioning == PhaseFailed ==> v.log == w.log
  }

  ghost predicate AllWhole(w: World, scripts: seq<seq<Turn>>)
    decreases |scripts|
  {
    scripts == [] ||
      (Whole(w, Reconcile(w, scripts[0]).w) && AllWhole(Reconcile(w, scripts[0]).w, scripts[1..]))
  }

  // ---- Users ----

  lemma {:induction false} UsersAccounted(w: World, actions: seq<UserAction>)
    requires WorldOk(w) && Accounted(w)
    ensures Accounted(Users(w, actions))
    decreases |actions|
  {
    if actions != [] {
      assert VersionOk(w, |w.past|);
      UserOk(w, actions[0]);
      hide WorldOk, ChildKeys, ObjectOk;
      UserAccounted(w, actions[0]);
      UsersAccounted(User(w, actions[0]), actions[1..]);
    }
  }

  lemma UserAccounted(w: World, a: UserAction)
    requires ObjectOk(w.id, w.cur) && Accounted(w)
    ensures Accounted(User(w, a))
  {
    hide ChildKeys, Coupled, Ledger, Canonical;
  }

  // ---- One write ----

  /** A phase that added `keys` and recorded them in the status it writes. */
  lemma WriteAccounts(s: Session, t: Session, st: Status, keys: set<Key>)
    requires Fresh(s) && Accounted(s.w) && Steps(s, t) && t.inst == s.inst && !Halted(t)
    requires Children(t.w) == Children(s.w) + keys
    requires TeardownKeys(s.w.ns, st.refs) == TeardownKeys(s.w.ns, St(s).refs) + keys
    requires s.w.lost == 0 && StatusUpdate(WithStatus(t, st)).w.lost == 0
    ensures Accounted(StatusUpdate(WithStatus(t, st)).w)
  {
    hide WorldOk, Legal, StatusUpdate, ChildKeys, TeardownKeys, ServiceKey;
    UnwrittenOk(t, st);
    StatusUpdatePays(WithStatus(t, st));
    StatusUpdateFrame(WithStatus(t, st));
    assert t.w.live by { WroteLive(WithStatus(t, st)); }
  }

  lemma FailAccounts(s: Session, t: Session, st: Status)
    requires Fresh(s) && Accounted(s.w) && Steps(s, t) && t.inst == s.inst && !Halted(t)
    requires s.w.lost == 0 && StatusUpdate(WithStatus(t, st)).w.lost == 0 && Whole(s.w, StatusUpdate(WithStatus(t, st)).w)
    requires St(s).provisioning != PhaseFailed && st.provisioning == PhaseFailed && st.refs == St(s).refs
    requires t.w.log == s.w.log ==> t.w.cluster.Keys == s.w.cluster.Keys
    ensures Accounted(StatusUpdate(WithStatus(t, st)).w)
  {
    hide WorldOk, Legal, StatusUpdate, ChildKeys, TeardownKeys, ServiceKey, Grows, Evolves;
    UnwrittenOk(t, st);
    StatusUpdatePays(WithStatus(t, st));
    StatusUpdateFrame(WithStatus(t, st));
    WroteLive(WithStatus(t, st));
    IsCurrent(s, t);
    assert Children(t.w) == Children(s.w) + {};
    WriteAccounts(s, t, st, {});
  }

  lemma WroteLive(s: Session)
    requires SessionOk(s)
    ensures StatusUpdate(s).w.live ==> s.w.live
  {
    hide WorldOk;
    TakeOk(s);
    if Take(s).w.live { assert s.w.live; }
  }

  lemma ChildrenAdd(w: World, v: World, keys: set<Key>)
    requires Adds(w, v, keys) && keys <= v.cluster.Keys && keys <= ChildKeys(w.id, w.ns) - {ServiceKey(w.id, w.ns)}
    ensures Children(v) == Children(w) + keys
  {
    hide ChildKeys, VpcKey, ServiceKey;
  }

  /** Recording a ref adds exactly its key to the teardown tasks. */
  lemma RecordKeys(id: string, ns: string, refs: Refs)
    ensures refs == NoRefs ==>
              TeardownKeys(ns, refs.(vpc := VpcName(id), subnet := SubnetName(id), nad := NadName(id)))
              == TeardownKeys(ns, refs) + {VpcKey(id), NadKey(id, ns), SubnetKey(id)}
    ensures refs == NoRefs ==> forall n :: TeardownKeys(ns, refs.(nad := n)) == TeardownKeys(ns, refs)
    ensures refs.dataVolume == "" ==>
              TeardownKeys(ns, refs.(dataVolume := DataVolumeName(id))) == TeardownKeys(ns, refs) + {DataVolumeKey(id, ns)}
    ensures refs.vm == refs.secret == "" ==>
              TeardownKeys(ns, refs.(vm := VmName(id), secret := SecretName(id)))
              == TeardownKeys(ns, refs) + {SecretKey(id, ns), VmKey(id, ns)}
    ensures refs.monitor == "" ==>
              TeardownKeys(ns, refs.(monitor := MonitorName(id))) == TeardownKeys(ns, refs) + {MonitorKey(id, ns)}
              && MonitorKey(id, ns) !in TeardownKeys(ns, refs)
    ensures refs.peering == "" ==>
              TeardownKeys(ns, refs.(peering := PeeringName(id))) == TeardownKeys(ns, refs) + {PeeringKey(id)}
  {
  }

  lemma OwnKeys(id: string, ns: string)
    ensures {VpcKey(id), NadKey(id, ns), SubnetKey(id)} <= ChildKeys(id, ns) - {ServiceKey(id, ns)}
    ensures {SecretKey(id, ns), VmKey(id, ns)} <= ChildKeys(id, ns) - {ServiceKey(id, ns)}
    ensures {DataVolumeKey(id, ns)} <= ChildKeys(id, ns) - {ServiceKey(id, ns)}
    ensures {MonitorKey(id, ns)} <= ChildKeys(id, ns) - {ServiceKey(id, ns)}
    ensures {PeeringKey(id)} <= ChildKeys(id, ns) - {ServiceKey(id, ns)}
  {
  }

  // ---- Phases ----

  lemma NetworkAccounts(s: Session)
    requires Fresh(s) && MayCreate(s) && !Halted(s) && Accounted(s.w) && St(s).provisioning == Unset
    requires s.w.lost == 0 && Lossless(PhaseNetwork(s).w) && Whole(s.w, PhaseNetwork(s).w)
    ensures Accounted(PhaseNetwork(s).w)
  {
    hide WorldOk, Grows, Legal, Anchored, ObjectOk, Evolves, StatusUpdate, CreateVPCNetwork, Version,
         ChildKeys, TeardownKeys, Children, Accounted, VpcKey, NadKey, SubnetKey, DataVolumeKey, SecretKey,
         VmKey, PeeringKey;
    FreshOk(s);
    OwnKeys(s.w.id, s.w.ns);
    RecordKeys(s.w.id, s.w.ns, St(s).refs);
    var o, spec, id, ns := s.inst.obj, s.inst.obj.spec, s.w.id, s.w.ns;
    UnsetRefs(id, o);
    var c := WithStatus(s, St(s).(phase := Creating));
    StepsReflexive(s);
    if spec.networkRef != "" {
      WriteAccounts(s, s, St(c).(refs := NoRefs.(nad := spec.networkRef), provisioning := NetworkProvisioned), {});
    } else {
      var vlan := Vlan(spec);
      UnwrittenOk(s, St(c));
      CreateVPCNetworkOk(c, vlan);
      NetworkKeeps(c, vlan);
      CreateVPCNetworkFrame(c, vlan);
      var t := CreateVPCNetwork(c, vlan);
      BackToRead(s, c, t);
      assert !Halted(t);
      FailCounts(t);
      if t.err != NoErr {
        FailAccounts(s, WithStatus(t, St(s)), St(c).(phase := Failed, provisioning := PhaseFailed));
      } else {
        var keys := {VpcKey(id), NadKey(id, ns), SubnetKey(id)};
        ChildrenAdd(s.w, t.w, keys);
        WriteAccounts(s, WithStatus(t, St(s)),
                      St(c).(refs := NoRefs.(vpc := VpcName(id), subnet := SubnetName(id), nad := NadName(id)),
                             provisioning := NetworkProvisioned), keys);
      }
    }
  }

  lemma StorageAccounts(s: Session)
    requires Fresh(s) && MayCreate(s) && !Halted(s) && Accounted(s.w) && St(s).provisioning == NetworkProvisioned
    requires s.w.lost == 0 && Lossless(PhaseStorage(s).w) && Whole(s.w, PhaseStorage(s).w)
    ensures Accounted(PhaseStorage(s).w)
  {
    hide WorldOk, Grows, Legal, Anchored, Evolves, StatusUpdate, Create, Version,
         ChildKeys, TeardownKeys, Children, Accounted, VpcKey, NadKey, SubnetKey, SecretKey, VmKey, PeeringKey;
    FreshOk(s);
    OwnKeys(s.w.id, s.w.ns);
    RecordKeys(s.w.id, s.w.ns, St(s).refs);
    var spec, id, ns := s.inst.obj.spec, s.w.id, s.w.ns;
    var kind := StorageClass(spec);
    var k := DataVolumeKey(id, ns);
    CreateOk(s, k, VolumeChild(spec.allocatedStorage, kind));
    CreateFrame(s, k, VolumeChild(spec.allocatedStorage, kind));
    CreateKeeps(s, k, VolumeChild(spec.allocatedStorage, kind));
    var t := CreateDataVolume(s, spec.allocatedStorage, kind);
    assert !Halted(t);
    FailCounts(t);
    if t.err != NoErr {
      FailAccounts(s, t, St(s).(phase := Failed, provisioning := PhaseFailed));
    } else {
      ChildrenAdd(s.w, t.w, {k});
      WriteAccounts(s, t, St(s).(refs := St(s).refs.(dataVolume := DataVolumeName(id)),
                                 provisioning := StorageProvisioned), {k});
    }
  }

  lemma VMAccounts(s: Session)
    requires Fresh(s) && MayCreate(s) && !Halted(s) && Accounted(s.w) && St(s).provisioning == StorageProvisioned
    requires s.w.lost == 0 && Lossless(PhaseVM(s).w) && Whole(s.w, PhaseVM(s).w)
    ensures Accounted(PhaseVM(s).w)
  {
    hide WorldOk, Grows, Legal, Anchored, Evolves, StatusUpdate, CreatePostgresVM, Version, ClassOf,
         ChildKeys, TeardownKeys, Children, Accounted, VpcKey, NadKey, SubnetKey, DataVolumeKey, SecretKey,
         VmKey, PeeringKey;
    FreshOk(s);
    OwnKeys(s.w.id, s.w.ns);
    RecordKeys(s.w.id, s.w.ns, St(s).refs);
    StepsReflexive(s);
    var id, ns := s.w.id, s.w.ns;
    var size := ClassOf(s.inst.obj.spec.instanceClass);
    if size == None {
      WriteAccounts(s, s, St(s).(phase := Failed, provisioning := PhaseFailed), {});
    } else {
      CreatePostgresVMOk(s, size.value);
      CreatePostgresVMFrame(s, size.value);
      VMKeeps(s, size.value);
      var t := CreatePostgresVM(s, size.value);
      assert !Halted(t);
      FailCounts(t);
      if t.err != NoErr {
        FailAccounts(s, t, St(s).(phase := Failed, provisioning := PhaseFailed));
      } else {
        var keys := {SecretKey(id, ns), VmKey(id, ns)};
        ChildrenAdd(s.w, t.w, keys);
        WriteAccounts(s, t, St(RecordVM(t)), keys);
      }
    }
  }

  lemma WaitAccounts(s: Session)
    requires Fresh(s) && !Halted(s) && Accounted(s.w) && s.w.lost == 0 && Lossless(PhaseWaitReady(s).w)
    ensures Accounted(PhaseWaitReady(s).w)
  {
    hide WorldOk, Grows, Legal, Anchored, Evolves, StatusUpdate, Take, Version, ReadinessOf, ChildKeys, TeardownKeys;
    TakeOk(s);
    TakeFrame(s);
    var t := Take(s);
    assert !Halted(t);
    var o, r := s.inst.obj, ReadinessOf(t.now);
    assert Beside(t, Poll(t));
    Effect(s, t, Poll(t));
    if !r.running || r.ip == "" {
      WriteAccounts(s, Poll(t), St(s).(provisioning := WaitingForCloudInit), {});
    } else if !r.ready {
      WriteAccounts(s, Poll(t), St(s), {});
      assert WithStatus(Poll(t), St(s)) == Poll(t);
    } else {
      WriteAccounts(s, t, St(s).(endpoint := Some(Endpoint(r.ip, SpecPort(o.spec.port))),
                                 managementAddress := r.mgmtIp, provisioning := DatabaseReady), {});
    }
  }

  /** Without losses the ServiceMonitor cannot exist before its phase runs, so creating it
      succeeds and is recorded. */
  lemma MonitoringAccounts(s: Session)
    requires Fresh(s) && MayCreate(s) && !Halted(s) && Accounted(s.w) && St(s).provisioning == DatabaseReady
    requires s.w.lost == 0 && Lossless(PhaseMonitoring(s).w)
    ensures Accounted(PhaseMonitoring(s).w)
  {
    hide WorldOk, Grows, Legal, Anchored, Evolves, StatusUpdate, DeployMonitoring, Version,
         ChildKeys, TeardownKeys, Children, Accounted, MonitorKey, ServiceKey;
    FreshOk(s);
    var id, ns := s.w.id, s.w.ns;
    RecordKeys(id, ns, St(s).refs);
    DeployMonitoringOk(s);
    DeployMonitoringFrame(s);
    var t := DeployMonitoring(s);
    assert !Halted(t);
    var u := if t.err == NoErr then WithRefs(t, St(s).refs.(monitor := MonitorName(id))) else t;
    var v := To(u, MonitoringDeployed);
    UnwrittenOk(t, St(v));
    StatusUpdatePays(v);
    WroteLive(v);
    IsCurrent(s, t);
    MonitoringOutcome(s);
    NoMonitorYet(s.w);
    MonitoringChildren(s.w, t.w);
    if t.err == NoErr {
      var keys := {MonitorKey(id, ns)};
      WriteAccounts(s, t, St(s).(refs := St(s).refs.(monitor := MonitorName(id)), provisioning := MonitoringDeployed), keys);
    } else {
      WriteAccounts(s, t, St(s).(provisioning := MonitoringDeployed), {});
    }
  }

  lemma NoMonitorYet(w: World)
    requires Accounted(w) && w.cur.status.refs.monitor == ""
    ensures MonitorKey(w.id, w.ns) !in w.cluster
  {
    OwnKeys(w.id, w.ns);
    assert MonitorKey(w.id, w.ns) in w.cluster ==> MonitorKey(w.id, w.ns) in Children(w);
  }

  /** A session whose write can land holds the newest version. */
  lemma IsCurrent(s: Session, t: Session)
    requires Fresh(s) && Steps(s, t) && |t.w.past| <= s.inst.rv && t.w.live
    ensures s.w.cur == s.inst.obj && s.w.live
  {
    hide WorldOk, Legal;
  }

  lemma MonitoringChildren(w: World, v: World)
    requires Adds(w, v, {ServiceKey(w.id, w.ns), MonitorKey(w.id, w.ns)})
    ensures Children(v) == Children(w) + if MonitorKey(w.id, w.ns) in v.cluster then {MonitorKey(w.id, w.ns)} else {}
  {
    hide VpcKey;
    assert MonitorKey(w.id, w.ns) in ChildKeys(w.id, w.ns);
  }

  /** The ServiceMonitor ref is recorded exactly when the object did not exist and the call
      succeeded: a retry after a crash finds it there and never records it. */
  lemma MonitoringOutcome(s: Session)
    requires !Halted(DeployMonitoring(s))
    ensures MonitorKey(s.w.id, s.w.ns) in s.w.cluster ==> DeployMonitoring(s).err != NoErr
    ensures DeployMonitoring(s).w.faults.leaked == s.w.faults.leaked && MonitorKey(s.w.id, s.w.ns) !in s.w.cluster ==>
              (DeployMonitoring(s).err == NoErr <==> MonitorKey(s.w.id, s.w.ns) in DeployMonitoring(s).w.cluster)
  {
    var id, ns := s.w.id, s.w.ns;
    CreateFaults(s, ServiceKey(id, ns), ServiceChild);
    var t := Create(s, ServiceKey(id, ns), ServiceChild);
    CreateFaults(t, MonitorKey(id, ns), MonitorChild);
    hide Create;
    CreateFrame(s, ServiceKey(id, ns), ServiceChild);
    CreateFrame(t, MonitorKey(id, ns), MonitorChild);
  }

  /** A monitoring or peering call that failed and leaked nothing had no effect. */
  lemma CreateFaults(s: Session, k: Key, c: Child)
    ensures var t := Create(s, k, c);
            && s.w.faults.leaked <= t.w.faults.leaked
            && (t.w.faults.leaked == s.w.faults.leaked && k.kind in {ServiceMonitor, VpcPeering} && !Halted(t) && t.err == OtherErr ==>
                  t.w.cluster == s.w.cluster)
  {
    hide Users, Take;
    TakeFrame(s);
  }

  lemma SameChildren(w: World, v: World)
    requires v.cluster == w.cluster && v.id == w.id && v.ns == w.ns
    ensures Children(v) == Children(w) + {}
  {
  }

  lemma PeeringAccounts(s: Session)
    requires Fresh(s) && MayCreate(s) && !Halted(s) && Accounted(s.w) && St(s).provisioning == MonitoringDeployed
    requires s.w.lost == 0 && Lossless(PhaseVpcPeering(s).w)
    ensures Accounted(PhaseVpcPeering(s).w)
  {
    hide WorldOk, Grows, Legal, Anchored, Evolves, StatusUpdate, Create, Version,
         ChildKeys, TeardownKeys, Children, Accounted, VpcKey, NadKey, SubnetKey, DataVolumeKey, SecretKey, VmKey;
    FreshOk(s);
    OwnKeys(s.w.id, s.w.ns);
    RecordKeys(s.w.id, s.w.ns, St(s).refs);
    StepsReflexive(s);
    var refs, peering, id := St(s).refs, s.inst.obj.spec.vpcPeering, s.w.id;
    if peering == None {
      WriteAccounts(s, s, St(s).(provisioning := VpcPeeringCreated), {});
    } else {
      var c := PeeringChild(refs.vpc, refs.subnet, peering.value);
      CreateOk(s, PeeringKey(id), c);
      CreateFrame(s, PeeringKey(id), c);
      var t := CreateVpcPeering(s, peering.value);
      assert !Halted(t);
      UnwrittenOk(t, St(t).(provisioning := VpcPeeringCreated));
      StatusUpdatePays(To(t, VpcPeeringCreated));
      if t.err == NoErr {
        ChildrenAdd(s.w, t.w, {PeeringKey(id)});
        WriteAccounts(s, t, St(s).(refs := refs.(peering := PeeringName(id)), provisioning := VpcPeeringCreated),
                      {PeeringKey(id)});
      } else {
        CreateFaults(s, PeeringKey(id), c);
        SameChildren(s.w, t.w);
        WriteAccounts(s, t, St(s).(provisioning := VpcPeeringCreated), {});
      }
    }
  }

  lemma AvailableAccounts(s: Session)
    requires Fresh(s) && !Halted(s) && Accounted(s.w) && s.w.lost == 0 && Lossless(PhaseAvailableStep(s).w)
    ensures Accounted(PhaseAvailableStep(s).w)
  {
    hide WorldOk, Grows, Legal, Anchored, Evolves, StatusUpdate, Take, Version, ReadinessOf, ChildKeys, TeardownKeys;
    var o := s.inst.obj;
    var st := St(s).(phase := Available, provisioning := PhaseAvailable, observedGeneration := o.generation);
    var s1 := WithStatus(s, st);
    UnwrittenOk(s, st);
    TakeOk(s1);
    TakeFrame(s1);
    var t := Take(s1);
    BackToRead(s, s1, t);
    assert !Halted(t);
    WriteAccounts(s, WithStatus(t, St(s)), RefreshAddresses(st, o.spec, ReadinessOf(t.now)), {});
  }

  // ---- Two writes ----

  /** Stop, start and modify: same children, same refs. */
  lemma SecondWriteAccounts(s: Session, t: Session, u: Session, st: Status)
    requires Fresh(s) && Accounted(s.w) && s.w.lost == 0 && !Halted(s)
    requires t == StatusUpdate(WithStatus(s, St(t))) && St(t).refs == St(s).refs && SessionOk(WithStatus(s, St(t)))
    requires SessionOk(t) && Steps(t, u) && u.inst == t.inst && !Halted(u)
    requires u.w.cluster.Keys == s.w.cluster.Keys && st.refs == St(s).refs
    requires u.w.id == s.w.id && u.w.ns == s.w.ns
    requires StatusUpdate(WithStatus(u, st)).w.lost == 0
    ensures Accounted(StatusUpdate(WithStatus(u, st)).w)
  {
    hide WorldOk, Legal, StatusUpdate, ChildKeys, TeardownKeys, ServiceKey;
    UnwrittenOk(u, st);
    StatusUpdatePays(WithStatus(u, st));
    StatusUpdateFrame(WithStatus(u, st));
    StatusUpdatePays(WithStatus(s, St(t)));
    WroteLive(WithStatus(s, St(t)));
  }

  lemma PowerAccounts(s: Session, during: Phase, after: Phase, running: bool)
    requires Fresh(s) && At(s.w.id, s.inst.obj, PhaseAvailable) && Accounted(s.w) && s.w.lost == 0 && !Halted(s)
    requires during in {Stopping, Starting} && after in {Stopped, Available}
    ensures var t := StatusUpdate(Mark(s, during));
            (Halted(t) ==> t.w.lost > 0) && (!Halted(t) ==>
              var u := SetVMRunning(t, St(t).refs.vm, running);
              (Halted(u) ==> u.w.lost > 0) && (!Halted(u) ==>
                (Fail(u).w.lost == 0 ==> Accounted(Fail(u).w))
                && (Settle(u, after).w.lost == 0 ==> Accounted(Settle(u, after).w))))
  {
    hide WorldOk, Grows, Legal, Anchored, Evolves, StatusUpdate, SetVMRunning, Version, Accounted;
    FreshOk(s);
    PowerEdit(s.w.id, s.w.faults, s.inst.obj, during);
    FirstWrite(s, during);
    UnwrittenOk(s, St(s).(phase := during));
    StatusUpdatePays(Mark(s, during));
    PowerFrame(s, during, running);
    var t := StatusUpdate(Mark(s, during));
    if !Halted(t) {
      SetVMRunningOk(t, St(t).refs.vm, running);
      var u := SetVMRunning(t, St(t).refs.vm, running);
      if !Halted(u) {
        if Fail(u).w.lost == 0 {
          SecondWriteAccounts(s, t, u, St(u).(phase := Failed, provisioning := PhaseFailed));
        }
        if Settle(u, after).w.lost == 0 {
          SecondWriteAccounts(s, t, u, St(u).(phase := after, observedGeneration := u.inst.obj.generation));
        }
      }
    }
  }

  lemma ModifyAccounts(s: Session)
    requires Fresh(s) && At(s.w.id, s.inst.obj, PhaseAvailable) && Accounted(s.w) && s.w.lost == 0 && !Halted(s)
    requires ReconcileModify(s).w.lost == 0
    ensures Accounted(ReconcileModify(s).w)
  {
    hide WorldOk, Grows, Legal, Anchored, Evolves, StatusUpdate, ResizeVM, ResizeDataVolume, Version, Accounted, ClassOf;
    FreshOk(s);
    PowerEdit(s.w.id, s.w.faults, s.inst.obj, Modifying);
    FirstWrite(s, Modifying);
    UnwrittenOk(s, St(s).(phase := Modifying));
    StatusUpdatePays(Mark(s, Modifying));
    StatusUpdateFrame(Mark(s, Modifying));
    var t := StatusUpdate(Mark(s, Modifying));
    assert !Halted(t);
    StepsReflexive(t);
    var size := ClassOf(t.inst.obj.spec.instanceClass);
    if size == None {
      SecondWriteAccounts(s, t, t, St(t).(phase := Failed, provisioning := PhaseFailed));
    } else {
      ResizeVMOk(t, St(t).refs.vm, size.value);
      ResizeVMFrame(t, St(t).refs.vm, size.value);
      var u := ResizeVM(t, St(t).refs.vm, size.value);
      assert !Halted(u);
      ResizeDataVolumeOk(u, St(u).refs.dataVolume, u.inst.obj.spec.allocatedStorage);
      ResizeDataVolumeFrame(u, St(u).refs.dataVolume, u.inst.obj.spec.allocatedStorage);
      var v := ResizeDataVolume(u, St(u).refs.dataVolume, u.inst.obj.spec.allocatedStorage);
      StepsTransitive(t, u, v);
      assert !Halted(v);
      if u.err != NoErr || v.err != NoErr {
        SecondWriteAccounts(s, t, v, St(v).(phase := Failed, provisioning := PhaseFailed));
      } else {
        SecondWriteAccounts(s, t, v, St(v).(phase := Available, observedGeneration := v.inst.obj.generation));
      }
    }
  }

  lemma FinalizerUpdatePays(s: Session, finalizer: bool)
    requires SessionOk(s) && !Halted(s) && FinalizerUpdate(s, finalizer).w.lost == s.w.lost
    ensures var t := FinalizerUpdate(s, finalizer);
            && !Halted(t) && |s.w.past| <= s.inst.rv && t.w.live == (finalizer || !s.inst.obj.deleting)
            && s.w.live && t.w.cur.status == Version(s.w, s.inst.rv).status
  {
    hide WorldOk;
    TakeOk(s);
    TakeCounts(s);
    var t := Take(s);
    assert !Halted(t) && Writable(t);
    assert t.w.live ==> s.w.live;
  }

  /** Every delete succeeded and the finalizer write landed: nothing recorded is left. */
  lemma DeleteAccounts(s: Session)
    requires Fresh(s) && s.inst.obj.deleting && s.inst.obj.finalizer && s.inst.rv == s.w.cached
    requires Accounted(s.w) && s.w.lost == 0 && !Halted(s) && Lossless(ReconcileDelete(s).w)
    ensures Accounted(ReconcileDelete(s).w)
  {
    hide WorldOk, Grows, Legal, Anchored, Evolves, StatusUpdate, Version, FinalizerUpdate, Take, ChildKeys, TeardownKeys;
    FreshOk(s);
    StepsReflexive(s);
    if s.inst.obj.spec.deletionProtection {
      WriteAccounts(s, s, St(s), {});
      assert WithStatus(s, St(s)) == s;
    } else {
      DeleteEdit(s.w.id, s.w.faults, s.inst.obj);
      FirstWrite(s, Deleting);
      UnwrittenOk(s, St(s).(phase := Deleting));
      StatusUpdatePays(Mark(s, Deleting));
      StatusUpdateFrame(Mark(s, Deleting));
      WroteLive(Mark(s, Deleting));
      var t := StatusUpdate(Mark(s, Deleting));
      StillDeleting(s.w, t.w);
      TeardownAllOk(t);
      TakeFrame(t);
      var u := TeardownAll(t);
      FinalizerCounts(u);
      assert !Halted(t) && !Halted(u);
      FinalizerUpdatePays(u, false);
      FinalizerUpdateFrame(u, false);
      assert t.w.cluster == s.w.cluster;
      IsCurrent(s, s);
      assert u.w.cluster.Keys == s.w.cluster.Keys - TeardownKeys(s.w.ns, St(s).refs);
    }
  }

  lemma FinalizerCounts(s: Session)
    requires SessionOk(s)
    ensures s.w.lost <= FinalizerUpdate(s, false).w.lost && s.w.faults == FinalizerUpdate(s, false).w.faults
  {
    hide WorldOk;
    TakeCounts(s);
  }

  lemma AddFinalizerAccounts(s: Session)
    requires Fresh(s) && !s.inst.obj.deleting && Accounted(s.w) && s.w.lost == 0 && !Halted(s)
    requires FinalizerUpdate(s, true).w.lost == 0
    ensures Accounted(FinalizerUpdate(s, true).w)
  {
    hide WorldOk, Grows, Legal, Evolves, FinalizerUpdate, ChildKeys, TeardownKeys;
    FinalizerUpdatePays(s, true);
    FinalizerUpdateFrame(s, true);
  }

  // ---- Whole runs ----

  lemma DispatchAccounts(s: Session)
    requires Fresh(s) && s.inst.rv == s.w.cached && Accounted(s.w) && s.w.lost == 0 && !Halted(s)
    requires Lossless(Dispatch(s).w) && Whole(s.w, Dispatch(s).w)
    ensures Accounted(Dispatch(s).w)
  {
    hide WorldOk, Grows, Legal, Anchored, Evolves, Version, PhaseNetwork, PhaseStorage, PhaseVM, PhaseWaitReady,
         PhaseMonitoring, PhaseVpcPeering, PhaseAvailableStep, ReconcileModify, ReconcileDelete,
         FinalizerUpdate, StatusUpdate, SetVMRunning, Accounted;
    FreshOk(s);
    var o := s.inst.obj;
    if o.deleting {
      if o.finalizer { DeleteAccounts(s); }
    } else if !o.finalizer {
      AddFinalizerAccounts(s);
    } else if o.spec.running == Some(false) && o.status.phase == Available {
      PowerAccounts(s, Stopping, Stopped, false);
    } else if o.spec.running == Some(true) && o.status.phase == Stopped {
      PowerAccounts(s, Starting, Available, true);
    } else if o.status.phase == Available && o.generation != o.status.observedGeneration {
      ModifyAccounts(s);
    } else {
      match o.status.provisioning
      case Unset => NetworkAccounts(s);
      case NetworkProvisioned => StorageAccounts(s);
      case StorageProvisioned => VMAccounts(s);
      case VMCreated => WaitAccounts(s);
      case WaitingForCloudInit => WaitAccounts(s);
      case DatabaseReady => MonitoringAccounts(s);
      case MonitoringDeployed => PeeringAccounts(s);
      case VpcPeeringCreated => AvailableAccounts(s);
      case PhaseAvailable => AvailableAccounts(s);
      case PhaseFailed =>
    }
  }

  lemma ReadAccounts(w: World, script: seq<Turn>)
    requires WorldOk(w) && Accounted(w)
    ensures Accounted(Read(Begin(w, script)).w)
  {
    hide WorldOk, ChildKeys, TeardownKeys;
    if script != [] { UsersAccounted(w, script[0].users); }
  }

  lemma ReconcileAccounts(w: World, script: seq<Turn>)
    requires WorldOk(w) && Accounted(w) && w.lost == 0 && Lossless(Reconcile(w, script).w) && Whole(w, Reconcile(w, script).w)
    ensures Accounted(Reconcile(w, script).w)
  {
    ReadAccounts(w, script);
    ReadOk(Begin(w, script));
    var s := Read(Begin(w, script));
    ReadFrame(w, script);
    assert s.w.cur.status == w.cur.status by { TakeKeeps(Begin(w, script)); }
    hide WorldOk, Dispatch, Read, Accounted, Fresh;
    if !Halted(s) && s.err == NoErr {
      DispatchOk(s);
      DispatchAccounts(s);
    }
  }

  lemma {:induction false} RunAccounts(w: World, scripts: seq<seq<Turn>>)
    requires WorldOk(w) && Accounted(w) && Lossless(Run(w, scripts)) && AllWhole(w, scripts)
    ensures Accounted(Run(w, scripts))
    decreases |scripts|
  {
    if scripts != [] {
      hide WorldOk, Reconcile, Accounted, Whole;
      var v := Reconcile(w, scripts[0]).w;
      ReconcileOk(w, scripts[0]);
      RunOk(v, scripts[1..]);
      ReconcileAccounts(w, scripts[0]);
      RunAccounts(v, scripts[1..]);
    }
  }

  /** Conservation over every run that lost no store call, leaked nothing and had no fatal call
      fail in part, from a cluster without this instance's
      children: what exists is what is recorded, and a deleted instance leaves nothing but,
      possibly, its metrics Service. */
  lemma Conserved(id: string, ns: string, spec: Spec, cluster: map<Key, Child>, scripts: seq<seq<Turn>>)
    requires cluster.Keys !! ChildKeys(id, ns)
    requires Lossless(Run(Init(id, ns, spec, cluster), scripts)) && AllWhole(Init(id, ns, spec, cluster), scripts)
    ensures var w := Run(Init(id, ns, spec, cluster), scripts);
            && (w.live ==> w.cluster.Keys * ChildKeys(id, ns) - {ServiceKey(id, ns)}
                           == TeardownKeys(ns, w.cur.status.refs))
            && (!w.live ==> w.cluster.Keys * ChildKeys(id, ns) <= {ServiceKey(id, ns)})
  {
    var w0 := Init(id, ns, spec, cluster);
    InitOk(id, ns, spec, cluster);
    RunOk(w0, scripts);
    assert Accounted(w0) by { hide ChildKeys; }
    hide ChildKeys, TeardownKeys, Run, WorldOk, AllWhole;
    RunAccounts(w0, scripts);
  }

  // ---- Runs without a fatal error ----

  lemma ReconcileWhole(w: World, script: seq<Turn>)
    requires WorldOk(w) && Reconcile(w, script).w.faults.fatal == 0
    ensures Whole(w, Reconcile(w, script).w)
  {
    ReadOk(Begin(w, script));
    ReadFrame(w, script);
    var s := Read(Begin(w, script));
    assert s.w.cur.status == w.cur.status by { TakeKeeps(Begin(w, script)); }
    hide WorldOk, Dispatch, Read, Fresh;
    if !Halted(s) && s.err == NoErr {
      DispatchTame(s);
      ReadIsOlder(s);
    }
  }

  /** Without a fatal API error no call fails in part: an invalid class and the errors of stop,
      start and modify fail the instance too, but create nothing. */
  lemma {:induction false} FatalFreeIsWhole(w: World, scripts: seq<seq<Turn>>)
    requires WorldOk(w) && Run(w, scripts).faults.fatal == 0
    ensures AllWhole(w, scripts)
    decreases |scripts|
  {
    if scripts != [] {
      hide WorldOk, Reconcile, Whole;
      var v := Reconcile(w, scripts[0]).w;
      ReconcileOk(w, scripts[0]);
      RunOk(v, scripts[1..]);
      ReconcileWhole(w, scripts[0]);
      FatalFreeIsWhole(v, scripts[1..]);
    }
  }

  /** Conservation in terms of the tallies alone. */
  lemma ConservedWithoutErrors(id: string, ns: string, spec: Spec, cluster: map<Key, Child>, scripts: seq<seq<Turn>>)
    requires cluster.Keys !! ChildKeys(id, ns)
    requires var w := Run(Init(id, ns, spec, cluster), scripts); Lossless(w) && w.faults.fatal == 0
    ensures var w := Run(Init(id, ns, spec, cluster), scripts);
            && (w.live ==> w.cluster.Keys * ChildKeys(id, ns) - {ServiceKey(id, ns)}
                           == TeardownKeys(ns, w.cur.status.refs))
            && (!w.live ==> w.cluster.Keys * ChildKeys(id, ns) <= {ServiceKey(id, ns)})
  {
    InitOk(id, ns, spec, cluster);
    hide Run, AllWhole, WorldOk, ChildKeys, TeardownKeys;
    FatalFreeIsWhole(Init(id, ns, spec, cluster), scripts);
    Conserved(id, ns, spec, cluster, scripts);
  }

  // ---- The metrics Service ----

  lemma ServiceListedNowhere(id: string, ns: string, refs: Refs)
    ensures ServiceKey(id, ns) !in TeardownKeys(ns, refs)
  {
  }

  lemma DispatchKeepsService(s: Session)
    requires Fresh(s) && ServiceKey(s.w.id, s.w.ns) in s.w.cluster
    ensures ServiceKey(s.w.id, s.w.ns) in Dispatch(s).w.cluster
  {
    if s.inst.obj.deleting && !s.inst.obj.spec.deletionProtection {
      hide Fresh, ReconcileDelete, TeardownKeys, ServiceKey;
      if s.inst.obj.finalizer {
        DeleteFrame(s);
        ServiceListedNowhere(s.w.id, s.w.ns, St(s).refs);
      }
    } else {
      hide Dispatch, ServiceKey;
      Protection.DispatchKeepsChildren(s);
    }
  }

  lemma ReconcileKeepsService(w: World, script: seq<Turn>)
    requires WorldOk(w)
    ensures var v := Reconcile(w, script).w;
            && v.id == w.id && v.ns == w.ns && Logs(w, v)
            && (ServiceKey(w.id, w.ns) in w.cluster ==> ServiceKey(w.id, w.ns) in v.cluster)
  {
    ReconcileKeepsName(w, script);
    ReadOk(Begin(w, script));
    ReadFrame(w, script);
    var s := Read(Begin(w, script));
    hide WorldOk, Read, Dispatch, Fresh, ServiceKey;
    if !Halted(s) && s.err == NoErr {
      DispatchTame(s);
      if ServiceKey(w.id, w.ns) in w.cluster { DispatchKeepsService(s); }
    }
  }

  /** No teardown lists the Service: once on the cluster it is there after every later run,
      deletion included. */
  lemma {:induction false} ServiceStays(w: World, scripts: seq<seq<Turn>>)
    requires WorldOk(w) && ServiceKey(w.id, w.ns) in w.cluster
    ensures ServiceKey(w.id, w.ns) in Run(w, scripts).cluster
    decreases |scripts|
  {
    if scripts != [] {
      hide WorldOk, Reconcile, ServiceKey;
      ReconcileOk(w, scripts[0]);
      ReconcileKeepsService(w, scripts[0]);
      ServiceStays(Reconcile(w, scripts[0]).w, scripts[1..]);
    }
  }

  ghost predicate ServiceOnRecord(w: World) {
    ServiceKey(w.id, w.ns) in w.cluster <==> Created(ServiceKey(w.id, w.ns)) in w.log
  }

  lemma {:induction false} RunServiceOnRecord(w: World, scripts: seq<seq<Turn>>)
    requires WorldOk(w) && ServiceOnRecord(w)
    ensures ServiceOnRecord(Run(w, scripts))
    decreases |scripts|
  {
    if scripts != [] {
      hide WorldOk, Reconcile, ServiceKey;
      ReconcileOk(w, scripts[0]);
      ReconcileKeepsService(w, scripts[0]);
      RunServiceOnRecord(Reconcile(w, scripts[0]).w, scripts[1..]);
    }
  }

  /** Conservation with the residue pinned down: beside the recorded children there is the metrics
      Service exactly if it was ever created, and it is all a deleted instance leaves. */
  lemma ConservedExactly(id: string, ns: string, spec: Spec, cluster: map<Key, Child>, scripts: seq<seq<Turn>>)
    requires cluster.Keys !! ChildKeys(id, ns)
    requires Lossless(Run(Init(id, ns, spec, cluster), scripts)) && AllWhole(Init(id, ns, spec, cluster), scripts)
    ensures var w := Run(Init(id, ns, spec, cluster), scripts);
            w.cluster.Keys * ChildKeys(id, ns)
            == (if w.live then TeardownKeys(ns, w.cur.status.refs) else {})
               + (if Created(ServiceKey(id, ns)) in w.log then {ServiceKey(id, ns)} else {})
  {
    var w0 := Init(id, ns, spec, cluster);
    InitOk(id, ns, spec, cluster);
    assert ServiceKey(id, ns) in ChildKeys(id, ns);
    assert ServiceOnRecord(w0);
    hide Run, AllWhole, WorldOk, ChildKeys, TeardownKeys, ServiceKey;
    RunOk(w0, scripts);
    Conserved(id, ns, spec, cluster, scripts);
    RunServiceOnRecord(w0, scripts);
    var w := Run(w0, scripts);
    assert w.id == id && w.ns == ns;
    ServiceListedNowhere(id, ns, w.cur.status.refs);
    PinnedDown(w.cluster.Keys * ChildKeys(id, ns), ServiceKey(id, ns), if w.live then TeardownKeys(ns, w.cur.status.refs) else {});
  }

  lemma PinnedDown(own: set<Key>, service: Key, listed: set<Key>)
    requires service !in listed && (own - {service} == listed || (listed == {} && own <= {service}))
    ensures own == listed + if service in own then {service} else {}
  {
  }
}
