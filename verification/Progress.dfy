/** Bounded progress: a fresh instance is available after 8 reconciles, plus one for every
    not-ready poll and every store call that failed or never returned. */
module Progress {
  import opened Types
  import opened Names
  import opened World
  import opened Harvester
  import opened Reconciler
  import opened Invariants
  import opened Safety
  import opened Phases
  import opened Theorems

  /** Reconciles already paid for: the finalizer, then one per phase. */
  function Paid(o: Object): nat {
    if !o.finalizer then 0
    else match o.status.provisioning
      case Unset => 1
      case Pending => 1
      case NetworkProvisioned => 2
      case StorageProvisioned => 3
      case VMCreated => 4
      case WaitingForCloudInit => 4
      case DatabaseReady => 5
      case MonitoringDeployed => 6
      case VpcPeeringCreated => 7
      case PhaseAvailable => 8
      case PhaseFailed => 0
      case Unknown(_) => 0
  }

  function Score(w: World): nat { Paid(w.cur) + w.lost + w.polls }

  /** No call failed fatally, nobody deleted the instance, and its class was always valid. */
  ghost predicate Undisturbed(w: World) {
    && w.faults.fatal == 0 && w.live && !w.cur.deleting
    && (forall i: nat | i <= |w.past| :: ClassOf(Version(w, i).spec.instanceClass).Some?)
  }

  ghost predicate BecameAvailable(w: World) {
    exists i: nat :: i <= |w.past| && Version(w, i).status.provisioning == PhaseAvailable
  }

  lemma {:induction false} NeverFails(w: World, i: nat)
    requires WorldOk(w) && Undisturbed(w) && !BecameAvailable(w) && i <= |w.past|
    requires Version(w, 0).status == NewStatus
    ensures Version(w, i).status.provisioning != PhaseFailed
  {
    if i > 0 {
      hide WorldOk, ClassOf, Evolves, ObjectOk;
      NeverFails(w, i - 1);
      HistoryAt(w, i);
      assert Version(w, i - 1).status.provisioning != PhaseAvailable;
      StepNotFailed(w.id, w.faults, Version(w, i - 1), Version(w, i));
    }
  }

  lemma StepNotFailed(id: string, faults: Faults, a: Object, b: Object)
    requires Evolves(id, faults, a, b) && faults.fatal == 0 && ClassOf(a.spec.instanceClass).Some? && ObjectOk(id, a)
    requires a.status.provisioning !in {PhaseAvailable, PhaseFailed}
    ensures b.status.provisioning != PhaseFailed
  {
    hide ClassOf, ExpectedNetwork, WriteOnce, Ledger, Canonical;
  }

  lemma PaidGrows(id: string, faults: Faults, a: Object, b: Object)
    requires Evolves(id, faults, a, b) && b.status.provisioning != PhaseFailed && (a.finalizer ==> b.finalizer)
    ensures Paid(a) <= Paid(b)
  {
    hide ClassOf, ExpectedNetwork;
  }

  lemma {:induction false} PaidMonotone(w: World, i: nat, j: nat)
    requires WorldOk(w) && Undisturbed(w) && !BecameAvailable(w) && i <= j <= |w.past|
    requires Version(w, 0).status == NewStatus
    ensures Paid(Version(w, i)) <= Paid(Version(w, j))
    decreases j
  {
    if i < j {
      PaidMonotone(w, i, j - 1);
      NeverFails(w, j);
      HistoryAt(w, j);
      assert Version(w, j - 1).finalizer ==> Version(w, j).finalizer;
      hide WorldOk, Evolves, ObjectOk;
      PaidGrows(w.id, w.faults, Version(w, j - 1), Version(w, j));
    }
  }

  // ---- What one phase pays ----

  /** The reconcile lost a store call, polled, or wrote one step further onto the newest version. */
  ghost predicate Pays(s: Session, t: Session) {
    || s.w.lost < t.w.lost
    || s.w.polls < t.w.polls
    || (|s.w.past| <= s.inst.rv && Paid(s.inst.obj) < Paid(t.w.cur))
  }

  ghost predicate Counts(s: Session, t: Session) {
    t.w.faults == s.w.faults && t.w.polls == s.w.polls && s.w.lost <= t.w.lost
  }

  /** The write landed on the newest version and stored the session's copy. */
  ghost predicate Wrote(s: Session, t: Session) {
    |s.w.past| <= s.inst.rv && t.w.cur == s.inst.obj && t.w.live && !Halted(t)
  }

  lemma StatusUpdatePays(s: Session)
    requires SessionOk(s)
    ensures var t := StatusUpdate(s);
            Counts(s, t) && (Halted(s) || s.w.lost < t.w.lost || Wrote(s, t))
  {
    hide WorldOk;
    TakeOk(s);
    TakeCounts(s);
  }

  /** A phase that ends in a status write of an edit one step further. */
  lemma WritePays(s: Session, t: Session, st: Status)
    requires Fresh(s) && Steps(s, t) && t.inst == s.inst && !Halted(t)
    requires Paid(s.inst.obj) < Paid(s.inst.obj.(status := st))
    ensures Counts(t, StatusUpdate(WithStatus(t, st))) && Pays(s, StatusUpdate(WithStatus(t, st)))
  {
    hide WorldOk, Legal, Paid, StatusUpdate, Anchored;
    UnwrittenOk(t, st);
    StatusUpdatePays(WithStatus(t, st));
  }

  lemma FailCounts(t: Session)
    requires SessionOk(t)
    ensures Counts(t, Fail(t))
  {
    hide WorldOk, Legal, StatusUpdate, Anchored;
    UnwrittenOk(t, St(t).(phase := Failed, provisioning := PhaseFailed));
    StatusUpdatePays(WithStatus(t, St(t).(phase := Failed, provisioning := PhaseFailed)));
  }

  lemma NetworkPays(s: Session)
    requires Fresh(s) && MayCreate(s) && !Halted(s) && St(s).provisioning == Unset && PhaseNetwork(s).w.faults.fatal == 0
    ensures Pays(s, PhaseNetwork(s))
  {
    hide WorldOk, Grows, Legal, Anchored, ObjectOk, Evolves, StatusUpdate, CreateVPCNetwork, Version;
    FreshOk(s);
    var o, spec := s.inst.obj, s.inst.obj.spec;
    UnsetRefs(s.w.id, o);
    var c := WithStatus(s, St(s).(phase := Creating));
    StepsReflexive(s);
    if spec.networkRef != "" {
      WritePays(s, s, St(c).(refs := St(s).refs.(nad := spec.networkRef), provisioning := NetworkProvisioned));
    } else {
      var vlan := Vlan(spec);
      UnwrittenOk(s, St(c));
      CreateVPCNetworkOk(c, vlan);
      var t := CreateVPCNetwork(c, vlan);
      BackToRead(s, c, t);
      if !Halted(t) {
        FailCounts(t);
        if t.err == NoErr {
          var id := s.w.id;
          WritePays(s, WithStatus(t, St(s)),
                    St(c).(refs := St(s).refs.(vpc := VpcName(id), subnet := SubnetName(id), nad := NadName(id)),
                           provisioning := NetworkProvisioned));
        }
      }
    }
  }

  lemma StoragePays(s: Session)
    requires Fresh(s) && MayCreate(s) && !Halted(s) && St(s).provisioning == NetworkProvisioned
    requires PhaseStorage(s).w.faults.fatal == 0
    ensures Pays(s, PhaseStorage(s))
  {
    hide WorldOk, Grows, Legal, Anchored, Evolves, StatusUpdate, Create, Version;
    FreshOk(s);
    var spec := s.inst.obj.spec;
    var kind := StorageClass(spec);
    CreateOk(s, DataVolumeKey(s.w.id, s.w.ns), VolumeChild(spec.allocatedStorage, kind));
    var t := CreateDataVolume(s, spec.allocatedStorage, kind);
    if !Halted(t) {
      FailCounts(t);
      if t.err == NoErr {
        WritePays(s, t, St(s).(refs := St(s).refs.(dataVolume := DataVolumeName(s.w.id)),
                               provisioning := StorageProvisioned));
      }
    }
  }

  lemma VMPays(s: Session)
    requires Fresh(s) && MayCreate(s) && !Halted(s) && St(s).provisioning == StorageProvisioned
    requires PhaseVM(s).w.faults.fatal == 0 && ClassOf(s.inst.obj.spec.instanceClass).Some?
    ensures Pays(s, PhaseVM(s))
  {
    hide WorldOk, Grows, Legal, Anchored, Evolves, StatusUpdate, CreatePostgresVM, Version, ClassOf;
    FreshOk(s);
    var size := ClassOf(s.inst.obj.spec.instanceClass).value;
    CreatePostgresVMOk(s, size);
    var t := CreatePostgresVM(s, size);
    if !Halted(t) {
      FailCounts(t);
      if t.err == NoErr { WritePays(s, t, St(RecordVM(t))); }
    }
  }

  lemma WaitPays(s: Session)
    requires Fresh(s) && !Halted(s) && s.inst.obj.finalizer && St(s).provisioning in {VMCreated, WaitingForCloudInit}
    ensures Pays(s, PhaseWaitReady(s))
  {
    hide WorldOk, Grows, Legal, Anchored, Evolves, StatusUpdate, Take, Version, ReadinessOf;
    TakeOk(s);
    TakeCounts(s);
    var t := Take(s);
    if !Halted(t) {
      var o, r := s.inst.obj, ReadinessOf(t.now);
      assert Beside(t, Poll(t));
      Effect(s, t, Poll(t));
      StatusUpdatePays(Poll(t));
      UnwrittenOk(Poll(t), St(t).(provisioning := WaitingForCloudInit));
      StatusUpdatePays(To(Poll(t), WaitingForCloudInit));
      if r.running && r.ip != "" && r.ready {
        WritePays(s, t, St(s).(endpoint := Some(Endpoint(r.ip, SpecPort(o.spec.port))),
                               managementAddress := r.mgmtIp, provisioning := DatabaseReady));
      }
    }
  }

  lemma MonitoringPays(s: Session)
    requires Fresh(s) && MayCreate(s) && !Halted(s) && St(s).provisioning == DatabaseReady
    ensures Pays(s, PhaseMonitoring(s))
  {
    hide WorldOk, Grows, Legal, Anchored, Evolves, StatusUpdate, DeployMonitoring, Version;
    FreshOk(s);
    assert St(s).endpoint.Some? && St(s).refs.monitor == "";
    DeployMonitoringOk(s);
    var t := DeployMonitoring(s);
    if !Halted(t) {
      WritePays(s, t, St(s).(refs := St(s).refs.(monitor := MonitorName(s.w.id)), provisioning := MonitoringDeployed));
      WritePays(s, t, St(s).(provisioning := MonitoringDeployed));
    }
  }

  lemma PeeringPays(s: Session)
    requires Fresh(s) && MayCreate(s) && !Halted(s) && St(s).provisioning == MonitoringDeployed
    ensures Pays(s, PhaseVpcPeering(s))
  {
    hide WorldOk, Grows, Legal, Anchored, Evolves, StatusUpdate, Create, Version;
    FreshOk(s);
    StepsReflexive(s);
    var refs, peering := St(s).refs, s.inst.obj.spec.vpcPeering;
    WritePays(s, s, St(s).(provisioning := VpcPeeringCreated));
    if peering.Some? {
      CreateOk(s, PeeringKey(s.w.id), PeeringChild(refs.vpc, refs.subnet, peering.value));
      var t := CreateVpcPeering(s, peering.value);
      if !Halted(t) {
        WritePays(s, t, St(s).(refs := refs.(peering := PeeringName(s.w.id)), provisioning := VpcPeeringCreated));
        WritePays(s, t, St(s).(provisioning := VpcPeeringCreated));
      }
    }
  }

  lemma AvailablePays(s: Session)
    requires Fresh(s) && !Halted(s) && s.inst.obj.finalizer && St(s).provisioning == VpcPeeringCreated
    ensures Pays(s, PhaseAvailableStep(s))
  {
    hide WorldOk, Grows, Legal, Anchored, Evolves, StatusUpdate, Take, Version, ReadinessOf;
    var o := s.inst.obj;
    var st := St(s).(phase := Available, provisioning := PhaseAvailable, observedGeneration := o.generation);
    var s1 := WithStatus(s, st);
    UnwrittenOk(s, st);
    TakeOk(s1);
    var t := Take(s1);
    BackToRead(s, s1, t);
    if !Halted(t) {
      WritePays(s, WithStatus(t, St(s)), RefreshAddresses(st, o.spec, ReadinessOf(t.now)));
    }
  }

  lemma FinalizerPays(s: Session)
    requires Fresh(s) && !Halted(s) && !s.inst.obj.deleting && !s.inst.obj.finalizer
    requires St(s).provisioning != PhaseFailed && !St(s).provisioning.Unknown?
    ensures Pays(s, FinalizerUpdate(s, true))
  {
    hide WorldOk;
    TakeOk(s);
    TakeCounts(s);
  }

  lemma DispatchPays(s: Session)
    requires Fresh(s) && !Halted(s) && !s.inst.obj.deleting
    requires Dispatch(s).w.faults.fatal == 0
    requires St(s).provisioning == StorageProvisioned ==> ClassOf(s.inst.obj.spec.instanceClass).Some?
    requires St(s).provisioning !in {PhaseAvailable, PhaseFailed}
    ensures Pays(s, Dispatch(s))
  {
    hide WorldOk, Grows, Legal, Anchored, Evolves, Version, PhaseNetwork, PhaseStorage, PhaseVM, PhaseWaitReady,
         PhaseMonitoring, PhaseVpcPeering, PhaseAvailableStep, ReconcileModify, ReconcileDelete, ReconcileStop,
         ReconcileStart, FinalizerUpdate, Pays;
    FreshOk(s);
    if !s.inst.obj.finalizer {
      FinalizerPays(s);
    } else {
      match St(s).provisioning
      case Unset => NetworkPays(s);
      case NetworkProvisioned => StoragePays(s);
      case StorageProvisioned => VMPays(s);
      case VMCreated => WaitPays(s);
      case WaitingForCloudInit => WaitPays(s);
      case DatabaseReady => MonitoringPays(s);
      case MonitoringDeployed => PeeringPays(s);
      case VpcPeeringCreated => AvailablePays(s);
    }
  }

  // ---- What one reconcile pays ----

  lemma UndisturbedBefore(w: World, v: World)
    requires Grows(w, v) && WorldOk(v) && Undisturbed(v) && !BecameAvailable(v)
    ensures Undisturbed(w) && !BecameAvailable(w) && Version(v, |w.past|) == w.cur
  {
    hide HistoryOk, ClassOf;
    assert Version(w, |w.past|) == w.cur && Version(v, |v.past|) == v.cur;
    forall i: nat | i <= |w.past| ensures ClassOf(Version(w, i).spec.instanceClass).Some? {
      assert Version(v, i) == Version(w, i);
    }
  }

  lemma ReconcilePays(w: World, script: seq<Turn>)
    requires WorldOk(w) && Version(w, 0).status == NewStatus
    requires Undisturbed(Reconcile(w, script).w) && !BecameAvailable(Reconcile(w, script).w)
    ensures Score(w) < Score(Reconcile(w, script).w)
  {
    var v := Reconcile(w, script).w;
    ReconcileOk(w, script);
    ReadOk(Begin(w, script));
    var s := Read(Begin(w, script));
    UndisturbedBefore(w, v);
    assert Version(v, 0) == Version(w, 0);
    PaidMonotone(v, |w.past|, |v.past|);
    if !Halted(s) && s.err == NoErr {
      DispatchOk(s);
      UndisturbedBefore(s.w, v);
      ReadVersionUndisturbed(s, v);
      DispatchPays(s);
      assert v == Dispatch(s).w;
      if |s.w.past| <= s.inst.rv {
        assert Version(v, |s.w.past|) == s.inst.obj;
        PaidMonotone(v, |w.past|, |s.w.past|);
      }
    } else {
      ReadPays(w, script);
    }
  }

  lemma ReadVersionUndisturbed(s: Session, v: World)
    requires Fresh(s) && Grows(s.w, v) && WorldOk(v) && Undisturbed(v) && !BecameAvailable(v)
    requires Version(v, 0).status == NewStatus
    ensures !s.inst.obj.deleting && St(s).provisioning !in {PhaseAvailable, PhaseFailed}
    ensures ClassOf(s.inst.obj.spec.instanceClass).Some?
  {
    assert Version(v, s.inst.rv) == s.inst.obj;
    assert Version(v, |v.past|) == v.cur;
    NeverFails(v, s.inst.rv);
  }

  lemma ReadPays(w: World, script: seq<Turn>)
    requires WorldOk(w)
    requires var s := Read(Begin(w, script)); s.w.live && (Halted(s) || s.err != NoErr)
    ensures w.lost < Read(Begin(w, script)).w.lost
  {
    hide WorldOk, Version;
    if script != [] { UsersOk(w, script[0].users); }
  }

  // ---- Whole runs ----

  lemma {:induction false} RunPays(w: World, scripts: seq<seq<Turn>>)
    requires WorldOk(w) && Version(w, 0).status == NewStatus
    requires Undisturbed(Run(w, scripts)) && !BecameAvailable(Run(w, scripts))
    ensures Score(w) + |scripts| <= Score(Run(w, scripts))
    decreases |scripts|
  {
    if scripts != [] {
      var v := Reconcile(w, scripts[0]).w;
      ReconcileOk(w, scripts[0]);
      RunOk(v, scripts[1..]);
      hide Reconcile, WorldOk, Undisturbed, BecameAvailable;
      assert Run(w, scripts) == Run(v, scripts[1..]);
      UndisturbedBefore(v, Run(w, scripts));
      ReconcilePays(w, scripts[0]);
      assert Version(v, 0) == Version(w, 0);
      RunPays(v, scripts[1..]);
    }
  }

  lemma InitPays(id: string, ns: string, spec: Spec, cluster: map<Key, Child>)
    ensures var w := Init(id, ns, spec, cluster); WorldOk(w) && Score(w) == 0 && Version(w, 0).status == NewStatus
  {
    InitOk(id, ns, spec, cluster);
  }

  /** With a valid class, no fatal API error and no delete, a fresh instance has become
      available once it was reconciled 8 times plus once per poll and per lost store call. */
  lemma BoundedProgress(id: string, ns: string, spec: Spec, cluster: map<Key, Child>, scripts: seq<seq<Turn>>)
    requires var w := Run(Init(id, ns, spec, cluster), scripts);
             Undisturbed(w) && |scripts| >= 8 + w.polls + w.lost
    ensures BecameAvailable(Run(Init(id, ns, spec, cluster), scripts))
  {
    var w0 := Init(id, ns, spec, cluster);
    var w := Run(w0, scripts);
    hide Run, WorldOk, Undisturbed, Init;
    assert Version(w, |w.past|) == w.cur;
    InitPays(id, ns, spec, cluster);
    if !BecameAvailable(w) { RunPays(w0, scripts); }
  }
}
