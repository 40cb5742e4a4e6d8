/** The fault-free run: for every spec with a valid class and every initial cluster there is a
    run without crash, fault or poll that gets the instance available in eight
    reconciles. It is the run that the refinement theorem compares faulty runs with. */
module FaultFree {
  import opened Types
  import opened Names
  import opened World
  import opened Harvester
  import opened Reconciler
  import opened Invariants
  import opened Phases
  import opened Theorems
  import opened Progress
  import Keeping

  const Up: Vmi := Vmi(true, [Interface("vpc-net", "10.100.0.2"), Interface("mgmt-net", "10.0.0.2")], true)

  /** Nobody interferes, every call succeeds and the VM is ready. */
  predicate Quiet(t: Turn) {
    t.users == [] && t.store == Normal && t.api == Normal && t.vmi == Some(Up) && t.usable
  }

  ghost predicate QuietScript(script: seq<Turn>, n: nat) {
    |script| >= n && forall t | t in script :: Quiet(t)
  }

  /** A world in which nothing has gone wrong. */
  ghost predicate Calm(w: World, spec: Spec) {
    && w.live && !w.cur.deleting && w.faults == Faults(0, 0, 0) && w.lost == 0 && w.polls == 0
    && forall i: nat | i <= |w.past| :: Version(w, i).spec == spec
  }

  /** A session on the newest version with at least `n` quiet turns ahead. */
  ghost predicate Smooth(s: Session, spec: Spec, n: nat) {
    s.halt == Going && Calm(s.w, spec) && s.inst.rv == |s.w.past| && QuietScript(s.script, n)
  }

  // ---- One call ----

  lemma TakeSmooth(s: Session, spec: Spec, n: nat)
    requires Smooth(s, spec, n + 1)
    ensures var t := Take(s); Smooth(t, spec, n) && t.w == s.w && t.inst == s.inst && Quiet(t.now)
  {
    hide Calm, Quiet;
    assert s.script[0] in s.script;
    assert Quiet(s.script[0]);
    NoUsers(s.w, s.script[0]);
  }

  lemma NoUsers(w: World, t: Turn)
    requires Quiet(t)
    ensures Users(w, t.users) == w
  {
  }

  lemma CreateSmooth(s: Session, k: Key, c: Child, spec: Spec, n: nat)
    requires Smooth(s, spec, n + 1)
    ensures Smooth(Create(s, k, c), spec, n)
  {
    hide Take, QuietScript;
    TakeSmooth(s, spec, n);
    SameCalm(s.w, Create(s, k, c).w, spec);
  }

  lemma SameCalm(w: World, v: World, spec: Spec)
    requires Calm(w, spec)
    requires v == w.(cluster := v.cluster, log := v.log, nonce := v.nonce)
    ensures Calm(v, spec)
  {
    assert forall i: nat | i <= |w.past| :: Version(v, i) == Version(w, i);
  }

  lemma GetSmooth(s: Session, k: Key, spec: Spec, n: nat)
    requires Smooth(s, spec, n + 1)
    ensures Smooth(Get(s, k), spec, n) && (Get(s, k).err == NoErr <==> k in s.w.cluster)
  {
    hide Take, QuietScript;
    TakeSmooth(s, spec, n);
  }

  lemma PutSmooth(s: Session, k: Key, c: Child, spec: Spec, n: nat)
    requires Smooth(s, spec, n + 1)
    ensures Smooth(Put(s, k, c), spec, n) && (Put(s, k, c).err == NoErr <==> k in s.w.cluster)
  {
    hide Take, QuietScript;
    TakeSmooth(s, spec, n);
    SameCalm(s.w, Put(s, k, c).w, spec);
  }

  lemma CheckSmooth(s: Session, spec: Spec, n: nat)
    requires Smooth(s, spec, n + 1)
    ensures Smooth(Check(s), spec, n) && Smooth(GenerateKeys(s), spec, n)
  {
    hide Take, QuietScript;
    TakeSmooth(s, spec, n);
    SameCalm(s.w, GenerateKeys(s).w, spec);
  }

  lemma CommitSmooth(t: Session, o: Object, spec: Spec, n: nat)
    requires Smooth(t, spec, n) && Quiet(t.now) && o.spec == t.w.cur.spec && o.deleting == t.w.cur.deleting
    ensures Smooth(Commit(t, o, true), spec, n) && Commit(t, o, true).w.cur == o
  {
    hide QuietScript;
    var v := Commit(t, o, true).w;
    assert Version(t.w, |t.w.past|).spec == spec;
    forall i: nat | i <= |v.past| ensures Version(v, i).spec == spec {
      if i <= |t.w.past| { assert Version(v, i) == Version(t.w, i) || v.cur == o; }
    }
  }

  lemma StatusUpdateSmooth(s: Session, spec: Spec, n: nat)
    requires Smooth(s, spec, n + 1)
    ensures Smooth(StatusUpdate(s), spec, n) && StatusUpdate(s).w.cur.status == St(s)
  {
    hide Take, QuietScript, Commit;
    TakeSmooth(s, spec, n);
    var t := Take(s);
    CommitSmooth(t, t.w.cur.(status := St(t)), spec, n);
  }

  lemma FinalizerSmooth(s: Session, spec: Spec, n: nat)
    requires Smooth(s, spec, n + 1)
    ensures Smooth(FinalizerUpdate(s, true), spec, n)
    ensures FinalizerUpdate(s, true).w.cur == s.w.cur.(finalizer := true)
  {
    hide Take, QuietScript, Commit;
    TakeSmooth(s, spec, n);
    var t := Take(s);
    CommitSmooth(t, t.w.cur.(finalizer := true), spec, n);
  }

  /** Edits in memory and reported errors do not matter. */
  lemma EditSmooth(s: Session, spec: Spec, n: nat)
    requires Smooth(s, spec, n)
    ensures forall st :: Smooth(WithStatus(s, st), spec, n)
    ensures forall e :: Smooth(s.(err := e), spec, n)
    ensures forall m: nat | m <= n :: Smooth(s, spec, m)
  {
    hide Calm;
  }

  lemma WriteSmooth(s: Session, st: Status, spec: Spec, n: nat)
    requires Smooth(s, spec, n + 1)
    ensures Smooth(StatusUpdate(WithStatus(s, st)), spec, 0) && StatusUpdate(WithStatus(s, st)).w.cur.status == st
  {
    hide Smooth, StatusUpdate;
    EditSmooth(s, spec, n + 1);
    StatusUpdateSmooth(WithStatus(s, st), spec, n);
    EditSmooth(StatusUpdate(WithStatus(s, st)), spec, n);
  }

  // ---- Phases ----

  lemma NetworkSmooth(s: Session, vlan: string, spec: Spec)
    requires Smooth(s, spec, 6)
    ensures Smooth(CreateVPCNetwork(s, vlan), spec, 1)
  {
    hide Smooth, Create, Get, Put;
    var id, ns := s.w.id, s.w.ns;
    CreateSmooth(s, VpcKey(id), VpcChild(ns, []), spec, 5);
    var s1 := Create(s, VpcKey(id), VpcChild(ns, []));
    EditSmooth(s1, spec, 5);
    GetSmooth(s1, VpcKey(id), spec, 4);
    var s2 := if s1.err == AlreadyExists then Get(s1, VpcKey(id)) else s1;
    EditSmooth(s2, spec, 4);
    CreateSmooth(s2, NadKey(id, ns), NadChild, spec, 3);
    var s3 := Create(s2, NadKey(id, ns), NadChild);
    EditSmooth(s3, spec, 3);
    CreateSmooth(s3, SubnetKey(id), SubnetChild(VpcName(id), vlan), spec, 2);
    var s4 := Create(s3, SubnetKey(id), SubnetChild(VpcName(id), vlan));
    EditSmooth(s4, spec, 2);
    if VpcKey(id) in s2.w.cluster {
      PutSmooth(s4, VpcKey(id), AddRoute(s2.w.cluster[VpcKey(id)], vlan), spec, 1);
      EditSmooth(Put(s4, VpcKey(id), AddRoute(s2.w.cluster[VpcKey(id)], vlan)), spec, 1);
    }
    SmoothErr(s4, spec);
  }

  lemma SmoothErr(s: Session, spec: Spec)
    requires Smooth(s, spec, 2)
    ensures forall e :: Smooth(s.(err := e), spec, 1)
  {
    hide Calm;
  }

  lemma VMSmooth(s: Session, size: ClassSpec, spec: Spec)
    requires Smooth(s, spec, 6)
    ensures Smooth(CreatePostgresVM(s, size), spec, 1)
  {
    hide Smooth, Create, Check, GenerateKeys, IgnoreAlreadyExists;
    var id, ns, refs := s.w.id, s.w.ns, St(s).refs;
    CheckSmooth(s, spec, 5);
    var s1 := GenerateKeys(s);
    EditSmooth(s1, spec, 5);
    CheckSmooth(s1, spec, 4);
    var s2 := if s.inst.obj.spec.s3Backup then Check(s1) else s1;
    EditSmooth(s2, spec, 4);
    if s1.w.nonce > 0 {
      var n := s1.w.nonce - 1;
      CreateSmooth(s2, SecretKey(id, ns), SecretChild(n, n, n), spec, 3);
      var s3 := Create(s2, SecretKey(id, ns), SecretChild(n, n, n));
      EditSmooth(s3, spec, 3);
      CheckSmooth(s3, spec, 2);
      var s4, vm := Check(s3), VmChild(true, size.cpuCores, size.memoryMB, refs.dataVolume, refs.nad, SecretName(id));
      EditSmooth(s4, spec, 2);
      CreateSmooth(s4, VmKey(id, ns), vm, spec, 1);
      IgnoredSmooth(Create(s4, VmKey(id, ns), vm), spec, 1);
    }
    if !Halted(s1) && s1.err == NoErr { Keeping.KeysDrawn(s); }
  }

  lemma IgnoredSmooth(s: Session, spec: Spec, n: nat)
    requires Smooth(s, spec, n)
    ensures Smooth(IgnoreAlreadyExists(s), spec, n)
  {
    hide Calm;
  }

  /** The stored phase is the given one, or a failure. */
  predicate Moved(s: Session, p: Provisioning) { s.w.cur.status.provisioning in {p, PhaseFailed} }

  lemma PhaseNetworkSmooth(s: Session, spec: Spec)
    requires Smooth(s, spec, 7)
    ensures Smooth(PhaseNetwork(s), spec, 0) && Moved(PhaseNetwork(s), NetworkProvisioned)
  {
    hide Smooth, StatusUpdate, CreateVPCNetwork;
    EditSmooth(s, spec, 7);
    var c := if St(s).phase == NoPhase then WithStatus(s, St(s).(phase := Creating)) else s;
    var refs, spec1 := St(c).refs, c.inst.obj.spec;
    EditSmooth(c, spec, 7);
    WriteSmooth(c, St(c).(provisioning := NetworkProvisioned), spec, 6);
    WriteSmooth(c, St(c).(refs := refs.(nad := spec1.networkRef), provisioning := NetworkProvisioned), spec, 6);
    var vlan := Vlan(spec1);
    NetworkSmooth(c, vlan, spec);
    var t := CreateVPCNetwork(c, vlan);
    EditSmooth(t, spec, 1);
    SmoothGoing(t, spec, 1);
    var id := t.w.id;
    WriteSmooth(t, St(t).(phase := Failed, provisioning := PhaseFailed), spec, 0);
    WriteSmooth(t, St(t).(refs := refs.(vpc := VpcName(id), subnet := SubnetName(id), nad := NadName(id)),
                          provisioning := NetworkProvisioned), spec, 0);
  }

  lemma PhaseStorageSmooth(s: Session, spec: Spec)
    requires Smooth(s, spec, 7)
    ensures Smooth(PhaseStorage(s), spec, 0) && Moved(PhaseStorage(s), StorageProvisioned)
  {
    hide Smooth, StatusUpdate, Create, IgnoreAlreadyExists;
    var refs, spec1 := St(s).refs, s.inst.obj.spec;
    WriteSmooth(s, St(s).(provisioning := StorageProvisioned), spec, 6);
    var kind := StorageClass(spec1);
    var k, c := DataVolumeKey(s.w.id, s.w.ns), VolumeChild(spec1.allocatedStorage, kind);
    CreateSmooth(s, k, c, spec, 6);
    IgnoredSmooth(Create(s, k, c), spec, 6);
    var t := CreateDataVolume(s, spec1.allocatedStorage, kind);
    EditSmooth(t, spec, 6);
    SmoothGoing(t, spec, 6);
    WriteSmooth(t, St(t).(phase := Failed, provisioning := PhaseFailed), spec, 5);
    WriteSmooth(t, St(t).(refs := refs.(dataVolume := DataVolumeName(t.w.id)), provisioning := StorageProvisioned), spec, 5);
  }

  lemma PhaseVMSmooth(s: Session, spec: Spec)
    requires Smooth(s, spec, 7)
    ensures Smooth(PhaseVM(s), spec, 0) && Moved(PhaseVM(s), VMCreated)
  {
    hide Smooth, StatusUpdate, CreatePostgresVM, ClassOf;
    EditSmooth(s, spec, 7);
    WriteSmooth(s, St(s).(provisioning := VMCreated), spec, 6);
    WriteSmooth(s, St(s).(phase := Failed, provisioning := PhaseFailed), spec, 6);
    var size := ClassOf(s.inst.obj.spec.instanceClass);
    if size.Some? {
      VMSmooth(s, size.value, spec);
      var t := CreatePostgresVM(s, size.value);
      EditSmooth(t, spec, 1);
      SmoothGoing(t, spec, 1);
      WriteSmooth(t, St(t).(phase := Failed, provisioning := PhaseFailed), spec, 0);
      WriteSmooth(t, St(RecordVM(t)), spec, 0);
    }
  }

  /** The VM is ready at once, so there is nothing to poll for. */
  lemma PhaseWaitSmooth(s: Session, spec: Spec)
    requires Smooth(s, spec, 7)
    ensures Smooth(PhaseWaitReady(s), spec, 0) && Moved(PhaseWaitReady(s), DatabaseReady)
  {
    hide Smooth, StatusUpdate, Take;
    TakeSmooth(s, spec, 6);
    var t := Take(s);
    EditSmooth(t, spec, 6);
    UpIsReady(t.now);
    var r := ReadinessOf(t.now);
    WriteSmooth(t, St(t).(endpoint := Some(Endpoint(r.ip, SpecPort(t.inst.obj.spec.port))),
                          managementAddress := r.mgmtIp, provisioning := DatabaseReady), spec, 5);
    SmoothGoing(t, spec, 6);
  }

  lemma SmoothGoing(s: Session, spec: Spec, n: nat)
    requires Smooth(s, spec, n)
    ensures !Halted(s)
  {
  }

  lemma UpIsReady(t: Turn)
    requires Quiet(t)
    ensures ReadinessOf(t).running && ReadinessOf(t).ip != "" && ReadinessOf(t).ready
  {
    TenantAddressIs(Up.interfaces);
    assert Addressed(Up.interfaces[0]);
  }

  lemma PhaseMonitoringSmooth(s: Session, spec: Spec)
    requires Smooth(s, spec, 7) && St(s).endpoint.Some?
    ensures Smooth(PhaseMonitoring(s), spec, 0) && Moved(PhaseMonitoring(s), MonitoringDeployed)
  {
    hide Smooth, StatusUpdate, Create;
    var id, ns, refs := s.w.id, s.w.ns, St(s).refs;
    WriteSmooth(s, St(s).(provisioning := MonitoringDeployed), spec, 6);
    CreateSmooth(s, ServiceKey(id, ns), ServiceChild, spec, 6);
    var a := Create(s, ServiceKey(id, ns), ServiceChild);
    EditSmooth(a, spec, 6);
    CreateSmooth(a, MonitorKey(id, ns), MonitorChild, spec, 5);
    var t := DeployMonitoring(s);
    SmoothGoing(a, spec, 6);
    EditSmooth(t, spec, 5);
    SmoothGoing(t, spec, 5);
    WriteSmooth(t, St(t).(provisioning := MonitoringDeployed), spec, 4);
    WriteSmooth(t, St(t).(refs := refs.(monitor := MonitorName(t.w.id)), provisioning := MonitoringDeployed), spec, 4);
  }

  lemma PhasePeeringSmooth(s: Session, spec: Spec)
    requires Smooth(s, spec, 7)
    ensures Smooth(PhaseVpcPeering(s), spec, 0) && Moved(PhaseVpcPeering(s), VpcPeeringCreated)
  {
    hide Smooth, StatusUpdate, Create, IgnoreAlreadyExists;
    var refs, peering := St(s).refs, s.inst.obj.spec.vpcPeering;
    WriteSmooth(s, St(s).(provisioning := VpcPeeringCreated), spec, 6);
    if peering.Some? {
      var k, c := PeeringKey(s.w.id), PeeringChild(refs.vpc, refs.subnet, peering.value);
      CreateSmooth(s, k, c, spec, 6);
      IgnoredSmooth(Create(s, k, c), spec, 6);
      var t := CreateVpcPeering(s, peering.value);
      EditSmooth(t, spec, 6);
      SmoothGoing(t, spec, 6);
      WriteSmooth(t, St(t).(provisioning := VpcPeeringCreated), spec, 5);
      WriteSmooth(t, St(t).(refs := refs.(peering := PeeringName(t.w.id)), provisioning := VpcPeeringCreated), spec, 5);
    }
  }

  lemma PhaseAvailableSmooth(s: Session, spec: Spec)
    requires Smooth(s, spec, 7)
    ensures Smooth(PhaseAvailableStep(s), spec, 0) && Moved(PhaseAvailableStep(s), PhaseAvailable)
    ensures PhaseAvailableStep(s).w.cur.status.phase == Available
  {
    hide Smooth, StatusUpdate, Take, ReadinessOf;
    EditSmooth(s, spec, 7);
    var s1 := WithStatus(s, St(s).(phase := Available, provisioning := PhaseAvailable,
                                   observedGeneration := s.inst.obj.generation));
    TakeSmooth(s1, spec, 6);
    var t := Take(s1);
    EditSmooth(t, spec, 6);
    SmoothGoing(t, spec, 6);
    WriteSmooth(t, RefreshAddresses(St(t), t.inst.obj.spec, ReadinessOf(t.now)), spec, 5);
  }

  // ---- Reconciles and runs ----

  predicate NextPhase(p: Provisioning, q: Provisioning) { q == p || q == PhaseFailed || Follows(p, q) }

  lemma DispatchSmooth(s: Session, spec: Spec)
    requires Fresh(s) && Smooth(s, spec, 7) && St(s).provisioning !in {PhaseAvailable, PhaseFailed}
    ensures Smooth(Dispatch(s), spec, 0)
    ensures NextPhase(St(s).provisioning, Dispatch(s).w.cur.status.provisioning)
    ensures Dispatch(s).w.cur.status.provisioning == PhaseAvailable ==> Dispatch(s).w.cur.status.phase == Available
    ensures !s.inst.obj.finalizer ==> Dispatch(s).w.cur == s.w.cur.(finalizer := true)
  {
    FreshOk(s);
    assert !s.inst.obj.deleting && (St(s).provisioning == DatabaseReady ==> St(s).endpoint.Some?);
    assert St(s).phase !in {Available, Stopped} && !St(s).provisioning.Unknown?;
    hide Fresh, ObjectOk, Smooth, Legal, PhaseNetwork, PhaseStorage, PhaseVM, PhaseWaitReady, PhaseMonitoring,
         PhaseVpcPeering,
         PhaseAvailableStep, FinalizerUpdate;
    if !s.inst.obj.finalizer {
      FinalizerSmooth(s, spec, 6);
      EditSmooth(FinalizerUpdate(s, true), spec, 6);
    } else {
      match St(s).provisioning
      case Unset => PhaseNetworkSmooth(s, spec);
      case Pending => PhaseNetworkSmooth(s, spec);
      case NetworkProvisioned => PhaseStorageSmooth(s, spec);
      case StorageProvisioned => PhaseVMSmooth(s, spec);
      case VMCreated => PhaseWaitSmooth(s, spec);
      case WaitingForCloudInit => PhaseWaitSmooth(s, spec);
      case DatabaseReady => PhaseMonitoringSmooth(s, spec);
      case MonitoringDeployed => PhasePeeringSmooth(s, spec);
      case VpcPeeringCreated => PhaseAvailableSmooth(s, spec);
    }
  }

  function QuietTurn(w: World): Turn { Turn([], |w.past|, Normal, true, Normal, Some(Up), true, {}) }

  function QuietReconcile(w: World): seq<Turn> { seq(8, i => QuietTurn(w)) }

  lemma ReadSmooth(w: World, spec: Spec)
    requires WorldOk(w) && Calm(w, spec)
    ensures var s := Read(Begin(w, QuietReconcile(w)));
            Smooth(s, spec, 7) && s.err == NoErr && s.inst.obj == w.cur && Fresh(s) && s.inst.rv == s.w.cached
  {
    var script := QuietReconcile(w);
    var s := Read(Begin(w, script));
    ReadOk(Begin(w, script));
    hide WorldOk, Fresh;
    assert script[0] == QuietTurn(w) && script[0].users == [];
    assert Users(w, script[0].users) == w;
    assert s.w == w.(cached := s.w.cached);
    assert forall i: nat | i <= |w.past| :: Version(s.w, i) == Version(w, i);
  }

  /** One quiet reconcile of an instance that is under way is exactly one phase of progress. */
  lemma StepSmooth(w: World, spec: Spec)
    requires WorldOk(w) && Calm(w, spec) && w.cur.status.provisioning !in {PhaseAvailable, PhaseFailed}
    requires w.cur.status.provisioning == StorageProvisioned ==> ClassOf(spec.instanceClass).Some?
    ensures var v := Reconcile(w, QuietReconcile(w)).w;
            && WorldOk(v) && Calm(v, spec) && Paid(v.cur) == Paid(w.cur) + 1
            && (v.cur.status.provisioning == PhaseAvailable ==> v.cur.status.phase == Available)
  {
    hide WorldOk, Calm, Smooth, Fresh, Paid, ClassOf, Read, Reconcile, Dispatch, QuietReconcile;
    var s := Read(Begin(w, QuietReconcile(w)));
    ReadSmooth(w, spec);
    ReconcileOk(w, QuietReconcile(w));
    SmoothGoing(s, spec, 7);
    ReconcileIs(w, QuietReconcile(w));
    DispatchStep(s, spec);
  }

  lemma ReconcileIs(w: World, script: seq<Turn>)
    requires var s := Read(Begin(w, script)); !Halted(s) && s.err == NoErr
    ensures Reconcile(w, script) == Dispatch(Read(Begin(w, script)))
  {
    hide Read, Dispatch;
  }

  lemma DispatchStep(s: Session, spec: Spec)
    requires Fresh(s) && Smooth(s, spec, 7) && St(s).provisioning !in {PhaseAvailable, PhaseFailed}
    requires St(s).provisioning == StorageProvisioned ==> ClassOf(spec.instanceClass).Some?
    ensures var v := Dispatch(s).w;
            && Calm(v, spec) && Paid(v.cur) == Paid(s.inst.obj) + 1
            && (v.cur.status.provisioning == PhaseAvailable ==> v.cur.status.phase == Available)
  {
    SmoothCurrent(s, spec);
    FreshOk(s);
    hide Fresh, Legal, Dispatch, ClassOf, ObjectOk, Paid, NextPhase, QuietScript;
    DispatchSmooth(s, spec);
    DispatchPays(s);
    PaidStep(s.w.id, s.inst.obj, Dispatch(s).w.cur);
  }

  lemma SmoothCurrent(s: Session, spec: Spec)
    requires Fresh(s) && Smooth(s, spec, 7)
    ensures s.inst.obj == s.w.cur && s.inst.obj.spec == spec && !s.inst.obj.deleting
  {
    assert Version(s.w, |s.w.past|) == s.w.cur;
  }

  lemma PaidStep(id: string, a: Object, b: Object)
    requires ObjectOk(id, a) && !a.deleting && Paid(a) < Paid(b)
    requires NextPhase(a.status.provisioning, b.status.provisioning) && (!a.finalizer ==> b == a.(finalizer := true))
    ensures Paid(b) == Paid(a) + 1
  {
    hide Ledger, Canonical;
  }

  lemma PaidBound(o: Object)
    ensures Paid(o) <= 8
    ensures Paid(o) == 8 <==> o.finalizer && o.status.provisioning == PhaseAvailable
    ensures Paid(o) > 0 ==> o.finalizer && o.status.provisioning != PhaseFailed
    ensures Paid(o) == 3 <==> o.finalizer && o.status.provisioning == StorageProvisioned
  {
  }

  lemma CalmAlive(w: World, spec: Spec)
    requires Calm(w, spec)
    ensures w.live && !w.cur.deleting
  {
  }

  lemma StartedFinalized(w: World)
    requires WorldOk(w) && !w.cur.deleting && w.cur.status.provisioning != Unset
    ensures w.cur.finalizer
  {
    assert VersionOk(w, |w.past|);
    hide Coupled, Ledger, Canonical;
  }

  /** The quiet run up to a given point of the path: 1 is the finalizer, 3 is storage, which is as
      far as an invalid class gets, 8 is available. */
  lemma {:induction false} QuietRun(w: World, spec: Spec, target: nat) returns (scripts: seq<seq<Turn>>)
    requires WorldOk(w) && Calm(w, spec) && Paid(w.cur) <= target <= 8
    requires target <= 3 || ClassOf(spec.instanceClass).Some?
    requires w.cur.status.provisioning != PhaseFailed
    requires w.cur.status.provisioning == PhaseAvailable ==> w.cur.finalizer && w.cur.status.phase == Available
    ensures var v := Run(w, scripts);
            && Calm(v, spec) && Paid(v.cur) == target && |scripts| == target - Paid(w.cur)
            && (v.cur.status.provisioning == PhaseAvailable ==> v.cur.status.phase == Available)
    decreases target - Paid(w.cur)
  {
    hide WorldOk, Calm, Paid, ClassOf, Reconcile, QuietReconcile;
    scripts := [];
    PaidBound(w.cur);
    if Paid(w.cur) < target {
      assert w.cur.status.provisioning == StorageProvisioned ==> w.cur.finalizer by {
        if w.cur.status.provisioning == StorageProvisioned { CalmAlive(w, spec); StartedFinalized(w); }
      }
      StepSmooth(w, spec);
      var v := Reconcile(w, QuietReconcile(w)).w;
      PaidBound(v.cur);
      var rest := QuietRun(v, spec, target);
      scripts := [QuietReconcile(w)] + rest;
      assert scripts[1..] == rest;
    }
  }

  /** The world a quiet run of a new instance reaches. */
  lemma QuietWorld(id: string, ns: string, spec: Spec, cluster: map<Key, Child>, target: nat) returns (w: World)
    requires target <= 8 && (target <= 3 || ClassOf(spec.instanceClass).Some?)
    ensures Reachable(w) && WorldOk(w) && w.id == id && w.ns == ns && Calm(w, spec) && TornDown !in w.log
    ensures Paid(w.cur) == target && (w.cur.status.provisioning == PhaseAvailable ==> w.cur.status.phase == Available)
    ensures exists scripts :: |scripts| == target && w == Run(Init(id, ns, spec, cluster), scripts)
  {
    InitOk(id, ns, spec, cluster);
    var w0 := Init(id, ns, spec, cluster);
    assert Version(w0, 0) == w0.cur;
    hide ClassOf, Run;
    var scripts := QuietRun(w0, spec, target);
    w := Run(w0, scripts);
    RunOk(w0, scripts);
    assert Reachable(w);
    assert Version(w, |w.past|) == w.cur;
  }

  /** For every spec with a valid class and every initial cluster there is a run without a single
      fault that has the instance available after eight reconciles. */
  lemma EightReconciles(id: string, ns: string, spec: Spec, cluster: map<Key, Child>)
    requires ClassOf(spec.instanceClass).Some?
    ensures exists scripts ::
              var w := Run(Init(id, ns, spec, cluster), scripts);
              |scripts| == 8 && Calm(w, spec) && w.cur.status.provisioning == PhaseAvailable
  {
    hide ClassOf, Run, WorldOk, Reachable, Calm;
    var w := QuietWorld(id, ns, spec, cluster, 8);
    PaidBound(w.cur);
  }

  /** Refinement, with both sides present: whatever happened to a run that left the spec alone,
      had no failed peering call and got the instance available, a run without any fault from
      the same start records the same refs, the ServiceMonitor aside. */
  lemma RefinesFaultFree(w: World, cluster: map<Key, Child>)
    requires Reachable(w) && w.cur.status.provisioning == PhaseAvailable && w.faults.peering == 0
    requires forall i: nat | i <= |w.past| :: Version(w, i).spec == w.cur.spec
    ensures exists scripts ::
              var calm := Run(Init(w.id, w.ns, w.cur.spec, cluster), scripts);
              && |scripts| == 8 && Calm(calm, w.cur.spec)
              && w.cur.status.refs == calm.cur.status.refs.(monitor := w.cur.status.refs.monitor)
              && w.cur.status.masterUserSecret == calm.cur.status.masterUserSecret
  {
    CrashRecovery(w);
    hide ClassOf, Run, WorldOk, Reachable;
    var calm := QuietWorld(w.id, w.ns, w.cur.spec, cluster, 8);
    PaidBound(calm.cur);
    assert Version(calm, |calm.past|).spec == calm.cur.spec;
    RunsAgree(w, calm);
  }
}
