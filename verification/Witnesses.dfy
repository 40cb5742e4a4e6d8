/** Reachable worlds that show what the controller does not guarantee: each starts from the
    fault-free run of an arbitrary instance and takes one wrong turn. */
module Witnesses {
  import opened Types
  import opened Names
  import opened World
  import opened Harvester
  import opened Reconciler
  import opened Invariants
  import opened Phases
  import opened Theorems
  import opened Frames
  import opened Progress
  import opened FaultFree
  import opened Modify
  import opened Credentials
  import Backing
  import Conservation
  import opened Power
  import Keeping
  import Limits
  import Routes
  import Shapes

  // ---- Calls under a known turn ----

  /** A turn in which every call succeeds, after the given user actions. */
  function Fine(users: seq<UserAction>, readAt: nat, deleted: set<Key>): Turn {
    Turn(users, readAt, Normal, true, Normal, Some(Up), true, deleted)
  }

  const Next: Turn := Fine([], 0, {})

  lemma OneUser(w: World, a: UserAction)
    ensures Users(w, [a]) == User(w, a)
  {
    assert Users(User(w, a), [a][1..]) == User(w, a);
  }

  lemma TakeHead(s: Session, t: Turn, rest: seq<Turn>)
    requires s.halt == Going && s.script == [t] + rest
    ensures Take(s) == s.(w := Users(s.w, t.users), script := rest, now := t)
  {
    assert s.script[1..] == rest;
  }

  lemma Crash(s: Session)
    requires s.halt == Going && s.script == []
    ensures Take(s) == s.(halt := Crashed, w := s.w.(lost := s.w.lost + 1))
  {
  }

  /** A read of the newest version. */
  lemma ReadHead(w: World, t: Turn, rest: seq<Turn>, v: World)
    requires v == Users(w, t.users) && v.live && v.cached <= |v.past| <= t.readAt && t.store == Normal
    ensures Read(Begin(w, [t] + rest))
            == Session(v.(cached := |v.past|), Instance(v.cur, |v.past|), rest, t, NoErr, Going)
  {
    TakeHead(Begin(w, [t] + rest), t, rest);
  }

  /** A status write onto the newest version. */
  lemma WriteHead(s: Session, rest: seq<Turn>)
    requires s.halt == Going && s.script == [Next] + rest && s.w.live && s.inst.rv == |s.w.past|
    ensures var o := s.w.cur.(status := St(s));
            StatusUpdate(s) == s.(w := Append(s.w, o), inst := Instance(o, |s.w.past| + 1), script := rest, now := Next,
                                  err := NoErr)
  {
    TakeHead(s, Next, rest);
  }

  lemma CreateHead(s: Session, k: Key, c: Child, rest: seq<Turn>)
    requires s.halt == Going && s.script == [Next] + rest
    ensures var t := s.(script := rest, now := Next);
            Create(s, k, c) == if k in s.w.cluster then t.(err := AlreadyExists) else AddChild(t, k, c)
  {
    TakeHead(s, Next, rest);
  }

  // ---- Deletion protection ----

  /** Late protection is ignored: for every instance of a valid class there is a reachable world
      in which it is available and running, and a reconcile after which the stored object is
      protected and alive and its VM is gone. */
  lemma LateProtectionIgnored(id: string, ns: string, spec: Spec, cluster: map<Key, Child>)
    returns (w: World, script: seq<Turn>)
    requires ClassOf(spec.instanceClass).Some? && !spec.deletionProtection
    ensures Reachable(w) && w.id == id && w.ns == ns && VmKey(id, ns) in w.cluster
    ensures var v := Reconcile(w, script).w;
            && Reachable(v) && v.live && v.cur.finalizer && v.cur.spec.deletionProtection
            && v.log == w.log + [TornDown] && VmKey(id, ns) !in v.cluster
  {
    w := QuietWorld(id, ns, spec, cluster, 8);
    PaidBound(w.cur);
    Backing.AvailableIsBuilt(w);
    var refs, n := w.cur.status.refs, |w.past|;
    assert refs.vm == VmName(id) by { LedgerIsPrefix(w, n); assert Version(w, n) == w.cur; }
    assert Version(w, n).spec == spec;
    var keys := TeardownKeys(ns, refs);
    assert VmKey(id, ns) in keys;
    var t0, t1, t2 := Fine([RequestDelete], n + 1, {}), Fine([PatchSpec(spec.(deletionProtection := true))], 0, {}), Fine([], 0, keys);
    script := [t0] + ([t1] + ([t2] + [Next]));
    ReachableNext(w, script);
    LateRun(w, script, t1, t2, keys);
  }

  lemma LateRun(w: World, script: seq<Turn>, t1: Turn, t2: Turn, keys: set<Key>)
    requires w.live && !w.cur.deleting && w.cur.finalizer && !w.cur.spec.deletionProtection && w.cached <= |w.past|
    requires t1 == Fine([PatchSpec(w.cur.spec.(deletionProtection := true))], 0, {})
    requires keys == TeardownKeys(w.ns, w.cur.status.refs) && t2 == Fine([], 0, keys)
    requires script == [Fine([RequestDelete], |w.past| + 1, {})] + ([t1] + ([t2] + [Next]))
    ensures var v := Reconcile(w, script).w;
            && v.live && v.cur.finalizer && v.cur.spec.deletionProtection && v.log == w.log + [TornDown]
            && v.cluster == w.cluster - keys
  {
    hide TeardownKeys, Read;
    var o := w.cur.(deleting := true, generation := w.cur.generation + 1);
    var w1 := Append(w, o);
    OneUser(w, RequestDelete);
    ReadHead(w, script[0], [t1] + ([t2] + [Next]), w1);
    var s := Read(Begin(w, script));
    assert Dispatch(s) == ReconcileDelete(s);
    var m := Mark(s, Deleting);
    TakeHead(m, t1, [t2] + [Next]);
    OneUser(m.w, t1.users[0]);
    var t := StatusUpdate(m);
    assert !Writable(Take(m));
    assert t.script == [t2] + [Next] && t.halt == Going && St(t).refs == w.cur.status.refs;
    TakeHead(t, t2, [Next]);
    var u := TeardownAll(t);
    assert u.w.cluster == w.cluster - (keys * keys) && keys * keys == keys;
    TakeHead(u, Next, []);
    assert !Writable(Take(u));
  }

  // ---- Monitoring ----

  /** A crash between creating the ServiceMonitor and recording it leaks it: the retry meets
      `AlreadyExists` and moves on. For every instance of a valid class such a world is reachable. */
  lemma MonitorLeaks(id: string, ns: string, spec: Spec, cluster: map<Key, Child>) returns (v: World)
    requires ClassOf(spec.instanceClass).Some?
    ensures Reachable(v) && v.id == id && v.ns == ns && v.live
    ensures MonitorKey(id, ns) in v.cluster && v.cur.status.refs.monitor == ""
    ensures v.cur.status.provisioning == MonitoringDeployed && ServiceKey(id, ns) in v.cluster
    ensures !v.cur.deleting && v.cur.finalizer && v.cached <= |v.past| && v.cur.spec == spec
  {
    var w := QuietWorld(id, ns, spec, cluster, 5);
    CalmSpec(w, spec);
    UnderWay(w);
    hide WorldOk, Reachable, Reconcile, ClassOf, Calm, Paid;
    var crash := [Fine([], |w.past|, {})] + [Next, Next];
    CrashBeforeRecording(w, crash);
    ReachableNext(w, crash);
    var u := Reconcile(w, crash).w;
    var retry := [Fine([], |u.past|, {})] + [Next, Next, Next];
    RetryMeetsMonitor(u, retry);
    ReachableNext(u, retry);
    v := Reconcile(u, retry).w;
  }

  /** A live instance that is ready for its monitoring phase. */
  predicate ReadyForMonitoring(w: World) {
    && w.live && !w.cur.deleting && w.cur.finalizer && w.cached <= |w.past| && w.cur.status.phase == Creating
    && w.cur.status.provisioning == DatabaseReady && w.cur.status.refs.monitor == "" && w.cur.status.endpoint.Some?
  }

  lemma UnderWay(w: World)
    requires WorldOk(w) && w.live && !w.cur.deleting && Paid(w.cur) == 5
    ensures ReadyForMonitoring(w)
  {
    assert VersionOk(w, |w.past|);
    hide Canonical, ClassOf;
  }

  lemma CrashBeforeRecording(w: World, script: seq<Turn>)
    requires ReadyForMonitoring(w) && script == [Fine([], |w.past|, {})] + [Next, Next]
    ensures var v := Reconcile(w, script).w;
            && ReadyForMonitoring(v) && v.id == w.id && v.ns == w.ns && MonitorKey(w.id, w.ns) in v.cluster
            && v.cur.spec == w.cur.spec
  {
    hide ServiceKey, MonitorKey, Create, Read;
    ReadHead(w, script[0], [Next, Next], w);
    var s := Read(Begin(w, script));
    assert Dispatch(s) == PhaseMonitoring(s);
    assert s.script == [Next] + [Next];
    CreateHead(s, ServiceKey(w.id, w.ns), ServiceChild, [Next]);
    var a := Create(s, ServiceKey(w.id, w.ns), ServiceChild);
    assert a.script == [Next] + [];
    CreateHead(a, MonitorKey(w.id, w.ns), MonitorChild, []);
    var t := DeployMonitoring(s);
    assert t.script == [] && t.halt == Going;
  }

  lemma RetryMeetsMonitor(w: World, script: seq<Turn>)
    requires ReadyForMonitoring(w) && script == [Fine([], |w.past|, {})] + [Next, Next, Next]
    requires MonitorKey(w.id, w.ns) in w.cluster
    ensures var v := Reconcile(w, script).w;
            && MonitorKey(w.id, w.ns) in v.cluster && ServiceKey(w.id, w.ns) in v.cluster
            && v.cur.status.refs.monitor == "" && v.live
            && !v.cur.deleting && v.cur.finalizer && v.cached <= |v.past| && v.cur.spec == w.cur.spec
            && v.cur.status.provisioning == MonitoringDeployed && v.id == w.id && v.ns == w.ns
  {
    hide ServiceKey, MonitorKey, Create, StatusUpdate, Read;
    ReadHead(w, script[0], [Next, Next, Next], w);
    var s := Read(Begin(w, script));
    assert Dispatch(s) == PhaseMonitoring(s);
    assert s.script == [Next] + [Next, Next];
    CreateHead(s, ServiceKey(w.id, w.ns), ServiceChild, [Next, Next]);
    var a := Create(s, ServiceKey(w.id, w.ns), ServiceChild);
    assert a.script == [Next] + [Next];
    CreateHead(a, MonitorKey(w.id, w.ns), MonitorChild, [Next]);
    var t := DeployMonitoring(s);
    assert t.err == AlreadyExists && t.script == [Next] + [];
    WriteHead(To(t, MonitoringDeployed), []);
  }

  /** What a delete leaves: for every unprotected instance a world is reachable that is deleted,
      every delete call having succeeded, with the metrics Service and, after a crash in the
      monitoring phase, the ServiceMonitor still on the cluster, where no run removes the Service. */
  lemma ResidueAfterDelete(id: string, ns: string, spec: Spec, cluster: map<Key, Child>) returns (v: World)
    requires ClassOf(spec.instanceClass).Some? && !spec.deletionProtection
    ensures Reachable(v) && v.id == id && v.ns == ns && !v.live
    ensures ServiceKey(id, ns) in v.cluster && MonitorKey(id, ns) in v.cluster
    ensures forall scripts :: ServiceKey(id, ns) in Run(v, scripts).cluster
  {
    var w := MonitorLeaks(id, ns, spec, cluster);
    var keys := TeardownKeys(ns, w.cur.status.refs);
    var script := [Fine([RequestDelete], |w.past| + 1, {})] + [Next, Fine([], 0, keys), Next];
    DeleteRun(w, script, keys);
    Conservation.ServiceListedNowhere(id, ns, w.cur.status.refs);
    Limits.MonitorListed(id, ns, w.cur.status.refs);
    ReachableNext(w, script);
    ReconcileKeepsNameReachable(w, script);
    v := Reconcile(w, script).w;
    ReachableOk(v);
    hide WorldOk, Reachable, Run, ClassOf, Reconcile;
    forall scripts ensures ServiceKey(id, ns) in Run(v, scripts).cluster { Conservation.ServiceStays(v, scripts); }
  }

  lemma ReconcileKeepsNameReachable(w: World, script: seq<Turn>)
    requires Reachable(w)
    ensures Reconcile(w, script).w.id == w.id && Reconcile(w, script).w.ns == w.ns
  {
    ReachableOk(w);
    hide Reachable, WorldOk, Reconcile;
    ReconcileKeepsName(w, script);
  }

  lemma DeleteRun(w: World, script: seq<Turn>, keys: set<Key>)
    requires w.live && !w.cur.deleting && w.cur.finalizer && !w.cur.spec.deletionProtection && w.cached <= |w.past|
    requires keys == TeardownKeys(w.ns, w.cur.status.refs)
    requires script == [Fine([RequestDelete], |w.past| + 1, {})] + [Next, Fine([], 0, keys), Next]
    ensures var v := Reconcile(w, script).w; !v.live && v.cluster == w.cluster - keys
  {
    hide TeardownKeys, Read, StatusUpdate;
    var t2 := Fine([], 0, keys);
    var w1 := Append(w, w.cur.(deleting := true, generation := w.cur.generation + 1));
    OneUser(w, RequestDelete);
    ReadHead(w, script[0], [Next, t2, Next], w1);
    var s := Read(Begin(w, script));
    assert Dispatch(s) == ReconcileDelete(s);
    var m := Mark(s, Deleting);
    assert m.script == [Next] + [t2, Next];
    WriteHead(m, [t2, Next]);
    var t := StatusUpdate(m);
    assert t.script == [t2] + [Next];
    TakeHead(t, t2, [Next]);
    var u := TeardownAll(t);
    assert u.w.cluster == w.cluster - (keys * keys) && keys * keys == keys;
    assert u.script == [Next] + [];
    TakeHead(u, Next, []);
  }

  // ---- The CA ----

  lemma CheckHead(s: Session, rest: seq<Turn>)
    requires s.halt == Going && s.script == [Next] + rest
    ensures Check(s) == s.(script := rest, now := Next, err := NoErr)
  {
    TakeHead(s, Next, rest);
  }

  /** A crash after the Secret was created makes the retry record a CA that is not in it: for every
      instance of a valid class a world is reachable in which clients are shown a CA nobody holds. */
  lemma WrongCaShown(id: string, ns: string, spec: Spec, cluster: map<Key, Child>) returns (v: World)
    requires ClassOf(spec.instanceClass).Some? && !spec.s3Backup
    requires SecretKey(id, ns) !in cluster && VmKey(id, ns) !in cluster
    ensures Reachable(v) && v.id == id && v.ns == ns && v.live && SecretKey(id, ns) in v.cluster
    ensures v.cur.status.caCert.Some? && !CaAgrees(v)
  {
    var w := QuietWorld(id, ns, spec, cluster, 3);
    BeforeVM(w, spec);
    var scripts :| |scripts| == 3 && w == Run(Init(id, ns, spec, cluster), scripts);
    KeysAlwaysMatch(id, ns, spec, cluster, scripts);
    hide Run, Reachable, Calm, ClassOf, Coherent, WorldOk;
    var crash := [Fine([], |w.past|, {})] + [Next, Next];
    CrashAfterSecret(w, crash);
    ReachableNext(w, crash);
    ReconcileCoherent(w, crash);
    var u := Reconcile(w, crash).w;
    var retry := [Fine([], |u.past|, {})] + [Next, Next, Next, Next, Next];
    RetryRecordsCa(u, retry);
    ReachableNext(u, retry);
    v := Reconcile(u, retry).w;
    ReachableOk(u);
    hide Reconcile;
    RecordingReconcile(u, retry);
  }

  /** A live instance that is ready for its VM phase. */
  predicate ReadyForVM(w: World) {
    && w.live && !w.cur.deleting && w.cur.finalizer && w.cached <= |w.past| && w.cur.status.phase == Creating
    && w.cur.status.provisioning == StorageProvisioned && w.cur.status.refs.vm == "" && w.cur.status.caCert == None
    && ClassOf(w.cur.spec.instanceClass).Some? && !w.cur.spec.s3Backup
  }

  lemma BeforeVM(w: World, spec: Spec)
    requires WorldOk(w) && Calm(w, spec) && Paid(w.cur) == 3 && ClassOf(spec.instanceClass).Some? && !spec.s3Backup
    ensures ReadyForVM(w)
  {
    assert VersionOk(w, |w.past|);
    assert Version(w, |w.past|).spec == spec;
    hide Canonical, ClassOf;
  }

  lemma CrashAfterSecret(w: World, script: seq<Turn>)
    requires ReadyForVM(w) && script == [Fine([], |w.past|, {})] + [Next, Next]
    ensures var v := Reconcile(w, script).w;
            ReadyForVM(v) && v.id == w.id && v.ns == w.ns && SecretKey(w.id, w.ns) in v.cluster
  {
    hide ClassOf, SecretKey, Create, Read;
    ReadHead(w, script[0], [Next, Next], w);
    var s := Read(Begin(w, script));
    assert Dispatch(s) == PhaseVM(s);
    assert s.script == [Next] + [Next];
    CheckHead(s, [Next]);
    var s1, n := GenerateKeys(s), w.nonce;
    assert s1.script == [Next] + [];
    CreateHead(s1, SecretKey(w.id, w.ns), SecretChild(n, n, n), []);
    Crash(Create(s1, SecretKey(w.id, w.ns), SecretChild(n, n, n)));
  }

  lemma RetryRecordsCa(w: World, script: seq<Turn>)
    requires ReadyForVM(w) && script == [Fine([], |w.past|, {})] + [Next, Next, Next, Next, Next]
    requires SecretKey(w.id, w.ns) in w.cluster
    ensures var v := Reconcile(w, script).w;
            v.live && v.id == w.id && v.ns == w.ns && v.cur.status.caCert.Some?
  {
    hide ClassOf, SecretKey, VmKey, Create, Check, StatusUpdate, Read;
    ReadHead(w, script[0], [Next, Next, Next, Next, Next], w);
    var s := Read(Begin(w, script));
    assert Dispatch(s) == PhaseVM(s);
    assert s.script == [Next] + [Next, Next, Next, Next];
    CheckHead(s, [Next, Next, Next, Next]);
    var s1, n, size := GenerateKeys(s), w.nonce, ClassOf(w.cur.spec.instanceClass).value;
    assert s1.script == [Next] + [Next, Next, Next];
    CreateHead(s1, SecretKey(w.id, w.ns), SecretChild(n, n, n), [Next, Next, Next]);
    var s3 := Create(s1, SecretKey(w.id, w.ns), SecretChild(n, n, n));
    assert s3.script == [Next] + [Next, Next];
    CheckHead(s3, [Next, Next]);
    var s4, refs := Check(s3), w.cur.status.refs;
    assert s4.script == [Next] + [Next];
    CreateHead(s4, VmKey(w.id, w.ns),
      VmChild(true, size.cpuCores, size.memoryMB, refs.dataVolume, refs.nad, SecretName(w.id)), [Next]);
    var t := CreatePostgresVM(s, size);
    assert t.err == NoErr && t.halt == Going && t.script == [Next] + [];
    WriteHead(RecordVM(t), []);
  }

  // ---- Failure ----

  /** Every instance of an unknown class is failed and seen to be after five quiet reconciles; no
      run without a delete then changes its status or its children. */
  lemma InvalidClassFailsForGood(id: string, ns: string, spec: Spec, cluster: map<Key, Child>) returns (w: World)
    requires ClassOf(spec.instanceClass) == None
    ensures Reachable(w) && w.id == id && w.ns == ns && w.live && w.cur.status.phase == Failed
    ensures w.cur.status.provisioning == PhaseFailed
    ensures forall scripts ::
              var v := Run(w, scripts);
              !v.cur.deleting ==> v.cluster == w.cluster && v.log == w.log && v.cur.status == w.cur.status
  {
    var a := QuietWorld(id, ns, spec, cluster, 3);
    PaidBound(a.cur);
    UnknownClass(a, spec);
    var fail := [Fine([], |a.past|, {})] + [Next];
    FailVM(a, fail);
    ReachableNext(a, fail);
    var b := Reconcile(a, fail).w;
    var see := [Fine([], |b.past|, {})];
    SeeFailure(b, see);
    ReachableNext(b, see);
    w := Reconcile(b, see).w;
    ReachableOk(w);
    hide WorldOk, Reachable, Run, ClassOf, Reconcile;
    forall scripts | !Run(w, scripts).cur.deleting
      ensures var v := Run(w, scripts); v.cluster == w.cluster && v.log == w.log && v.cur.status == w.cur.status
    {
      Limits.FailedStays(w, scripts);
    }
  }

  /** A live instance of an unknown class that is ready for its VM phase. */
  predicate Hopeless(w: World) {
    && w.live && !w.cur.deleting && w.cur.finalizer && w.cached <= |w.past| && w.cur.status.phase == Creating
    && w.cur.status.provisioning == StorageProvisioned && w.cur.status.refs.vm == ""
    && ClassOf(w.cur.spec.instanceClass) == None
  }

  lemma UnknownClass(w: World, spec: Spec)
    requires WorldOk(w) && Calm(w, spec) && Paid(w.cur) == 3 && ClassOf(spec.instanceClass) == None
    ensures Hopeless(w)
  {
    assert VersionOk(w, |w.past|);
    assert Version(w, |w.past|).spec == spec;
    hide Canonical, ClassOf;
  }

  lemma FailVM(w: World, script: seq<Turn>)
    requires Hopeless(w) && script == [Fine([], |w.past|, {})] + [Next]
    ensures var v := Reconcile(w, script).w;
            && v.live && v.id == w.id && v.ns == w.ns && !v.cur.deleting && v.cur.finalizer && v.cached <= |v.past|
            && v.cur.status.phase == Failed && v.cur.status.provisioning == PhaseFailed
  {
    hide ClassOf, Read, StatusUpdate;
    ReadHead(w, script[0], [Next], w);
    var s := Read(Begin(w, script));
    assert Dispatch(s) == PhaseVM(s);
    assert s.script == [Next] + [];
    WriteHead(WithStatus(s, St(s).(phase := Failed, provisioning := PhaseFailed)), []);
  }

  lemma SeeFailure(w: World, script: seq<Turn>)
    requires w.live && !w.cur.deleting && w.cur.finalizer && w.cached <= |w.past|
    requires w.cur.status.phase == Failed && w.cur.status.provisioning == PhaseFailed
    requires script == [Fine([], |w.past|, {})]
    ensures Reconcile(w, script).w == w.(cached := |w.past|) && Limits.FailureSeen(Reconcile(w, script).w)
  {
    hide Read;
    assert script == [script[0]] + [];
    ReadHead(w, script[0], [], w);
  }

  // ---- Stop ----

  /** Every instance of a valid class that is created with `running: false` is, after nine quiet
      reconciles, stopped with its VM off, and after the tenth `available` again. */
  lemma StoppedThenAvailable(id: string, ns: string, spec: Spec, cluster: map<Key, Child>) returns (w: World)
    requires ClassOf(spec.instanceClass).Some? && spec.running == Some(false)
    ensures Reachable(w) && w.id == id && w.ns == ns && Calm(w, spec) && w.cur.status.phase == Stopped
    ensures var v := Reconcile(w, QuietReconcile(w)).w;
            && Reachable(v) && v.id == id && v.ns == ns && Calm(v, spec) && v.cur.status.phase == Available
            && v.cur.spec.running == Some(false) && Off(v, false)
            && v.cur.status.provisioning == PhaseAvailable && v.cur.finalizer
  {
    hide *;
    var a := QuietWorld(id, ns, spec, cluster, 8);
    Stoppable(a, spec);
    QuietStop(a, spec);
    ReconcileOk(a, QuietReconcile(a));
    ReachableNext(a, QuietReconcile(a));
    ReconcileKeepsName(a, QuietReconcile(a));
    w := Reconcile(a, QuietReconcile(a)).w;
    QuietAvailable(w, spec);
    ReachableNext(w, QuietReconcile(w));
    ReconcileKeepsName(w, QuietReconcile(w));
    CalmSpec(Reconcile(w, QuietReconcile(w)).w, spec);
  }

  lemma CalmSpec(w: World, spec: Spec)
    requires Calm(w, spec)
    ensures w.cur.spec == spec
  {
    assert Version(w, |w.past|) == w.cur;
  }

  lemma Stoppable(w: World, spec: Spec)
    requires Reachable(w) && Calm(w, spec) && Paid(w.cur) == 8 && TornDown !in w.log
    ensures w.cur.finalizer && w.cur.status.provisioning == PhaseAvailable
    ensures w.cur.status.refs.vm == VmName(w.id) && VmKey(w.id, w.ns) in w.cluster
  {
    hide Reachable, Calm;
    PaidBound(w.cur);
    Backing.AvailableIsBuilt(w);
    LedgerIsPrefix(w, |w.past|);
    assert Version(w, |w.past|) == w.cur;
  }

  lemma QuietStop(w: World, spec: Spec)
    requires WorldOk(w) && Calm(w, spec) && w.cur.finalizer && spec.running == Some(false)
    requires w.cur.status.phase == Available && w.cur.status.provisioning == PhaseAvailable
    requires w.cur.status.refs.vm == VmName(w.id) && VmKey(w.id, w.ns) in w.cluster
    ensures var v := Reconcile(w, QuietReconcile(w)).w;
            && Calm(v, spec) && v.cur.status.phase == Stopped && v.cur.status.provisioning == PhaseAvailable && v.cur.finalizer
            && Off(v, false)
  {
    CalmSpec(w, spec);
    hide WorldOk, Calm, Reconcile, Read, QuietReconcile, Smooth, StatusUpdate, SetVMRunning, Fresh;
    ReadSmooth(w, spec);
    var s := Read(Begin(w, QuietReconcile(w)));
    SmoothGoing(s, spec, 7);
    ReconcileIs(w, QuietReconcile(w));
    assert Dispatch(s) == ReconcileStop(s);
    var k := VmKey(w.id, w.ns);
    EditSmooth(s, spec, 7);
    StatusUpdateSmooth(Mark(s, Stopping), spec, 6);
    StatusUpdateFrame(Mark(s, Stopping));
    StatusKept(Mark(s, Stopping));
    var t := StatusUpdate(Mark(s, Stopping));
    SmoothGoing(t, spec, 6);
    QuietSwitch(t, k, spec);
    var u := SetVMRunning(t, St(t).refs.vm, false);
    SmoothGoing(u, spec, 4);
    WriteSmooth(u, St(u).(phase := Stopped, observedGeneration := u.inst.obj.generation), spec, 3);
    StopTurnsOff(s);
    SmoothCalm(Dispatch(s), spec);
  }

  lemma QuietSwitch(t: Session, k: Key, spec: Spec)
    requires Smooth(t, spec, 6) && k in t.w.cluster && k == Key(Vm, t.w.ns, k.name)
    ensures var u := SetVMRunning(t, k.name, false); Smooth(u, spec, 4) && u.err == NoErr
  {
    hide Smooth, Get, Put;
    GetSmooth(t, k, spec, 5);
    GetFrame(t, k);
    var g := Get(t, k);
    SmoothGoing(g, spec, 5);
    PutSmooth(g, k, SetRunning(g.w.cluster[k], false), spec, 4);
    EditSmooth(SetVMRunning(t, k.name, false), spec, 4);
  }

  lemma SmoothCalm(s: Session, spec: Spec)
    requires Smooth(s, spec, 0)
    ensures Calm(s.w, spec)
  {
  }

  lemma QuietAvailable(w: World, spec: Spec)
    requires WorldOk(w) && Calm(w, spec) && w.cur.finalizer && spec.running == Some(false) && Off(w, false)
    requires w.cur.status.phase == Stopped && w.cur.status.provisioning == PhaseAvailable
    ensures var v := Reconcile(w, QuietReconcile(w)).w;
            && Calm(v, spec) && v.cur.status.phase == Available && Off(v, false)
            && v.cur.status.provisioning == PhaseAvailable && v.cur.finalizer
  {
    CalmSpec(w, spec);
    hide WorldOk, Calm, Reconcile, Read, QuietReconcile, Smooth, PhaseAvailableStep, Fresh;
    ReadSmooth(w, spec);
    ReadFrame(w, QuietReconcile(w));
    var s := Read(Begin(w, QuietReconcile(w)));
    SmoothGoing(s, spec, 7);
    ReconcileIs(w, QuietReconcile(w));
    assert Dispatch(s) == PhaseAvailableStep(s);
    PhaseAvailableSmooth(s, spec);
    CalmAlive(w, spec);
    DispatchStaysOff(s);
    SmoothCalm(Dispatch(s), spec);
    CalmAlive(Dispatch(s).w, spec);
    ReconcileOk(w, QuietReconcile(w));
    AvailableMeans(Dispatch(s).w);
  }

  lemma AvailableMeans(w: World)
    requires WorldOk(w) && !w.cur.deleting && w.cur.status.phase == Available
    ensures w.cur.status.provisioning == PhaseAvailable && w.cur.finalizer
    ensures w.cached <= |w.past| && w.cur.status.observedGeneration <= w.cur.generation && TornDown !in w.log
  {
    assert VersionOk(w, |w.past|);
    assert Version(w, |w.past|) == w.cur;
    hide Ledger, Canonical;
  }

  // ---- Start ----

  lemma GetHead(s: Session, k: Key, rest: seq<Turn>)
    requires s.halt == Going && s.script == [Next] + rest
    ensures Get(s, k) == s.(script := rest, now := Next, err := if k in s.w.cluster then NoErr else OtherErr)
  {
    TakeHead(s, Next, rest);
  }

  /** A start request can be lost for good: after `running: false` an instance is soon `available`
      again, and a patch to `running: true` is then taken for a modify. For every instance of a
      valid class a world is reachable that is available, has its generation observed and asks to
      run, and whose VM is off; it stays off in every run in which no version says stopped. */
  lemma StartRequestLost(id: string, ns: string, spec: Spec, cluster: map<Key, Child>) returns (v: World)
    requires ClassOf(spec.instanceClass).Some? && spec.running == Some(false)
    ensures Reachable(v) && v.id == id && v.ns == ns && v.live && VmKey(id, ns) in v.cluster && !PoweredOn(v)
    ensures v.cur.spec == spec.(running := Some(true)) && v.cur.status.phase == Available
    ensures v.cur.status.observedGeneration == v.cur.generation
    ensures forall scripts :: NeverStartable(v, Run(v, scripts)) ==> !PoweredOn(Run(v, scripts))
  {
    var a := StoppedThenAvailable(id, ns, spec, cluster);
    var w := Reconcile(a, QuietReconcile(a)).w;
    hide Reconcile, QuietReconcile, Run, NeverStartable, Startable;
    Resizable(w, spec);
    var changed := spec.(running := Some(true));
    var script := [Fine([PatchSpec(changed)], |w.past| + 1, {})] + [Next, Next, Next, Next, Next, Next];
    ReachableOk(w);
    StartTakenForModify(w, script, changed);
    ReachableNext(w, script);
    ReconcileKeepsName(w, script);
    v := Reconcile(w, script).w;
    ReachableOk(v);
    hide WorldOk, Reachable, PoweredOn, ClassOf, Calm;
    forall scripts | NeverStartable(v, Run(v, scripts)) ensures !PoweredOn(Run(v, scripts)) {
      OffEither(v);
      OffUnlessStartable(v, scripts);
    }
  }

  /** A settled instance whose VM and volume are where its refs say. */
  predicate CanResize(w: World) {
    && Settled(w) && w.cur.status.phase == Available && ClassOf(w.cur.spec.instanceClass).Some?
    && w.cur.status.refs.vm == VmName(w.id) && w.cur.status.refs.dataVolume == DataVolumeName(w.id)
    && VmKey(w.id, w.ns) in w.cluster && DataVolumeKey(w.id, w.ns) in w.cluster
  }

  lemma Resizable(w: World, spec: Spec)
    requires Reachable(w) && Calm(w, spec) && ClassOf(spec.instanceClass).Some? && w.cur.status.phase == Available
    ensures CanResize(w) && w.cur.spec == spec
  {
    hide Calm, Reachable, WorldOk, ClassOf, Version, VmKey, DataVolumeKey, SecretKey, VpcKey, SubnetKey, NadKey;
    CalmAlive(w, spec);
    CalmSpec(w, spec);
    ReachableOk(w);
    AvailableMeans(w);
    Backing.AvailableIsBuilt(w);
    LedgerIsPrefix(w, |w.past|);
    Backing.NewestVersion(w);
  }

  lemma StartTakenForModify(w: World, script: seq<Turn>, changed: Spec)
    requires WorldOk(w) && CanResize(w) && Off(w, false)
    requires changed == w.cur.spec.(running := Some(true)) && changed != w.cur.spec
    requires script == [Fine([PatchSpec(changed)], |w.past| + 1, {})] + [Next, Next, Next, Next, Next, Next]
    ensures var v := Reconcile(w, script).w;
            && v.live && v.cur.spec == changed && v.cur.status.phase == Available
            && v.cur.status.observedGeneration == v.cur.generation && Off(v, false)
  {
    hide WorldOk, ClassOf, Read, ReconcileModify;
    var w1 := Append(w, w.cur.(spec := changed, generation := w.cur.generation + 1));
    OneUser(w, PatchSpec(changed));
    ReadHead(w, script[0], [Next, Next, Next, Next, Next, Next], w1);
    ReadOk(Begin(w, script));
    var s := Read(Begin(w, script));
    assert Dispatch(s) == ReconcileModify(s);
    FineModify(s);
    DispatchStaysOff(s);
  }

  lemma FineModify(s: Session)
    requires s.halt == Going && s.script == [Next, Next, Next, Next, Next, Next] && s.w.live
    requires s.inst == Instance(s.w.cur, |s.w.past|) && ClassOf(s.inst.obj.spec.instanceClass).Some?
    requires Key(Vm, s.w.ns, St(s).refs.vm) in s.w.cluster && Key(DataVolume, s.w.ns, St(s).refs.dataVolume) in s.w.cluster
    ensures var v := ReconcileModify(s).w;
            && v.live && v.cur.spec == s.inst.obj.spec && v.cur.status.phase == Available
            && v.cur.status.observedGeneration == v.cur.generation
  {
    hide ClassOf, StatusUpdate, Get, Put;
    var k, d, size := Key(Vm, s.w.ns, St(s).refs.vm), Key(DataVolume, s.w.ns, St(s).refs.dataVolume),
                      ClassOf(s.inst.obj.spec.instanceClass).value;
    var m := Mark(s, Modifying);
    assert m.script == [Next] + [Next, Next, Next, Next, Next];
    WriteHead(m, [Next, Next, Next, Next, Next]);
    var t := StatusUpdate(m);
    assert t.script == [Next] + [Next, Next, Next, Next];
    GetHead(t, k, [Next, Next, Next, Next]);
    var g := Get(t, k);
    assert g.script == [Next] + [Next, Next, Next];
    PutHead(g, k, SetSize(g.w.cluster[k], size), [Next, Next, Next]);
    var u := ResizeVM(t, St(t).refs.vm, size);
    assert u.err == NoErr && u.script == [Next] + [Next, Next];
    GetHead(u, d, [Next, Next]);
    var h := Get(u, d);
    assert h.script == [Next] + [Next];
    PutHead(h, d, SetCapacity(h.w.cluster[d], s.inst.obj.spec.allocatedStorage), [Next]);
    var v := ResizeDataVolume(u, St(u).refs.dataVolume, u.inst.obj.spec.allocatedStorage);
    assert v.err == NoErr && v.script == [Next] + [];
    WriteHead(WithStatus(v, St(v).(phase := Available, observedGeneration := v.inst.obj.generation)), []);
  }

  // ---- Modify ----

  /** "Observed" does not mean resized: a modify that crashes after its first write is forgotten.
      For every pair of specs whose classes differ in cores there is a reachable world in which
      the instance is available, its latest generation is observed, and the VM has the old size. */
  lemma ObservedNotResized(id: string, ns: string, spec: Spec, changed: Spec, cluster: map<Key, Child>) returns (v: World)
    requires ClassOf(spec.instanceClass).Some? && ClassOf(changed.instanceClass).Some?
    requires ClassOf(spec.instanceClass).value.cpuCores != ClassOf(changed.instanceClass).value.cpuCores
    requires changed.running == None && cluster.Keys !! ChildKeys(id, ns)
    ensures Reachable(v) && v.id == id && v.ns == ns && v.live && v.cur.spec == changed
    ensures v.cur.status.phase == Available && v.cur.status.observedGeneration == v.cur.generation
    ensures !Fits(v, v.cur.spec)
  {
    var w := BuiltFor(id, ns, spec, cluster);
    var crash := [Fine([PatchSpec(changed)], |w.past| + 1, {})] + [Next];
    CrashInModify(w, crash, changed);
    ReachableNext(w, crash);
    var u := Reconcile(w, crash).w;
    var next := [Fine([], |u.past|, {})] + [Next, Next];
    ForgetModify(u, next);
    ReachableNext(u, next);
    v := Reconcile(u, next).w;
  }

  lemma BuiltFor(id: string, ns: string, spec: Spec, cluster: map<Key, Child>) returns (w: World)
    requires ClassOf(spec.instanceClass).Some? && cluster.Keys !! ChildKeys(id, ns)
    ensures Reachable(w) && w.id == id && w.ns == ns && Settled(w) && w.cur.spec == spec
    ensures var k := VmKey(id, ns);
            && w.cur.status.phase == Available && k in w.cluster && w.cluster[k].VmChild?
            && w.cluster[k].cpuCores == ClassOf(spec.instanceClass).value.cpuCores
  {
    w := QuietWorld(id, ns, spec, cluster, 8);
    PaidBound(w.cur);
    Backing.AvailableIsBuilt(w);
    assert Version(w, |w.past|) == w.cur;
    assert VersionOk(w, |w.past|);
    hide WorldOk, ClassOf, Run, Reachable, Shapes.Shaped, ChildKeys;
    var scripts :| |scripts| == 8 && w == Run(Init(id, ns, spec, cluster), scripts);
    Shapes.ChildrenMatchSpec(id, ns, spec, cluster, scripts);
    VmAsWanted(w, spec);
  }

  lemma VmAsWanted(w: World, spec: Spec)
    requires Shapes.Shaped(w, spec) && VmKey(w.id, w.ns) in w.cluster
    ensures var c := w.cluster[VmKey(w.id, w.ns)];
            && c.VmChild? && ClassOf(spec.instanceClass).Some?
            && c.cpuCores == ClassOf(spec.instanceClass).value.cpuCores
  {
    hide ClassOf;
    assert VmKey(w.id, w.ns) in ChildKeys(w.id, w.ns);
    assert Shapes.Wanted(w.id, w.ns, spec, VmKey(w.id, w.ns), w.cluster[VmKey(w.id, w.ns)]);
  }

  /** A live, finalized, provisioned instance. */
  predicate Settled(w: World) {
    && w.live && !w.cur.deleting && w.cur.finalizer && w.cached <= |w.past|
    && w.cur.status.provisioning == PhaseAvailable && w.cur.status.observedGeneration <= w.cur.generation
  }

  lemma CrashInModify(w: World, script: seq<Turn>, changed: Spec)
    requires Settled(w) && w.cur.status.phase == Available && changed != w.cur.spec && changed.running == None
    requires script == [Fine([PatchSpec(changed)], |w.past| + 1, {})] + [Next]
    ensures var v := Reconcile(w, script).w;
            && Settled(v) && v.id == w.id && v.ns == w.ns && v.cluster == w.cluster && v.cur.spec == changed
            && v.cur.status.phase == Modifying && v.cur.status.observedGeneration < v.cur.generation
  {
    hide ClassOf, Read;
    var w1 := Append(w, w.cur.(spec := changed, generation := w.cur.generation + 1));
    OneUser(w, PatchSpec(changed));
    ReadHead(w, script[0], [Next], w1);
    var s := Read(Begin(w, script));
    assert Dispatch(s) == ReconcileModify(s);
    assert s.script == [Next] + [];
    WriteHead(Mark(s, Modifying), []);
    var t := StatusUpdate(Mark(s, Modifying));
    Crash(t);
    var f := WithStatus(t, St(t).(phase := Failed, provisioning := PhaseFailed));
    Crash(f);
    assert Halted(ReconcileModify(s)) && ReconcileModify(s).w == t.w.(lost := t.w.lost + 1);
  }

  lemma ForgetModify(w: World, script: seq<Turn>)
    requires Settled(w) && w.cur.status.phase == Modifying && w.cur.spec.running == None
    requires script == [Fine([], |w.past|, {})] + [Next, Next]
    ensures var v := Reconcile(w, script).w;
            && v.live && v.id == w.id && v.ns == w.ns && v.cluster == w.cluster && v.cur.spec == w.cur.spec
            && v.cur.status.phase == Available && v.cur.status.observedGeneration == v.cur.generation
  {
    hide ReadinessOf, Read, StatusUpdate;
    ReadHead(w, script[0], [Next, Next], w);
    var s := Read(Begin(w, script));
    assert Dispatch(s) == PhaseAvailableStep(s);
    var s1 := WithStatus(s, St(s).(phase := Available, provisioning := PhaseAvailable,
                                   observedGeneration := s.inst.obj.generation));
    assert s1.script == [Next] + [Next];
    TakeHead(s1, Next, [Next]);
    var t := Take(s1);
    assert t.script == [Next] + [];
    WriteHead(WithStatus(t, RefreshAddresses(St(t), t.inst.obj.spec, ReadinessOf(t.now))), []);
  }

  // ---- Routes ----

  lemma PutHead(s: Session, k: Key, c: Child, rest: seq<Turn>)
    requires s.halt == Going && s.script == [Next] + rest && k in s.w.cluster
    ensures Put(s, k, c) == PutChild(s.(script := rest, now := Next), k, c)
  {
    TakeHead(s, Next, rest);
  }

  /** A finalized instance that has not started, with the default or given VLAN and no network. */
  predicate Starting(w: World) {
    && w.live && !w.cur.deleting && w.cur.finalizer && w.cached <= |w.past|
    && w.cur.status == NewStatus && w.cur.spec.networkRef == ""
  }

  predicate HasNetwork(w: World, routes: seq<string>) {
    && NadKey(w.id, w.ns) in w.cluster && SubnetKey(w.id) in w.cluster && VpcKey(w.id) in w.cluster
    && w.cluster[VpcKey(w.id)] == VpcChild(w.ns, routes)
  }

  /** A crash between the route update and the status write lists the route twice: for every new
      instance that makes its own network such a world is reachable. */
  lemma RouteListedTwice(id: string, ns: string, spec: Spec, cluster: map<Key, Child>) returns (v: World)
    requires spec.networkRef == "" && VpcKey(id) !in cluster
    ensures Reachable(v) && v.id == id && v.ns == ns && HasNetwork(v, [Vlan(spec), Vlan(spec)])
  {
    var w0 := Init(id, ns, spec, cluster);
    var first := [Fine([], 0, {})] + [Next];
    InitReachable(id, ns, spec, cluster);
    AddFinalizer(w0, first);
    ReachableNext(w0, first);
    var w := Reconcile(w0, first).w;
    var crash := [Fine([], |w.past|, {})] + [Next, Next, Next, Next];
    CrashAfterRoute(w, crash);
    ReachableNext(w, crash);
    var u := Reconcile(w, crash).w;
    var retry := [Fine([], |u.past|, {})] + [Next, Next, Next, Next, Next, Next];
    RetryAddsRoute(u, retry, Vlan(spec));
    ReachableNext(u, retry);
    v := Reconcile(u, retry).w;
  }

  lemma FirstNetwork(s: Session, vlan: string)
    requires s.halt == Going && s.script == [Next, Next, Next, Next] && VpcKey(s.w.id) !in s.w.cluster
    ensures var t := CreateVPCNetwork(s, vlan);
            && t == s.(w := s.w.(cluster := t.w.cluster, log := t.w.log), script := [], now := Next, err := NoErr)
            && HasNetwork(t.w, [vlan])
  {
    DistinctNetworkKeys(s.w.id, s.w.ns);
    hide VpcKey, NadKey, SubnetKey, Create, Put;
    var id, ns := s.w.id, s.w.ns;
    assert s.script == [Next] + [Next, Next, Next];
    CreateHead(s, VpcKey(id), VpcChild(ns, []), [Next, Next, Next]);
    var s1 := Create(s, VpcKey(id), VpcChild(ns, []));
    assert s1.script == [Next] + [Next, Next];
    CreateHead(s1, NadKey(id, ns), NadChild, [Next, Next]);
    var s3 := Create(s1, NadKey(id, ns), NadChild);
    assert s3.script == [Next] + [Next];
    CreateHead(s3, SubnetKey(id), SubnetChild(VpcName(id), vlan), [Next]);
    var s4 := Create(s3, SubnetKey(id), SubnetChild(VpcName(id), vlan));
    assert s4.script == [Next] + [];
    PutHead(s4, VpcKey(id), AddRoute(VpcChild(ns, []), vlan), []);
    assert [] + [vlan] == [vlan];
  }

  lemma DistinctNetworkKeys(id: string, ns: string)
    ensures VpcKey(id) != NadKey(id, ns) && VpcKey(id) != SubnetKey(id) && NadKey(id, ns) != SubnetKey(id)
  {
  }

  lemma CrashAfterRoute(w: World, script: seq<Turn>)
    requires Starting(w) && VpcKey(w.id) !in w.cluster
    requires script == [Fine([], |w.past|, {})] + [Next, Next, Next, Next]
    ensures var v := Reconcile(w, script).w;
            Starting(v) && v.id == w.id && v.ns == w.ns && v.cur == w.cur && HasNetwork(v, [Vlan(w.cur.spec)])
  {
    hide Read, CreateVPCNetwork, VpcKey, NadKey, SubnetKey;
    ReadHead(w, script[0], [Next, Next, Next, Next], w);
    var s := Read(Begin(w, script));
    assert Dispatch(s) == PhaseNetwork(s);
    var c := WithStatus(s, St(s).(phase := Creating));
    FirstNetwork(c, Vlan(w.cur.spec));
  }

  lemma RetryAddsRoute(w: World, script: seq<Turn>, vlan: string)
    requires Starting(w) && HasNetwork(w, [vlan]) && vlan == Vlan(w.cur.spec)
    requires script == [Fine([], |w.past|, {})] + [Next, Next, Next, Next, Next, Next]
    ensures var v := Reconcile(w, script).w; v.id == w.id && v.ns == w.ns && HasNetwork(v, [vlan, vlan])
  {
    hide Read, CreateVPCNetwork, StatusUpdate, VpcKey, NadKey, SubnetKey;
    ReadHead(w, script[0], [Next, Next, Next, Next, Next, Next], w);
    var s := Read(Begin(w, script));
    assert Dispatch(s) == PhaseNetwork(s);
    var c := WithStatus(s, St(s).(phase := Creating));
    Routes.RetryAppendsRouteIff(c, vlan);
    Keeping.NetworkKeeps(c, vlan);
    var t := CreateVPCNetwork(c, vlan);
    assert [vlan] + [vlan] == [vlan, vlan];
    StatusUpdateFrame(WithStatus(t, St(t).(phase := Failed, provisioning := PhaseFailed)));
    StatusUpdateFrame(To(WithRefs(t, NoRefs.(vpc := VpcName(w.id), subnet := SubnetName(w.id), nad := NadName(w.id))),
                         NetworkProvisioned));
  }

  // ---- Reads that go back ----

  /** For every new instance without a network of its own there is a reachable world, torn down
      but still stored, with a version on record from which a read that goes back creates the
      VPC again. */
  lemma TornDownWithEarlyVersion(id: string, ns: string, spec: Spec, cluster: map<Key, Child>) returns (w: World)
    requires spec.networkRef == "" && !spec.deletionProtection && VpcKey(id) !in cluster
    ensures Reachable(w) && w.id == id && w.live && TornDown in w.log && VpcKey(id) !in w.cluster && |w.past| >= 1
    ensures var o := Version(w, 1); !o.deleting && o.finalizer && o.status == NewStatus && o.spec.networkRef == ""
    ensures Created(VpcKey(id)) in Reconcile(w.(cached := 1), [Fine([], 1, {}), Next]).w.log
  {
    var w0 := Init(id, ns, spec, cluster);
    var first := [Fine([], 0, {})] + [Next];
    InitReachable(id, ns, spec, cluster);
    AddFinalizer(w0, first);
    ReachableNext(w0, first);
    var w1 := Reconcile(w0, first).w;
    var second := [Fine([RequestDelete], 2, {})] + [Next, Next];
    CrashAfterTeardown(w1, second);
    ReachableNext(w1, second);
    w := Reconcile(w1, second).w;
    hide Reachable, Reconcile;
    assert w.log[|w.log| - 1] == TornDown;
    Limits.BackwardReadResurrects(w, 1, Fine([], 1, {}), Next);
  }

  lemma AddFinalizer(w: World, script: seq<Turn>)
    requires w.live && w.past == [] && !w.cur.deleting && !w.cur.finalizer && w.cached == 0
    requires script == [Fine([], 0, {})] + [Next]
    ensures Reconcile(w, script).w == Append(w, w.cur.(finalizer := true))
  {
    ReadHead(w, script[0], [Next], w);
    var s := Read(Begin(w, script));
    assert s.script == [Next] + [];
    TakeHead(s, Next, []);
  }

  lemma CrashAfterTeardown(w: World, script: seq<Turn>)
    requires w.live && |w.past| == 1 && !w.cur.deleting && w.cur.finalizer && w.cached <= 1
    requires !w.cur.spec.deletionProtection
    requires script == [Fine([RequestDelete], 2, {})] + [Next, Next]
    ensures var v := Reconcile(w, script).w;
            && v.id == w.id && v.live && v.log == w.log + [TornDown] && v.cluster == w.cluster
            && |v.past| >= 2 && Version(v, 1) == w.cur
  {
    hide TeardownKeys, Read, StatusUpdate;
    var w1 := Append(w, w.cur.(deleting := true, generation := w.cur.generation + 1));
    OneUser(w, RequestDelete);
    ReadHead(w, script[0], [Next, Next], w1);
    var s := Read(Begin(w, script));
    assert Dispatch(s) == ReconcileDelete(s);
    var m := Mark(s, Deleting);
    assert m.script == [Next] + [Next];
    WriteHead(m, [Next]);
    var t := StatusUpdate(m);
    assert t.script == [Next] + [];
    TakeHead(t, Next, []);
    var u := TeardownAll(t);
    assert u.w.cluster == w.cluster;
    Crash(u);
  }
}
