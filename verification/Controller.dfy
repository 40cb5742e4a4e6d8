/** `DBInstanceReconciler` and the Harvester client it calls, as the imperative code they are:
    methods that edit the instance in memory, call the API and return early. Each is proved
    against the function of the same name in modules World, Harvester and Reconciler, over
    which the theorems about runs are stated. */
module Controller {
  import opened Types
  import opened Names
  import W = World
  import H = Harvester
  import R = Reconciler
  import T = Theorems

  class DBInstanceReconciler {
    // The API server and the cluster.
    var w: W.World
    // The instance in memory.
    var spec: Spec
    var status: Status
    var finalizer: bool
    var deleting: bool
    var generation: nat
    var resourceVersion: nat
    // What the environment still decides, the last error, and whether the process lives.
    var script: seq<W.Turn>
    var now: W.Turn
    var err: W.Err
    var halt: W.Halt

    ghost function State(): W.Session
      reads this
    {
      W.Session(w, W.Instance(Object(spec, status, finalizer, deleting, generation), resourceVersion),
                script, now, err, halt)
    }

    /** A process started on a newly created instance. */
    constructor (id: string, ns: string, spec: Spec, cluster: map<Key, W.Child>)
      ensures w == W.Init(id, ns, spec, cluster) && T.Reachable(w)
    {
      w := W.Init(id, ns, spec, cluster);
      this.spec, status, finalizer, deleting := spec, NewStatus, false, false;
      generation, resourceVersion := 1, 0;
      script, now, err, halt := [], W.Idle, W.NoErr, W.Going;
      T.InitReachable(id, ns, spec, cluster);
    }

    // ---- Store calls ----

    method Load(o: Object, rv: nat)
      modifies this
      ensures State() == old(State()).(inst := W.Instance(o, rv))
    {
      spec, status, finalizer, deleting, generation, resourceVersion :=
        o.spec, o.status, o.finalizer, o.deleting, o.generation, rv;
    }

    method Take()
      modifies this
      ensures State() == W.Take(old(State()))
    {
      if halt != W.Going { return; }
      if script == [] {
        halt, w := W.Crashed, w.(lost := w.lost + 1);
        return;
      }
      now, script := script[0], script[1..];
      w := W.Users(w, now.users);
    }

    method Read()
      modifies this
      ensures State() == W.Read(old(State()))
    {
      Take();
      if halt != W.Going { return; }
      if now.store != W.Normal {
        w, err := w.(lost := w.lost + 1), W.OtherErr;
        return;
      }
      if !w.live && now.readAt > |w.past| {
        err := W.OtherErr;
        return;
      }
      var rv := if now.readAt < w.cached then w.cached else now.readAt;
      if rv > |w.past| { rv := |w.past|; }
      w, err := w.(cached := rv), W.NoErr;
      Load(W.Version(w, rv), rv);
    }

    method Commit(o: Object, live: bool)
      modifies this
      ensures State() == W.Commit(old(State()), o, live)
    {
      if o != w.cur || now.bump { w := w.(past := w.past + [w.cur], cur := o); }
      w := w.(live := live);
      if now.store == W.AckLost {
        w, err := w.(lost := w.lost + 1), W.OtherErr;
      } else {
        Load(o, |w.past|);
        err := W.NoErr;
      }
    }

    method StatusUpdate()
      modifies this
      ensures State() == W.StatusUpdate(old(State()))
    {
      Take();
      if halt != W.Going { return; }
      if !w.live || resourceVersion != |w.past| || now.store == W.Lost {
        w, err := w.(lost := w.lost + 1), W.OtherErr;
        return;
      }
      Commit(w.cur.(status := status), true);
    }

    method FinalizerUpdate(present: bool)
      modifies this
      ensures State() == W.FinalizerUpdate(old(State()), present)
    {
      Take();
      if halt != W.Going { return; }
      if !w.live || resourceVersion != |w.past| || now.store == W.Lost {
        w, err := w.(lost := w.lost + 1), W.OtherErr;
        return;
      }
      Commit(w.cur.(finalizer := present), present || !w.cur.deleting);
    }

    // ---- Cluster calls ----

    method ApiFails()
      modifies this
      ensures State() == W.ApiFails(old(State()))
    {
      err := W.OtherErr;
    }

    method CreateFails(k: Key, took: bool)
      modifies this
      ensures State() == W.CreateFails(old(State()), k, took)
    {
      w, err := w.(faults := W.Tally(w.faults, k.kind, took)), W.OtherErr;
    }

    method Create(k: Key, c: W.Child)
      modifies this
      ensures State() == W.Create(old(State()), k, c)
    {
      Take();
      if halt != W.Going { return; }
      if now.api == W.Lost { CreateFails(k, false); return; }
      var absent := k !in w.cluster;
      if absent {
        w, err := w.(cluster := w.cluster[k := c], log := w.log + [W.Created(k)]), W.NoErr;
      } else {
        err := W.AlreadyExists;
      }
      if now.api == W.AckLost { CreateFails(k, absent); }
    }

    method Get(k: Key)
      modifies this
      ensures State() == W.Get(old(State()), k)
    {
      Take();
      if halt != W.Going { return; }
      if now.api != W.Normal { ApiFails(); return; }
      err := if k in w.cluster then W.NoErr else W.OtherErr;
    }

    method Put(k: Key, c: W.Child)
      modifies this
      ensures State() == W.Put(old(State()), k, c)
    {
      Take();
      if halt != W.Going { return; }
      if now.api == W.Lost { ApiFails(); return; }
      if k in w.cluster {
        w, err := w.(cluster := w.cluster[k := c]), W.NoErr;
      } else {
        err := W.OtherErr;
      }
      if now.api == W.AckLost { ApiFails(); }
    }

    method IgnoreAlreadyExists()
      modifies this
      ensures State() == W.IgnoreAlreadyExists(old(State()))
    {
      if err == W.AlreadyExists { err := W.NoErr; }
    }

    method Check()
      modifies this
      ensures State() == W.Check(old(State()))
    {
      Take();
      if halt != W.Going { return; }
      if now.usable {
        err := W.NoErr;
      } else {
        w, err := w.(faults := w.faults.(fatal := w.faults.fatal + 1)), W.OtherErr;
      }
    }

    // ---- Harvester client ----

    /** Fetches the VMI and scans its interfaces once, keeping the last addresses of the two
        known names and the first address of all as a fallback. */
    method GetVMIReadiness() returns (r: H.Readiness)
      modifies this
      ensures State() == W.Take(old(State()))
      ensures halt == W.Going ==> r == H.ReadinessOf(now)
    {
      Take();
      if halt != W.Going || now.api != W.Normal || now.vmi == None { return H.NotReady; }
      var vmi := now.vmi.value;
      var ip, mgmtIp, fallback := "", "", "";
      for n := 0 to |vmi.interfaces|
        invariant ip == H.LastNamed(vmi.interfaces[..n], "vpc-net")
        invariant mgmtIp == H.LastNamed(vmi.interfaces[..n], "mgmt-net")
        invariant fallback == H.FirstAddress(vmi.interfaces[..n])
        modifies {}
      {
        var i := vmi.interfaces[n];
        assert vmi.interfaces[..n + 1][..n] == vmi.interfaces[..n];
        FirstAddressSnoc(vmi.interfaces[..n], i);
        assert vmi.interfaces[..n] + [i] == vmi.interfaces[..n + 1];
        if i.Malformed? || i.address == "" { continue; }
        if i.name == "vpc-net" { ip := i.address; }
        else if i.name == "mgmt-net" { mgmtIp := i.address; }
        if fallback == "" { fallback := i.address; }
      }
      assert vmi.interfaces[..|vmi.interfaces|] == vmi.interfaces;
      if ip == "" { ip := fallback; }
      r := H.Readiness(vmi.running, ip, mgmtIp, vmi.running && vmi.upThreeMinutes);
    }

    method CreateVPCNetwork(vlan: string)
      modifies this
      ensures State() == H.CreateVPCNetwork(old(State()), vlan)
    {
      var id, ns := w.id, w.ns;
      Create(VpcKey(id), W.VpcChild(ns, []));
      if halt != W.Going || err == W.OtherErr { return; }
      if err == W.AlreadyExists { Get(VpcKey(id)); }
      if halt != W.Going { return; }
      var vpc := None;
      if err == W.NoErr && VpcKey(id) in w.cluster { vpc := Some(w.cluster[VpcKey(id)]); }
      Create(NadKey(id, ns), W.NadChild);
      if halt != W.Going || err == W.OtherErr { return; }
      Create(SubnetKey(id), W.SubnetChild(VpcName(id), vlan));
      if halt != W.Going || err == W.OtherErr { return; }
      if vpc.Some? { Put(VpcKey(id), H.AddRoute(vpc.value, vlan)); }
      err := W.NoErr;
    }

    method CreateDataVolume(sizeGiB: int, storageClass: string)
      modifies this
      ensures State() == H.CreateDataVolume(old(State()), sizeGiB, storageClass)
    {
      Create(DataVolumeKey(w.id, w.ns), W.VolumeChild(sizeGiB, storageClass));
      IgnoreAlreadyExists();
    }

    method GenerateKeys()
      modifies this
      ensures State() == H.GenerateKeys(old(State()))
    {
      Check();
      if halt != W.Going { return; }
      w := w.(nonce := w.nonce + 1);
    }

    method CreatePostgresVM(size: ClassSpec)
      modifies this
      ensures State() == H.CreatePostgresVM(old(State()), size)
    {
      var id, ns, refs, s3 := w.id, w.ns, status.refs, spec.s3Backup;
      GenerateKeys();
      if halt != W.Going || err != W.NoErr { return; }
      var n := w.nonce - 1;
      if s3 { Check(); }
      if halt != W.Going || err != W.NoErr { return; }
      Create(SecretKey(id, ns), W.SecretChild(n, n, n));
      if halt != W.Going || err == W.OtherErr { return; }
      Check();
      if halt != W.Going || err != W.NoErr { return; }
      Create(VmKey(id, ns),
             W.VmChild(true, size.cpuCores, size.memoryMB, refs.dataVolume, refs.nad, SecretName(id)));
      IgnoreAlreadyExists();
    }

    method SetVMRunning(vm: string, running: bool)
      modifies this
      ensures State() == H.SetVMRunning(old(State()), vm, running)
    {
      var k := Key(Vm, w.ns, vm);
      Get(k);
      if halt != W.Going || err != W.NoErr || k !in w.cluster { return; }
      Put(k, H.SetRunning(w.cluster[k], running));
    }

    method ResizeVM(vm: string, size: ClassSpec)
      modifies this
      ensures State() == H.ResizeVM(old(State()), vm, size)
    {
      var k := Key(Vm, w.ns, vm);
      Get(k);
      if halt != W.Going || err != W.NoErr || k !in w.cluster { return; }
      Put(k, H.SetSize(w.cluster[k], size));
    }

    method ResizeDataVolume(volume: string, sizeGiB: int)
      modifies this
      ensures State() == H.ResizeDataVolume(old(State()), volume, sizeGiB)
    {
      var k := Key(DataVolume, w.ns, volume);
      Get(k);
      if halt != W.Going || err != W.NoErr || k !in w.cluster { return; }
      Put(k, H.SetCapacity(w.cluster[k], sizeGiB));
    }

    method DeployMonitoring()
      modifies this
      ensures State() == H.DeployMonitoring(old(State()))
    {
      var id, ns := w.id, w.ns;
      Create(ServiceKey(id, ns), W.ServiceChild);
      if halt != W.Going { return; }
      Create(MonitorKey(id, ns), W.MonitorChild);
    }

    method CreateVpcPeering(remote: Peering)
      modifies this
      ensures State() == H.CreateVpcPeering(old(State()), remote)
    {
      Create(PeeringKey(w.id), W.PeeringChild(status.refs.vpc, status.refs.subnet, remote));
      IgnoreAlreadyExists();
    }

    /** One delete per named task; those outside `deleted` fail, which is ignored. */
    method TeardownAll()
      modifies this
      ensures State() == H.TeardownAll(old(State()))
    {
      Take();
      if halt != W.Going { return; }
      var ns, refs := w.ns, status.refs;
      var ownedNad := if refs.vpc != "" then refs.nad else "";
      var tasks := [
        Key(ServiceMonitor, ns, refs.monitor), Key(Vm, ns, refs.vm), Key(DataVolume, ns, refs.dataVolume),
        Key(Secret, ns, refs.secret), Key(Nad, ns, ownedNad), Key(Subnet, "", refs.subnet),
        Key(VpcPeering, "", refs.peering), Key(Vpc, "", refs.vpc)];
      var cluster, failed := DeleteEach(w.cluster, tasks, now.deleted);
      TasksAre(ns, refs, tasks);
      hide Tasks, H.TeardownKeys, H.Named;
      w := w.(cluster := cluster, log := w.log + [W.TornDown]);
      if failed { w := w.(faults := w.faults.(leaked := w.faults.leaked + 1)); }
    }

    // ---- Provisioning phases ----

    method Fail()
      modifies this
      ensures State() == R.Fail(old(State()))
    {
      status := status.(phase := Failed, provisioning := PhaseFailed);
      StatusUpdate();
    }

    method PhaseNetwork()
      modifies this
      ensures State() == R.PhaseNetwork(old(State()))
    {
      hide W.StatusUpdate, H.CreateVPCNetwork;
      if status.phase == NoPhase { status := status.(phase := Creating); }
      var refs := status.refs;
      if refs.vpc != "" || refs.nad != "" {
        status := status.(provisioning := NetworkProvisioned);
        StatusUpdate();
        return;
      }
      if spec.networkRef != "" {
        status := status.(refs := refs.(nad := spec.networkRef), provisioning := NetworkProvisioned);
        StatusUpdate();
        return;
      }
      var vlan := spec.dbSubnetGroupName;
      if vlan == "" { vlan := "10.50.0.0/24"; }
      CreateVPCNetwork(vlan);
      if halt != W.Going { return; }
      if err != W.NoErr { Fail(); return; }
      status := status.(refs := refs.(vpc := VpcName(w.id), subnet := SubnetName(w.id), nad := NadName(w.id)));
      status := status.(provisioning := NetworkProvisioned);
      StatusUpdate();
    }

    method PhaseStorage()
      modifies this
      ensures State() == R.PhaseStorage(old(State()))
    {
      var refs := status.refs;
      if refs.dataVolume != "" {
        status := status.(provisioning := StorageProvisioned);
        StatusUpdate();
        return;
      }
      var storageType := spec.storageType;
      if storageType == "" { storageType := "longhorn"; }
      CreateDataVolume(spec.allocatedStorage, storageType);
      if halt != W.Going { return; }
      if err != W.NoErr { Fail(); return; }
      status := status.(refs := refs.(dataVolume := DataVolumeName(w.id)), provisioning := StorageProvisioned);
      StatusUpdate();
    }

    method PhaseVM()
      modifies this
      ensures State() == R.PhaseVM(old(State()))
    {
      hide W.StatusUpdate, H.CreatePostgresVM, ClassOf;
      if status.refs.vm != "" {
        status := status.(provisioning := VMCreated);
        StatusUpdate();
        return;
      }
      var size := ClassOf(spec.instanceClass);
      if size == None { Fail(); return; }
      CreatePostgresVM(size.value);
      if halt != W.Going { return; }
      if err != W.NoErr { Fail(); return; }
      status := status.(refs := status.refs.(vm := VmName(w.id), secret := SecretName(w.id)));
      status := status.(caCert := if w.nonce == 0 then None else Some(w.nonce - 1));
      status := status.(masterUserSecret := Some(SecretName(w.id)), provisioning := VMCreated);
      StatusUpdate();
    }

    method PhaseWaitReady()
      modifies this
      ensures State() == R.PhaseWaitReady(old(State()))
    {
      var r := GetVMIReadiness();
      if halt != W.Going { return; }
      if !r.running || r.ip == "" {
        w := w.(polls := w.polls + 1);
        status := status.(provisioning := WaitingForCloudInit);
        StatusUpdate();
        return;
      }
      if !r.ready {
        w := w.(polls := w.polls + 1);
        StatusUpdate();
        return;
      }
      status := status.(endpoint := Some(Endpoint(r.ip, SpecPort(spec.port))), managementAddress := r.mgmtIp);
      status := status.(provisioning := DatabaseReady);
      StatusUpdate();
    }

    method PhaseMonitoring()
      modifies this
      ensures State() == R.PhaseMonitoring(old(State()))
    {
      var refs := status.refs;
      if refs.monitor != "" {
        status := status.(provisioning := MonitoringDeployed);
        StatusUpdate();
        return;
      }
      if status.endpoint == None {
        halt := W.Panicked;
        return;
      }
      DeployMonitoring();
      if halt != W.Going { return; }
      if err == W.NoErr { status := status.(refs := refs.(monitor := MonitorName(w.id))); }
      status := status.(provisioning := MonitoringDeployed);
      StatusUpdate();
    }

    method PhaseVpcPeering()
      modifies this
      ensures State() == R.PhaseVpcPeering(old(State()))
    {
      var refs := status.refs;
      if refs.peering != "" || spec.vpcPeering == None {
        status := status.(provisioning := VpcPeeringCreated);
        StatusUpdate();
        return;
      }
      CreateVpcPeering(spec.vpcPeering.value);
      if halt != W.Going { return; }
      if err == W.NoErr { status := status.(refs := refs.(peering := PeeringName(w.id))); }
      status := status.(provisioning := VpcPeeringCreated);
      StatusUpdate();
    }

    method PhaseAvailable()
      modifies this
      ensures State() == R.PhaseAvailableStep(old(State()))
    {
      status := status.(phase := Available, provisioning := Types.PhaseAvailable);
      status := status.(observedGeneration := generation);
      var r := GetVMIReadiness();
      if halt != W.Going { return; }
      if r.ip != "" && (status.endpoint == None || status.endpoint.value.address != r.ip) {
        status := status.(endpoint := Some(Endpoint(r.ip, SpecPort(spec.port))));
      }
      if r.mgmtIp != "" && status.managementAddress != r.mgmtIp {
        status := status.(managementAddress := r.mgmtIp);
      }
      StatusUpdate();
    }

    // ---- Stop, start, modify, delete ----

    method ReconcileStop()
      modifies this
      ensures State() == R.ReconcileStop(old(State()))
    {
      status := status.(phase := Stopping);
      StatusUpdate();
      if halt != W.Going { return; }
      SetVMRunning(status.refs.vm, false);
      if halt != W.Going { return; }
      if err != W.NoErr { Fail(); return; }
      status := status.(phase := Stopped, observedGeneration := generation);
      StatusUpdate();
    }

    method ReconcileStart()
      modifies this
      ensures State() == R.ReconcileStart(old(State()))
    {
      status := status.(phase := Starting);
      StatusUpdate();
      if halt != W.Going { return; }
      SetVMRunning(status.refs.vm, true);
      if halt != W.Going { return; }
      if err != W.NoErr { Fail(); return; }
      status := status.(phase := Available, observedGeneration := generation);
      StatusUpdate();
    }

    /** The two goroutines in one order; `Goroutines.ModifyAnyOrder` covers the others. */
    method ReconcileModify()
      modifies this
      ensures State() == R.ReconcileModify(old(State()))
    {
      status := status.(phase := Modifying);
      StatusUpdate();
      if halt != W.Going { return; }
      var size := ClassOf(spec.instanceClass);
      if size == None { Fail(); return; }
      ResizeVM(status.refs.vm, size.value);
      if halt != W.Going { return; }
      var vmErr := err;
      ResizeDataVolume(status.refs.dataVolume, spec.allocatedStorage);
      if halt != W.Going { return; }
      if vmErr != W.NoErr || err != W.NoErr { Fail(); return; }
      status := status.(phase := Available, observedGeneration := generation);
      StatusUpdate();
    }

    method ReconcileDelete()
      modifies this
      ensures State() == R.ReconcileDelete(old(State()))
    {
      if spec.deletionProtection { StatusUpdate(); return; }
      status := status.(phase := Deleting);
      StatusUpdate();
      if halt != W.Going { return; }
      TeardownAll();
      if halt != W.Going { return; }
      FinalizerUpdate(false);
    }

    // ---- Dispatch ----

    method Provision()
      modifies this
      ensures State() == R.Provision(old(State()))
    {
      match status.provisioning
      case Unset => PhaseNetwork();
      case Pending => PhaseNetwork();
      case NetworkProvisioned => PhaseStorage();
      case StorageProvisioned => PhaseVM();
      case VMCreated => PhaseWaitReady();
      case WaitingForCloudInit => PhaseWaitReady();
      case DatabaseReady => PhaseMonitoring();
      case MonitoringDeployed => PhaseVpcPeering();
      case VpcPeeringCreated => PhaseAvailable();
      case PhaseAvailable => PhaseAvailable();
      case PhaseFailed =>
      case Unknown(_) => err := W.OtherErr;
    }

    method Dispatch()
      modifies this
      ensures State() == R.Dispatch(old(State()))
    {
      if deleting {
        if finalizer { ReconcileDelete(); }
        return;
      }
      if !finalizer { FinalizerUpdate(true); return; }
      if spec.running == Some(false) && status.phase == Available { ReconcileStop(); return; }
      if spec.running == Some(true) && status.phase == Stopped { ReconcileStart(); return; }
      if status.phase == Available && generation != status.observedGeneration { ReconcileModify(); return; }
      Provision();
    }

    /** One work-queue item, on a process that has just started or just finished another. */
    method Reconcile(turns: seq<W.Turn>)
      modifies this
      ensures State() == R.Reconcile(old(w), turns)
    {
      Load(w.cur, 0);
      script, now, err, halt := turns, W.Idle, W.NoErr, W.Going;
      Read();
      if halt != W.Going || err != W.NoErr { return; }
      Dispatch();
    }

    /** The work loop: every state it passes through is a reachable one, so all theorems about
        reachable worlds are theorems about this object. */
    method Run(scripts: seq<seq<W.Turn>>)
      requires T.Reachable(w)
      modifies this
      ensures w == R.Run(old(w), scripts)
      ensures T.Reachable(w) && (scripts == [] || halt != W.Panicked)
    {
      hide R.Reconcile, T.Reachable;
      for n := 0 to |scripts|
        invariant R.Run(w, scripts[n..]) == R.Run(old(w), scripts)
        invariant T.Reachable(w) && (n == 0 || halt != W.Panicked)
      {
        T.NeverPanics(w, scripts[n]);
        T.ReachableNext(w, scripts[n]);
        Reconcile(scripts[n]);
      }
    }
  }

  /** Walks the task list, skipping empty names. */
  method DeleteEach(cluster: map<Key, W.Child>, tasks: seq<Key>, deleted: set<Key>)
    returns (left: map<Key, W.Child>, failed: bool)
    ensures left == cluster - (Tasks(tasks) * deleted)
    ensures failed <==> !(Tasks(tasks) <= deleted)
  {
    left, failed := cluster, false;
    for n := 0 to |tasks|
      invariant left == cluster - (Tasks(tasks[..n]) * deleted)
      invariant failed <==> !(Tasks(tasks[..n]) <= deleted)
    {
      var t := tasks[n];
      TasksSnoc(tasks, n);
      if t.name == "" { continue; }
      if t in deleted { left := left - {t}; } else { failed := true; }
    }
    assert tasks[..|tasks|] == tasks;
  }

  ghost function Tasks(tasks: seq<Key>): set<Key> { set k | k in tasks && k.name != "" }

  lemma TasksSnoc(tasks: seq<Key>, n: nat)
    requires n < |tasks|
    ensures Tasks(tasks[..n + 1]) == Tasks(tasks[..n]) + H.Named(tasks[n])
  {
    assert tasks[..n + 1] == tasks[..n] + [tasks[n]];
  }

  lemma TasksAre(ns: string, refs: Refs, tasks: seq<Key>)
    requires tasks == [
      Key(ServiceMonitor, ns, refs.monitor), Key(Vm, ns, refs.vm), Key(DataVolume, ns, refs.dataVolume),
      Key(Secret, ns, refs.secret), Key(Nad, ns, if refs.vpc != "" then refs.nad else ""),
      Key(Subnet, "", refs.subnet), Key(VpcPeering, "", refs.peering), Key(Vpc, "", refs.vpc)]
    ensures Tasks(tasks) == H.TeardownKeys(ns, refs)
  {
  }

  lemma {:induction false} FirstAddressSnoc(interfaces: seq<W.Interface>, i: W.Interface)
    ensures H.FirstAddress(interfaces + [i]) ==
            if H.FirstAddress(interfaces) != "" then H.FirstAddress(interfaces)
            else if H.Addressed(i) then i.address else ""
  {
    if interfaces != [] {
      assert (interfaces + [i])[1..] == interfaces[1..] + [i];
      FirstAddressSnoc(interfaces[1..], i);
    }
  }
}
