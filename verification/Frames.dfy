/** What each operation does to the cluster, whatever the script: which keys it can add, and
    which contents it leaves alone. */
module Frames {
  import opened Types
  import opened Names
  import opened World
  import opened Harvester
  import opened Reconciler

  lemma {:induction false} UsersFrame(w: World, actions: seq<UserAction>)
    ensures var v := Users(w, actions); v == w.(past := v.past, cur := v.cur, live := v.live)
    decreases |actions|
  {
    if actions != [] { UsersFrame(User(w, actions[0]), actions[1..]); }
  }

  lemma {:induction false} UsersStatus(w: World, actions: seq<UserAction>)
    ensures Users(w, actions).cur.status == w.cur.status
    decreases |actions|
  {
    if actions != [] { UsersStatus(User(w, actions[0]), actions[1..]); }
  }

  lemma TakeFrame(s: Session)
    ensures var t := Take(s);
            t.w == s.w.(past := t.w.past, cur := t.w.cur, live := t.w.live, lost := t.w.lost)
            && t.inst == s.inst && s.w.lost <= t.w.lost
  {
    if !Halted(s) && s.script != [] { UsersFrame(s.w, s.script[0].users); }
  }

  /** Store calls never touch the cluster. */
  ghost predicate Apart(w: World, v: World) {
    v.id == w.id && v.ns == w.ns && v.cluster == w.cluster && v.nonce == w.nonce && v.log == w.log
  }

  lemma ReadFrame(w: World, script: seq<Turn>)
    ensures Apart(w, Read(Begin(w, script)).w)
  {
    TakeFrame(Begin(w, script));
  }

  lemma StatusUpdateFrame(s: Session)
    ensures Apart(s.w, StatusUpdate(s).w)
  {
    TakeFrame(s);
  }

  lemma FinalizerUpdateFrame(s: Session, finalizer: bool)
    ensures Apart(s.w, FinalizerUpdate(s, finalizer).w)
  {
    TakeFrame(s);
  }

  /** `v` extends `w` by some of `keys`; existing children are untouched, the VPC aside if it is
      one of `keys`. */
  ghost predicate Adds(w: World, v: World, keys: set<Key>) {
    && v.id == w.id && v.ns == w.ns && w.nonce <= v.nonce
    && w.cluster.Keys <= v.cluster.Keys <= w.cluster.Keys + keys
    && (forall k | k in w.cluster && (k != VpcKey(w.id) || k !in keys) :: v.cluster[k] == w.cluster[k])
  }

  lemma AddsTransitive(u: World, v: World, w: World, a: set<Key>, b: set<Key>)
    requires Adds(u, v, a) && Adds(v, w, b)
    ensures Adds(u, w, a + b)
  {
  }

  lemma AddsApart(u: World, v: World, w: World, keys: set<Key>)
    requires Adds(u, v, keys) && Apart(v, w)
    ensures Adds(u, w, keys)
  {
  }

  lemma AddsNothing(w: World, keys: set<Key>)
    ensures Adds(w, w, keys)
  {
  }

  lemma AddsWithin(w: World, v: World, some: set<Key>, keys: set<Key>)
    requires Adds(w, v, some) && some <= keys
    ensures Adds(w, v, keys) && w.cluster.Keys <= v.cluster.Keys && v.id == w.id && v.ns == w.ns
  {
  }

  lemma CreateFrame(s: Session, k: Key, c: Child)
    ensures var t := Create(s, k, c);
            && Adds(s.w, t.w, {k}) && t.inst == s.inst && t.w.nonce == s.w.nonce
            && (k !in s.w.cluster && k in t.w.cluster ==> t.w.cluster[k] == c)
            && (forall j | j in s.w.cluster :: t.w.cluster[j] == s.w.cluster[j])
            && (!Halted(t) && t.err != OtherErr ==> k in t.w.cluster)
            && (!Halted(t) ==> (t.err == NoErr ==> k !in s.w.cluster) && (t.err == AlreadyExists ==> k in s.w.cluster))
  {
    hide Take, VpcKey;
    TakeFrame(s);
    var t, u := Take(s), Create(s, k, c);
    if u.w.cluster != s.w.cluster {
      assert u.w.cluster == s.w.cluster[k := c] && k !in s.w.cluster;
    }
    assert Adds(s.w, u.w, {k});
  }

  lemma GetFrame(s: Session, k: Key)
    ensures Apart(s.w, Get(s, k).w) && Get(s, k).inst == s.inst
  {
    TakeFrame(s);
  }

  lemma CheckFrame(s: Session)
    ensures Apart(s.w, Check(s).w) && Check(s).inst == s.inst
  {
    TakeFrame(s);
  }

  /** A read-modify-write of one child changes at most that child, and never adds or removes. */
  ghost predicate Rewrites(w: World, v: World, k: Key, c: Child) {
    && v.id == w.id && v.ns == w.ns && v.nonce == w.nonce && v.log == w.log
    && v.cluster.Keys == w.cluster.Keys
    && (v.cluster == w.cluster || (k in w.cluster && v.cluster == w.cluster[k := c]))
  }

  lemma PutFrame(s: Session, k: Key, c: Child)
    ensures Rewrites(s.w, Put(s, k, c).w, k, c) && Put(s, k, c).inst == s.inst
    ensures !Halted(Put(s, k, c)) && Put(s, k, c).err == NoErr ==>
              k in s.w.cluster && Put(s, k, c).w.cluster == s.w.cluster[k := c]
  {
    hide Take;
    TakeFrame(s);
  }

  // ---- Harvester operations ----

  lemma CreateVPCNetworkFrame(s: Session, vlan: string)
    ensures var t := CreateVPCNetwork(s, vlan); var id, ns := s.w.id, s.w.ns;
            && Adds(s.w, t.w, {VpcKey(id), NadKey(id, ns), SubnetKey(id)}) && t.w.nonce == s.w.nonce
            && (!Halted(t) && t.err == NoErr ==>
                  VpcKey(id) in t.w.cluster && NadKey(id, ns) in t.w.cluster && SubnetKey(id) in t.w.cluster)
  {
    hide Create, Get, Put, Adds, VpcKey, NadKey, SubnetKey;
    var id, ns := s.w.id, s.w.ns;
    var keys := {VpcKey(id), NadKey(id, ns), SubnetKey(id)};
    var s1 := Create(s, VpcKey(id), VpcChild(ns, []));
    CreateFrame(s, VpcKey(id), VpcChild(ns, []));
    AddsWithin(s.w, s1.w, {VpcKey(id)}, keys);
    if !Halted(s1) && s1.err != OtherErr {
      var s2 := if s1.err == AlreadyExists then Get(s1, VpcKey(id)) else s1;
      GetFrame(s1, VpcKey(id));
      AddsApart(s.w, s1.w, s2.w, keys);
      if !Halted(s2) {
        var s3 := Create(s2, NadKey(id, ns), NadChild);
        CreateFrame(s2, NadKey(id, ns), NadChild);
        AddsBy(s.w, s2.w, s3.w, NadKey(id, ns), keys);
        if !Halted(s3) && s3.err != OtherErr {
          var s4 := Create(s3, SubnetKey(id), SubnetChild(VpcName(id), vlan));
          CreateFrame(s3, SubnetKey(id), SubnetChild(VpcName(id), vlan));
          AddsBy(s.w, s3.w, s4.w, SubnetKey(id), keys);
          if !Halted(s4) && s4.err != OtherErr {
            var vpc := if s2.err == NoErr && VpcKey(id) in s2.w.cluster
                       then Some(s2.w.cluster[VpcKey(id)]) else None;
            if vpc.Some? {
              PutFrame(s4, VpcKey(id), AddRoute(vpc.value, vlan));
              RewritesVpc(s.w, s4.w, Put(s4, VpcKey(id), AddRoute(vpc.value, vlan)).w, AddRoute(vpc.value, vlan), keys);
            }
          }
        }
      }
    }
  }

  lemma AddsBy(u: World, v: World, w: World, k: Key, keys: set<Key>)
    requires Adds(u, v, keys) && Adds(v, w, {k}) && k in keys
    ensures Adds(u, w, keys) && v.cluster.Keys <= w.cluster.Keys && w.id == u.id && w.ns == u.ns
  {
    hide VpcKey;
  }

  lemma RewritesVpc(u: World, v: World, w: World, c: Child, keys: set<Key>)
    requires Adds(u, v, keys) && Rewrites(v, w, VpcKey(u.id), c) && VpcKey(u.id) in keys
    ensures Adds(u, w, keys)
  {
    hide VpcKey;
  }

  /** Each call draws at most one nonce; the Secret, if this call made it, carries exactly it. */
  lemma CreatePostgresVMFrame(s: Session, size: ClassSpec)
    ensures var t := CreatePostgresVM(s, size); var id, ns := s.w.id, s.w.ns;
            && Adds(s.w, t.w, {SecretKey(id, ns), VmKey(id, ns)})
            && t.w.nonce <= s.w.nonce + 1
            && (SecretKey(id, ns) !in s.w.cluster && SecretKey(id, ns) in t.w.cluster ==>
                  t.w.cluster[SecretKey(id, ns)] == SecretChild(s.w.nonce, s.w.nonce, s.w.nonce)
                  && t.w.nonce == s.w.nonce + 1)
            && (VmKey(id, ns) !in s.w.cluster && VmKey(id, ns) in t.w.cluster ==>
                  t.w.cluster[VmKey(id, ns)] == VmChild(true, size.cpuCores, size.memoryMB, St(s).refs.dataVolume,
                                                        St(s).refs.nad, SecretName(id))
                  && SecretKey(id, ns) in t.w.cluster)
            && (!Halted(t) && t.err == NoErr ==>
                  SecretKey(id, ns) in t.w.cluster && VmKey(id, ns) in t.w.cluster && t.w.nonce == s.w.nonce + 1)
  {
    hide Create, Check, SecretAndVM, Adds, VpcName, VmName, SecretName, VpcKey, SecretKey, VmKey;
    var id, ns := s.w.id, s.w.ns;
    var keys := {SecretKey(id, ns), VmKey(id, ns)};
    AddsNothing(s.w, keys);
    var s1 := GenerateKeys(s);
    CheckFrame(s);
    NonceAdds(s.w, Check(s).w, keys);
    if !Halted(s1) && s1.err == NoErr {
      var s2 := if s.inst.obj.spec.s3Backup then Check(s1) else s1;
      CheckFrame(s1);
      AddsApart(s.w, s1.w, s2.w, keys);
      if !Halted(s2) && s2.err == NoErr {
        SecretAndVMFrame(s2, St(s).refs, s1.w.nonce - 1, size);
        AddsAgain(s.w, s2.w, SecretAndVM(s2, id, ns, St(s).refs, s1.w.nonce - 1, size).w, keys);
      }
    }
  }

  lemma SecretAndVMFrame(s: Session, refs: Refs, n: nat, size: ClassSpec)
    ensures var id, ns := s.w.id, s.w.ns; var t := SecretAndVM(s, id, ns, refs, n, size);
            && Adds(s.w, t.w, {SecretKey(id, ns), VmKey(id, ns)}) && t.w.nonce == s.w.nonce
            && (SecretKey(id, ns) !in s.w.cluster && SecretKey(id, ns) in t.w.cluster ==>
                  t.w.cluster[SecretKey(id, ns)] == SecretChild(n, n, n))
            && (VmKey(id, ns) !in s.w.cluster && VmKey(id, ns) in t.w.cluster ==>
                  t.w.cluster[VmKey(id, ns)] == VmChild(true, size.cpuCores, size.memoryMB, refs.dataVolume, refs.nad,
                                                        SecretName(id))
                  && SecretKey(id, ns) in t.w.cluster)
            && (!Halted(t) && t.err == NoErr ==> SecretKey(id, ns) in t.w.cluster && VmKey(id, ns) in t.w.cluster)
  {
    hide Create, Check, VpcName, VmName, SecretName;
    var id, ns := s.w.id, s.w.ns;
    var s3 := Create(s, SecretKey(id, ns), SecretChild(n, n, n));
    CreateFrame(s, SecretKey(id, ns), SecretChild(n, n, n));
    if !Halted(s3) && s3.err != OtherErr {
      CheckFrame(s3);
      CreateFrame(Check(s3), VmKey(id, ns),
        VmChild(true, size.cpuCores, size.memoryMB, refs.dataVolume, refs.nad, SecretName(id)));
    }
  }

  lemma NonceAdds(w: World, v: World, keys: set<Key>)
    requires Apart(w, v)
    ensures Adds(w, v, keys) && Adds(w, v.(nonce := v.nonce + 1), keys)
  {
  }

  lemma AddsAgain(u: World, v: World, w: World, keys: set<Key>)
    requires Adds(u, v, keys) && Adds(v, w, keys)
    ensures Adds(u, w, keys)
  {
    AddsTransitive(u, v, w, keys, keys);
    assert keys + keys == keys;
  }

  lemma SetVMRunningFrame(s: Session, vm: string, running: bool)
    ensures var t := SetVMRunning(s, vm, running); var k := Key(Vm, s.w.ns, vm);
            && t.w.cluster.Keys == s.w.cluster.Keys && t.w.id == s.w.id && t.w.ns == s.w.ns
            && t.w.nonce == s.w.nonce && t.w.log == s.w.log && t.inst == s.inst
            && (t.w.cluster == s.w.cluster ||
                  (k in s.w.cluster && t.w.cluster == s.w.cluster[k := SetRunning(s.w.cluster[k], running)]))
            && (!Halted(t) && t.err == NoErr ==>
                  k in s.w.cluster && t.w.cluster == s.w.cluster[k := SetRunning(s.w.cluster[k], running)])
  {
    hide Get, Put;
    var k := Key(Vm, s.w.ns, vm);
    GetFrame(s, k);
    var t := Get(s, k);
    if !(Halted(t) || t.err != NoErr || k !in t.w.cluster) {
      PutFrame(t, k, SetRunning(t.w.cluster[k], running));
    } else { GetFound(s, k); }
  }

  lemma GetFound(s: Session, k: Key)
    ensures !Halted(Get(s, k)) && Get(s, k).err == NoErr ==> k in s.w.cluster
  {
    TakeFrame(s);
  }

  lemma ResizeVMFrame(s: Session, vm: string, size: ClassSpec)
    ensures var t := ResizeVM(s, vm, size); var k := Key(Vm, s.w.ns, vm);
            && t.w.cluster.Keys == s.w.cluster.Keys && t.w.id == s.w.id && t.w.ns == s.w.ns
            && t.w.nonce == s.w.nonce && t.w.log == s.w.log && t.inst == s.inst
            && (t.w.cluster == s.w.cluster ||
                  (k in s.w.cluster && t.w.cluster == s.w.cluster[k := SetSize(s.w.cluster[k], size)]))
            && (!Halted(t) && t.err == NoErr ==>
                  k in s.w.cluster && t.w.cluster == s.w.cluster[k := SetSize(s.w.cluster[k], size)])
  {
    hide Get, Put;
    var k := Key(Vm, s.w.ns, vm);
    GetFrame(s, k);
    GetFound(s, k);
    var t := Get(s, k);
    if !(Halted(t) || t.err != NoErr || k !in t.w.cluster) {
      PutFrame(t, k, SetSize(t.w.cluster[k], size));
    }
  }

  lemma ResizeDataVolumeFrame(s: Session, volume: string, sizeGiB: int)
    ensures var t := ResizeDataVolume(s, volume, sizeGiB); var k := Key(DataVolume, s.w.ns, volume);
            && t.w.cluster.Keys == s.w.cluster.Keys && t.w.id == s.w.id && t.w.ns == s.w.ns
            && t.w.nonce == s.w.nonce && t.w.log == s.w.log && t.inst == s.inst
            && (t.w.cluster == s.w.cluster ||
                  (k in s.w.cluster && t.w.cluster == s.w.cluster[k := SetCapacity(s.w.cluster[k], sizeGiB)]))
            && (!Halted(t) && t.err == NoErr ==>
                  k in s.w.cluster && t.w.cluster == s.w.cluster[k := SetCapacity(s.w.cluster[k], sizeGiB)])
  {
    hide Get, Put;
    var k := Key(DataVolume, s.w.ns, volume);
    GetFrame(s, k);
    GetFound(s, k);
    var t := Get(s, k);
    if !(Halted(t) || t.err != NoErr || k !in t.w.cluster) {
      PutFrame(t, k, SetCapacity(t.w.cluster[k], sizeGiB));
    }
  }

  lemma DeployMonitoringFrame(s: Session)
    ensures var t := DeployMonitoring(s); var id, ns := s.w.id, s.w.ns;
            && Adds(s.w, t.w, {ServiceKey(id, ns), MonitorKey(id, ns)}) && t.w.nonce == s.w.nonce
            && (!Halted(t) && t.err != OtherErr ==> MonitorKey(id, ns) in t.w.cluster)
            && (!Halted(t) ==> (t.err == NoErr ==> MonitorKey(id, ns) !in s.w.cluster)
                               && (t.err == AlreadyExists ==> MonitorKey(id, ns) in s.w.cluster))
  {
    hide Create;
    var id, ns := s.w.id, s.w.ns;
    CreateFrame(s, ServiceKey(id, ns), ServiceChild);
    CreateFrame(Create(s, ServiceKey(id, ns), ServiceChild), MonitorKey(id, ns), MonitorChild);
  }

  // ---- Provisioning phases ----

  /** The keys each provisioning phase may add. */
  function PhaseKeys(id: string, ns: string, p: Provisioning): set<Key> {
    match p
    case Unset => {VpcKey(id), NadKey(id, ns), SubnetKey(id)}
    case Pending => {VpcKey(id), NadKey(id, ns), SubnetKey(id)}
    case NetworkProvisioned => {DataVolumeKey(id, ns)}
    case StorageProvisioned => {SecretKey(id, ns), VmKey(id, ns)}
    case DatabaseReady => {ServiceKey(id, ns), MonitorKey(id, ns)}
    case MonitoringDeployed => {PeeringKey(id)}
    case _ => {}
  }

  lemma NetworkAdds(s: Session)
    ensures Adds(s.w, PhaseNetwork(s).w, {VpcKey(s.w.id), NadKey(s.w.id, s.w.ns), SubnetKey(s.w.id)})
    ensures PhaseNetwork(s).w.nonce == s.w.nonce
  {
    hide StatusUpdate, CreateVPCNetwork, Adds, VpcKey, NadKey, SubnetKey;
    var keys := {VpcKey(s.w.id), NadKey(s.w.id, s.w.ns), SubnetKey(s.w.id)};
    var c := if St(s).phase == NoPhase then WithStatus(s, St(s).(phase := Creating)) else s;
    var refs, spec, v := St(c).refs, c.inst.obj.spec, PhaseNetwork(s).w;
    AddsNothing(s.w, keys);
    if refs.vpc != "" || refs.nad != "" {
      StatusUpdateFrame(To(c, NetworkProvisioned));
      AddsApart(s.w, s.w, v, keys);
    } else if spec.networkRef != "" {
      StatusUpdateFrame(To(WithRefs(c, refs.(nad := spec.networkRef)), NetworkProvisioned));
      AddsApart(s.w, s.w, v, keys);
    } else {
      var vlan := Vlan(spec);
      CreateVPCNetworkFrame(c, vlan);
      var t := CreateVPCNetwork(c, vlan);
      if !Halted(t) {
        var id := t.w.id;
        StatusUpdateFrame(WithStatus(t, St(t).(phase := Failed, provisioning := PhaseFailed)));
        StatusUpdateFrame(To(WithRefs(t, refs.(vpc := VpcName(id), subnet := SubnetName(id), nad := NadName(id))),
                             NetworkProvisioned));
        AddsApart(s.w, t.w, v, keys);
      }
    }
  }

  lemma StorageAdds(s: Session)
    ensures Adds(s.w, PhaseStorage(s).w, {DataVolumeKey(s.w.id, s.w.ns)})
    ensures PhaseStorage(s).w.nonce == s.w.nonce
  {
    hide StatusUpdate, Create;
    var refs, spec := St(s).refs, s.inst.obj.spec;
    var kind := StorageClass(spec);
    CreateFrame(s, DataVolumeKey(s.w.id, s.w.ns), VolumeChild(spec.allocatedStorage, kind));
    var t := CreateDataVolume(s, spec.allocatedStorage, kind);
    StatusUpdateFrame(To(s, StorageProvisioned));
    StatusUpdateFrame(WithStatus(t, St(t).(phase := Failed, provisioning := PhaseFailed)));
    StatusUpdateFrame(To(WithRefs(t, refs.(dataVolume := DataVolumeName(t.w.id))), StorageProvisioned));
  }

  lemma VMAdds(s: Session)
    ensures var t := PhaseVM(s); var k := SecretKey(s.w.id, s.w.ns);
            && Adds(s.w, t.w, {k, VmKey(s.w.id, s.w.ns)})
            && t.w.nonce <= s.w.nonce + 1
            && (k !in s.w.cluster && k in t.w.cluster ==>
                  t.w.cluster[k] == SecretChild(s.w.nonce, s.w.nonce, s.w.nonce) && t.w.nonce == s.w.nonce + 1)
            && (VmKey(s.w.id, s.w.ns) !in s.w.cluster && VmKey(s.w.id, s.w.ns) in t.w.cluster ==>
                  k in t.w.cluster && t.w.cluster[VmKey(s.w.id, s.w.ns)].VmChild?
                  && t.w.cluster[VmKey(s.w.id, s.w.ns)].userdataSecret == SecretName(s.w.id))
  {
    hide StatusUpdate, CreatePostgresVM, ClassOf;
    var size := ClassOf(s.inst.obj.spec.instanceClass);
    StatusUpdateFrame(To(s, VMCreated));
    StatusUpdateFrame(WithStatus(s, St(s).(phase := Failed, provisioning := PhaseFailed)));
    if size.Some? {
      CreatePostgresVMFrame(s, size.value);
      var t := CreatePostgresVM(s, size.value);
      StatusUpdateFrame(WithStatus(t, St(t).(phase := Failed, provisioning := PhaseFailed)));
      StatusUpdateFrame(RecordVM(t));
    }
  }

  lemma WaitAdds(s: Session)
    ensures Apart(s.w, PhaseWaitReady(s).w)
  {
    hide StatusUpdate, ReadinessOf;
    TakeFrame(s);
    var t := Take(s);
    var r := ReadinessOf(t.now);
    StatusUpdateFrame(To(Poll(t), WaitingForCloudInit));
    StatusUpdateFrame(Poll(t));
    StatusUpdateFrame(WithStatus(t, St(t).(
      endpoint := Some(Endpoint(r.ip, SpecPort(t.inst.obj.spec.port))),
      managementAddress := r.mgmtIp, provisioning := DatabaseReady)));
  }

  lemma MonitoringAdds(s: Session)
    ensures Adds(s.w, PhaseMonitoring(s).w, {ServiceKey(s.w.id, s.w.ns), MonitorKey(s.w.id, s.w.ns)})
    ensures PhaseMonitoring(s).w.nonce == s.w.nonce
  {
    hide StatusUpdate, DeployMonitoring;
    DeployMonitoringFrame(s);
    var t := DeployMonitoring(s);
    StatusUpdateFrame(To(s, MonitoringDeployed));
    StatusUpdateFrame(To(t, MonitoringDeployed));
    StatusUpdateFrame(To(WithRefs(t, St(s).refs.(monitor := MonitorName(t.w.id))), MonitoringDeployed));
  }

  lemma PeeringAdds(s: Session)
    ensures Adds(s.w, PhaseVpcPeering(s).w, {PeeringKey(s.w.id)})
    ensures PhaseVpcPeering(s).w.nonce == s.w.nonce
  {
    hide StatusUpdate, Create;
    var refs, peering := St(s).refs, s.inst.obj.spec.vpcPeering;
    StatusUpdateFrame(To(s, VpcPeeringCreated));
    if peering.Some? {
      CreateFrame(s, PeeringKey(s.w.id), PeeringChild(refs.vpc, refs.subnet, peering.value));
      var t := CreateVpcPeering(s, peering.value);
      StatusUpdateFrame(To(t, VpcPeeringCreated));
      StatusUpdateFrame(To(WithRefs(t, refs.(peering := PeeringName(t.w.id))), VpcPeeringCreated));
    }
  }

  lemma AvailableAdds(s: Session)
    ensures Apart(s.w, PhaseAvailableStep(s).w)
  {
    hide StatusUpdate, ReadinessOf, RefreshAddresses;
    var s1 := WithStatus(s, St(s).(phase := Available, provisioning := PhaseAvailable,
                                   observedGeneration := s.inst.obj.generation));
    TakeFrame(s1);
    var t := Take(s1);
    StatusUpdateFrame(WithStatus(t, RefreshAddresses(St(t), t.inst.obj.spec, ReadinessOf(t.now))));
  }

  /** A provisioning step adds at most its own phase's keys and rewrites nothing but routes. */
  lemma ProvisionAdds(s: Session)
    ensures Adds(s.w, Provision(s).w, PhaseKeys(s.w.id, s.w.ns, St(s).provisioning))
    ensures St(s).provisioning != StorageProvisioned ==> Provision(s).w.nonce == s.w.nonce
  {
    hide PhaseNetwork, PhaseStorage, PhaseVM, PhaseWaitReady, PhaseMonitoring, PhaseVpcPeering, PhaseAvailableStep;
    match St(s).provisioning
    case Unset => NetworkAdds(s);
    case Pending => NetworkAdds(s);
    case NetworkProvisioned => StorageAdds(s);
    case StorageProvisioned => VMAdds(s);
    case VMCreated => WaitAdds(s);
    case WaitingForCloudInit => WaitAdds(s);
    case DatabaseReady => MonitoringAdds(s);
    case MonitoringDeployed => PeeringAdds(s);
    case VpcPeeringCreated => AvailableAdds(s);
    case PhaseAvailable => AvailableAdds(s);
    case PhaseFailed =>
    case Unknown(_) =>
  }

  // ---- Stop, start, modify, delete ----

  /** Stopping or starting never creates or deletes a child, and rewrites at most the power flag
      of the recorded VM. */
  lemma PowerFrame(s: Session, during: Phase, running: bool)
    ensures var t := StatusUpdate(Mark(s, during)); var k := Key(Vm, s.w.ns, St(t).refs.vm);
            var u := SetVMRunning(t, St(t).refs.vm, running);
            && Apart(s.w, t.w)
            && u.w.cluster.Keys == s.w.cluster.Keys && u.w.id == s.w.id && u.w.ns == s.w.ns && u.w.nonce == s.w.nonce
            && u.w.log == s.w.log
            && Apart(u.w, Fail(u).w) && Apart(u.w, Settle(u, Stopped).w) && Apart(u.w, Settle(u, Available).w)
            && (u.w.cluster == s.w.cluster ||
                  (k in s.w.cluster && u.w.cluster == s.w.cluster[k := SetRunning(s.w.cluster[k], running)]))
  {
    hide StatusUpdate, SetVMRunning;
    StatusUpdateFrame(Mark(s, during));
    var t := StatusUpdate(Mark(s, during));
    SetVMRunningFrame(t, St(t).refs.vm, running);
    var u := SetVMRunning(t, St(t).refs.vm, running);
    StatusUpdateFrame(WithStatus(u, St(u).(phase := Failed, provisioning := PhaseFailed)));
    StatusUpdateFrame(WithStatus(u, St(u).(phase := Stopped, observedGeneration := u.inst.obj.generation)));
    StatusUpdateFrame(WithStatus(u, St(u).(phase := Available, observedGeneration := u.inst.obj.generation)));
  }

  /** The contents a resize may leave behind: same keys, and only sizes differ. */
  ghost predicate Resized(w: World, v: World) {
    && v.id == w.id && v.ns == w.ns && v.nonce == w.nonce && v.log == w.log && v.cluster.Keys == w.cluster.Keys
    && (forall k | k in w.cluster ::
          var a, b := w.cluster[k], v.cluster[k];
          || b == a
          || (a.VmChild? && b.VmChild? && b == a.(cpuCores := b.cpuCores, memoryMB := b.memoryMB))
          || (a.VolumeChild? && b.VolumeChild? && b == a.(sizeGiB := b.sizeGiB)))
  }

  lemma ModifyFrame(s: Session)
    ensures Resized(s.w, ReconcileModify(s).w)
  {
    hide StatusUpdate, ResizeVM, ResizeDataVolume, ClassOf;
    StatusUpdateFrame(Mark(s, Modifying));
    var t := StatusUpdate(Mark(s, Modifying));
    var size := ClassOf(t.inst.obj.spec.instanceClass);
    StatusUpdateFrame(WithStatus(t, St(t).(phase := Failed, provisioning := PhaseFailed)));
    if !Halted(t) && size.Some? {
      ResizeVMFrame(t, St(t).refs.vm, size.value);
      var u := ResizeVM(t, St(t).refs.vm, size.value);
      ResizeDataVolumeFrame(u, St(u).refs.dataVolume, u.inst.obj.spec.allocatedStorage);
      var v := ResizeDataVolume(u, St(u).refs.dataVolume, u.inst.obj.spec.allocatedStorage);
      StatusUpdateFrame(WithStatus(v, St(v).(phase := Failed, provisioning := PhaseFailed)));
      StatusUpdateFrame(WithStatus(v, St(v).(phase := Available, observedGeneration := v.inst.obj.generation)));
    }
  }

  /** Deletion only removes, and only keys named by the refs in memory. */
  lemma DeleteFrame(s: Session)
    ensures var v := ReconcileDelete(s).w;
            && v.id == s.w.id && v.ns == s.w.ns && v.nonce == s.w.nonce
            && v.cluster.Keys <= s.w.cluster.Keys <= v.cluster.Keys + TeardownKeys(s.w.ns, St(s).refs)
            && (forall k | k in v.cluster :: v.cluster[k] == s.w.cluster[k])
  {
    hide StatusUpdate, FinalizerUpdate, TeardownKeys;
    StatusUpdateFrame(s);
    StatusUpdateFrame(Mark(s, Deleting));
    StatusKept(Mark(s, Deleting));
    var t := StatusUpdate(Mark(s, Deleting));
    TakeFrame(t);
    var u := TeardownAll(t);
    FinalizerUpdateFrame(u, false);
  }

  lemma StatusKept(s: Session)
    ensures St(StatusUpdate(s)) == St(s)
  {
    TakeFrame(s);
  }
}
