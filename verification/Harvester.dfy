/** The Harvester client: idempotent operations on the cluster, one `Turn` per API call. */
module Harvester {
  import opened Types
  import opened Names
  import opened World

  // ---- VMI readiness ----

  datatype Readiness = Readiness(running: bool, ip: string, mgmtIp: string, ready: bool)

  const NotReady: Readiness := Readiness(false, "", "", false)

  predicate Addressed(i: Interface) { i.Interface? && i.address != "" }

  /** The address of the last interface called `name` that has one, or `""`. */
  function LastNamed(interfaces: seq<Interface>, name: string): string {
    if interfaces == [] then ""
    else
      var i := interfaces[|interfaces| - 1];
      if Addressed(i) && i.name == name then i.address
      else LastNamed(interfaces[..|interfaces| - 1], name)
  }

  /** The first address any interface has, or `""`. */
  function FirstAddress(interfaces: seq<Interface>): string {
    if interfaces == [] then ""
    else if Addressed(interfaces[0]) then interfaces[0].address
    else FirstAddress(interfaces[1..])
  }

  function TenantAddress(interfaces: seq<Interface>): string {
    var ip := LastNamed(interfaces, "vpc-net");
    if ip == "" then FirstAddress(interfaces) else ip
  }

  ghost predicate IsAddress(interfaces: seq<Interface>, ip: string) {
    exists i | 0 <= i < |interfaces| :: Addressed(interfaces[i]) && interfaces[i].address == ip
  }

  /** `ip` is the address of the last interface called `name` that has one. */
  ghost predicate IsLast(interfaces: seq<Interface>, name: string, ip: string) {
    exists i | 0 <= i < |interfaces| ::
      && interfaces[i] == Interface(name, ip)
      && forall j | i < j < |interfaces| :: Addressed(interfaces[j]) ==> interfaces[j].name != name
  }

  lemma {:induction false} LastNamedIs(interfaces: seq<Interface>, name: string)
    ensures var ip := LastNamed(interfaces, name);
            && (ip == "" <==> forall i | 0 <= i < |interfaces| :: Addressed(interfaces[i]) ==> interfaces[i].name != name)
            && (ip != "" ==> IsLast(interfaces, name, ip))
  {
    if interfaces != [] {
      var n := |interfaces| - 1;
      LastNamedIs(interfaces[..n], name);
      if Addressed(interfaces[n]) && interfaces[n].name == name {
        assert interfaces[n] == Interface(name, interfaces[n].address);
      } else if LastNamed(interfaces[..n], name) != "" {
        var ip := LastNamed(interfaces[..n], name);
        var i :| 0 <= i < n && interfaces[..n][i] == Interface(name, ip)
                 && forall j | i < j < n :: Addressed(interfaces[..n][j]) ==> interfaces[..n][j].name != name;
        assert interfaces[i] == Interface(name, ip);
        assert forall j | i < j < n :: interfaces[..n][j] == interfaces[j];
      } else {
        assert forall j | 0 <= j < n :: interfaces[..n][j] == interfaces[j];
      }
    }
  }

  /** `ip` is the address of the first interface that has one. */
  ghost predicate IsFirst(interfaces: seq<Interface>, ip: string) {
    exists i | 0 <= i < |interfaces| ::
      && Addressed(interfaces[i]) && interfaces[i].address == ip
      && forall j | 0 <= j < i :: !Addressed(interfaces[j])
  }

  lemma {:induction false} FirstAddressIs(interfaces: seq<Interface>)
    ensures var ip := FirstAddress(interfaces);
            && (ip == "" <==> forall i | 0 <= i < |interfaces| :: !Addressed(interfaces[i]))
            && (ip != "" ==> IsFirst(interfaces, ip))
  {
    if interfaces != [] && !Addressed(interfaces[0]) {
      FirstAddressIs(interfaces[1..]);
      if FirstAddress(interfaces[1..]) != "" {
        var rest := interfaces[1..];
        var i :| 0 <= i < |rest| && Addressed(rest[i]) && rest[i].address == FirstAddress(rest)
                 && forall j | 0 <= j < i :: !Addressed(rest[j]);
        assert interfaces[i + 1] == rest[i];
        assert forall j | 1 <= j < i + 1 :: interfaces[j] == rest[j - 1];
      } else {
        assert forall i | 1 <= i < |interfaces| :: interfaces[i] == interfaces[1..][i - 1];
      }
    }
  }

  /** A VM has a tenant address exactly when some interface has one; it is then one of theirs,
      the last one's of `vpc-net` if that is addressed, and otherwise the first one's. */
  lemma TenantAddressIs(interfaces: seq<Interface>)
    ensures var ip := TenantAddress(interfaces);
            && (ip != "" <==> exists i | 0 <= i < |interfaces| :: Addressed(interfaces[i]))
            && (ip != "" ==> IsAddress(interfaces, ip))
            && ((exists i | 0 <= i < |interfaces| :: Addressed(interfaces[i]) && interfaces[i].name == "vpc-net")
                ==> IsLast(interfaces, "vpc-net", ip))
            && (ip != "" && (forall i | 0 <= i < |interfaces| :: Addressed(interfaces[i]) ==> interfaces[i].name != "vpc-net")
                ==> IsFirst(interfaces, ip))
  {
    LastNamedIs(interfaces, "vpc-net");
    FirstAddressIs(interfaces);
  }

  function ReadinessOf(t: Turn): Readiness {
    if t.api != Normal || t.vmi == None then NotReady
    else
      var v := t.vmi.value;
      Readiness(v.running, TenantAddress(v.interfaces), LastNamed(v.interfaces, "mgmt-net"),
                v.running && v.upThreeMinutes)
  }

  // ---- Network, storage, VM ----

  function AddRoute(c: Child, vlan: string): Child {
    if c.VpcChild? then c.(routes := c.routes + [vlan]) else c
  }

  function CreateVPCNetwork(s: Session, vlan: string): Session {
    var id, ns := s.w.id, s.w.ns;
    var s1 := Create(s, VpcKey(id), VpcChild(ns, []));
    if Halted(s1) || s1.err == OtherErr then s1 else
    var s2 := if s1.err == AlreadyExists then Get(s1, VpcKey(id)) else s1;
    if Halted(s2) then s2 else
    var vpc := if s2.err == NoErr && VpcKey(id) in s2.w.cluster
               then Some(s2.w.cluster[VpcKey(id)]) else None;
    var s3 := Create(s2, NadKey(id, ns), NadChild);
    if Halted(s3) || s3.err == OtherErr then s3 else
    var s4 := Create(s3, SubnetKey(id), SubnetChild(VpcName(id), vlan));
    if Halted(s4) || s4.err == OtherErr then s4 else
    var s5 := if vpc.Some? then Put(s4, VpcKey(id), AddRoute(vpc.value, vlan)) else s4;
    s5.(err := NoErr)
  }

  function CreateDataVolume(s: Session, sizeGiB: int, storageClass: string): Session {
    IgnoreAlreadyExists(Create(s, DataVolumeKey(s.w.id, s.w.ns), VolumeChild(sizeGiB, storageClass)))
  }

  /** Every call generates keys and certificates first, whether or not a Secret exists. */
  function GenerateKeys(s: Session): Session {
    var t := Check(s);
    if Halted(t) then t else t.(w := t.w.(nonce := t.w.nonce + 1))
  }

  function CreatePostgresVM(s: Session, size: ClassSpec): Session {
    var id, ns := s.w.id, s.w.ns;
    var refs := St(s).refs;
    var s1 := GenerateKeys(s);
    if Halted(s1) || s1.err != NoErr then s1 else
    var n := s1.w.nonce - 1;
    var s2 := if s.inst.obj.spec.s3Backup then Check(s1) else s1;
    if Halted(s2) || s2.err != NoErr then s2 else SecretAndVM(s2, id, ns, refs, n, size)
  }

  /** Secret, VM image lookup, VM: everything after the keys are drawn. */
  function SecretAndVM(s2: Session, id: string, ns: string, refs: Refs, n: nat, size: ClassSpec): Session {
    var s3 := Create(s2, SecretKey(id, ns), SecretChild(n, n, n));
    if Halted(s3) || s3.err == OtherErr then s3 else
    var s4 := Check(s3);
    if Halted(s4) || s4.err != NoErr then s4 else
    IgnoreAlreadyExists(Create(s4, VmKey(id, ns),
      VmChild(true, size.cpuCores, size.memoryMB, refs.dataVolume, refs.nad, SecretName(id))))
  }

  // ---- Updates of existing children ----

  function SetRunning(c: Child, running: bool): Child {
    if c.VmChild? then c.(running := running) else c
  }

  function SetVMRunning(s: Session, vm: string, running: bool): Session {
    var k := Key(Vm, s.w.ns, vm);
    var t := Get(s, k);
    if Halted(t) || t.err != NoErr || k !in t.w.cluster then t
    else Put(t, k, SetRunning(t.w.cluster[k], running))
  }

  function SetSize(c: Child, size: ClassSpec): Child {
    if c.VmChild? then c.(cpuCores := size.cpuCores, memoryMB := size.memoryMB) else c
  }

  function ResizeVM(s: Session, vm: string, size: ClassSpec): Session {
    var k := Key(Vm, s.w.ns, vm);
    var t := Get(s, k);
    if Halted(t) || t.err != NoErr || k !in t.w.cluster then t
    else Put(t, k, SetSize(t.w.cluster[k], size))
  }

  function SetCapacity(c: Child, sizeGiB: int): Child {
    if c.VolumeChild? then c.(sizeGiB := sizeGiB) else c
  }

  function ResizeDataVolume(s: Session, volume: string, sizeGiB: int): Session {
    var k := Key(DataVolume, s.w.ns, volume);
    var t := Get(s, k);
    if Halted(t) || t.err != NoErr || k !in t.w.cluster then t
    else Put(t, k, SetCapacity(t.w.cluster[k], sizeGiB))
  }

  // ---- Monitoring and peering ----

  /** Errors creating the Service are ignored; any error creating the ServiceMonitor,
      `AlreadyExists` included, is returned. */
  function DeployMonitoring(s: Session): Session {
    var t := Create(s, ServiceKey(s.w.id, s.w.ns), ServiceChild);
    if Halted(t) then t else Create(t, MonitorKey(s.w.id, s.w.ns), MonitorChild)
  }

  function CreateVpcPeering(s: Session, remote: Peering): Session {
    var refs := St(s).refs;
    IgnoreAlreadyExists(Create(s, PeeringKey(s.w.id), PeeringChild(refs.vpc, refs.subnet, remote)))
  }

  // ---- Teardown ----

  function Named(k: Key): set<Key> { if k.name == "" then {} else {k} }

  /** The delete tasks for recorded refs. The NAD is owned only when a VPC was recorded. */
  function TeardownKeys(ns: string, refs: Refs): set<Key> {
    Named(Key(ServiceMonitor, ns, refs.monitor)) + Named(Key(Vm, ns, refs.vm)) +
    Named(Key(DataVolume, ns, refs.dataVolume)) + Named(Key(Secret, ns, refs.secret)) +
    Named(Key(Nad, ns, if refs.vpc != "" then refs.nad else "")) +
    Named(Key(Subnet, "", refs.subnet)) + Named(Key(VpcPeering, "", refs.peering)) +
    Named(Key(Vpc, "", refs.vpc))
  }

  /** Concurrent deletes whose errors are ignored: some subset of the tasks takes effect. */
  function TeardownAll(s: Session): Session {
    var t := Take(s);
    if Halted(t) then t
    else
      var keys := TeardownKeys(t.w.ns, St(t).refs);
      t.(w := t.w.(cluster := t.w.cluster - (keys * t.now.deleted), log := t.w.log + [TornDown],
                   faults := if keys <= t.now.deleted then t.w.faults
                             else t.w.faults.(leaked := t.w.faults.leaked + 1)))
  }
}
