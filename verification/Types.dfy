/** Vocabulary of the DBaaS controller: the fields of `DBInstance` the reconciler reads or
    writes, with the phase strings as constructors and the empty Go string as `""`. */
module Types {

  datatype Option<+T> = None | Some(value: T)

  /** `status.provisioningPhase`. `Unset` is the empty string; `Unknown` stands for every
      string the reconciler's switch does not name. */
  datatype Provisioning =
    | Unset | Pending | NetworkProvisioned | StorageProvisioned | VMCreated
    | WaitingForCloudInit | DatabaseReady | MonitoringDeployed | VpcPeeringCreated
    | PhaseAvailable | PhaseFailed | Unknown(text: string)

  /** `status.phase`, the RDS-style string shown to users. */
  datatype Phase =
    | NoPhase | Creating | Available | Stopping | Stopped | Starting | Modifying
    | Deleting | Failed

  datatype ClassSpec = ClassSpec(cpuCores: nat, memoryMB: nat, maxConnections: nat)

  /** `spec.dbInstanceClass`; `OtherClass` is any string missing from `InstanceClasses`. */
  datatype InstanceClass =
    | T3Micro | T3Small | T3Medium | T3Large | T3XLarge
    | M5Large | M5XLarge | M52XLarge | M54XLarge
    | R5Large | R5XLarge | R52XLarge
    | OtherClass(text: string)

  function ClassOf(c: InstanceClass): Option<ClassSpec> {
    match c
    case T3Micro => Some(ClassSpec(1, 1024, 50))
    case T3Small => Some(ClassSpec(1, 2048, 100))
    case T3Medium => Some(ClassSpec(2, 4096, 150))
    case T3Large => Some(ClassSpec(2, 8192, 200))
    case T3XLarge => Some(ClassSpec(4, 16384, 300))
    case M5Large => Some(ClassSpec(2, 8192, 200))
    case M5XLarge => Some(ClassSpec(4, 16384, 400))
    case M52XLarge => Some(ClassSpec(8, 32768, 600))
    case M54XLarge => Some(ClassSpec(16, 65536, 1000))
    case R5Large => Some(ClassSpec(2, 16384, 300))
    case R5XLarge => Some(ClassSpec(4, 32768, 500))
    case R52XLarge => Some(ClassSpec(8, 65536, 800))
    case OtherClass(_) => None
  }

  function Cores(c: InstanceClass): nat { if ClassOf(c).Some? then ClassOf(c).value.cpuCores else 0 }

  function MiB(c: InstanceClass): nat { if ClassOf(c).Some? then ClassOf(c).value.memoryMB else 0 }

  function Connections(c: InstanceClass): nat { if ClassOf(c).Some? then ClassOf(c).value.maxConnections else 0 }

  /** `d` is the next size up in the family of `c`. */
  predicate NextSize(c: InstanceClass, d: InstanceClass) {
    (c, d) in {(T3Micro, T3Small), (T3Small, T3Medium), (T3Medium, T3Large), (T3Large, T3XLarge),
               (M5Large, M5XLarge), (M5XLarge, M52XLarge), (M52XLarge, M54XLarge),
               (R5Large, R5XLarge), (R5XLarge, R52XLarge)}
  }

  /** The shape of the class table: memory doubles with every size, connections grow; t3 starts at
      1 GiB with 1, 1, 2, 2 and 4 cores; m5 and r5 start at 2 cores, double them, and have 4 and
      8 GiB to the core. */
  lemma ClassTable()
    ensures forall c, d | NextSize(c, d) :: MiB(d) == 2 * MiB(c) && 0 < Connections(c) < Connections(d)
    ensures MiB(T3Micro) == 1024
    ensures Cores(T3Micro) == Cores(T3Small) == 1 && Cores(T3Medium) == Cores(T3Large) == 2 && Cores(T3XLarge) == 4
    ensures forall c | c in {M5Large, M5XLarge, M52XLarge, M54XLarge} :: MiB(c) == 4096 * Cores(c)
    ensures forall c | c in {R5Large, R5XLarge, R52XLarge} :: MiB(c) == 8192 * Cores(c)
    ensures Cores(M5Large) == Cores(R5Large) == 2
    ensures forall c | ClassOf(c) == None :: c.OtherClass?
  {
  }

  datatype Peering = Peering(remoteVpc: string, remoteSubnet: string)

  datatype Spec = Spec(
    instanceClass: InstanceClass,
    allocatedStorage: int,
    storageType: string,
    port: int,
    networkRef: string,
    dbSubnetGroupName: string,
    vpcPeering: Option<Peering>,
    s3Backup: bool,
    deletionProtection: bool,
    running: Option<bool>)

  datatype Refs = Refs(
    vpc: string, subnet: string, nad: string, dataVolume: string,
    vm: string, secret: string, monitor: string, peering: string)

  const NoRefs: Refs := Refs("", "", "", "", "", "", "", "")

  datatype Endpoint = Endpoint(address: string, port: int)

  /** `caCert` is the nonce of the key-generation call whose CA was stored. */
  datatype Status = Status(
    phase: Phase,
    provisioning: Provisioning,
    endpoint: Option<Endpoint>,
    managementAddress: string,
    masterUserSecret: Option<string>,
    caCert: Option<nat>,
    refs: Refs,
    observedGeneration: nat)

  const NewStatus: Status := Status(NoPhase, Unset, None, "", None, None, NoRefs, 0)

  /** One stored version of a DBInstance. */
  datatype Object = Object(
    spec: Spec, status: Status, finalizer: bool, deleting: bool, generation: nat)

  function SpecPort(port: int): int { if port == 0 then 5432 else port }
}
