/** Deterministic child names and the keys under which the cluster stores the children. */
module Names {
  import opened Types

  datatype Kind = Vpc | Subnet | Nad | DataVolume | Vm | Secret | Service | ServiceMonitor | VpcPeering

  /** Cluster-scoped kinds (Vpc, Subnet, VpcPeering) carry the empty namespace. */
  datatype Key = Key(kind: Kind, namespace: string, name: string)

  function VpcName(id: string): (r: string) ensures r != "" { "dbaas-" + id + "-vpc" }
  function SubnetName(id: string): (r: string) ensures r != "" { "dbaas-" + id + "-subnet" }
  function NadName(id: string): (r: string) ensures r != "" { "dbaas-" + id + "-nad" }
  function PeeringName(id: string): (r: string) ensures r != "" { "dbaas-" + id + "-peering" }
  function DataVolumeName(id: string): (r: string) ensures r != "" { "pg-" + id + "-data" }
  function VmName(id: string): (r: string) ensures r != "" { "pg-" + id }
  function SecretName(id: string): (r: string) ensures r != "" { "pg-" + id + "-credentials" }
  function MonitorName(id: string): (r: string) ensures r != "" { "pg-" + id + "-monitor" }
  function ServiceName(id: string): (r: string) ensures r != "" { "pg-" + id + "-metrics" }

  function VpcKey(id: string): Key { Key(Vpc, "", VpcName(id)) }
  function SubnetKey(id: string): Key { Key(Subnet, "", SubnetName(id)) }
  function PeeringKey(id: string): Key { Key(VpcPeering, "", PeeringName(id)) }
  function NadKey(id: string, ns: string): Key { Key(Nad, ns, NadName(id)) }
  function DataVolumeKey(id: string, ns: string): Key { Key(DataVolume, ns, DataVolumeName(id)) }
  function VmKey(id: string, ns: string): Key { Key(Vm, ns, VmName(id)) }
  function SecretKey(id: string, ns: string): Key { Key(Secret, ns, SecretName(id)) }
  function MonitorKey(id: string, ns: string): Key { Key(ServiceMonitor, ns, MonitorName(id)) }
  function ServiceKey(id: string, ns: string): Key { Key(Service, ns, ServiceName(id)) }

  /** Every key the controller may ever create for instance `ns/id`. */
  function ChildKeys(id: string, ns: string): set<Key> {
    { VpcKey(id), SubnetKey(id), PeeringKey(id), NadKey(id, ns), DataVolumeKey(id, ns),
      VmKey(id, ns), SecretKey(id, ns), MonitorKey(id, ns), ServiceKey(id, ns) }
  }

  /** The network refs the controller records for an instance created with `spec`. */
  function ExpectedNetwork(id: string, spec: Spec): (string, string, string) {
    if spec.networkRef != "" then ("", "", spec.networkRef)
    else (VpcName(id), SubnetName(id), NadName(id))
  }
}
