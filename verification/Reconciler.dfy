/** `DBInstanceReconciler.Reconcile` as a function of the store, the cluster and a script. */
module Reconciler {
  import opened Types
  import opened Names
  import opened World
  import opened Harvester

  function Advance(s: Session): Session { StatusUpdate(s) }

  function Fail(s: Session): Session {
    StatusUpdate(WithStatus(s, St(s).(phase := Failed, provisioning := PhaseFailed)))
  }

  function To(s: Session, p: Provisioning): Session {
    WithStatus(s, St(s).(provisioning := p))
  }

  function WithRefs(s: Session, refs: Refs): Session {
    WithStatus(s, St(s).(refs := refs))
  }

  /** The consumer VLAN allowed into the instance's subnet. */
  function Vlan(spec: Spec): string { if spec.dbSubnetGroupName == "" then "10.50.0.0/24" else spec.dbSubnetGroupName }

  function StorageClass(spec: Spec): string { if spec.storageType == "" then "longhorn" else spec.storageType }

  // ---- Provisioning phases ----

  function PhaseNetwork(s0: Session): Session {
    var s := if St(s0).phase == NoPhase then WithStatus(s0, St(s0).(phase := Creating)) else s0;
    var refs, spec := St(s).refs, s.inst.obj.spec;
    if refs.vpc != "" || refs.nad != "" then Advance(To(s, NetworkProvisioned))
    else if spec.networkRef != "" then
      Advance(To(WithRefs(s, refs.(nad := spec.networkRef)), NetworkProvisioned))
    else
      var vlan := Vlan(spec);
      var t := CreateVPCNetwork(s, vlan);
      if Halted(t) then t
      else if t.err != NoErr then Fail(t)
      else
        var id := t.w.id;
        Advance(To(WithRefs(t, refs.(vpc := VpcName(id), subnet := SubnetName(id), nad := NadName(id))),
                   NetworkProvisioned))
  }

  function PhaseStorage(s: Session): Session {
    var refs, spec := St(s).refs, s.inst.obj.spec;
    if refs.dataVolume != "" then Advance(To(s, StorageProvisioned))
    else
      var t := CreateDataVolume(s, spec.allocatedStorage, StorageClass(spec));
      if Halted(t) then t
      else if t.err != NoErr then Fail(t)
      else Advance(To(WithRefs(t, refs.(dataVolume := DataVolumeName(t.w.id))), StorageProvisioned))
  }

  function RecordVM(t: Session): Session {
    var id := t.w.id;
    WithStatus(t, St(t).(
      refs := St(t).refs.(vm := VmName(id), secret := SecretName(id)),
      caCert := if t.w.nonce == 0 then None else Some(t.w.nonce - 1),
      masterUserSecret := Some(SecretName(id)),
      provisioning := VMCreated))
  }

  function PhaseVM(s: Session): Session {
    var size := ClassOf(s.inst.obj.spec.instanceClass);
    if St(s).refs.vm != "" then StatusUpdate(To(s, VMCreated))
    else if size == None then Fail(s)
    else
      var t := CreatePostgresVM(s, size.value);
      if Halted(t) then t
      else if t.err != NoErr then Fail(t)
      else StatusUpdate(RecordVM(t))
  }

  function Poll(s: Session): Session { s.(w := s.w.(polls := s.w.polls + 1)) }

  function PhaseWaitReady(s: Session): Session {
    var t := Take(s);
    if Halted(t) then t
    else
      var r := ReadinessOf(t.now);
      if !r.running || r.ip == "" then StatusUpdate(To(Poll(t), WaitingForCloudInit))
      else if !r.ready then StatusUpdate(Poll(t))
      else
        Advance(WithStatus(t, St(t).(
          endpoint := Some(Endpoint(r.ip, SpecPort(t.inst.obj.spec.port))),
          managementAddress := r.mgmtIp,
          provisioning := DatabaseReady)))
  }

  /** The endpoint is dereferenced without a check: a missing one is a panic. */
  function PhaseMonitoring(s: Session): Session {
    var refs := St(s).refs;
    if refs.monitor != "" then Advance(To(s, MonitoringDeployed))
    else if St(s).endpoint == None then s.(halt := Panicked)
    else
      var t := DeployMonitoring(s);
      if Halted(t) then t
      else
        var u := if t.err == NoErr then WithRefs(t, refs.(monitor := MonitorName(t.w.id))) else t;
        Advance(To(u, MonitoringDeployed))
  }

  function PhaseVpcPeering(s: Session): Session {
    var refs, peering := St(s).refs, s.inst.obj.spec.vpcPeering;
    if refs.peering != "" || peering == None then Advance(To(s, VpcPeeringCreated))
    else
      var t := CreateVpcPeering(s, peering.value);
      if Halted(t) then t
      else
        var u := if t.err == NoErr then WithRefs(t, refs.(peering := PeeringName(t.w.id))) else t;
        Advance(To(u, VpcPeeringCreated))
  }

  function RefreshAddresses(st: Status, spec: Spec, r: Readiness): Status {
    var st1 := if r.ip != "" && (st.endpoint == None || st.endpoint.value.address != r.ip)
               then st.(endpoint := Some(Endpoint(r.ip, SpecPort(spec.port)))) else st;
    if r.mgmtIp != "" && st1.managementAddress != r.mgmtIp
    then st1.(managementAddress := r.mgmtIp) else st1
  }

  function PhaseAvailableStep(s: Session): Session {
    var s1 := WithStatus(s, St(s).(phase := Available, provisioning := PhaseAvailable,
                                       observedGeneration := s.inst.obj.generation));
    var t := Take(s1);
    if Halted(t) then t
    else StatusUpdate(WithStatus(t, RefreshAddresses(St(t), t.inst.obj.spec, ReadinessOf(t.now))))
  }

  // ---- Stop, start, modify, delete ----

  function Mark(s: Session, p: Phase): Session { WithStatus(s, St(s).(phase := p)) }

  function Settle(s: Session, p: Phase): Session {
    StatusUpdate(WithStatus(s, St(s).(phase := p, observedGeneration := s.inst.obj.generation)))
  }

  function ReconcileStop(s: Session): Session {
    var t := StatusUpdate(Mark(s, Stopping));
    if Halted(t) then t else
    var u := SetVMRunning(t, St(t).refs.vm, false);
    if Halted(u) then u
    else if u.err != NoErr then Fail(u)
    else Settle(u, Stopped)
  }

  function ReconcileStart(s: Session): Session {
    var t := StatusUpdate(Mark(s, Starting));
    if Halted(t) then t else
    var u := SetVMRunning(t, St(t).refs.vm, true);
    if Halted(u) then u
    else if u.err != NoErr then Fail(u)
    else Settle(u, Available)
  }

  /** The two resizes run in separate goroutines on separate objects; module Goroutines proves
      that every interleaving equals this order. The VM's error wins. */
  function ReconcileModify(s: Session): Session {
    var t := StatusUpdate(Mark(s, Modifying));
    if Halted(t) then t else
    var size := ClassOf(t.inst.obj.spec.instanceClass);
    if size == None then Fail(t) else
    var u := ResizeVM(t, St(t).refs.vm, size.value);
    if Halted(u) then u else
    var v := ResizeDataVolume(u, St(u).refs.dataVolume, u.inst.obj.spec.allocatedStorage);
    if Halted(v) then v
    else if u.err != NoErr || v.err != NoErr then Fail(v)
    else Settle(v, Available)
  }

  function ReconcileDelete(s: Session): Session {
    if s.inst.obj.spec.deletionProtection then StatusUpdate(s)
    else
      var t := StatusUpdate(Mark(s, Deleting));
      if Halted(t) then t else
      var u := TeardownAll(t);
      if Halted(u) then u else FinalizerUpdate(u, false)
  }

  // ---- Dispatch ----

  function Provision(s: Session): Session {
    match St(s).provisioning
    case Unset => PhaseNetwork(s)
    case Pending => PhaseNetwork(s)
    case NetworkProvisioned => PhaseStorage(s)
    case StorageProvisioned => PhaseVM(s)
    case VMCreated => PhaseWaitReady(s)
    case WaitingForCloudInit => PhaseWaitReady(s)
    case DatabaseReady => PhaseMonitoring(s)
    case MonitoringDeployed => PhaseVpcPeering(s)
    case VpcPeeringCreated => PhaseAvailableStep(s)
    case PhaseAvailable => PhaseAvailableStep(s)
    case PhaseFailed => s
    case Unknown(_) => s.(err := OtherErr)
  }

  function Dispatch(s: Session): Session {
    var o := s.inst.obj;
    if o.deleting then (if o.finalizer then ReconcileDelete(s) else s)
    else if !o.finalizer then FinalizerUpdate(s, true)
    else if o.spec.running == Some(false) && o.status.phase == Available then ReconcileStop(s)
    else if o.spec.running == Some(true) && o.status.phase == Stopped then ReconcileStart(s)
    else if o.status.phase == Available && o.generation != o.status.observedGeneration then ReconcileModify(s)
    else Provision(s)
  }

  function Reconcile(w: World, script: seq<Turn>): Session {
    var s := Read(Begin(w, script));
    if Halted(s) || s.err != NoErr then s else Dispatch(s)
  }

  /** A run: one reconcile per script, each with its own crashes, faults and user actions. */
  function Run(w: World, scripts: seq<seq<Turn>>): World
    decreases |scripts|
  {
    if scripts == [] then w else Run(Reconcile(w, scripts[0]).w, scripts[1..])
  }
}
