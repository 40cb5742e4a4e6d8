/** Which addresses reach the status: what the VMI shows decides whether the database is declared
    ready, and every recorded address is one of the VMI's own. */
module Endpoints {
  import opened Types
  import opened World
  import opened Harvester
  import opened Reconciler
  import opened Invariants
  import opened Safety
  import opened Phases
  import opened Progress

  /** The VMI is running, has been for three minutes, and shows an address. */
  ghost predicate Serving(t: Turn) {
    && t.api == Normal && t.vmi.Some? && t.vmi.value.running && t.vmi.value.upThreeMinutes
    && exists i | 0 <= i < |t.vmi.value.interfaces| :: Addressed(t.vmi.value.interfaces[i])
  }

  /** `ip` is the address the VMI shows last for `vpc-net`, or first of all if it shows none there. */
  ghost predicate TenantFacing(t: Turn, ip: string) {
    && t.api == Normal && t.vmi.Some?
    && if exists i | 0 <= i < |t.vmi.value.interfaces| ::
            Addressed(t.vmi.value.interfaces[i]) && t.vmi.value.interfaces[i].name == "vpc-net"
       then IsLast(t.vmi.value.interfaces, "vpc-net", ip)
       else IsFirst(t.vmi.value.interfaces, ip)
  }

  /** `ip` is the address the VMI shows last for `mgmt-net`. */
  ghost predicate Managing(t: Turn, ip: string) {
    t.api == Normal && t.vmi.Some? && IsLast(t.vmi.value.interfaces, "mgmt-net", ip)
  }

  /** The VMI is running and shows an address. */
  ghost predicate Answers(t: Turn) {
    && t.api == Normal && t.vmi.Some? && t.vmi.value.running
    && exists i | 0 <= i < |t.vmi.value.interfaces| :: Addressed(t.vmi.value.interfaces[i])
  }

  ghost predicate ManagementShown(t: Turn) {
    && t.api == Normal && t.vmi.Some?
    && exists i | 0 <= i < |t.vmi.value.interfaces| ::
         Addressed(t.vmi.value.interfaces[i]) && t.vmi.value.interfaces[i].name == "mgmt-net"
  }

  /** The port the spec asks for, 5432 if it does not. */
  predicate PortFor(spec: Spec, port: int) { if spec.port != 0 then port == spec.port else port == 5432 }

  lemma ReadinessMeans(t: Turn)
    ensures var r := ReadinessOf(t);
            && (r.running && r.ip != "" && r.ready <==> Serving(t)) && (r.running && r.ip != "" <==> Answers(t))
            && (r.ip != "" ==> TenantFacing(t, r.ip))
            && (r.mgmtIp != "" ==> Managing(t, r.mgmtIp)) && (ManagementShown(t) <==> r.mgmtIp != "")
  {
    if t.api == Normal && t.vmi.Some? {
      TenantAddressIs(t.vmi.value.interfaces);
      LastNamedIs(t.vmi.value.interfaces, "mgmt-net");
    }
  }

  /** The wait phase, when its write lands: the database is declared ready exactly when the VMI
      is serving, and then the endpoint faces the tenant and the management address the
      controller; otherwise no address changes, and the phase goes to waiting for cloud-init if the
      VMI does not even answer. */
  lemma WaitDeclaresServing(s: Session)
    requires Fresh(s) && !Halted(s) && St(s).provisioning in {VMCreated, WaitingForCloudInit}
    requires PhaseWaitReady(s).w.lost == s.w.lost
    ensures var t, st := Take(s).now, PhaseWaitReady(s).w.cur.status;
            && (st.provisioning == DatabaseReady <==> Serving(t))
            && (Serving(t) ==>
                  && st.endpoint.Some? && TenantFacing(t, st.endpoint.value.address)
                  && PortFor(s.inst.obj.spec, st.endpoint.value.port)
                  && (if ManagementShown(t) then Managing(t, st.managementAddress) else st.managementAddress == ""))
            && (!Serving(t) ==>
                  st.provisioning == if Answers(t) then St(s).provisioning else WaitingForCloudInit)
            && (!Serving(t) ==> st.endpoint == St(s).endpoint && st.managementAddress == St(s).managementAddress)
  {
    hide WorldOk, Grows, Legal, Anchored, Evolves, StatusUpdate, Take, Version, ReadinessOf, Serving, TenantFacing, Managing, ManagementShown, Answers;
    TakeOk(s);
    TakeCounts(s);
    var t := Take(s);
    ReadinessMeans(t.now);
    var r := ReadinessOf(t.now);
    assert Beside(t, Poll(t));
    Effect(s, t, Poll(t));
    UnwrittenOk(Poll(t), St(t).(provisioning := WaitingForCloudInit));
    StatusUpdatePays(To(Poll(t), WaitingForCloudInit));
    StatusUpdatePays(Poll(t));
    var st := St(t).(endpoint := Some(Endpoint(r.ip, SpecPort(t.inst.obj.spec.port))),
                     managementAddress := r.mgmtIp, provisioning := DatabaseReady);
    UnwrittenOk(t, st);
    StatusUpdatePays(WithStatus(t, st));
  }

  /** Every later requeue, when its write lands: the tenant and the management address the
      VMI shows are taken over, ready or not, and one it does not show is never erased. */
  lemma AvailableFollowsVmi(s: Session)
    requires Fresh(s) && !Halted(s) && PhaseAvailableStep(s).w.lost == s.w.lost
    ensures var t, st := Take(s).now, PhaseAvailableStep(s).w.cur.status;
            && (st.endpoint == St(s).endpoint ||
                  (st.endpoint.Some? && TenantFacing(t, st.endpoint.value.address)
                   && PortFor(s.inst.obj.spec, st.endpoint.value.port)))
            && (ReadinessOf(t).ip != "" ==>
                  st.endpoint.Some? && st.endpoint.value.address == ReadinessOf(t).ip && TenantFacing(t, ReadinessOf(t).ip))
            && (ReadinessOf(t).mgmtIp != "" ==> st.managementAddress == ReadinessOf(t).mgmtIp)
            && (st.managementAddress == St(s).managementAddress || Managing(t, st.managementAddress))
  {
    hide WorldOk, Grows, Legal, Anchored, Evolves, StatusUpdate, Version, ReadinessOf, Serving, TenantFacing, Managing, ManagementShown;
    var st := St(s).(phase := Available, provisioning := PhaseAvailable, observedGeneration := s.inst.obj.generation);
    var s1 := WithStatus(s, st);
    UnwrittenOk(s, st);
    TakeOk(s1);
    TakeCounts(s1);
    var t := Take(s1);
    ReadinessMeans(t.now);
    var r := ReadinessOf(t.now);
    var renewed := RefreshAddresses(St(t), t.inst.obj.spec, r);
    UnwrittenOk(t, renewed);
    StatusUpdatePays(WithStatus(t, renewed));
  }
}
