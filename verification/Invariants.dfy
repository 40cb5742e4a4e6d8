/** What every stored version satisfies, how consecutive versions relate, and what a session
    in the middle of a reconcile knows. */
module Invariants {
  import opened Types
  import opened Names
  import opened World

  /** Position along the provisioning path; failure is past the end. */
  function Rank(p: Provisioning): nat {
    match p
    case Unset => 0
    case Pending => 0
    case NetworkProvisioned => 1
    case StorageProvisioned => 2
    case VMCreated => 3
    case WaitingForCloudInit => 4
    case DatabaseReady => 5
    case MonitoringDeployed => 6
    case VpcPeeringCreated => 7
    case PhaseAvailable => 8
    case PhaseFailed => 9
    case Unknown(_) => 10
  }

  // ---- One version ----

  /** The two phase fields move together. */
  predicate Coupled(o: Object) {
    var p, phase := o.status.provisioning, o.status.phase;
    && !p.Pending? && !p.Unknown?
    && (phase == Deleting ==> o.deleting)
    && (phase != Deleting ==>
          && (p == Unset <==> phase == NoPhase)
          && (1 <= Rank(p) <= 7 <==> phase == Creating)
          && (p == PhaseAvailable <==> phase in {Available, Stopping, Stopped, Starting, Modifying})
          && (p == PhaseFailed <==> phase == Failed))
  }

  /** Which refs are recorded is determined by the provisioning phase; a failed instance has
      recorded a prefix of the path. */
  predicate Ledger(st: Status) {
    var r, rank := st.refs, Rank(st.provisioning);
    && (st.provisioning != PhaseFailed ==>
          && (r.nad != "" <==> rank >= 1)
          && (r.dataVolume != "" <==> rank >= 2)
          && (r.vm != "" <==> rank >= 3)
          && (st.endpoint.Some? <==> rank >= 5)
          && (r.monitor != "" ==> rank >= 6)
          && (r.peering != "" ==> rank >= 7))
    && (r.monitor != "" ==> st.endpoint.Some?)
    && (st.endpoint.Some? ==> st.endpoint.value.address != "" && r.vm != "")
    && (r.vm != "" ==> r.dataVolume != "")
    && (r.dataVolume != "" ==> r.nad != "")
    && (r.vm != "" <==> r.secret != "")
    && (r.vm != "" <==> st.caCert.Some?)
    && st.masterUserSecret == (if r.secret != "" then Some(r.secret) else None)
  }

  /** Every recorded ref is the deterministic name of a child of this instance, except the NAD
      of an instance attached to an existing network, which records no VPC. */
  predicate Canonical(id: string, r: Refs) {
    && (if r.vpc == "" then r.subnet == "" else r.vpc == VpcName(id) && r.subnet == SubnetName(id) && r.nad == NadName(id))
    && (r.dataVolume == "" || r.dataVolume == DataVolumeName(id))
    && (r.vm == "" || r.vm == VmName(id))
    && (r.secret == "" || r.secret == SecretName(id))
    && (r.monitor == "" || r.monitor == MonitorName(id))
    && (r.peering == "" || r.peering == PeeringName(id))
  }

  predicate ObjectOk(id: string, o: Object) {
    && Coupled(o) && Ledger(o.status) && Canonical(id, o.status.refs)
    && o.status.observedGeneration <= o.generation
    && (!o.finalizer && !o.deleting ==> o.status == NewStatus)
  }

  // ---- Two consecutive versions ----

  predicate Kept(a: string, b: string) { a == "" || b == a }

  predicate WriteOnce(a: Refs, b: Refs) {
    && Kept(a.nad, b.nad)
    && (a.nad != "" ==> a.vpc == b.vpc && a.subnet == b.subnet)
    && Kept(a.dataVolume, b.dataVolume) && Kept(a.vm, b.vm) && Kept(a.secret, b.secret)
    && Kept(a.monitor, b.monitor) && Kept(a.peering, b.peering)
  }

  /** The next phase on the path. Waiting for cloud-init may be skipped. */
  predicate Follows(p: Provisioning, q: Provisioning) {
    match p
    case Unset => q == NetworkProvisioned
    case NetworkProvisioned => q == StorageProvisioned
    case StorageProvisioned => q == VMCreated
    case VMCreated => q == WaitingForCloudInit || q == DatabaseReady
    case WaitingForCloudInit => q == DatabaseReady
    case DatabaseReady => q == MonitoringDeployed
    case MonitoringDeployed => q == VpcPeeringCreated
    case VpcPeeringCreated => q == PhaseAvailable
    case _ => false
  }

  /** `faults`: the cluster calls that have failed so far. */
  predicate Evolves(id: string, faults: Faults, a: Object, b: Object) {
    var p, q := a.status, b.status;
    && (a.deleting ==> b.deleting && q.refs == p.refs)
    && a.generation <= b.generation
    && (a.spec != b.spec ==> a.generation < b.generation && p == q && a.finalizer == b.finalizer)
    && (a.deleting != b.deleting ==> a.finalizer && p == q)
    && (!a.finalizer && b.finalizer ==> !b.deleting && p == q)
    && (a.finalizer && !b.finalizer ==> a.deleting && !b.spec.deletionProtection && p == q)
    && WriteOnce(p.refs, q.refs)
    && (p.provisioning == q.provisioning || Follows(p.provisioning, q.provisioning)
        || (p.provisioning != PhaseFailed && q.provisioning == PhaseFailed))
    && (Rank(p.provisioning) >= 6 ==> q.refs.monitor == p.refs.monitor)
    && (Rank(p.provisioning) >= 7 ==> q.refs.peering == p.refs.peering)
    && (p.phase == Failed ==> q.phase in {Failed, Deleting})
    && (p.phase == Deleting ==> q.phase == Deleting)
    && (p.endpoint.Some? ==> q.endpoint.Some?)
    && (p.caCert.Some? ==> q.caCert == p.caCert)
    && (q.observedGeneration != p.observedGeneration ==> q.observedGeneration == b.generation)
    && (p.refs.nad == "" && q.refs.nad != "" ==>
          (q.refs.vpc, q.refs.subnet, q.refs.nad) == ExpectedNetwork(id, a.spec))
    && (p.refs.vm == "" && q.refs.vm != "" ==> ClassOf(a.spec.instanceClass).Some?)
    && (faults.fatal == 0 && Rank(p.provisioning) < 8 && q.provisioning == PhaseFailed ==>
          ClassOf(a.spec.instanceClass) == None)
    && (faults.peering == 0 && p.provisioning != q.provisioning && q.provisioning == VpcPeeringCreated ==>
          (q.refs.peering != "" <==> a.spec.vpcPeering.Some?))
  }

  // ---- The whole world ----

  /** A recorded CA came from a generation call that has happened. */
  predicate Issued(nonce: nat, st: Status) { st.caCert.Some? ==> st.caCert.value < nonce }

  ghost predicate VersionOk(w: World, i: nat) {
    ObjectOk(w.id, Version(w, i)) && Issued(w.nonce, Version(w, i).status)
  }

  ghost predicate StepOk(w: World, i: nat) {
    Evolves(w.id, w.faults, Version(w, i), Version(w, i + 1))
  }

  ghost predicate HistoryOk(w: World) {
    && w.cached <= |w.past|
    && (forall i: nat | i <= |w.past| :: VersionOk(w, i))
    && (forall i: nat | i < |w.past| :: StepOk(w, i))
  }

  ghost predicate HasCreated(log: seq<Event>) { exists e | e in log :: e.Created? }

  /** The object left the store through the finalizer: torn down, and not protected. */
  ghost predicate Removed(w: World) {
    TornDown in w.log && !w.cur.finalizer && w.cur.deleting && !w.cur.spec.deletionProtection
  }

  /** Once any version carried the finalizer, the stored object keeps it until a teardown has
      run; deleting versions stay deleting; the cache has seen the deletion before a teardown;
      no child is created after one; children have only the instance's own keys.
      Removing the finalizer is the last write. */
  ghost predicate DeletionOk(w: World) {
    && (forall i: nat | i <= |w.past| && Version(w, i).finalizer ::
          if w.live then w.cur.finalizer else Removed(w))
    && (forall i: nat, j: nat | i <= j <= |w.past| && Version(w, i).deleting :: Version(w, j).deleting)
    && (forall i: nat, j: nat | i <= j <= |w.past| && Version(w, i).finalizer && !Version(w, j).finalizer ::
          j == |w.past| && !w.live)
    && (TornDown in w.log ==> Version(w, w.cached).deleting)
    && (HasCreated(w.log) ==> if w.live then w.cur.finalizer else Removed(w))
    && (forall i, j | 0 <= i < j < |w.log| && w.log[i] == TornDown :: w.log[j] == TornDown)
    && (forall k | Created(k) in w.log :: k in ChildKeys(w.id, w.ns))
  }

  ghost predicate WorldOk(w: World) { HistoryOk(w) && DeletionOk(w) }

  // ---- A session ----

  /** The in-memory instance is the version it was read at, apart from pending status edits. */
  ghost predicate Anchored(w: World, inst: Instance) {
    && w.cached <= inst.rv <= |w.past|
    && Version(w, inst.rv) == inst.obj.(status := Version(w, inst.rv).status)
  }

  ghost predicate SessionOk(s: Session) { WorldOk(s.w) && Anchored(s.w, s.inst) && s.halt != Panicked }

  /** Writing the pending status over the version it came from is a legal step. */
  ghost predicate Legal(w: World, inst: Instance) {
    && ObjectOk(w.id, inst.obj) && Issued(w.nonce, inst.obj.status)
    && Evolves(w.id, w.faults, Version(w, inst.rv), inst.obj)
  }
}
