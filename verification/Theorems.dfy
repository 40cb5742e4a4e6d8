/** The main results about whole runs: any initial cluster, any number of reconciles, any
    crashes, lost or unacknowledged writes, stale reads, API faults, spec patches and deletes. */
module Theorems {
  import opened Types
  import opened Names
  import opened World
  import opened Reconciler
  import opened Invariants
  import opened Phases

  /** `w` is reachable from a newly created instance. */
  ghost predicate Reachable(w: World) {
    exists spec, cluster, scripts :: Run(Init(w.id, w.ns, spec, cluster), scripts) == w
  }

  lemma ReachableOk(w: World)
    requires Reachable(w)
    ensures WorldOk(w) && Version(w, 0).status == NewStatus && !Version(w, 0).finalizer
  {
    var spec, cluster, scripts :| Run(Init(w.id, w.ns, spec, cluster), scripts) == w;
    hide WorldOk, Run;
    InitOk(w.id, w.ns, spec, cluster);
    RunOk(Init(w.id, w.ns, spec, cluster), scripts);
    assert Version(Init(w.id, w.ns, spec, cluster), 0).status == NewStatus;
  }

  lemma InitReachable(id: string, ns: string, spec: Spec, cluster: map<Key, Child>)
    ensures Reachable(Init(id, ns, spec, cluster))
  {
    assert Run(Init(id, ns, spec, cluster), []) == Init(id, ns, spec, cluster);
  }

  /** One more reconcile leaves a reachable world reachable. */
  lemma ReachableNext(w: World, script: seq<Turn>)
    requires Reachable(w)
    ensures Reachable(Reconcile(w, script).w)
  {
    hide Reconcile;
    var spec, cluster, scripts :| Run(Init(w.id, w.ns, spec, cluster), scripts) == w;
    ReachableOk(w);
    ReconcileKeepsName(w, script);
    RunSnoc(Init(w.id, w.ns, spec, cluster), scripts, script);
  }

  lemma ReconcileKeepsName(w: World, script: seq<Turn>)
    requires WorldOk(w)
    ensures Reconcile(w, script).w.id == w.id && Reconcile(w, script).w.ns == w.ns
  {
    hide WorldOk, Reconcile;
    ReconcileOk(w, script);
  }

  lemma {:induction false} RunSnoc(w: World, scripts: seq<seq<Turn>>, script: seq<Turn>)
    ensures Run(w, scripts + [script]) == Reconcile(Run(w, scripts), script).w
    decreases |scripts|
  {
    hide Reconcile;
    if scripts == [] {
      assert Run(w, [script]) == Run(Reconcile(w, script).w, [script][1..]);
    } else {
      assert (scripts + [script])[1..] == scripts[1..] + [script];
      RunSnoc(Reconcile(w, scripts[0]).w, scripts[1..], script);
    }
  }

  // ---- Every stored version ----

  /** The user-facing phase and the provisioning phase agree in every stored version, and the
      reconciler never stores `Pending` or a phase it does not know. */
  lemma PhasesCoupled(w: World, i: nat)
    requires Reachable(w) && i <= |w.past| && Version(w, i).status.phase != Deleting
    ensures var p, phase := Version(w, i).status.provisioning, Version(w, i).status.phase;
            && !p.Pending? && !p.Unknown?
            && (p == Unset <==> phase == NoPhase)
            && (1 <= Rank(p) <= 7 <==> phase == Creating)
            && (p == PhaseAvailable <==> phase in {Available, Stopping, Stopped, Starting, Modifying})
            && (p == PhaseFailed <==> phase == Failed)
  {
    ReachableOk(w);
    assert VersionOk(w, i);
  }

  /** The refs are those of the phases reached: the ledger has no gap and runs ahead of the phase
      only for a failed instance, where it still is a prefix. Network refs come as one of two
      triples; monitoring and peering, which may be skipped, never precede their phase. Every
      ref but the NAD of an existing network is the instance's own deterministic name. */
  lemma LedgerIsPrefix(w: World, i: nat)
    requires Reachable(w) && i <= |w.past|
    ensures var st := Version(w, i).status; var r, rank := st.refs, Rank(st.provisioning);
            && (st.provisioning != PhaseFailed ==>
                  && (r.nad != "" <==> rank >= 1) && (r.dataVolume != "" <==> rank >= 2)
                  && (r.vm != "" <==> rank >= 3) && (st.endpoint.Some? <==> rank >= 5)
                  && (r.monitor != "" ==> rank >= 6) && (r.peering != "" ==> rank >= 7))
            && (if r.vpc == "" then r.subnet == ""
                else (r.vpc, r.subnet, r.nad) == (VpcName(w.id), SubnetName(w.id), NadName(w.id)))
            && r.dataVolume in {"", DataVolumeName(w.id)} && r.vm in {"", VmName(w.id)}
            && r.secret in {"", SecretName(w.id)} && r.monitor in {"", MonitorName(w.id)}
            && r.peering in {"", PeeringName(w.id)}
            && (r.monitor != "" ==> st.endpoint.Some?)
            && (st.endpoint.Some? ==> st.endpoint.value.address != "" && r.vm != "")
            && (r.vm != "" ==> r.dataVolume != "") && (r.dataVolume != "" ==> r.nad != "")
            && (r.vm != "" <==> r.secret != "")
            && st.masterUserSecret == (if r.secret != "" then Some(r.secret) else None)
  {
    ReachableOk(w);
    assert VersionOk(w, i);
  }

  // ---- Any two stored versions ----

  predicate Later(a: Object, b: Object) {
    && WriteOnce(a.status.refs, b.status.refs)
    && Rank(a.status.provisioning) <= Rank(b.status.provisioning)
    && (a.status.provisioning == PhaseFailed ==> b.status.provisioning == PhaseFailed)
    && (a.status.phase == Failed ==> b.status.phase in {Failed, Deleting})
    && (a.status.endpoint.Some? ==> b.status.endpoint.Some?)
    && (a.status.caCert.Some? ==> b.status.caCert == a.status.caCert)
    && (a.deleting ==> b.deleting)
  }

  lemma LaterStep(id: string, faults: Faults, a: Object, b: Object, c: Object)
    requires Later(a, b) && Evolves(id, faults, b, c) && ObjectOk(id, b) && ObjectOk(id, c)
    ensures Later(a, c)
  {
    hide ClassOf, ExpectedNetwork, Ledger;
  }

  /** From any version to any later one: the phase moves forward or fails for good, and every
      ref, the endpoint and the CA are written once. Stale sessions cannot undo it. */
  lemma NeverBack(w: World, i: nat, j: nat)
    requires Reachable(w) && i <= j <= |w.past|
    ensures Later(Version(w, i), Version(w, j))
  {
    ReachableOk(w);
    LaterVersions(w, i, j);
  }

  lemma {:induction false} LaterVersions(w: World, i: nat, j: nat)
    requires WorldOk(w) && i <= j <= |w.past|
    ensures Later(Version(w, i), Version(w, j))
    decreases j
  {
    if i < j {
      hide WorldOk, Evolves, ObjectOk, Later;
      LaterVersions(w, i, j - 1);
      HistoryAt(w, j);
      LaterStep(w.id, w.faults, Version(w, i), Version(w, j - 1), Version(w, j));
    }
  }

  lemma HistoryAt(w: World, j: nat)
    requires WorldOk(w) && 0 < j <= |w.past|
    ensures ObjectOk(w.id, Version(w, j - 1)) && ObjectOk(w.id, Version(w, j))
    ensures Evolves(w.id, w.faults, Version(w, j - 1), Version(w, j))
  {
    hide Evolves, ObjectOk;
    assert VersionOk(w, j - 1) && VersionOk(w, j) && StepOk(w, j - 1);
  }

  /** One write, one phase: consecutive versions are equal in phase, adjacent, or a failure. */
  lemma OnePhasePerWrite(w: World, i: nat)
    requires Reachable(w) && i < |w.past|
    ensures var p, q := Version(w, i).status.provisioning, Version(w, i + 1).status.provisioning;
            p == q || Follows(p, q) || (p != PhaseFailed && q == PhaseFailed)
  {
    ReachableOk(w);
    assert StepOk(w, i);
  }

  // ---- Panics ----

  /** `phaseMonitoring` dereferences the endpoint unguarded; no reachable state lets it be nil. */
  lemma NeverPanics(w: World, script: seq<Turn>)
    requires Reachable(w)
    ensures Reconcile(w, script).halt != Panicked
  {
    ReachableOk(w);
    ReconcileOk(w, script);
  }

  // ---- Deletion ----

  /** No orphan window: once a child has been created, the stored object carries the finalizer
      until it has been torn down and was unprotected when it left. */
  lemma NoOrphanWindow(w: World)
    requires Reachable(w) && HasCreated(w.log)
    ensures if w.live then w.cur.finalizer
            else TornDown in w.log && w.cur.deleting && !w.cur.finalizer && !w.cur.spec.deletionProtection
  {
    ReachableOk(w);
  }

  /** No resurrection: after the first teardown nothing is created, however stale the reads. */
  lemma NoResurrection(w: World, i: nat, j: nat)
    requires Reachable(w) && i < j < |w.log| && w.log[i] == TornDown
    ensures !w.log[j].Created?
  {
    ReachableOk(w);
  }

  /** Only the instance's own nine keys are ever created. */
  lemma CreatesOnlyOwnChildren(w: World, k: Key)
    requires Reachable(w) && Created(k) in w.log
    ensures k in ChildKeys(w.id, w.ns)
  {
    ReachableOk(w);
  }

  /** The finalizer is removed only by a write onto a deleting version whose spec is
      unprotected, whatever users patch meanwhile. */
  lemma FinalizerRemovalUnprotected(w: World, i: nat)
    requires Reachable(w) && i < |w.past| && Version(w, i).finalizer && !Version(w, i + 1).finalizer
    ensures Version(w, i).deleting && !Version(w, i).spec.deletionProtection
    ensures Version(w, i + 1).spec == Version(w, i).spec && Version(w, i + 1).status == Version(w, i).status
    ensures i + 1 == |w.past| && !w.live
  {
    ReachableOk(w);
    assert StepOk(w, i);
  }

  // ---- Crash recovery refines the fault-free run ----

  /** The refs a run without any fault records, monitoring aside. */
  function ExpectedRefs(id: string, spec: Spec, monitor: string): Refs {
    var (vpc, subnet, nad) := ExpectedNetwork(id, spec);
    Refs(vpc, subnet, nad, DataVolumeName(id), VmName(id), SecretName(id), monitor,
         if spec.vpcPeering.Some? then PeeringName(id) else "")
  }

  /** However many crashes, stale reads, lost writes and API errors a run had, if the spec was
      left alone then an instance that is available has exactly these refs; the peering ref is
      missing only if a peering call failed. The class is then a valid one. */
  lemma CrashRecovery(w: World)
    requires Reachable(w) && w.cur.status.provisioning == PhaseAvailable
    requires forall i: nat | i <= |w.past| :: Version(w, i).spec == w.cur.spec
    ensures var refs, expected := w.cur.status.refs, ExpectedRefs(w.id, w.cur.spec, w.cur.status.refs.monitor);
            && refs == expected.(peering := refs.peering)
            && (w.faults.peering == 0 ==> refs == expected)
            && refs.peering in {"", PeeringName(w.id)} && refs.monitor in {"", MonitorName(w.id)}
    ensures ClassOf(w.cur.spec.instanceClass).Some?
  {
    hide Reachable, WorldOk, ClassOf, ExpectedNetwork;
    ReachableOk(w);
    LedgerIsPrefix(w, |w.past|);
    assert Version(w, |w.past|) == w.cur;
    ChoicesFollowSpec(w, w.cur.spec, |w.past|);
  }

  /** Refinement: a run with faults that gets the instance available records what a run without
      any fault records, except for the ServiceMonitor. */
  lemma RunsAgree(w: World, calm: World)
    requires Reachable(w) && w.cur.status.provisioning == PhaseAvailable && w.faults.peering == 0
    requires forall i: nat | i <= |w.past| :: Version(w, i).spec == w.cur.spec
    requires Reachable(calm) && calm.cur.status.provisioning == PhaseAvailable && calm.faults == Faults(0, 0, 0) && calm.lost == 0
    requires forall i: nat | i <= |calm.past| :: Version(calm, i).spec == calm.cur.spec
    requires w.id == calm.id && w.cur.spec == calm.cur.spec
    ensures w.cur.status.refs == calm.cur.status.refs.(monitor := w.cur.status.refs.monitor)
    ensures w.cur.status.masterUserSecret == calm.cur.status.masterUserSecret
  {
    CrashRecovery(w);
    CrashRecovery(calm);
    LedgerIsPrefix(w, |w.past|);
    LedgerIsPrefix(calm, |calm.past|);
  }

  /** What a version may have recorded for a spec that never changed. */
  predicate Chosen(id: string, faults: Faults, spec: Spec, st: Status) {
    && (st.refs.nad != "" ==> (st.refs.vpc, st.refs.subnet, st.refs.nad) == ExpectedNetwork(id, spec))
    && (st.refs.vm != "" ==> ClassOf(spec.instanceClass).Some?)
    && (faults.peering == 0 && 7 <= Rank(st.provisioning) <= 8 ==> (st.refs.peering != "" <==> spec.vpcPeering.Some?))
  }

  lemma ChosenStep(id: string, faults: Faults, a: Object, b: Object)
    requires Chosen(id, faults, a.spec, a.status) && Evolves(id, faults, a, b) && ObjectOk(id, a) && ObjectOk(id, b)
    ensures Chosen(id, faults, a.spec, b.status)
  {
    hide ClassOf, ExpectedNetwork;
  }

  lemma {:induction false} ChoicesFollowSpec(w: World, spec: Spec, i: nat)
    requires WorldOk(w) && i <= |w.past| && Version(w, 0).status == NewStatus
    requires forall j: nat | j <= |w.past| :: Version(w, j).spec == spec
    ensures Chosen(w.id, w.faults, spec, Version(w, i).status)
  {
    if i > 0 {
      hide WorldOk, Evolves, ObjectOk, Chosen;
      ChoicesFollowSpec(w, spec, i - 1);
      HistoryAt(w, i);
      assert Version(w, i - 1).spec == spec;
      ChosenStep(w.id, w.faults, Version(w, i - 1), Version(w, i));
    }
  }
}
