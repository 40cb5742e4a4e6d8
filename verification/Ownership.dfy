/** Whose objects the controller touches: over a whole run, only the nine keys of its own
    instance, and two instances share a key exactly when they share a name. */
module Ownership {
  import opened Types
  import opened Names
  import opened World
  import opened Harvester
  import opened Reconciler
  import opened Invariants
  import opened Phases
  import opened Theorems
  import opened Frames

  // ---- Keys ----

  lemma Sandwich(prefix: string, a: string, b: string, suffix: string)
    requires prefix + a + suffix == prefix + b + suffix
    ensures a == b
  {
    var x, y := prefix + a + suffix, prefix + b + suffix;
    assert |a| == |x| - |prefix| - |suffix| == |b|;
    assert a == x[|prefix|..|prefix| + |a|] == y[|prefix|..|prefix| + |b|] == b;
  }

  lemma SharedKeySameName(a: string, b: string, k: Key, m: string, n: string)
    requires k in ChildKeys(a, m) && k in ChildKeys(b, n)
    ensures a == b
  {
    match k.kind
    case Vpc => Sandwich("dbaas-", a, b, "-vpc");
    case Subnet => Sandwich("dbaas-", a, b, "-subnet");
    case Nad => Sandwich("dbaas-", a, b, "-nad");
    case VpcPeering => Sandwich("dbaas-", a, b, "-peering");
    case DataVolume => Sandwich("pg-", a, b, "-data");
    case Vm => assert "pg-" + a + "" == "pg-" + b + ""; Sandwich("pg-", a, b, "");
    case Secret => Sandwich("pg-", a, b, "-credentials");
    case ServiceMonitor => Sandwich("pg-", a, b, "-monitor");
    case Service => Sandwich("pg-", a, b, "-metrics");
  }

  /** Instances interfere exactly when they have the same name: VPC, subnet and peering are
      cluster-scoped and their names ignore the namespace. */
  lemma DisjointIffNamesDiffer(a: string, b: string, m: string, n: string)
    ensures ChildKeys(a, m) !! ChildKeys(b, n) <==> a != b
  {
    if a == b {
      assert VpcKey(a) in ChildKeys(a, m) && VpcKey(a) in ChildKeys(b, n);
    } else {
      forall k | k in ChildKeys(a, m) ensures k !in ChildKeys(b, n) {
        if k in ChildKeys(b, n) { SharedKeySameName(a, b, k, m, n); }
      }
    }
  }

  /** The nine children spelled out: kind, namespace and name. */
  lemma ChildrenNamed(id: string, ns: string)
    ensures ChildKeys(id, ns) == {
              Key(Vpc, "", "dbaas-" + id + "-vpc"), Key(Subnet, "", "dbaas-" + id + "-subnet"),
              Key(VpcPeering, "", "dbaas-" + id + "-peering"), Key(Nad, ns, "dbaas-" + id + "-nad"),
              Key(DataVolume, ns, "pg-" + id + "-data"), Key(Vm, ns, "pg-" + id),
              Key(Secret, ns, "pg-" + id + "-credentials"), Key(ServiceMonitor, ns, "pg-" + id + "-monitor"),
              Key(Service, ns, "pg-" + id + "-metrics")}
  {
  }

  // ---- Teardown ----

  lemma CanonicalTasks(id: string, ns: string, refs: Refs)
    requires Canonical(id, refs)
    ensures TeardownKeys(ns, refs) <= ChildKeys(id, ns)
    ensures refs.vpc == "" ==> forall n :: Key(Nad, ns, n) !in TeardownKeys(ns, refs)
  {
  }

  /** The deletes of a teardown stay within the instance's own children, and an instance that
      was attached to an existing network never deletes a NAD. A namesake in another namespace is
      spared exactly when neither a VPC nor a peering was recorded. */
  lemma TeardownFramed(w: World, i: nat)
    requires Reachable(w) && i <= |w.past|
    ensures var keys := TeardownKeys(w.ns, Version(w, i).status.refs);
            && keys <= ChildKeys(w.id, w.ns)
            && (Version(w, i).status.refs.vpc == "" ==> forall n :: Key(Nad, w.ns, n) !in keys)
            && (forall id, ns | id != w.id :: keys !! ChildKeys(id, ns))
            && (forall ns | ns != w.ns ::
                  (keys !! ChildKeys(w.id, ns) <==>
                     Version(w, i).status.refs.vpc == "" && Version(w, i).status.refs.peering == ""))
  {
    ReachableOk(w);
    assert VersionOk(w, i);
    hide TeardownKeys, ChildKeys, WorldOk, Canonical;
    var keys := TeardownKeys(w.ns, Version(w, i).status.refs);
    CanonicalTasks(w.id, w.ns, Version(w, i).status.refs);
    forall id, ns | id != w.id ensures keys !! ChildKeys(id, ns) {
      DisjointIffNamesDiffer(w.id, id, w.ns, ns);
    }
    forall ns | ns != w.ns
      ensures keys !! ChildKeys(w.id, ns) <==>
                Version(w, i).status.refs.vpc == "" && Version(w, i).status.refs.peering == ""
    {
      NamesakeTasks(w.id, w.ns, ns, Version(w, i).status.refs);
    }
  }

  /** The tasks meet a namesake in another namespace through the cluster-scoped kinds. */
  lemma NamesakeTasks(id: string, ns: string, other: string, refs: Refs)
    requires Canonical(id, refs) && ns != other
    ensures TeardownKeys(ns, refs) !! ChildKeys(id, other) <==> refs.vpc == "" && refs.peering == ""
  {
    if refs.vpc != "" { assert VpcKey(id) in TeardownKeys(ns, refs) && VpcKey(id) in ChildKeys(id, other); }
    if refs.peering != "" { assert PeeringKey(id) in TeardownKeys(ns, refs) && PeeringKey(id) in ChildKeys(id, other); }
  }

  // ---- Whole runs ----

  /** Same object, or absent from both. */
  predicate SameAt(w: World, v: World, k: Key) {
    if k in w.cluster then k in v.cluster && v.cluster[k] == w.cluster[k] else k !in v.cluster
  }

  ghost predicate Framed(w: World, v: World) {
    && v.id == w.id && v.ns == w.ns
    && (forall k | k !in ChildKeys(w.id, w.ns) :: SameAt(w, v, k))
  }

  lemma PhaseKeysOwn(id: string, ns: string, p: Provisioning)
    ensures PhaseKeys(id, ns, p) <= ChildKeys(id, ns) && VpcKey(id) in ChildKeys(id, ns)
    ensures VmKey(id, ns) in ChildKeys(id, ns) && DataVolumeKey(id, ns) in ChildKeys(id, ns)
  {
  }

  lemma ModifyFramed(s: Session)
    requires Fresh(s) && At(s.w.id, s.inst.obj, PhaseAvailable)
    ensures Framed(s.w, ReconcileModify(s).w)
  {
    hide Fresh, StatusUpdate, ResizeVM, ResizeDataVolume, ClassOf, ChildKeys;
    PhaseKeysOwn(s.w.id, s.w.ns, Unset);
    StatusUpdateFrame(Mark(s, Modifying));
    StatusKept(Mark(s, Modifying));
    var t := StatusUpdate(Mark(s, Modifying));
    var size := ClassOf(t.inst.obj.spec.instanceClass);
    StatusUpdateFrame(WithStatus(t, St(t).(phase := Failed, provisioning := PhaseFailed)));
    if !Halted(t) && size.Some? {
      ResizeVMFrame(t, St(t).refs.vm, size.value);
      var u := ResizeVM(t, St(t).refs.vm, size.value);
      ResizeDataVolumeFrame(u, St(u).refs.dataVolume, u.inst.obj.spec.allocatedStorage);
      var v := ResizeDataVolume(u, St(u).refs.dataVolume, u.inst.obj.spec.allocatedStorage);
      StatusUpdateFrame(WithStatus(v, St(v).(phase := Failed, provisioning := PhaseFailed)));
      StatusUpdateFrame(WithStatus(v, St(v).(phase := Available, observedGeneration := v.inst.obj.generation)));
    }
  }

  lemma PowerFramed(s: Session, during: Phase, running: bool)
    requires At(s.w.id, s.inst.obj, PhaseAvailable)
    ensures var t := StatusUpdate(Mark(s, during)); var u := SetVMRunning(t, St(t).refs.vm, running);
            Framed(s.w, t.w) && Framed(s.w, u.w) && Framed(s.w, Fail(u).w)
            && Framed(s.w, Settle(u, Stopped).w) && Framed(s.w, Settle(u, Available).w)
  {
    hide StatusUpdate, SetVMRunning, ChildKeys;
    PhaseKeysOwn(s.w.id, s.w.ns, Unset);
    StatusKept(Mark(s, during));
    PowerFrame(s, during, running);
  }

  lemma DispatchFramed(s: Session)
    requires Fresh(s)
    ensures Framed(s.w, Dispatch(s).w)
  {
    FreshOk(s);
    hide Fresh, Legal, Provision, ReconcileModify, ReconcileDelete, FinalizerUpdate, StatusUpdate, SetVMRunning,
         TeardownKeys, ChildKeys, PhaseKeys, Resized, Ledger, Canonical, Adds;
    var o := s.inst.obj;
    if o.deleting {
      if o.finalizer {
        DeleteFrame(s);
        CanonicalTasks(s.w.id, s.w.ns, St(s).refs);
      }
    } else if !o.finalizer {
      FinalizerUpdateFrame(s, true);
    } else if o.spec.running == Some(false) && o.status.phase == Available {
      PowerFramed(s, Stopping, false);
    } else if o.spec.running == Some(true) && o.status.phase == Stopped {
      PowerFramed(s, Starting, true);
    } else if o.status.phase == Available && o.generation != o.status.observedGeneration {
      ModifyFramed(s);
    } else {
      ProvisionAdds(s);
      PhaseKeysOwn(s.w.id, s.w.ns, St(s).provisioning);
      AddsFramed(s.w, Dispatch(s).w, PhaseKeys(s.w.id, s.w.ns, St(s).provisioning));
    }
  }

  lemma AddsFramed(w: World, v: World, keys: set<Key>)
    requires Adds(w, v, keys) && keys <= ChildKeys(w.id, w.ns)
    ensures Framed(w, v)
  {
    assert VpcKey(w.id) in ChildKeys(w.id, w.ns);
    hide ChildKeys, VpcKey;
  }

  /** Whatever happens in a run, every object on the cluster that is not one of the instance's
      nine children, the operator's NADs and other instances' children included, is untouched. */
  lemma {:induction false} RunFramed(w: World, scripts: seq<seq<Turn>>)
    requires WorldOk(w)
    ensures Framed(w, Run(w, scripts))
    decreases |scripts|
  {
    if scripts != [] {
      ReconcileOk(w, scripts[0]);
      ReadOk(Begin(w, scripts[0]));
      ReadFrame(w, scripts[0]);
      var s := Read(Begin(w, scripts[0]));
      hide WorldOk, Dispatch, Read, ChildKeys;
      if !Halted(s) && s.err == NoErr { DispatchFramed(s); }
      var v := Reconcile(w, scripts[0]).w;
      assert Framed(w, v);
      RunFramed(v, scripts[1..]);
    }
  }
}
