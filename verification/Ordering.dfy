/** The order in which children come to exist: until a teardown no child is without what it needs. */
module Ordering {
  import opened Types
  import opened Names
  import opened World
  import opened Harvester
  import opened Reconciler
  import opened Invariants
  import opened Safety
  import opened Phases
  import opened Theorems
  import opened Frames
  import Backing
  import Protection

  /** A subnet has its NAD, a NAD its VPC, and a VM its Secret and its volume. */
  ghost predicate InOrder(w: World) {
    && (SubnetKey(w.id) in w.cluster ==> NadKey(w.id, w.ns) in w.cluster)
    && (NadKey(w.id, w.ns) in w.cluster ==> VpcKey(w.id) in w.cluster)
    && (VmKey(w.id, w.ns) in w.cluster ==> SecretKey(w.id, w.ns) in w.cluster && DataVolumeKey(w.id, w.ns) in w.cluster)
  }

  ghost predicate Ordered(w: World) { TornDown in w.log || InOrder(w) }

  /** The ordered keys, which only the network, storage and VM phases add. */
  function Needing(id: string, ns: string): set<Key> { {SubnetKey(id), NadKey(id, ns), VmKey(id, ns)} }

  lemma AddsInOrder(w: World, v: World, keys: set<Key>)
    requires InOrder(w) && Adds(w, v, keys) && keys !! Needing(w.id, w.ns)
    ensures InOrder(v)
  {
    hide VpcKey, NadKey, SubnetKey, DataVolumeKey, SecretKey, VmKey;
  }

  lemma SameInOrder(w: World, v: World)
    requires InOrder(w) && v.id == w.id && v.ns == w.ns && v.cluster.Keys == w.cluster.Keys
    ensures InOrder(v)
  {
    hide VpcKey, NadKey, SubnetKey, DataVolumeKey, SecretKey, VmKey;
  }

  lemma NetworkInOrder(s: Session, vlan: string)
    requires InOrder(s.w)
    ensures InOrder(CreateVPCNetwork(s, vlan).w)
  {
    DistinctKeys(s.w.id, s.w.ns);
    hide Create, Get, Put, VpcKey, NadKey, SubnetKey, DataVolumeKey, SecretKey, VmKey;
    var id, ns := s.w.id, s.w.ns;
    CreateFrame(s, VpcKey(id), VpcChild(ns, []));
    var s1 := Create(s, VpcKey(id), VpcChild(ns, []));
    if !Halted(s1) && s1.err != OtherErr {
      GetFrame(s1, VpcKey(id));
      var s2 := if s1.err == AlreadyExists then Get(s1, VpcKey(id)) else s1;
      if !Halted(s2) {
        CreateFrame(s2, NadKey(id, ns), NadChild);
        var s3 := Create(s2, NadKey(id, ns), NadChild);
        if !Halted(s3) && s3.err != OtherErr {
          CreateFrame(s3, SubnetKey(id), SubnetChild(VpcName(id), vlan));
          var s4 := Create(s3, SubnetKey(id), SubnetChild(VpcName(id), vlan));
          if VpcKey(id) in s2.w.cluster { PutFrame(s4, VpcKey(id), AddRoute(s2.w.cluster[VpcKey(id)], vlan)); }
        }
      }
    }
  }

  lemma DistinctKeys(id: string, ns: string)
    ensures VmKey(id, ns) !in {VpcKey(id), NadKey(id, ns), SubnetKey(id), SecretKey(id, ns)}
    ensures VpcKey(id) != NadKey(id, ns) && VpcKey(id) != SubnetKey(id) && NadKey(id, ns) != SubnetKey(id)
    ensures SecretKey(id, ns) !in {NadKey(id, ns), SubnetKey(id)}
  {
  }

  lemma PhaseNetworkInOrder(s: Session)
    requires InOrder(s.w)
    ensures InOrder(PhaseNetwork(s).w)
  {
    hide StatusUpdate, CreateVPCNetwork, InOrder;
    var c := if St(s).phase == NoPhase then WithStatus(s, St(s).(phase := Creating)) else s;
    var refs, spec, v := St(c).refs, c.inst.obj.spec, PhaseNetwork(s).w;
    if refs.vpc != "" || refs.nad != "" {
      StatusUpdateFrame(To(c, NetworkProvisioned));
      SameInOrder(s.w, v);
    } else if spec.networkRef != "" {
      StatusUpdateFrame(To(WithRefs(c, refs.(nad := spec.networkRef)), NetworkProvisioned));
      SameInOrder(s.w, v);
    } else {
      NetworkInOrder(c, Vlan(spec));
      var t := CreateVPCNetwork(c, Vlan(spec));
      var id := t.w.id;
      StatusUpdateFrame(WithStatus(t, St(t).(phase := Failed, provisioning := PhaseFailed)));
      StatusUpdateFrame(To(WithRefs(t, refs.(vpc := VpcName(id), subnet := SubnetName(id), nad := NadName(id))),
                           NetworkProvisioned));
      SameInOrder(t.w, v);
    }
  }

  lemma PhaseVMInOrder(s: Session)
    requires InOrder(s.w) && DataVolumeKey(s.w.id, s.w.ns) in s.w.cluster
    ensures InOrder(PhaseVM(s).w)
  {
    DistinctKeys(s.w.id, s.w.ns);
    hide StatusUpdate, CreatePostgresVM, InOrder, ClassOf, VpcKey, NadKey, SubnetKey, DataVolumeKey, SecretKey, VmKey;
    var v, size := PhaseVM(s).w, ClassOf(s.inst.obj.spec.instanceClass);
    StatusUpdateFrame(To(s, VMCreated));
    StatusUpdateFrame(WithStatus(s, St(s).(phase := Failed, provisioning := PhaseFailed)));
    if St(s).refs.vm != "" || size == None {
      SameInOrder(s.w, v);
    } else {
      CreatePostgresVMFrame(s, size.value);
      var t := CreatePostgresVM(s, size.value);
      VMAddsInOrder(s.w, t.w);
      StatusUpdateFrame(WithStatus(t, St(t).(phase := Failed, provisioning := PhaseFailed)));
      StatusUpdateFrame(RecordVM(t));
      SameInOrder(t.w, v);
    }
  }

  lemma VMAddsInOrder(w: World, v: World)
    requires InOrder(w) && Adds(w, v, {SecretKey(w.id, w.ns), VmKey(w.id, w.ns)}) && DataVolumeKey(w.id, w.ns) in w.cluster
    requires VmKey(w.id, w.ns) !in w.cluster && VmKey(w.id, w.ns) in v.cluster ==> SecretKey(w.id, w.ns) in v.cluster
    ensures InOrder(v)
  {
    DistinctKeys(w.id, w.ns);
    hide VpcKey, NadKey, SubnetKey, DataVolumeKey, SecretKey, VmKey;
  }

  lemma OtherKeys(id: string, ns: string, p: Provisioning)
    requires p !in {Unset, Pending, StorageProvisioned}
    ensures PhaseKeys(id, ns, p) !! Needing(id, ns)
  {
  }

  lemma ProvisionInOrder(s: Session)
    requires Fresh(s) && MayCreate(s) && Backing.Good(s) && InOrder(s.w)
    ensures InOrder(Provision(s).w)
  {
    VolumeIsThere(s);
    hide Fresh, InOrder, PhaseNetwork, PhaseStorage, PhaseVM, PhaseWaitReady, PhaseMonitoring, PhaseVpcPeering,
         PhaseAvailableStep, PhaseKeys, Needing, Backing.Good;
    match St(s).provisioning
    case Unset => PhaseNetworkInOrder(s);
    case Pending => PhaseNetworkInOrder(s);
    case StorageProvisioned => PhaseVMInOrder(s);
    case _ =>
      ProvisionAdds(s);
      OtherKeys(s.w.id, s.w.ns, St(s).provisioning);
      AddsInOrder(s.w, Provision(s).w, PhaseKeys(s.w.id, s.w.ns, St(s).provisioning));
  }

  lemma VolumeIsThere(s: Session)
    requires Fresh(s) && MayCreate(s) && Backing.Good(s)
    ensures St(s).provisioning == StorageProvisioned ==> DataVolumeKey(s.w.id, s.w.ns) in s.w.cluster
  {
    FreshOk(s);
    hide Fresh, Legal;
    Backing.GoodCovers(s);
    hide Backing.Good;
  }

  lemma DispatchOrdered(s: Session)
    requires Fresh(s) && Backing.Good(s) && InOrder(s.w)
    ensures Ordered(Dispatch(s).w)
  {
    hide Fresh, InOrder, Provision, ReconcileModify, ReconcileDelete, FinalizerUpdate, StatusUpdate, SetVMRunning, Backing.Good;
    var o, v := s.inst.obj, Dispatch(s).w;
    if o.deleting {
      if o.finalizer {
        Protection.TearsIffReadUnprotected(s);
        DeleteFrame(s);
        if v.log == s.w.log { SameInOrder(s.w, v); }
        else { assert v.log[|s.w.log|] == TornDown; }
      }
    } else if !o.finalizer {
      FinalizerUpdateFrame(s, true);
      SameInOrder(s.w, v);
    } else if o.spec.running == Some(false) && o.status.phase == Available {
      PowerFrame(s, Stopping, false);
      SameInOrder(s.w, v);
    } else if o.spec.running == Some(true) && o.status.phase == Stopped {
      PowerFrame(s, Starting, true);
      SameInOrder(s.w, v);
    } else if o.status.phase == Available && o.generation != o.status.observedGeneration {
      ModifyFrame(s);
      SameInOrder(s.w, v);
    } else {
      ProvisionInOrder(s);
    }
  }

  // ---- Whole runs ----

  lemma ReconcileOrdered(w: World, script: seq<Turn>)
    requires WorldOk(w) && Backing.Backed(w) && Ordered(w)
    ensures Ordered(Reconcile(w, script).w)
  {
    ReconcileOk(w, script);
    ReadOk(Begin(w, script));
    ReadFrame(w, script);
    Backing.ReadBacked(w, script);
    hide WorldOk, Read, Dispatch, Fresh, InOrder, Backing.Good, Backing.Backed;
    var s := Read(Begin(w, script));
    if TornDown !in w.log {
      SameInOrder(w, s.w);
      if !Halted(s) && s.err == NoErr { DispatchOrdered(s); }
    }
  }

  lemma {:induction false} RunOrdered(w: World, scripts: seq<seq<Turn>>)
    requires WorldOk(w) && Backing.Backed(w) && Ordered(w)
    ensures Ordered(Run(w, scripts))
    decreases |scripts|
  {
    if scripts != [] {
      hide WorldOk, Reconcile, Ordered, Backing.Backed;
      ReconcileOk(w, scripts[0]);
      ReconcileOrdered(w, scripts[0]);
      Backing.ReconcileBacked(w, scripts[0]);
      RunOrdered(Reconcile(w, scripts[0]).w, scripts[1..]);
    }
  }

  /** Over every run from free names, through all crashes and errors: until a teardown, a subnet has
      its NAD, a NAD its VPC, and a VM its Secret and its volume. */
  lemma ChildrenInOrder(id: string, ns: string, spec: Spec, cluster: map<Key, Child>, scripts: seq<seq<Turn>>)
    requires cluster.Keys !! ChildKeys(id, ns)
    ensures var w := Run(Init(id, ns, spec, cluster), scripts); TornDown !in w.log ==> InOrder(w)
  {
    var w0 := Init(id, ns, spec, cluster);
    InitOk(id, ns, spec, cluster);
    assert Backing.Backed(w0);
    assert {SubnetKey(id), NadKey(id, ns), VmKey(id, ns)} <= ChildKeys(id, ns);
    assert InOrder(w0) by { hide ChildKeys; }
    hide WorldOk, Run, InOrder, Backing.Backed;
    RunOrdered(w0, scripts);
  }
}
