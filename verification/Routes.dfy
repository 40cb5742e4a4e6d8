/** The consumer route of the VPC: the one thing a repeated network call changes, and how often
    that can happen. */
module Routes {
  import opened Types
  import opened Names
  import opened World
  import opened Harvester
  import opened Reconciler
  import opened Invariants
  import opened Safety
  import opened Phases
  import opened Theorems
  import opened Frames
  import opened Progress
  import opened Keeping

  // ---- A repeated call ----

  /** The fate of a call on a child that exists. */
  lemma PresentCalls(s: Session, k: Key, c: Child)
    requires s.halt == Going && k in s.w.cluster
    ensures var t := Create(s, k, c);
            && t.w.cluster == s.w.cluster && t.w.id == s.w.id && t.w.ns == s.w.ns
            && (if s.script == [] then Halted(t)
                else t.halt == Going && t.script == s.script[1..]
                     && t.err == if s.script[0].api == Normal then AlreadyExists else OtherErr)
    ensures var t := Get(s, k);
            && t.w.cluster == s.w.cluster && t.w.id == s.w.id && t.w.ns == s.w.ns
            && (if s.script == [] then Halted(t)
                else t.halt == Going && t.script == s.script[1..]
                     && t.err == if s.script[0].api == Normal then NoErr else OtherErr)
    ensures var t := Put(s, k, c);
            if s.script != [] && s.script[0].api != Lost then t.w.cluster == s.w.cluster[k := c]
            else t.w.cluster == s.w.cluster
  {
    hide Users;
    if s.script != [] { UsersFrame(s.w, s.script[0].users); }
  }

  /** Repeated on a network that is complete, the call changes nothing but the VPC's routes, and
      appends the consumer route exactly when its first four calls succeed and the update of the
      VPC is not lost on the way, acknowledged or not: the error of that update is ignored. */
  lemma RetryAppendsRouteIff(s: Session, vlan: string)
    requires s.halt == Going && NadKey(s.w.id, s.w.ns) in s.w.cluster && SubnetKey(s.w.id) in s.w.cluster
    requires VpcKey(s.w.id) in s.w.cluster && s.w.cluster[VpcKey(s.w.id)].VpcChild?
    ensures var k := VpcKey(s.w.id); var vpc := s.w.cluster[k];
            CreateVPCNetwork(s, vlan).w.cluster
            == if |s.script| >= 5 && s.script[0].api == s.script[1].api == s.script[2].api == s.script[3].api == Normal
                  && s.script[4].api != Lost
               then s.w.cluster[k := vpc.(routes := vpc.routes + [vlan])]
               else s.w.cluster
  {
    hide Create, Get, Put, VpcKey, NadKey, SubnetKey;
    var id, ns := s.w.id, s.w.ns;
    var vpc := s.w.cluster[VpcKey(id)];
    PresentCalls(s, VpcKey(id), VpcChild(ns, []));
    var s1 := Create(s, VpcKey(id), VpcChild(ns, []));
    if s1.halt == Going && s1.err == AlreadyExists {
      PresentCalls(s1, VpcKey(id), vpc);
      var s2 := Get(s1, VpcKey(id));
      if s2.halt == Going {
        PresentCalls(s2, NadKey(id, ns), NadChild);
        var s3 := Create(s2, NadKey(id, ns), NadChild);
        if s3.halt == Going && s3.err == AlreadyExists {
          PresentCalls(s3, SubnetKey(id), SubnetChild(VpcName(id), vlan));
          var s4 := Create(s3, SubnetKey(id), SubnetChild(VpcName(id), vlan));
          if s4.halt == Going && s4.err == AlreadyExists {
            PresentCalls(s4, VpcKey(id), AddRoute(vpc, vlan));
          }
        }
      }
    }
  }

  // ---- Whole runs ----

  function RouteCount(w: World): nat {
    var k := VpcKey(w.id);
    if k in w.cluster && w.cluster[k].VpcChild? then |w.cluster[k].routes| else 0
  }

  /** One route per lost store call, and one more once the network phase is over. */
  ghost predicate Bounded(w: World) {
    RouteCount(w) <= w.lost + if w.cur.status.provisioning == Unset then 0 else 1
  }

  lemma NetworkRoutes(s: Session, vlan: string)
    ensures RouteCount(CreateVPCNetwork(s, vlan).w) <= RouteCount(s.w) + 1
  {
    hide Create, Get, Put, VpcKey, NadKey, SubnetKey;
    var id, ns := s.w.id, s.w.ns;
    DistinctKeys(id, ns);
    CreateFrame(s, VpcKey(id), VpcChild(ns, []));
    var s1 := Create(s, VpcKey(id), VpcChild(ns, []));
    if !Halted(s1) && s1.err != OtherErr {
      GetFrame(s1, VpcKey(id));
      var s2 := if s1.err == AlreadyExists then Get(s1, VpcKey(id)) else s1;
      if !Halted(s2) {
        CreateFrame(s2, NadKey(id, ns), NadChild);
        var s3 := Create(s2, NadKey(id, ns), NadChild);
        if !Halted(s3) && s3.err != OtherErr {
          CreateFrame(s3, SubnetKey(id), SubnetChild(VpcName(id), vlan));
          var s4 := Create(s3, SubnetKey(id), SubnetChild(VpcName(id), vlan));
          if VpcKey(id) in s2.w.cluster { PutFrame(s4, VpcKey(id), AddRoute(s2.w.cluster[VpcKey(id)], vlan)); }
        }
      }
    }
  }

  lemma DistinctKeys(id: string, ns: string)
    ensures VpcKey(id) != NadKey(id, ns) && VpcKey(id) != SubnetKey(id)
  {
  }

  /** The write that ends the network phase: it lands on the newest version, which was still at
      the start, or a store call is lost. */
  lemma NetworkWritePays(s: Session, t: Session, st: Status)
    requires Fresh(s) && Bounded(s.w) && St(s).provisioning == Unset && st.provisioning != Unset
    requires Steps(s, t) && t.inst == s.inst && !Halted(t) && t.w.cur.status == s.w.cur.status
    requires RouteCount(t.w) <= RouteCount(s.w) + 1
    ensures Bounded(StatusUpdate(WithStatus(t, st)).w)
  {
    hide WorldOk, Legal, StatusUpdate, RouteCount;
    UnwrittenOk(t, st);
    StatusUpdatePays(WithStatus(t, st));
    StatusUpdateFrame(WithStatus(t, st));
    WriteStores(WithStatus(t, st));
    SameRoutes(t.w, StatusUpdate(WithStatus(t, st)).w);
    assert |t.w.past| <= s.inst.rv ==> s.w.cur == s.inst.obj;
  }

  lemma SameRoutes(w: World, v: World)
    requires v.id == w.id && v.cluster == w.cluster
    ensures RouteCount(v) == RouteCount(w)
  {
  }

  lemma PhaseNetworkBounded(s: Session)
    requires Fresh(s) && MayCreate(s) && !Halted(s) && St(s).provisioning == Unset && Bounded(s.w)
    ensures Bounded(PhaseNetwork(s).w)
  {
    hide WorldOk, Grows, Legal, Anchored, ObjectOk, Evolves, StatusUpdate, CreateVPCNetwork, Version, RouteCount, Bounded;
    FreshOk(s);
    var o, spec, id := s.inst.obj, s.inst.obj.spec, s.w.id;
    UnsetRefs(id, o);
    var c := WithStatus(s, St(s).(phase := Creating));
    StepsReflexive(s);
    if spec.networkRef != "" {
      NetworkWritePays(s, s, St(c).(refs := NoRefs.(nad := spec.networkRef), provisioning := NetworkProvisioned));
    } else {
      var vlan := Vlan(spec);
      UnwrittenOk(s, St(c));
      CreateVPCNetworkOk(c, vlan);
      NetworkRoutes(c, vlan);
      NetworkKeeps(c, vlan);
      var t := CreateVPCNetwork(c, vlan);
      BackToRead(s, c, t);
      if Halted(t) {
        CrashBounded(s.w, t.w);
      } else {
        var u := WithStatus(t, St(s));
        NetworkWritePays(s, u, St(c).(phase := Failed, provisioning := PhaseFailed));
        NetworkWritePays(s, u, St(c).(refs := NoRefs.(vpc := VpcName(id), subnet := SubnetName(id), nad := NadName(id)),
                                      provisioning := NetworkProvisioned));
      }
    }
  }

  lemma CrashBounded(w: World, v: World)
    requires Bounded(w) && w.lost < v.lost && v.cur.status == w.cur.status && RouteCount(v) <= RouteCount(w) + 1
    ensures Bounded(v)
  {
  }

  /** The VPC is as it was, or gone. */
  ghost predicate VpcKept(w: World, v: World) {
    var k := VpcKey(w.id);
    v.id == w.id && (k in v.cluster ==> k in w.cluster && v.cluster[k] == w.cluster[k])
  }

  lemma KeptCount(w: World, v: World)
    requires VpcKept(w, v)
    ensures RouteCount(v) <= RouteCount(w)
  {
  }

  lemma AddsKeepsVpc(w: World, v: World, keys: set<Key>)
    requires Adds(w, v, keys) && VpcKey(w.id) !in keys
    ensures VpcKept(w, v)
  {
  }

  lemma PhaseKeysOther(id: string, ns: string, p: Provisioning)
    requires !p.Unset? && !p.Pending?
    ensures VpcKey(id) !in PhaseKeys(id, ns, p)
  {
  }

  lemma ResizedKeepsVpc(w: World, v: World)
    requires Resized(w, v)
    ensures RouteCount(v) == RouteCount(w)
  {
  }

  lemma NeverPending(s: Session)
    requires Fresh(s)
    ensures !St(s).provisioning.Pending?
  {
    FreshOk(s);
    hide Fresh, Ledger, Canonical;
  }

  /** Every branch but the network phase leaves the VPC alone or removes it. */
  lemma OtherRoutes(s: Session)
    requires Fresh(s) && !(MayCreate(s) && St(s).provisioning == Unset)
    ensures RouteCount(Dispatch(s).w) <= RouteCount(s.w)
  {
    hide Fresh, Provision, ReconcileModify, ReconcileDelete, FinalizerUpdate, StatusUpdate, SetVMRunning,
         TeardownKeys, VpcName, Adds, Resized, PhaseKeys, RouteCount;
    NeverPending(s);
    var o, v := s.inst.obj, Dispatch(s).w;
    if MayCreate(s) && o.status.phase == Available && o.spec.running != Some(false) && o.generation != o.status.observedGeneration {
      ModifyFrame(s);
      ResizedKeepsVpc(s.w, v);
    } else {
      if o.deleting {
        if o.finalizer { DeleteFrame(s); }
      } else if !o.finalizer {
        FinalizerUpdateFrame(s, true);
      } else if o.spec.running == Some(false) && o.status.phase == Available {
        PowerFrame(s, Stopping, false);
      } else if o.spec.running == Some(true) && o.status.phase == Stopped {
        PowerFrame(s, Starting, true);
      } else {
        ProvisionAdds(s);
        PhaseKeysOther(s.w.id, s.w.ns, o.status.provisioning);
        AddsKeepsVpc(s.w, v, PhaseKeys(s.w.id, s.w.ns, o.status.provisioning));
      }
      KeptCount(s.w, v);
    }
  }

  lemma ReconcileBounded(w: World, script: seq<Turn>)
    requires WorldOk(w) && Bounded(w)
    ensures Bounded(Reconcile(w, script).w)
  {
    ReadOk(Begin(w, script));
    ReadFrame(w, script);
    var s := Read(Begin(w, script));
    assert s.w.cur.status == w.cur.status by { TakeKeeps(Begin(w, script)); }
    SameRoutes(w, s.w);
    NotBack(w, s.w);
    hide WorldOk, Read, Dispatch, Fresh, RouteCount;
    if !Halted(s) && s.err == NoErr { DispatchBounded(s); }
  }

  lemma DispatchBounded(s: Session)
    requires Fresh(s) && !Halted(s) && s.inst.rv == s.w.cached && Bounded(s.w)
    ensures Bounded(Dispatch(s).w)
  {
    hide Fresh, Dispatch, RouteCount;
    if MayCreate(s) && St(s).provisioning == Unset {
      UnsetDispatch(s);
      PhaseNetworkBounded(s);
    } else {
      DispatchOk(s);
      NotBack(s.w, Dispatch(s).w);
      OtherRoutes(s);
    }
  }

  lemma UnsetDispatch(s: Session)
    requires Fresh(s) && MayCreate(s) && St(s).provisioning == Unset
    ensures Dispatch(s) == PhaseNetwork(s)
  {
    FreshOk(s);
    hide Fresh, PhaseNetwork, Ledger, Canonical;
  }

  /** The network phase is not returned to, and store calls are not unlost. */
  lemma NotBack(w: World, v: World)
    requires WorldOk(v) && Grows(w, v)
    ensures w.lost <= v.lost
    ensures w.cur.status.provisioning != Unset ==> v.cur.status.provisioning != Unset
  {
    LaterVersions(v, |w.past|, |v.past|);
    assert VersionOk(v, |w.past|);
    assert Version(v, |w.past|) == w.cur && Version(v, |v.past|) == v.cur;
  }

  lemma {:induction false} RunBounded(w: World, scripts: seq<seq<Turn>>)
    requires WorldOk(w) && Bounded(w)
    ensures Bounded(Run(w, scripts))
    decreases |scripts|
  {
    if scripts != [] {
      hide WorldOk, Bounded, Reconcile;
      ReconcileOk(w, scripts[0]);
      ReconcileBounded(w, scripts[0]);
      RunBounded(Reconcile(w, scripts[0]).w, scripts[1..]);
    }
  }

  /** Over every run of an instance whose VPC name was free: the route is listed at most once plus
      once per lost store call. */
  lemma RoutesBounded(id: string, ns: string, spec: Spec, cluster: map<Key, Child>, scripts: seq<seq<Turn>>)
    requires VpcKey(id) !in cluster
    ensures var w := Run(Init(id, ns, spec, cluster), scripts); RouteCount(w) <= 1 + w.lost
  {
    InitOk(id, ns, spec, cluster);
    assert Bounded(Init(id, ns, spec, cluster));
    hide WorldOk, Run, RouteCount;
    RunBounded(Init(id, ns, spec, cluster), scripts);
  }
}
