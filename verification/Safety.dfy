/** Every API call and every reconcile keeps the invariants, for every script. */
module Safety {
  import opened Types
  import opened Names
  import opened World
  import opened Harvester
  import opened Invariants

  /** What never goes back: versions stay, the cache moves forward, counters and log grow. */
  ghost predicate Grows(w: World, v: World) {
    && v.id == w.id && v.ns == w.ns
    && |w.past| <= |v.past|
    && (forall i: nat | i <= |w.past| :: Version(v, i) == Version(w, i))
    && w.cached <= v.cached
    && w.log <= v.log
    && (v.live ==> w.live)
    && Within(w.faults, v.faults) && w.lost <= v.lost && w.polls <= v.polls && w.nonce <= v.nonce
  }

  lemma GrowsTransitive(u: World, v: World, w: World)
    requires Grows(u, v) && Grows(v, w)
    ensures Grows(u, w)
  {
  }

  // ---- Appending a version ----

  lemma AppendHistory(w: World, o: Object)
    requires HistoryOk(w) && ObjectOk(w.id, o) && Issued(w.nonce, o.status) && Evolves(w.id, w.faults, w.cur, o)
    ensures HistoryOk(Append(w, o)) && Grows(w, Append(w, o))
  {
    var v := Append(w, o);
    forall i: nat | i <= |v.past| ensures VersionOk(v, i) {
      if i <= |w.past| { assert VersionOk(w, i); }
    }
    forall i: nat | i < |v.past| ensures StepOk(v, i) {
      if i < |w.past| { assert StepOk(w, i); }
    }
  }

  lemma AppendDeletion(w: World, o: Object, live: bool)
    requires HistoryOk(w) && DeletionOk(w) && w.live
    requires w.cur.deleting ==> o.deleting
    requires w.cur.finalizer && !o.finalizer ==> !live
    requires !live ==> TornDown in w.log && !o.finalizer && o.deleting && !o.spec.deletionProtection
    requires !live || (o.finalizer || !w.cur.finalizer)
    ensures DeletionOk(Append(w, o).(live := live))
  {
    var v := Append(w, o).(live := live);
    assert forall i: nat | i <= |w.past| :: Version(v, i) == Version(w, i);
    forall i: nat, j: nat | i <= j <= |v.past| && Version(v, i).deleting ensures Version(v, j).deleting {
      if i <= |w.past| { assert Version(w, |w.past|).deleting; }
    }
  }

  // ---- Users ----

  lemma UserEdit(id: string, faults: Faults, o: Object, spec: Spec)
    requires ObjectOk(id, o)
    ensures var p := o.(spec := spec, generation := o.generation + 1); ObjectOk(id, p) && Evolves(id, faults, o, p)
    ensures var d := o.(deleting := true, generation := o.generation + 1);
            ObjectOk(id, d) && (o.finalizer ==> Evolves(id, faults, o, d))
  {
    hide ClassOf, ExpectedNetwork, Ledger, Canonical;
  }

  lemma WorldAppends(w: World, o: Object)
    requires WorldOk(w) && w.live && ObjectOk(w.id, o) && Issued(w.nonce, o.status) && Evolves(w.id, w.faults, w.cur, o)
    requires o.finalizer == w.cur.finalizer
    ensures WorldOk(Append(w, o)) && Grows(w, Append(w, o))
  {
    AppendHistory(w, o);
    hide HistoryOk, ObjectOk, Grows;
    AppendDeletion(w, o, true);
  }

  lemma UserOk(w: World, a: UserAction)
    requires WorldOk(w)
    ensures WorldOk(User(w, a)) && Grows(w, User(w, a))
  {
    hide Evolves, ObjectOk;
    if w.live {
      assert VersionOk(w, |w.past|);
      match a
      case PatchSpec(spec) =>
        UserEdit(w.id, w.faults, w.cur, spec);
        if spec != w.cur.spec { WorldAppends(w, w.cur.(spec := spec, generation := w.cur.generation + 1)); }
      case RequestDelete =>
        UserEdit(w.id, w.faults, w.cur, w.cur.spec);
        if !w.cur.deleting {
          if w.cur.finalizer {
            WorldAppends(w, w.cur.(deleting := true, generation := w.cur.generation + 1));
          } else {
            var v := w.(live := false);
            HistoryCarries(w, v);
            assert forall i: nat | i <= |w.past| :: Version(v, i) == Version(w, i);
          }
        }
    }
  }

  lemma {:induction false} UsersOk(w: World, actions: seq<UserAction>)
    requires WorldOk(w)
    ensures WorldOk(Users(w, actions)) && Grows(w, Users(w, actions))
    ensures var v := Users(w, actions);
            v.cluster == w.cluster && v.log == w.log && v.nonce == w.nonce && v.faults == w.faults
            && v.lost == w.lost && v.polls == w.polls && v.cached == w.cached
    decreases |actions|
  {
    if actions != [] {
      UserOk(w, actions[0]);
      UsersOk(User(w, actions[0]), actions[1..]);
      GrowsTransitive(w, User(w, actions[0]), Users(w, actions));
    }
  }

  // ---- Store calls ----

  lemma MoreFaults(id: string, f: Faults, g: Faults, a: Object, b: Object)
    requires Evolves(id, f, a, b) && Within(f, g)
    ensures Evolves(id, g, a, b)
  {
  }

  lemma HistoryCarries(w: World, v: World)
    requires HistoryOk(w) && v.id == w.id && v.past == w.past && v.cur == w.cur
    requires v.cached == w.cached && Within(w.faults, v.faults) && w.nonce <= v.nonce
    ensures HistoryOk(v)
  {
    hide Evolves, ObjectOk;
    forall i: nat | i <= |v.past| ensures VersionOk(v, i) { assert VersionOk(w, i); }
    forall i: nat | i < |v.past| ensures StepOk(v, i) {
      assert StepOk(w, i);
      MoreFaults(w.id, w.faults, v.faults, Version(w, i), Version(w, i + 1));
    }
  }

  /** Counters, cluster and log may change; the versions may not. */
  lemma SameHistory(w: World, v: World)
    requires WorldOk(w)
    requires v.id == w.id && v.ns == w.ns && v.past == w.past && v.cur == w.cur && v.live == w.live
    requires v.cached == w.cached && v.log == w.log && Within(w.faults, v.faults)
    requires w.lost <= v.lost && w.polls <= v.polls && w.nonce <= v.nonce
    ensures WorldOk(v) && Grows(w, v)
  {
    assert forall i: nat | i <= |w.past| :: Version(v, i) == Version(w, i);
    forall i: nat | i <= |v.past| ensures VersionOk(v, i) { assert VersionOk(w, i); }
    forall i: nat | i < |v.past| ensures StepOk(v, i) { assert StepOk(w, i); }
  }

  /** A call that leaves the instance in memory alone. */
  ghost predicate Steps(s: Session, t: Session) {
    && Grows(s.w, t.w) && t.w.id == s.w.id && t.w.ns == s.w.ns
    && Within(s.w.faults, t.w.faults) && s.w.nonce <= t.w.nonce
    && s.w.lost <= t.w.lost && (Halted(t) ==> Halted(s) || s.w.lost < t.w.lost)
    && t.inst.obj == s.inst.obj && t.w.cached == s.w.cached && SessionOk(t)
    && (Legal(s.w, s.inst) ==> Legal(t.w, t.inst))
  }

  lemma StepsTransitive(r: Session, s: Session, t: Session)
    requires Steps(r, s) && Steps(s, t)
    ensures Steps(r, t)
  {
    GrowsTransitive(r.w, s.w, t.w);
  }

  lemma StepsReflexive(s: Session)
    requires SessionOk(s)
    ensures Steps(s, s)
  {
  }

  lemma StillLegal(s: Session, t: Session)
    requires Anchored(s.w, s.inst) && Grows(s.w, t.w) && t.inst == s.inst
    ensures Legal(s.w, s.inst) ==> Legal(t.w, t.inst)
    ensures Version(t.w, t.inst.rv) == Version(s.w, s.inst.rv)
  {
  }

  lemma SameInstance(s: Session, t: Session)
    requires SessionOk(s) && WorldOk(t.w) && Grows(s.w, t.w)
    requires t.inst == s.inst && t.w.cached == s.w.cached && t.halt != Panicked
    requires Halted(t) ==> Halted(s) || s.w.lost < t.w.lost
    ensures Steps(s, t)
  {
    hide WorldOk;
    StillLegal(s, t);
  }

  /** `u` differs from `t` in cluster contents, counters and the reported error only. */
  ghost predicate Beside(t: Session, u: Session) {
    && u == t.(w := t.w.(cluster := u.w.cluster, faults := u.w.faults, nonce := u.w.nonce,
                         lost := u.w.lost, polls := u.w.polls), err := u.err)
    && Within(t.w.faults, u.w.faults) && t.w.lost <= u.w.lost && t.w.polls <= u.w.polls && t.w.nonce <= u.w.nonce
  }

  lemma Effect(s: Session, t: Session, u: Session)
    requires Steps(s, t) && t.inst == s.inst && Beside(t, u)
    ensures Steps(s, u) && u.inst == s.inst
  {
    hide WorldOk, Grows, Legal, Anchored;
    SameHistory(t.w, u.w);
    SameInstance(t, u);
    StepsTransitive(s, t, u);
  }

  lemma TakeOk(s: Session)
    requires SessionOk(s)
    ensures Steps(s, Take(s)) && Take(s).inst == s.inst
  {
    var t := Take(s);
    if !Halted(s) {
      if s.script == [] { SameHistory(s.w, t.w); } else { UsersOk(s.w, s.script[0].users); }
    }
    StillLegal(s, t);
  }

  /** Users touch only versions: moving to the next call changes nothing else. */
  lemma TakeCounts(s: Session)
    requires SessionOk(s)
    ensures var v := Take(s).w;
            v.cached == s.w.cached && v.cluster == s.w.cluster && v.log == s.w.log && v.nonce == s.w.nonce
            && v.faults == s.w.faults && v.polls == s.w.polls && v.id == s.w.id && v.ns == s.w.ns
            && v.lost == s.w.lost + if !Halted(s) && s.script == [] then 1 else 0
  {
    hide WorldOk;
    if !Halted(s) && s.script != [] { UsersOk(s.w, s.script[0].users); }
  }

  lemma StoreFailsOk(s: Session)
    requires SessionOk(s)
    ensures Steps(s, StoreFails(s))
  {
    hide SessionOk, Steps;
    StepsReflexive(s);
    Effect(s, s, StoreFails(s));
  }

  lemma CommitOk(t: Session, o: Object, live: bool)
    requires SessionOk(t) && Writable(t)
    requires ObjectOk(t.w.id, o) && Issued(t.w.nonce, o.status) && Evolves(t.w.id, t.w.faults, t.w.cur, o)
    requires live == (o.finalizer || !t.w.cur.finalizer)
    requires !live ==> TornDown in t.w.log && !o.finalizer && o.deleting && !o.spec.deletionProtection
    ensures SessionOk(Commit(t, o, live)) && Grows(t.w, Commit(t, o, live).w)
    ensures Commit(t, o, live).err == NoErr ==>
              Commit(t, o, live).inst.obj == o == Commit(t, o, live).w.cur
              && Commit(t, o, live).inst.rv == |Commit(t, o, live).w.past|
    ensures Commit(t, o, live).err != NoErr ==> Commit(t, o, live).inst == t.inst
  {
    hide Evolves, ObjectOk, HistoryOk, DeletionOk, Grows, Issued;
    var v := (if o == t.w.cur && !t.now.bump then t.w else Append(t.w, o)).(live := live);
    if o == t.w.cur && !t.now.bump {
      GrowsReflexive(t.w);
    } else {
      AppendOk(t.w, o, live);
    }
    var u := Commit(t, o, live);
    if t.now.store == AckLost {
      SameHistory(v, u.w);
      GrowsTransitive(t.w, v, u.w);
      StillLegal(t, u);
      GrowsCached(t.w, u.w);
    } else {
      GrowsCached(t.w, v);
    }
  }

  lemma GrowsReflexive(w: World)
    ensures Grows(w, w)
  {
  }

  lemma GrowsCached(w: World, v: World)
    requires Grows(w, v) && WorldOk(v)
    ensures w.cached <= v.cached <= |v.past| && |w.past| <= |v.past|
  {
  }

  lemma AppendOk(w: World, o: Object, live: bool)
    requires WorldOk(w) && w.live
    requires ObjectOk(w.id, o) && Issued(w.nonce, o.status) && Evolves(w.id, w.faults, w.cur, o)
    requires live == (o.finalizer || !w.cur.finalizer)
    requires !live ==> TornDown in w.log && !o.finalizer && o.deleting && !o.spec.deletionProtection
    ensures WorldOk(Append(w, o).(live := live)) && Grows(w, Append(w, o).(live := live))
  {
    AppendHistory(w, o);
    AppendDeletion(w, o, live);
    hide Evolves, ObjectOk, DeletionOk;
    var u, v := Append(w, o), Append(w, o).(live := live);
    forall i: nat | i <= |v.past| ensures VersionOk(v, i) { assert VersionOk(u, i); }
    forall i: nat | i < |v.past| ensures StepOk(v, i) { assert StepOk(u, i); }
    forall i: nat | i <= |w.past| ensures Version(v, i) == Version(w, i) { assert Version(u, i) == Version(w, i); }
  }

  lemma GrowthCounts(w: World, v: World)
    requires Grows(w, v)
    ensures v.id == w.id && v.ns == w.ns && Within(w.faults, v.faults) && w.nonce <= v.nonce && w.lost <= v.lost
  {
  }

  lemma SelfEvolves(id: string, faults: Faults, o: Object)
    ensures Evolves(id, faults, o, o)
  {
  }

  /** The heart of crash safety: a status write lands only on the version that was read, so a
      legal edit of that version is a legal step of the stored history. */
  lemma StatusUpdateOk(s: Session)
    requires SessionOk(s) && Legal(s.w, s.inst)
    ensures Steps(s, StatusUpdate(s))
  {
    hide WorldOk, ObjectOk, Evolves, Issued, Grows, Take;
    TakeOk(s);
    var t := Take(s);
    if !Halted(t) {
      if !Writable(t) {
        StoreFailsOk(t);
        StepsTransitive(s, t, StoreFails(t));
      } else {
        var o := t.w.cur.(status := St(t));
        assert o == t.inst.obj;
        CommitOk(t, o, true);
        var u := Commit(t, o, true);
        GrowsTransitive(s.w, t.w, u.w);
        GrowthCounts(s.w, u.w);
        if u.err != NoErr { StillLegal(t, u); } else { SelfEvolves(u.w.id, u.w.faults, o); }
      }
    }
  }

  // ---- Cluster calls ----

  /** The session may create children: it read a live, finalized version. */
  predicate MayCreate(s: Session) { !s.inst.obj.deleting && s.inst.obj.finalizer }

  /** A failed create has been tallied. */
  predicate Noted(k: Kind, f: Faults) {
    (k.VpcPeering? ==> f.peering > 0) && (!k.VpcPeering? && !k.Service? && !k.ServiceMonitor? ==> f.fatal > 0)
  }

  lemma TallyOk(f: Faults, k: Kind, took: bool)
    ensures Within(f, f) && Within(f, Tally(f, k, took)) && Noted(k, Tally(f, k, took))
  {
  }

  lemma CreateOk(s: Session, k: Key, c: Child)
    requires SessionOk(s) && MayCreate(s) && k in ChildKeys(s.w.id, s.w.ns)
    ensures Steps(s, Create(s, k, c)) && Create(s, k, c).inst == s.inst
    ensures !Halted(Create(s, k, c)) && Create(s, k, c).err == OtherErr ==> Noted(k.kind, Create(s, k, c).w.faults)
  {
    hide WorldOk, Grows, Legal, Take, ChildKeys, Tally, Within, Noted;
    TakeOk(s);
    var t, u := Take(s), Create(s, k, c);
    TallyOk(t.w.faults, k.kind, k !in t.w.cluster && t.now.api == AckLost);
    if !Halted(t) {
      assert Version(t.w, t.inst.rv).finalizer && !Version(t.w, t.inst.rv).deleting;
      CreateKeepsHistory(t.w, u.w, t.inst.rv);
      SameInstance(t, u);
      StepsTransitive(s, t, u);
    }
  }

  lemma CreateKeepsHistory(w: World, v: World, rv: nat)
    requires WorldOk(w) && w.cached <= rv <= |w.past|
    requires Version(w, rv).finalizer && !Version(w, rv).deleting
    requires v.id == w.id && v.ns == w.ns && v.past == w.past && v.cur == w.cur && v.live == w.live
    requires v.cached == w.cached && Within(w.faults, v.faults) && w.lost == v.lost
    requires w.polls == v.polls && w.nonce == v.nonce
    requires v.log == w.log ||
             (|v.log| == |w.log| + 1 && v.log == w.log + [v.log[|w.log|]]
              && v.log[|w.log|].Created? && v.log[|w.log|].key in ChildKeys(w.id, w.ns))
    ensures WorldOk(v) && Grows(w, v)
  {
    hide Evolves, ObjectOk, ChildKeys;
    assert TornDown !in w.log;
    assert forall i: nat | i <= |w.past| :: Version(v, i) == Version(w, i);
    assert HistoryOk(v) by {
      HistoryCarries(w, v);
    }
    assert TornDown !in v.log;
  }

  lemma GetOk(s: Session, k: Key)
    requires SessionOk(s)
    ensures Steps(s, Get(s, k)) && Get(s, k).inst == s.inst
  {
    hide SessionOk, Steps, Users;
    TakeOk(s);
    assert Beside(Take(s), Get(s, k));
    Effect(s, Take(s), Get(s, k));
  }

  lemma PutOk(s: Session, k: Key, c: Child)
    requires SessionOk(s)
    ensures Steps(s, Put(s, k, c)) && Put(s, k, c).inst == s.inst
  {
    hide SessionOk, Steps, Take;
    TakeOk(s);
    assert Beside(Take(s), Put(s, k, c));
    Effect(s, Take(s), Put(s, k, c));
  }

  lemma CheckOk(s: Session)
    requires SessionOk(s)
    ensures Steps(s, Check(s)) && Check(s).inst == s.inst
    ensures !Halted(Check(s)) && Check(s).err != NoErr ==> Check(s).w.faults.fatal > 0
  {
    hide SessionOk, Steps, Users;
    TakeOk(s);
    assert Beside(Take(s), Check(s));
    Effect(s, Take(s), Check(s));
  }

  // ---- Harvester operations ----

  lemma CreateVPCNetworkOk(s: Session, vlan: string)
    requires SessionOk(s) && MayCreate(s)
    ensures var t := CreateVPCNetwork(s, vlan);
            Steps(s, t) && t.inst == s.inst && (!Halted(t) && t.err != NoErr ==> t.w.faults.fatal > 0)
  {
    hide WorldOk, Grows, Legal, Anchored, Create, Get, Put, Check, GenerateKeys;
    var id, ns := s.w.id, s.w.ns;
    var s1 := Create(s, VpcKey(id), VpcChild(ns, []));
    CreateOk(s, VpcKey(id), VpcChild(ns, []));
    if !Halted(s1) && s1.err != OtherErr {
      var s2 := if s1.err == AlreadyExists then Get(s1, VpcKey(id)) else s1;
      GetOk(s1, VpcKey(id));
      StepsReflexive(s1);
      StepsTransitive(s, s1, s2);
      if !Halted(s2) {
        var s3 := Create(s2, NadKey(id, ns), NadChild);
        CreateOk(s2, NadKey(id, ns), NadChild);
        StepsTransitive(s, s2, s3);
        if !Halted(s3) && s3.err != OtherErr {
          var s4 := Create(s3, SubnetKey(id), SubnetChild(VpcName(id), vlan));
          CreateOk(s3, SubnetKey(id), SubnetChild(VpcName(id), vlan));
          StepsTransitive(s, s3, s4);
          if !Halted(s4) && s4.err != OtherErr {
            var vpc := if s2.err == NoErr && VpcKey(id) in s2.w.cluster
                       then Some(s2.w.cluster[VpcKey(id)]) else None;
            if vpc.Some? {
              PutOk(s4, VpcKey(id), AddRoute(vpc.value, vlan));
              StepsTransitive(s, s4, Put(s4, VpcKey(id), AddRoute(vpc.value, vlan)));
            }
          }
        }
      }
    }
  }

  lemma GenerateKeysOk(s: Session)
    requires SessionOk(s)
    ensures var t := GenerateKeys(s);
            Steps(s, t) && t.inst == s.inst && (!Halted(t) && t.err != NoErr ==> t.w.faults.fatal > 0)
    ensures !Halted(GenerateKeys(s)) ==> GenerateKeys(s).w.nonce == s.w.nonce + 1
  {
    hide SessionOk, Steps, Users;
    CheckOk(s);
    TakeCounts(s);
    Effect(s, Check(s), GenerateKeys(s));
  }

  lemma CreatePostgresVMOk(s: Session, size: ClassSpec)
    requires SessionOk(s) && MayCreate(s)
    ensures var t := CreatePostgresVM(s, size);
            Steps(s, t) && t.inst == s.inst && (!Halted(t) && t.err != NoErr ==> t.w.faults.fatal > 0)
            && (!Halted(t) && t.err == NoErr ==> t.w.nonce > 0)
  {
    hide WorldOk, Grows, Legal, Anchored, Create, Get, Put, Check, GenerateKeys;
    var id, ns := s.w.id, s.w.ns;
    var refs := St(s).refs;
    var s1 := GenerateKeys(s);
    GenerateKeysOk(s);
    if !Halted(s1) && s1.err == NoErr {
      var n := s1.w.nonce - 1;
      var s2 := if s.inst.obj.spec.s3Backup then Check(s1) else s1;
      CheckOk(s1);
      StepsReflexive(s1);
      StepsTransitive(s, s1, s2);
      if !Halted(s2) && s2.err == NoErr {
        var s3 := Create(s2, SecretKey(id, ns), SecretChild(n, n, n));
        CreateOk(s2, SecretKey(id, ns), SecretChild(n, n, n));
        StepsTransitive(s, s2, s3);
        if !Halted(s3) && s3.err != OtherErr {
          var s4 := Check(s3);
          CheckOk(s3);
          StepsTransitive(s, s3, s4);
          if !Halted(s4) && s4.err == NoErr {
            var vm := VmChild(true, size.cpuCores, size.memoryMB, refs.dataVolume, refs.nad, SecretName(id));
            CreateOk(s4, VmKey(id, ns), vm);
            StepsTransitive(s, s4, Create(s4, VmKey(id, ns), vm));
          }
        }
      }
    }
  }

  lemma SetVMRunningOk(s: Session, vm: string, running: bool)
    requires SessionOk(s)
    ensures Steps(s, SetVMRunning(s, vm, running)) && SetVMRunning(s, vm, running).inst == s.inst
  {
    hide WorldOk, Grows, Legal, Anchored, Create, Get, Put, Check, GenerateKeys;
    var k := Key(Vm, s.w.ns, vm);
    GetOk(s, k);
    var t := Get(s, k);
    if !(Halted(t) || t.err != NoErr || k !in t.w.cluster) {
      PutOk(t, k, SetRunning(t.w.cluster[k], running));
      StepsTransitive(s, t, SetVMRunning(s, vm, running));
    }
  }

  lemma ResizeVMOk(s: Session, vm: string, size: ClassSpec)
    requires SessionOk(s)
    ensures Steps(s, ResizeVM(s, vm, size)) && ResizeVM(s, vm, size).inst == s.inst
  {
    hide WorldOk, Grows, Legal, Anchored, Create, Get, Put, Check, GenerateKeys;
    var k := Key(Vm, s.w.ns, vm);
    GetOk(s, k);
    var t := Get(s, k);
    if !(Halted(t) || t.err != NoErr || k !in t.w.cluster) {
      PutOk(t, k, SetSize(t.w.cluster[k], size));
      StepsTransitive(s, t, ResizeVM(s, vm, size));
    }
  }

  lemma ResizeDataVolumeOk(s: Session, volume: string, sizeGiB: int)
    requires SessionOk(s)
    ensures Steps(s, ResizeDataVolume(s, volume, sizeGiB)) && ResizeDataVolume(s, volume, sizeGiB).inst == s.inst
  {
    hide WorldOk, Grows, Legal, Anchored, Create, Get, Put, Check, GenerateKeys;
    var k := Key(DataVolume, s.w.ns, volume);
    GetOk(s, k);
    var t := Get(s, k);
    if !(Halted(t) || t.err != NoErr || k !in t.w.cluster) {
      PutOk(t, k, SetCapacity(t.w.cluster[k], sizeGiB));
      StepsTransitive(s, t, ResizeDataVolume(s, volume, sizeGiB));
    }
  }

  lemma TeardownKeepsHistory(w: World, v: World)
    requires WorldOk(w) && Version(w, w.cached).deleting
    requires v.id == w.id && v.ns == w.ns && v.past == w.past && v.cur == w.cur && v.live == w.live
    requires v.cached == w.cached && Within(w.faults, v.faults) && w.lost == v.lost
    requires w.polls == v.polls && w.nonce == v.nonce && v.log == w.log + [TornDown]
    ensures WorldOk(v) && Grows(w, v) && TornDown in v.log
  {
    hide Evolves, ObjectOk, ChildKeys;
    assert forall i: nat | i <= |w.past| :: Version(v, i) == Version(w, i);
    assert HistoryOk(v) by {
      HistoryCarries(w, v);
    }
    assert v.log[|w.log|] == TornDown;
  }

  lemma TeardownAllOk(s: Session)
    requires SessionOk(s) && Version(s.w, s.w.cached).deleting
    ensures Steps(s, TeardownAll(s)) && TeardownAll(s).inst == s.inst
    ensures !Halted(TeardownAll(s)) ==> TornDown in TeardownAll(s).w.log
  {
    hide WorldOk, Legal, Users, TeardownKeys;
    TakeOk(s);
    var t, u := Take(s), TeardownAll(s);
    if !Halted(t) {
      TakeCounts(s);
      TeardownKeepsHistory(t.w, u.w);
      SameInstance(t, u);
      StepsTransitive(s, t, u);
    }
  }

}
