/** What the Harvester operations leave alone: the stored status, the instance in memory, and
    every child; and that a new child is always on record as created. */
module Keeping {
  import opened Types
  import opened Names
  import opened World
  import opened Harvester
  import opened Frames

  ghost predicate Keeps(s: Session, t: Session) {
    && t.w.cur.status == s.w.cur.status && t.inst == s.inst && t.w.id == s.w.id && t.w.ns == s.w.ns
    && s.w.cluster.Keys <= t.w.cluster.Keys
    && s.w.log <= t.w.log && (t.w.log == s.w.log ==> t.w.cluster.Keys == s.w.cluster.Keys)
    && Logs(s.w, t.w)
  }

  /** What is newly on record as created exists, and what newly exists is on record. */
  ghost predicate Logs(w: World, v: World) {
    && w.log <= v.log
    && (forall k | Created(k) in v.log :: Created(k) in w.log || k in v.cluster)
    && (forall k | k in v.cluster :: k in w.cluster || Created(k) in v.log)
  }

  lemma KeepsReflexive(s: Session)
    ensures forall e :: Keeps(s, s.(err := e))
  {
  }

  lemma KeepsTransitive(r: Session, s: Session, t: Session)
    requires Keeps(r, s) && Keeps(s, t)
    ensures forall e :: Keeps(r, t.(err := e))
    ensures Keeps(r, t)
  {
  }

  // ---- One call ----

  lemma TakeKeeps(s: Session)
    ensures Keeps(s, Take(s))
  {
    TakeFrame(s);
    if !Halted(s) && s.script != [] { UsersStatus(s.w, s.script[0].users); }
  }

  lemma SameKeeps(s: Session, t: Session)
    requires t.w.cur.status == s.w.cur.status && t.inst == s.inst && t.w.id == s.w.id && t.w.ns == s.w.ns
    requires t.w.cluster.Keys == s.w.cluster.Keys && t.w.log == s.w.log
    ensures Keeps(s, t)
  {
  }

  lemma AddKeeps(s: Session, t: Session, k: Key, c: Child)
    requires t.w.cur.status == s.w.cur.status && t.inst == s.inst && t.w.id == s.w.id && t.w.ns == s.w.ns
    requires t.w.cluster == s.w.cluster[k := c] && t.w.log == s.w.log + [Created(k)]
    ensures Keeps(s, t)
  {
    assert |t.w.log| != |s.w.log|;
    assert t.w.log[|s.w.log|] == Created(k);
  }

  lemma CreateKeeps(s: Session, k: Key, c: Child)
    ensures Keeps(s, Create(s, k, c)) && Keeps(s, IgnoreAlreadyExists(Create(s, k, c)))
  {
    hide Take, Tally, Keeps;
    TakeKeeps(s);
    var t, u := Take(s), Create(s, k, c);
    if t.w.log == u.w.log { SameKeeps(t, u); SameKeeps(t, IgnoreAlreadyExists(u)); }
    else { AddKeeps(t, u, k, c); AddKeeps(t, IgnoreAlreadyExists(u), k, c); }
    KeepsTransitive(s, t, u);
    KeepsTransitive(s, t, IgnoreAlreadyExists(u));
  }

  lemma GetKeeps(s: Session, k: Key)
    ensures Keeps(s, Get(s, k))
  {
    hide Take;
    TakeKeeps(s);
  }

  lemma PutKeeps(s: Session, k: Key, c: Child)
    ensures Keeps(s, Put(s, k, c))
  {
    hide Take, Keeps;
    TakeKeeps(s);
    var t := Take(s);
    if k in t.w.cluster { assert t.w.cluster[k := c].Keys == t.w.cluster.Keys; }
    SameKeeps(t, Put(s, k, c));
    KeepsTransitive(s, t, Put(s, k, c));
  }

  lemma CheckKeeps(s: Session)
    ensures Keeps(s, Check(s)) && Keeps(s, GenerateKeys(s))
  {
    hide Take;
    TakeKeeps(s);
  }

  // ---- Operations ----

  lemma NetworkKeeps(s: Session, vlan: string)
    ensures Keeps(s, CreateVPCNetwork(s, vlan))
  {
    hide Create, Get, Put, Keeps;
    var id, ns := s.w.id, s.w.ns;
    CreateKeeps(s, VpcKey(id), VpcChild(ns, []));
    var s1 := Create(s, VpcKey(id), VpcChild(ns, []));
    GetKeeps(s1, VpcKey(id));
    KeepsTransitive(s, s1, Get(s1, VpcKey(id)));
    var s2 := if s1.err == AlreadyExists then Get(s1, VpcKey(id)) else s1;
    CreateKeeps(s2, NadKey(id, ns), NadChild);
    var s3 := Create(s2, NadKey(id, ns), NadChild);
    KeepsTransitive(s, s2, s3);
    CreateKeeps(s3, SubnetKey(id), SubnetChild(VpcName(id), vlan));
    var s4 := Create(s3, SubnetKey(id), SubnetChild(VpcName(id), vlan));
    KeepsTransitive(s, s3, s4);
    if VpcKey(id) in s2.w.cluster {
      var c := AddRoute(s2.w.cluster[VpcKey(id)], vlan);
      PutKeeps(s4, VpcKey(id), c);
      KeepsTransitive(s, s4, Put(s4, VpcKey(id), c));
    }
  }

  lemma VMKeeps(s: Session, size: ClassSpec)
    ensures Keeps(s, CreatePostgresVM(s, size))
  {
    hide Create, Check, GenerateKeys, IgnoreAlreadyExists, Keeps;
    var id, ns, refs := s.w.id, s.w.ns, St(s).refs;
    CheckKeeps(s);
    var s1 := GenerateKeys(s);
    CheckKeeps(s1);
    KeepsTransitive(s, s1, Check(s1));
    var s2 := if s.inst.obj.spec.s3Backup then Check(s1) else s1;
    if !Halted(s1) && s1.err == NoErr {
      KeysDrawn(s);
      var n := s1.w.nonce - 1;
      CreateKeeps(s2, SecretKey(id, ns), SecretChild(n, n, n));
      var s3 := Create(s2, SecretKey(id, ns), SecretChild(n, n, n));
      KeepsTransitive(s, s2, s3);
      CheckKeeps(s3);
      var s4 := Check(s3);
      KeepsTransitive(s, s3, s4);
      var vm := VmChild(true, size.cpuCores, size.memoryMB, refs.dataVolume, refs.nad, SecretName(id));
      CreateKeeps(s4, VmKey(id, ns), vm);
      KeepsTransitive(s, s4, IgnoreAlreadyExists(Create(s4, VmKey(id, ns), vm)));
    }
  }

  lemma KeysDrawn(s: Session)
    requires !Halted(GenerateKeys(s))
    ensures GenerateKeys(s).w.nonce > 0
  {
  }

  lemma MonitoringKeeps(s: Session)
    ensures Keeps(s, DeployMonitoring(s))
  {
    hide Create, Keeps;
    CreateKeeps(s, ServiceKey(s.w.id, s.w.ns), ServiceChild);
    var t := Create(s, ServiceKey(s.w.id, s.w.ns), ServiceChild);
    CreateKeeps(t, MonitorKey(s.w.id, s.w.ns), MonitorChild);
    KeepsTransitive(s, t, Create(t, MonitorKey(s.w.id, s.w.ns), MonitorChild));
  }

  lemma RewriteKeeps(s: Session, k: Key, c: Child)
    ensures Keeps(s, Get(s, k)) && Keeps(s, Put(Get(s, k), k, c))
  {
    hide Get, Put, Keeps;
    GetKeeps(s, k);
    PutKeeps(Get(s, k), k, c);
    KeepsTransitive(s, Get(s, k), Put(Get(s, k), k, c));
  }

  lemma SetVMRunningKeeps(s: Session, vm: string, running: bool)
    ensures Keeps(s, SetVMRunning(s, vm, running))
  {
    hide Get, Put, Keeps;
    var k := Key(Vm, s.w.ns, vm);
    var t := Get(s, k);
    RewriteKeeps(s, k, if k in t.w.cluster then SetRunning(t.w.cluster[k], running) else NadChild);
  }

  lemma ResizesKeep(s: Session, vm: string, size: ClassSpec, volume: string, sizeGiB: int)
    ensures Keeps(s, ResizeVM(s, vm, size)) && Keeps(s, ResizeDataVolume(s, volume, sizeGiB))
  {
    hide Get, Put, Keeps;
    var k, d := Key(Vm, s.w.ns, vm), Key(DataVolume, s.w.ns, volume);
    var t, u := Get(s, k), Get(s, d);
    RewriteKeeps(s, k, if k in t.w.cluster then SetSize(t.w.cluster[k], size) else NadChild);
    RewriteKeeps(s, d, if d in u.w.cluster then SetCapacity(u.w.cluster[d], sizeGiB) else NadChild);
  }

  // ---- Writes ----

  /** A status write stores what was in memory, or leaves what was stored. */
  lemma WriteStores(s: Session)
    ensures StatusUpdate(s).w.cur.status in {s.w.cur.status, St(s)} && StatusUpdate(s).w.log == s.w.log
    ensures StatusUpdate(s).w.faults == s.w.faults
    ensures St(StatusUpdate(s)) == St(s)
  {
    hide Take;
    TakeKeeps(s);
    TakeFrame(s);
  }

  lemma FinalizerStores(s: Session, finalizer: bool)
    ensures FinalizerUpdate(s, finalizer).w.cur.status == s.w.cur.status && FinalizerUpdate(s, finalizer).w.log == s.w.log
  {
    hide Take;
    TakeKeeps(s);
    TakeFrame(s);
  }
}
