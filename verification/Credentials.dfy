/** Key material survives retries of `CreatePostgresVM` coherently; the CA in the status may not. */
module Credentials {
  import opened Types
  import opened Names
  import opened World
  import opened Harvester
  import opened Reconciler
  import opened Invariants
  import opened Safety
  import opened Phases
  import opened Theorems
  import opened Frames
  import opened Keeping
  import opened Writes
  import Conservation

  /** The Secret's private key and the public key in its userdata come from one generation call,
      as does its CA, and the VM boots from that Secret. */
  predicate Coherent(w: World) {
    var k, vm := SecretKey(w.id, w.ns), VmKey(w.id, w.ns);
    && (k in w.cluster ==>
          w.cluster[k].SecretChild? && w.cluster[k].sshKey == w.cluster[k].authorizedKey == w.cluster[k].ca < w.nonce)
    && (vm in w.cluster ==> w.cluster[vm].VmChild? && w.cluster[vm].userdataSecret == SecretName(w.id))
  }

  lemma AddsCoherent(w: World, v: World, keys: set<Key>)
    requires Adds(w, v, keys) && Coherent(w) && SecretKey(w.id, w.ns) !in keys && VmKey(w.id, w.ns) !in keys
    ensures Coherent(v)
  {
  }

  lemma ResizedCoherent(w: World, v: World)
    requires Resized(w, v) && Coherent(w)
    ensures Coherent(v)
  {
  }

  lemma PowerCoherent(s: Session, during: Phase, running: bool)
    requires Coherent(s.w)
    ensures var t := StatusUpdate(Mark(s, during)); var u := SetVMRunning(t, St(t).refs.vm, running);
            Coherent(t.w) && Coherent(u.w) && Coherent(Fail(u).w) && Coherent(Settle(u, Stopped).w)
            && Coherent(Settle(u, Available).w)
  {
    hide StatusUpdate, SetVMRunning, VmKey;
    PowerFrame(s, during, running);
  }

  lemma DispatchCoherent(s: Session)
    requires Fresh(s) && Coherent(s.w)
    ensures Coherent(Dispatch(s).w)
  {
    hide Fresh, PhaseVM, ReconcileModify, ReconcileDelete, Provision, FinalizerUpdate, StatusUpdate, SetVMRunning,
         TeardownKeys, Adds, Resized;
    var o := s.inst.obj;
    if o.deleting {
      if o.finalizer { DeleteFrame(s); }
    } else if !o.finalizer {
      FinalizerUpdateFrame(s, true);
    } else if o.spec.running == Some(false) && o.status.phase == Available {
      PowerCoherent(s, Stopping, false);
    } else if o.spec.running == Some(true) && o.status.phase == Stopped {
      PowerCoherent(s, Starting, true);
    } else if o.status.phase == Available && o.generation != o.status.observedGeneration {
      ModifyFrame(s);
      ResizedCoherent(s.w, ReconcileModify(s).w);
    } else {
      ProvisionCoherent(s);
    }
  }

  lemma ProvisionCoherent(s: Session)
    requires Coherent(s.w)
    ensures Coherent(Provision(s).w)
  {
    hide PhaseVM, Provision;
    if St(s).provisioning == StorageProvisioned {
      VMProvisions(s);
      VMAdds(s);
    } else {
      ProvisionAdds(s);
      AddsCoherent(s.w, Provision(s).w, PhaseKeys(s.w.id, s.w.ns, St(s).provisioning));
    }
  }

  lemma VMProvisions(s: Session)
    requires St(s).provisioning == StorageProvisioned
    ensures Provision(s) == PhaseVM(s)
  {
    hide PhaseVM;
  }

  lemma ReconcileCoherent(w: World, script: seq<Turn>)
    requires WorldOk(w) && Coherent(w)
    ensures Coherent(Reconcile(w, script).w)
  {
    ReadOk(Begin(w, script));
    ReadFrame(w, script);
    var s := Read(Begin(w, script));
    hide WorldOk, Dispatch, Read;
    if !Halted(s) && s.err == NoErr { DispatchCoherent(s); }
  }

  /** However often the VM call is repeated, the key the snapshot reconciler reads and the key
      the VM trusts belong together, if no foreign Secret or VM took the instance's names. */
  lemma {:induction false} KeysBelongTogether(w: World, scripts: seq<seq<Turn>>)
    requires WorldOk(w) && Coherent(w)
    ensures Coherent(Run(w, scripts))
    decreases |scripts|
  {
    if scripts != [] {
      hide WorldOk, Reconcile, Coherent;
      ReconcileOk(w, scripts[0]);
      ReconcileCoherent(w, scripts[0]);
      KeysBelongTogether(Reconcile(w, scripts[0]).w, scripts[1..]);
    }
  }

  /** The CA a VM call hands back equals the CA in the Secret exactly when this call created the
      Secret; a call repeated after a crash hands back a CA nobody holds. */
  lemma CaMatchesIffFirstCall(s: Session, size: ClassSpec)
    requires Coherent(s.w) && !Halted(CreatePostgresVM(s, size)) && CreatePostgresVM(s, size).err == NoErr
    ensures var t := CreatePostgresVM(s, size); var k := SecretKey(s.w.id, s.w.ns);
            && St(RecordVM(t)).caCert.Some? && k in t.w.cluster && t.w.cluster[k].SecretChild?
            && (St(RecordVM(t)).caCert.value == t.w.cluster[k].ca <==> k !in s.w.cluster)
  {
    hide CreatePostgresVM;
    CreatePostgresVMFrame(s, size);
  }

  /** The stored CA is the one in the Secret. */
  predicate CaAgrees(w: World) {
    var k := SecretKey(w.id, w.ns);
    k in w.cluster && w.cluster[k].SecretChild? && w.cur.status.caCert == Some(w.cluster[k].ca)
  }

  /** The VM phase, if it stored a CA: it agrees with the Secret exactly when the Secret did not
      exist before. */
  lemma VMPhaseCa(s: Session)
    requires Fresh(s) && MayCreate(s) && St(s).provisioning == StorageProvisioned && Coherent(s.w)
    requires s.w.cur.status.caCert == None && PhaseVM(s).w.cur.status.caCert.Some?
    ensures var v := PhaseVM(s).w;
            && v.id == s.w.id && v.ns == s.w.ns && SecretKey(v.id, v.ns) in v.cluster
            && (CaAgrees(v) <==> SecretKey(s.w.id, s.w.ns) !in s.w.cluster)
  {
    FreshOk(s);
    assert St(s).caCert == None && St(s).refs.vm == "";
    hide Fresh, Legal, ObjectOk, StatusUpdate, CreatePostgresVM, ClassOf, Coherent, Keeps;
    var size := ClassOf(s.inst.obj.spec.instanceClass);
    WriteStores(WithStatus(s, St(s).(phase := Failed, provisioning := PhaseFailed)));
    assert size.Some?;
    var t := CreatePostgresVM(s, size.value);
    assert t.w.cur.status == s.w.cur.status && t.inst == s.inst && t.w.id == s.w.id && t.w.ns == s.w.ns by {
      VMKeeps(s, size.value);
      KeepsMeans(s, t);
    }
    WriteStores(WithStatus(t, St(t).(phase := Failed, provisioning := PhaseFailed)));
    WriteStores(RecordVM(t));
    StatusUpdateFrame(RecordVM(t));
    assert !Halted(t) && t.err == NoErr;
    CaMatchesIffFirstCall(s, size.value);
  }

  lemma KeepsMeans(s: Session, t: Session)
    requires Keeps(s, t)
    ensures t.w.cur.status == s.w.cur.status && t.inst == s.inst && t.w.id == s.w.id && t.w.ns == s.w.ns
  {
  }

  /** The reconcile that stores the CA, whichever it is and whatever else happens in it. */
  lemma RecordingReconcile(w: World, script: seq<Turn>)
    requires WorldOk(w) && Coherent(w)
    requires w.cur.status.caCert == None && Reconcile(w, script).w.cur.status.caCert.Some?
    ensures var v := Reconcile(w, script).w;
            && SecretKey(w.id, w.ns) in v.cluster && v.id == w.id && v.ns == w.ns
            && (CaAgrees(v) <==> SecretKey(w.id, w.ns) !in w.cluster)
  {
    ReadOk(Begin(w, script));
    ReadFrame(w, script);
    var s := Read(Begin(w, script));
    assert s.w.cur.status == w.cur.status by { TakeKeeps(Begin(w, script)); }
    hide WorldOk, Dispatch, Read, Fresh, PhaseVM;
    assert !Halted(s) && s.err == NoErr;
    DispatchTame(s);
    ReadIsOlder(s);
    VMPhaseCa(s);
  }

  // ---- The CA shown to clients, over whole runs ----

  /** The Secret still is `c`, or it is gone and its deletion has been seen. */
  ghost predicate Holds(w: World, c: Child) {
    var k := SecretKey(w.id, w.ns);
    if k in w.cluster then w.cluster[k] == c else Version(w, w.cached).deleting
  }

  lemma DispatchHolds(s: Session, c: Child)
    requires Fresh(s) && c.SecretChild? && SecretKey(s.w.id, s.w.ns) in s.w.cluster && s.w.cluster[SecretKey(s.w.id, s.w.ns)] == c
    ensures var v, k := Dispatch(s).w, SecretKey(s.w.id, s.w.ns);
            if k in v.cluster then v.cluster[k] == c else s.inst.obj.deleting
  {
    hide Fresh, ReconcileModify, ReconcileDelete, Provision, FinalizerUpdate, StatusUpdate, SetVMRunning,
         TeardownKeys, PhaseKeys;
    var o := s.inst.obj;
    if o.deleting {
      if o.finalizer { DeleteFrame(s); }
    } else if !o.finalizer {
      FinalizerUpdateFrame(s, true);
    } else if o.spec.running == Some(false) && o.status.phase == Available {
      PowerFrame(s, Stopping, false);
    } else if o.spec.running == Some(true) && o.status.phase == Stopped {
      PowerFrame(s, Starting, true);
    } else if o.status.phase == Available && o.generation != o.status.observedGeneration {
      ModifyFrame(s);
    } else {
      ProvisionAdds(s);
    }
  }

  lemma DispatchGone(s: Session)
    requires Fresh(s) && s.inst.obj.deleting
    ensures Dispatch(s).w.cluster.Keys <= s.w.cluster.Keys && Dispatch(s).w.id == s.w.id && Dispatch(s).w.ns == s.w.ns
    ensures forall k | k in Dispatch(s).w.cluster :: Dispatch(s).w.cluster[k] == s.w.cluster[k]
  {
    hide Fresh, ReconcileDelete, TeardownKeys;
    if s.inst.obj.finalizer { DeleteFrame(s); }
  }

  /** A Secret is never replaced by another one. */
  lemma {:induction false} SecretIsFixed(w: World, scripts: seq<seq<Turn>>, c: Child)
    requires WorldOk(w) && Holds(w, c) && c.SecretChild?
    ensures Holds(Run(w, scripts), c)
    decreases |scripts|
  {
    if scripts != [] {
      ReconcileHolds(w, scripts[0], c);
      ReconcileOk(w, scripts[0]);
      hide WorldOk, Reconcile, Holds;
      SecretIsFixed(Reconcile(w, scripts[0]).w, scripts[1..], c);
    }
  }

  lemma ReconcileHolds(w: World, script: seq<Turn>, c: Child)
    requires WorldOk(w) && Holds(w, c) && c.SecretChild?
    ensures Holds(Reconcile(w, script).w, c)
  {
    var v := Reconcile(w, script).w;
    ReconcileOk(w, script);
    ReadOk(Begin(w, script));
    ReadFrame(w, script);
    var s := Read(Begin(w, script));
    if Version(w, w.cached).deleting { StillDeleting(w, v); }
    if !Halted(s) && s.err == NoErr {
      if Version(w, w.cached).deleting { StillDeleting(w, s.w); }
      DispatchOk(s);
      if Version(s.w, s.w.cached).deleting { StillDeleting(s.w, v); }
      hide WorldOk, Dispatch, Read;
      if SecretKey(w.id, w.ns) in w.cluster { DispatchHolds(s, c); } else { DispatchGone(s); }
    }
  }

  /** Both sides of the comparison are final: the stored CA never changes, and neither does the
      Secret while it exists. */
  lemma CaAgreementSettled(w: World, scripts: seq<seq<Turn>>)
    requires WorldOk(w) && w.cur.status.caCert.Some? && SecretKey(w.id, w.ns) in w.cluster
    requires w.cluster[SecretKey(w.id, w.ns)].SecretChild?
    ensures var v, k := Run(w, scripts), SecretKey(w.id, w.ns);
            && v.id == w.id && v.ns == w.ns && v.cur.status.caCert == w.cur.status.caCert
            && (k in v.cluster ==> v.cluster[k] == w.cluster[k])
  {
    RunOk(w, scripts);
    SecretIsFixed(w, scripts, w.cluster[SecretKey(w.id, w.ns)]);
    var v := Run(w, scripts);
    hide Run, WorldOk;
    LaterVersions(v, |w.past|, |v.past|);
    assert Version(v, |w.past|) == w.cur;
  }

  /** Over whole runs: let `script` be the reconcile that stores the CA. After any later run, while
      the Secret exists, the CA shown to clients is the Secret's if and only if the Secret did
      not exist before that reconcile, that is, if it was the first to get that far. */
  lemma CaAgreesIffFirstExecution(w: World, script: seq<Turn>, later: seq<seq<Turn>>)
    requires Reachable(w) && Coherent(w)
    requires w.cur.status.caCert == None && Reconcile(w, script).w.cur.status.caCert.Some?
    ensures var v := Run(Reconcile(w, script).w, later);
            && v.cur.status.caCert.Some?
            && (SecretKey(w.id, w.ns) in v.cluster ==> (CaAgrees(v) <==> SecretKey(w.id, w.ns) !in w.cluster))
  {
    hide *;
    ReachableOk(w);
    ReconcileOk(w, script);
    RecordingReconcile(w, script);
    ReconcileCoherent(w, script);
    CoherentSecret(Reconcile(w, script).w);
    CaAgreementSettled(Reconcile(w, script).w, later);
    SameAgreement(Reconcile(w, script).w, Run(Reconcile(w, script).w, later));
  }

  lemma CoherentSecret(w: World)
    requires Coherent(w)
    ensures SecretKey(w.id, w.ns) in w.cluster ==> w.cluster[SecretKey(w.id, w.ns)].SecretChild?
  {
  }

  lemma SameAgreement(w: World, v: World)
    requires v.id == w.id && v.ns == w.ns && v.cur.status.caCert == w.cur.status.caCert
    requires SecretKey(w.id, w.ns) in w.cluster
    requires SecretKey(w.id, w.ns) in v.cluster ==> v.cluster[SecretKey(w.id, w.ns)] == w.cluster[SecretKey(w.id, w.ns)]
    ensures SecretKey(w.id, w.ns) in v.cluster ==> (CaAgrees(v) <==> CaAgrees(w))
  {
  }

  // ---- Runs that lose nothing ----

  ghost predicate CaFine(w: World) { w.live && w.cur.status.caCert.Some? ==> CaAgrees(w) }

  /** While the children are accounted for, the Secret exists exactly when it is recorded. */
  lemma SecretIffRecorded(w: World)
    requires WorldOk(w) && Conservation.Accounted(w)
    ensures w.live && w.cur.status.caCert.Some? ==> SecretKey(w.id, w.ns) in w.cluster
    ensures w.cur.status.caCert == None ==> SecretKey(w.id, w.ns) !in w.cluster
  {
    assert VersionOk(w, |w.past|);
    hide WorldOk, Coupled;
    var k := SecretKey(w.id, w.ns);
    assert k in ChildKeys(w.id, w.ns) && k != ServiceKey(w.id, w.ns);
    assert k in w.cluster ==> k in Conservation.Children(w);
    assert w.cur.status.refs.secret != "" ==> k in TeardownKeys(w.ns, w.cur.status.refs);
  }

  lemma ReconcileCaFine(w: World, script: seq<Turn>)
    requires WorldOk(w) && Coherent(w) && Conservation.Accounted(w) && CaFine(w)
    requires Conservation.Accounted(Reconcile(w, script).w)
    ensures CaFine(Reconcile(w, script).w)
  {
    var v, k := Reconcile(w, script).w, SecretKey(w.id, w.ns);
    ReconcileOk(w, script);
    SecretIffRecorded(w);
    SecretIffRecorded(v);
    assert Version(v, |w.past|) == w.cur;
    LaterVersions(v, |w.past|, |v.past|);
    if v.live && v.cur.status.caCert.Some? {
      if w.cur.status.caCert == None {
        hide WorldOk, Reconcile, Coherent;
        RecordingReconcile(w, script);
      } else {
        ReconcileHolds(w, script, w.cluster[k]);
        hide WorldOk, Reconcile, Coherent;
      }
    }
  }

  lemma {:induction false} RunCaFine(w: World, scripts: seq<seq<Turn>>)
    requires WorldOk(w) && Coherent(w) && Conservation.Accounted(w) && CaFine(w)
    requires Conservation.Lossless(Run(w, scripts)) && Conservation.AllWhole(w, scripts)
    ensures CaFine(Run(w, scripts))
    decreases |scripts|
  {
    if scripts != [] {
      hide WorldOk, Reconcile, Coherent, CaFine, Conservation.Accounted, Conservation.Whole;
      var v := Reconcile(w, scripts[0]).w;
      ReconcileOk(w, scripts[0]);
      RunOk(v, scripts[1..]);
      Conservation.ReconcileAccounts(w, scripts[0]);
      ReconcileCoherent(w, scripts[0]);
      ReconcileCaFine(w, scripts[0]);
      RunCaFine(v, scripts[1..]);
    }
  }

  /** If no store call was lost and no call failed in part or leaked, every CA a client is ever
      shown is the one in the Secret. */
  lemma CaAgreesWhenNothingLost(id: string, ns: string, spec: Spec, cluster: map<Key, Child>, scripts: seq<seq<Turn>>)
    requires cluster.Keys !! ChildKeys(id, ns)
    requires Conservation.Lossless(Run(Init(id, ns, spec, cluster), scripts))
    requires Conservation.AllWhole(Init(id, ns, spec, cluster), scripts)
    ensures var w := Run(Init(id, ns, spec, cluster), scripts); w.live && w.cur.status.caCert.Some? ==> CaAgrees(w)
  {
    var w0 := Init(id, ns, spec, cluster);
    InitOk(id, ns, spec, cluster);
    assert SecretKey(id, ns) in ChildKeys(id, ns) && VmKey(id, ns) in ChildKeys(id, ns);
    assert Coherent(w0) && CaFine(w0);
    assert Conservation.Accounted(w0) by { hide ChildKeys; }
    hide WorldOk, Run, Coherent, Conservation.AllWhole, Conservation.Accounted;
    RunCaFine(w0, scripts);
  }

  /** Over every run of an instance whose names were free: the key the snapshot reconciler reads
      from the Secret is the one the VM booted with. */
  lemma KeysAlwaysMatch(id: string, ns: string, spec: Spec, cluster: map<Key, Child>, scripts: seq<seq<Turn>>)
    requires SecretKey(id, ns) !in cluster && VmKey(id, ns) !in cluster
    ensures Coherent(Run(Init(id, ns, spec, cluster), scripts))
  {
    InitOk(id, ns, spec, cluster);
    hide WorldOk, Run;
    KeysBelongTogether(Init(id, ns, spec, cluster), scripts);
  }
}
