/** Each phase of the reconciler writes a legal next version, so every run of every script
    keeps the invariants. */
module Phases {
  import opened Types
  import opened Names
  import opened World
  import opened Harvester
  import opened Reconciler
  import opened Invariants
  import opened Safety

  // ---- Legal edits of one version ----

  predicate Edit(id: string, faults: Faults, o: Object, st: Status) {
    ObjectOk(id, o.(status := st)) && Evolves(id, faults, o, o.(status := st))
  }

  /** A live version, as the provisioning phases find it. */
  predicate At(id: string, o: Object, p: Provisioning) {
    ObjectOk(id, o) && !o.deleting && o.finalizer && o.status.provisioning == p
  }

  lemma FailEdit(id: string, faults: Faults, o: Object, st: Status)
    requires ObjectOk(id, o) && !o.deleting && o.finalizer && o.status.provisioning != PhaseFailed
    requires st == o.status.(phase := st.phase)
    requires faults.fatal == 0 && Rank(o.status.provisioning) < 8 ==> ClassOf(o.spec.instanceClass) == None
    ensures Edit(id, faults, o, st.(phase := Failed, provisioning := PhaseFailed))
  {
    hide ClassOf;
  }

  lemma NetworkEdit(id: string, faults: Faults, o: Object, refs: Refs)
    requires At(id, o, Unset)
    requires refs == o.status.refs.(vpc := ExpectedNetwork(id, o.spec).0, subnet := ExpectedNetwork(id, o.spec).1,
                                    nad := ExpectedNetwork(id, o.spec).2)
    ensures Edit(id, faults, o, o.status.(phase := Creating, refs := refs, provisioning := NetworkProvisioned))
  {
    hide ClassOf;
  }

  lemma StorageEdit(id: string, faults: Faults, o: Object)
    requires At(id, o, NetworkProvisioned)
    ensures Edit(id, faults, o, o.status.(refs := o.status.refs.(dataVolume := DataVolumeName(id)),
                                         provisioning := StorageProvisioned))
  {
    hide ClassOf, ExpectedNetwork;
  }

  lemma VMEdit(id: string, faults: Faults, o: Object, ca: nat)
    requires At(id, o, StorageProvisioned) && ClassOf(o.spec.instanceClass).Some?
    ensures Edit(id, faults, o, o.status.(
              refs := o.status.refs.(vm := VmName(id), secret := SecretName(id)),
              caCert := Some(ca), masterUserSecret := Some(SecretName(id)), provisioning := VMCreated))
  {
    hide ClassOf, ExpectedNetwork;
  }

  lemma WaitEdit(id: string, faults: Faults, o: Object, p: Provisioning, ip: string, port: int, mgmt: string)
    requires At(id, o, p) && p in {VMCreated, WaitingForCloudInit}
    ensures Edit(id, faults, o, o.status)
    ensures Edit(id, faults, o, o.status.(provisioning := WaitingForCloudInit))
    ensures ip != "" ==>
              Edit(id, faults, o, o.status.(endpoint := Some(Endpoint(ip, port)), managementAddress := mgmt,
                                           provisioning := DatabaseReady))
  {
    hide ClassOf, ExpectedNetwork;
  }

  lemma MonitoringEdit(id: string, faults: Faults, o: Object)
    requires At(id, o, DatabaseReady)
    ensures Edit(id, faults, o, o.status.(provisioning := MonitoringDeployed))
    ensures Edit(id, faults, o, o.status.(refs := o.status.refs.(monitor := MonitorName(id)),
                                         provisioning := MonitoringDeployed))
  {
    hide ClassOf, ExpectedNetwork;
  }

  lemma PeeringEdit(id: string, faults: Faults, o: Object)
    requires At(id, o, MonitoringDeployed)
    ensures faults.peering > 0 || o.spec.vpcPeering == None ==>
              Edit(id, faults, o, o.status.(provisioning := VpcPeeringCreated))
    ensures o.spec.vpcPeering.Some? ==>
              Edit(id, faults, o, o.status.(refs := o.status.refs.(peering := PeeringName(id)),
                                           provisioning := VpcPeeringCreated))
  {
    hide ClassOf, ExpectedNetwork;
  }

  lemma AvailableEdit(id: string, faults: Faults, o: Object, p: Provisioning, r: Readiness)
    requires At(id, o, p) && p in {VpcPeeringCreated, PhaseAvailable}
    ensures Edit(id, faults, o, RefreshAddresses(
                   o.status.(phase := Available, provisioning := PhaseAvailable,
                             observedGeneration := o.generation), o.spec, r))
  {
    hide ClassOf, ExpectedNetwork;
  }

  lemma PowerEdit(id: string, faults: Faults, o: Object, p: Phase)
    requires At(id, o, PhaseAvailable) && p in {Available, Stopping, Stopped, Starting, Modifying}
    ensures Edit(id, faults, o, o.status.(phase := p))
    ensures Edit(id, faults, o, o.status.(phase := p, observedGeneration := o.generation))
  {
    hide ClassOf, ExpectedNetwork;
  }

  lemma DeleteEdit(id: string, faults: Faults, o: Object)
    requires ObjectOk(id, o) && o.deleting
    ensures Edit(id, faults, o, o.status) && Edit(id, faults, o, o.status.(phase := Deleting))
  {
    hide ClassOf, ExpectedNetwork;
  }

  // ---- Sessions ----

  ghost predicate Fresh(s: Session) { SessionOk(s) && s.inst.obj == Version(s.w, s.inst.rv) }

  ghost predicate Done(s: Session, t: Session) { Grows(s.w, t.w) && SessionOk(t) && t.w.cached == s.w.cached }

  lemma FreshOk(s: Session)
    requires Fresh(s)
    ensures ObjectOk(s.w.id, s.inst.obj) && Issued(s.w.nonce, St(s)) && Legal(s.w, s.inst)
  {
    assert VersionOk(s.w, s.inst.rv);
  }

  /** A phase that edits the version it read and writes it: the shape of every phase. */
  lemma WriteOk(s: Session, t: Session, st: Status)
    requires Fresh(s) && Steps(s, t) && t.inst == s.inst
    requires Edit(s.w.id, t.w.faults, s.inst.obj, st) && Issued(t.w.nonce, st)
    ensures Done(s, StatusUpdate(WithStatus(t, st)))
    ensures Steps(WithStatus(t, st), StatusUpdate(WithStatus(t, st)))
  {
    EditOk(s, t, st);
    var u := WithStatus(t, st);
    hide WorldOk, Legal, Anchored, StatusUpdate;
    StatusUpdateOk(u);
    GrowsTransitive(s.w, t.w, StatusUpdate(u).w);
  }

  lemma EditOk(s: Session, t: Session, st: Status)
    requires Fresh(s) && Steps(s, t) && t.inst == s.inst
    requires Edit(s.w.id, t.w.faults, s.inst.obj, st) && Issued(t.w.nonce, st)
    ensures SessionOk(WithStatus(t, st)) && Legal(WithStatus(t, st).w, WithStatus(t, st).inst)
  {
    hide WorldOk, ObjectOk, Evolves;
  }

  lemma PhaseNetworkOk(s: Session)
    requires Fresh(s) && MayCreate(s) && St(s).provisioning == Unset
    ensures Done(s, PhaseNetwork(s))
  {
    hide WorldOk, Grows, Legal, Anchored, ObjectOk, Evolves, StatusUpdate, CreateVPCNetwork, Version;
    FreshOk(s);
    var o, spec := s.inst.obj, s.inst.obj.spec;
    UnsetRefs(s.w.id, o);
    var c := WithStatus(s, St(s).(phase := Creating));
    StepsReflexive(s);
    if spec.networkRef != "" {
      var refs := St(s).refs.(nad := spec.networkRef);
      NetworkEdit(s.w.id, s.w.faults, o, refs);
      WriteOk(s, s, St(c).(refs := refs, provisioning := NetworkProvisioned));
    } else {
      var vlan := Vlan(spec);
      UnwrittenOk(s, St(c));
      CreateVPCNetworkOk(c, vlan);
      var t := CreateVPCNetwork(c, vlan);
      BackToRead(s, c, t);
      var u := WithStatus(t, St(s));
      if !Halted(t) {
        if t.err != NoErr {
          FailEdit(s.w.id, t.w.faults, o, St(c));
          WriteOk(s, u, St(c).(phase := Failed, provisioning := PhaseFailed));
        } else {
          var id := s.w.id;
          var refs := St(s).refs.(vpc := VpcName(id), subnet := SubnetName(id), nad := NadName(id));
          NetworkEdit(id, t.w.faults, o, refs);
          WriteOk(s, u, St(c).(refs := refs, provisioning := NetworkProvisioned));
        }
      }
    }
  }

  lemma UnsetRefs(id: string, o: Object)
    requires ObjectOk(id, o) && !o.deleting && o.status.provisioning == Unset
    ensures o.status.refs == NoRefs && o.status.phase == NoPhase
  {
  }

  lemma BackToRead(s: Session, c: Session, t: Session)
    requires Fresh(s) && c == WithStatus(s, St(c)) && Steps(c, t) && t.inst == c.inst
    ensures Steps(s, WithStatus(t, St(s))) && WithStatus(t, St(s)).inst == s.inst
  {
    hide WorldOk, ObjectOk, Evolves;
    FreshOk(s);
    var u := WithStatus(t, St(s));
    assert u.inst == s.inst;
    assert Version(u.w, u.inst.rv) == Version(s.w, s.inst.rv);
    assert Legal(u.w, u.inst) by {
      SelfEvolves(s.w.id, u.w.faults, s.inst.obj);
    }
  }

  lemma PhaseStorageOk(s: Session)
    requires Fresh(s) && MayCreate(s) && St(s).provisioning == NetworkProvisioned
    ensures Done(s, PhaseStorage(s))
  {
    hide WorldOk, Grows, Legal, Anchored, Evolves, StatusUpdate, Create, Version;
    FreshOk(s);
    var o, spec := s.inst.obj, s.inst.obj.spec;
    var kind := StorageClass(spec);
    var k, c := DataVolumeKey(s.w.id, s.w.ns), VolumeChild(spec.allocatedStorage, kind);
    CreateOk(s, k, c);
    var t := CreateDataVolume(s, spec.allocatedStorage, kind);
    assert Steps(s, t) && t.inst == s.inst;
    if !Halted(t) {
      if t.err != NoErr {
        FailEdit(s.w.id, t.w.faults, o, St(s));
        WriteOk(s, t, St(s).(phase := Failed, provisioning := PhaseFailed));
      } else {
        StorageEdit(s.w.id, t.w.faults, o);
        WriteOk(s, t, St(s).(refs := St(s).refs.(dataVolume := DataVolumeName(s.w.id)),
                             provisioning := StorageProvisioned));
      }
    }
  }

  lemma PhaseVMOk(s: Session)
    requires Fresh(s) && MayCreate(s) && St(s).provisioning == StorageProvisioned
    ensures Done(s, PhaseVM(s))
  {
    hide WorldOk, Grows, Legal, Anchored, Evolves, StatusUpdate, CreatePostgresVM, Version, ClassOf;
    FreshOk(s);
    StepsReflexive(s);
    var o, id := s.inst.obj, s.w.id;
    var size := ClassOf(o.spec.instanceClass);
    if size == None {
      FailEdit(id, s.w.faults, o, St(s));
      WriteOk(s, s, St(s).(phase := Failed, provisioning := PhaseFailed));
    } else {
      CreatePostgresVMOk(s, size.value);
      var t := CreatePostgresVM(s, size.value);
      if !Halted(t) {
        if t.err != NoErr {
          FailEdit(id, t.w.faults, o, St(s));
          WriteOk(s, t, St(s).(phase := Failed, provisioning := PhaseFailed));
        } else {
          VMEdit(id, t.w.faults, o, t.w.nonce - 1);
          WriteOk(s, t, St(RecordVM(t)));
        }
      }
    }
  }

  lemma PhaseWaitReadyOk(s: Session)
    requires Fresh(s) && MayCreate(s) && St(s).provisioning in {VMCreated, WaitingForCloudInit}
    ensures Done(s, PhaseWaitReady(s))
  {
    hide WorldOk, Grows, Legal, Anchored, Evolves, StatusUpdate, Take, Version, ReadinessOf;
    FreshOk(s);
    TakeOk(s);
    var t := Take(s);
    if !Halted(t) {
      var o, r := s.inst.obj, ReadinessOf(t.now);
      WaitEdit(s.w.id, t.w.faults, o, St(s).provisioning, r.ip, SpecPort(o.spec.port), r.mgmtIp);
      assert Beside(t, Poll(t));
      Effect(s, t, Poll(t));
      if !r.running || r.ip == "" {
        WriteOk(s, Poll(t), St(s).(provisioning := WaitingForCloudInit));
      } else if !r.ready {
        WriteOk(s, Poll(t), St(s));
        assert WithStatus(Poll(t), St(s)) == Poll(t);
      } else {
        WriteOk(s, t, St(s).(endpoint := Some(Endpoint(r.ip, SpecPort(o.spec.port))),
                             managementAddress := r.mgmtIp, provisioning := DatabaseReady));
      }
    }
  }

  lemma DeployMonitoringOk(s: Session)
    requires SessionOk(s) && MayCreate(s)
    ensures Steps(s, DeployMonitoring(s)) && DeployMonitoring(s).inst == s.inst
  {
    hide WorldOk, Grows, Legal, Anchored, Create;
    var id, ns := s.w.id, s.w.ns;
    CreateOk(s, ServiceKey(id, ns), ServiceChild);
    var t := Create(s, ServiceKey(id, ns), ServiceChild);
    if !Halted(t) {
      CreateOk(t, MonitorKey(id, ns), MonitorChild);
      StepsTransitive(s, t, DeployMonitoring(s));
    }
  }

  /** The endpoint dereference is safe: `DatabaseReady` is stored only with an endpoint. */
  lemma PhaseMonitoringOk(s: Session)
    requires Fresh(s) && MayCreate(s) && St(s).provisioning == DatabaseReady
    ensures Done(s, PhaseMonitoring(s))
  {
    hide WorldOk, Grows, Legal, Anchored, Evolves, StatusUpdate, DeployMonitoring, Version;
    FreshOk(s);
    assert St(s).endpoint.Some? && St(s).refs.monitor == "";
    DeployMonitoringOk(s);
    var t := DeployMonitoring(s);
    if !Halted(t) {
      MonitoringEdit(s.w.id, t.w.faults, s.inst.obj);
      if t.err == NoErr {
        WriteOk(s, t, St(s).(refs := St(s).refs.(monitor := MonitorName(s.w.id)), provisioning := MonitoringDeployed));
      } else {
        WriteOk(s, t, St(s).(provisioning := MonitoringDeployed));
      }
    }
  }

  lemma PhaseVpcPeeringOk(s: Session)
    requires Fresh(s) && MayCreate(s) && St(s).provisioning == MonitoringDeployed
    ensures Done(s, PhaseVpcPeering(s))
  {
    hide WorldOk, Grows, Legal, Anchored, Evolves, StatusUpdate, Create, Version;
    FreshOk(s);
    StepsReflexive(s);
    var o, refs, peering := s.inst.obj, St(s).refs, s.inst.obj.spec.vpcPeering;
    assert refs.peering == "";
    if peering == None {
      PeeringEdit(s.w.id, s.w.faults, o);
      WriteOk(s, s, St(s).(provisioning := VpcPeeringCreated));
    } else {
      CreateOk(s, PeeringKey(s.w.id), PeeringChild(refs.vpc, refs.subnet, peering.value));
      var t := CreateVpcPeering(s, peering.value);
      assert Steps(s, t) && t.inst == s.inst;
      if !Halted(t) {
        PeeringEdit(s.w.id, t.w.faults, o);
        if t.err == NoErr {
          WriteOk(s, t, St(s).(refs := refs.(peering := PeeringName(s.w.id)), provisioning := VpcPeeringCreated));
        } else {
          WriteOk(s, t, St(s).(provisioning := VpcPeeringCreated));
        }
      }
    }
  }

  lemma PhaseAvailableOk(s: Session)
    requires Fresh(s) && MayCreate(s) && St(s).provisioning in {VpcPeeringCreated, PhaseAvailable}
    ensures Done(s, PhaseAvailableStep(s))
  {
    hide WorldOk, Grows, Legal, Anchored, Evolves, StatusUpdate, Take, Version, ReadinessOf;
    FreshOk(s);
    var o := s.inst.obj;
    var st := St(s).(phase := Available, provisioning := PhaseAvailable, observedGeneration := o.generation);
    var s1 := WithStatus(s, st);
    UnwrittenOk(s, st);
    TakeOk(s1);
    var t := Take(s1);
    BackToRead(s, s1, t);
    if !Halted(t) {
      var r := ReadinessOf(t.now);
      AvailableEdit(s.w.id, t.w.faults, o, St(s).provisioning, r);
      WriteOk(s, WithStatus(t, St(s)), RefreshAddresses(st, o.spec, r));
    }
  }

  lemma UnwrittenOk(s: Session, st: Status)
    requires SessionOk(s)
    ensures SessionOk(WithStatus(s, st))
  {
    hide WorldOk;
  }

  // ---- Stop, start, modify, delete ----

  /** After the first, possibly lost, status write of a two-write reconcile: the session still
      sits on a stored version that differs from its copy in `phase` at most. */
  ghost predicate Midway(s: Session, t: Session, base: Session) {
    && Fresh(base) && base == WithStatus(t, St(base)) && Steps(base, base) && SessionOk(t)
    && Grows(s.w, t.w) && base.inst.obj.spec == s.inst.obj.spec && base.inst.obj.deleting == s.inst.obj.deleting
    && base.inst.obj.finalizer == s.inst.obj.finalizer && base.inst.obj.generation == s.inst.obj.generation
    && St(base).phase in {St(s).phase, St(t).phase}
    && St(base) == St(s).(phase := St(base).phase) && St(t) == St(s).(phase := St(t).phase)
    && t.w.id == s.w.id && t.w.ns == s.w.ns && t.w.cached == s.w.cached
  }

  function Base(t: Session): Session { WithStatus(t, Version(t.w, t.inst.rv).status) }

  lemma FirstWrite(s: Session, p: Phase)
    requires Fresh(s) && Edit(s.w.id, s.w.faults, s.inst.obj, St(s).(phase := p)) && Issued(s.w.nonce, St(s))
    ensures var t := StatusUpdate(Mark(s, p)); Midway(s, t, Base(t)) && St(t).phase == p
  {
    hide WorldOk, Legal, Evolves, ObjectOk, Take;
    StepsReflexive(s);
    WriteOk(s, s, St(s).(phase := p));
    var m := Mark(s, p);
    EditOk(s, s, St(m));
    var t := StatusUpdate(m);
    StatusUpdateOk(m);
    TakeOk(m);
    assert Version(t.w, s.inst.rv) == Version(s.w, s.inst.rv);
    StepsReflexive(Base(t));
    FirstWriteBase(m, t);
  }

  /** A status write leaves the session on the version it read or on the one it wrote. */
  lemma FirstWriteBase(m: Session, t: Session)
    requires SessionOk(m) && Legal(m.w, m.inst) && t == StatusUpdate(m)
    ensures t.inst.obj == m.inst.obj
    ensures Version(t.w, t.inst.rv).status in {m.inst.obj.status, Version(m.w, m.inst.rv).status}
    ensures t.err != NoErr || Halted(t) || Version(t.w, t.inst.rv) == m.inst.obj
  {
    TakeOk(m);
    var u := Take(m);
    if !Halted(u) && Writable(u) {
      CommitOk(u, u.w.cur.(status := St(u)), true);
    }
  }

  /** The second write: any legal edit of the base version, made from the copy in memory. */
  lemma SecondWrite(s: Session, t: Session, u: Session, st: Status)
    requires Midway(s, t, Base(t)) && Steps(t, u) && u.inst == t.inst
    requires Edit(s.w.id, u.w.faults, Base(t).inst.obj, st) && Issued(u.w.nonce, st)
    ensures Done(s, StatusUpdate(WithStatus(u, st)))
  {
    hide WorldOk, Legal, Anchored, Evolves, ObjectOk, StatusUpdate;
    var b := Base(t);
    assert b == WithStatus(t, St(b)) && t == WithStatus(b, St(t));
    BackToRead(b, t, u);
    var v := WithStatus(u, St(b));
    WriteOk(b, v, st);
    assert WithStatus(v, st) == WithStatus(u, st);
    GrowsTransitive(s.w, b.w, StatusUpdate(WithStatus(u, st)).w);
  }

  lemma PowerOk(s: Session, during: Phase, after: Phase, running: bool)
    requires Fresh(s) && At(s.w.id, s.inst.obj, PhaseAvailable)
    requires during in {Stopping, Starting} && after in {Stopped, Available}
    ensures var t := StatusUpdate(Mark(s, during));
            Done(s, t) && (!Halted(t) ==>
              var u := SetVMRunning(t, St(t).refs.vm, running);
              Done(s, u) && (!Halted(u) ==> Done(s, Fail(u)) && Done(s, Settle(u, after))))
  {
    hide WorldOk, Grows, Legal, Anchored, Evolves, StatusUpdate, SetVMRunning, Version;
    var o := s.inst.obj;
    FreshOk(s);
    PowerEdit(s.w.id, s.w.faults, o, during);
    FirstWrite(s, during);
    var t := StatusUpdate(Mark(s, during));
    var vm := St(t).refs.vm;
    SetVMRunningOk(t, vm, running);
    var u := SetVMRunning(t, vm, running);
    GrowsTransitive(s.w, t.w, u.w);
    if !Halted(u) {
      var b := Base(t);
      FreshOk(b);
      FailEdit(s.w.id, u.w.faults, b.inst.obj, St(b));
      SecondWrite(s, t, u, St(u).(phase := Failed, provisioning := PhaseFailed));
      PowerEdit(s.w.id, u.w.faults, b.inst.obj, after);
      SecondWrite(s, t, u, St(u).(phase := after, observedGeneration := u.inst.obj.generation));
    }
  }

  lemma ReconcileModifyOk(s: Session)
    requires Fresh(s) && At(s.w.id, s.inst.obj, PhaseAvailable)
    ensures Done(s, ReconcileModify(s))
  {
    hide WorldOk, Grows, Legal, Anchored, Evolves, StatusUpdate, ResizeVM, ResizeDataVolume, Version, ClassOf;
    FreshOk(s);
    PowerEdit(s.w.id, s.w.faults, s.inst.obj, Modifying);
    FirstWrite(s, Modifying);
    var t := StatusUpdate(Mark(s, Modifying));
    var b := Base(t);
    if !Halted(t) {
      FreshOk(b);
      StepsReflexive(t);
      var size := ClassOf(t.inst.obj.spec.instanceClass);
      if size == None {
        FailEdit(s.w.id, t.w.faults, b.inst.obj, St(b));
        SecondWrite(s, t, t, St(t).(phase := Failed, provisioning := PhaseFailed));
      } else {
        ResizeVMOk(t, St(t).refs.vm, size.value);
        var u := ResizeVM(t, St(t).refs.vm, size.value);
        ResizeDataVolumeOk(u, St(u).refs.dataVolume, u.inst.obj.spec.allocatedStorage);
        var v := ResizeDataVolume(u, St(u).refs.dataVolume, u.inst.obj.spec.allocatedStorage);
        StepsTransitive(t, u, v);
        GrowsTransitive(s.w, t.w, u.w);
        GrowsTransitive(s.w, t.w, v.w);
        FailEdit(s.w.id, v.w.faults, b.inst.obj, St(b));
        SecondWrite(s, t, v, St(v).(phase := Failed, provisioning := PhaseFailed));
        PowerEdit(s.w.id, v.w.faults, b.inst.obj, Available);
        SecondWrite(s, t, v, St(v).(phase := Available, observedGeneration := v.inst.obj.generation));
      }
    }
  }

  lemma FinalizerUpdateOk(s: Session, finalizer: bool)
    requires SessionOk(s)
    requires if finalizer then !s.inst.obj.deleting
             else s.inst.obj.deleting && s.inst.obj.finalizer && TornDown in s.w.log
                  && !s.inst.obj.spec.deletionProtection
    ensures Done(s, FinalizerUpdate(s, finalizer))
  {
    TakeOk(s);
    var t := Take(s);
    if !Halted(t) {
      if !Writable(t) {
        StoreFailsOk(t);
        GrowsTransitive(s.w, t.w, StoreFails(t).w);
      } else {
        var o := t.w.cur.(finalizer := finalizer);
        assert VersionOk(t.w, |t.w.past|);
        FinalizerEdit(t.w.id, t.w.faults, t.w.cur, finalizer);
        CommitOk(t, o, finalizer);
        GrowsTransitive(s.w, t.w, Commit(t, o, finalizer).w);
      }
    }
  }

  lemma FinalizerEdit(id: string, faults: Faults, o: Object, finalizer: bool)
    requires ObjectOk(id, o)
    requires if finalizer then !o.deleting else o.deleting && !o.spec.deletionProtection
    ensures ObjectOk(id, o.(finalizer := finalizer)) && Evolves(id, faults, o, o.(finalizer := finalizer))
  {
  }

  lemma ReconcileDeleteOk(s: Session)
    requires Fresh(s) && s.inst.obj.deleting && s.inst.obj.finalizer && s.inst.rv == s.w.cached
    ensures Done(s, ReconcileDelete(s))
  {
    hide WorldOk, Grows, Legal, Anchored, Evolves, StatusUpdate, TeardownAll, Version, FinalizerUpdate;
    FreshOk(s);
    DeleteEdit(s.w.id, s.w.faults, s.inst.obj);
    StepsReflexive(s);
    if s.inst.obj.spec.deletionProtection {
      WriteOk(s, s, St(s));
      assert WithStatus(s, St(s)) == s;
    } else {
      FirstWrite(s, Deleting);
      var t := StatusUpdate(Mark(s, Deleting));
      if !Halted(t) {
        StillDeleting(s.w, t.w);
        TeardownAllOk(t);
        var u := TeardownAll(t);
        GrowsTransitive(s.w, t.w, u.w);
        if !Halted(u) {
          FinalizerUpdateOk(u, false);
          GrowsTransitive(s.w, u.w, FinalizerUpdate(u, false).w);
        }
      }
    }
  }

  lemma StillDeleting(w: World, v: World)
    requires WorldOk(w) && WorldOk(v) && Grows(w, v) && Version(w, w.cached).deleting
    ensures Version(v, v.cached).deleting
  {
    assert Version(v, w.cached) == Version(w, w.cached);
  }

  // ---- Reconcile and whole runs ----

  lemma ReadOk(s: Session)
    requires WorldOk(s.w) && s.halt == Going
    ensures var t := Read(s);
            Grows(s.w, t.w) && WorldOk(t.w) && t.halt != Panicked
            && (!Halted(t) && t.err == NoErr ==> Fresh(t) && t.inst.rv == t.w.cached)
  {
    hide Evolves, ObjectOk, ChildKeys;
    var a := s.(inst := Instance(s.w.cur, |s.w.past|));
    TakeOk(a);
    TakeCounts(a);
    assert Take(a) == Take(s).(inst := a.inst);
    var t := Take(s);
    if !Halted(t) {
      if t.now.store != Normal {
        SameHistory(t.w, StoreFails(t).w);
        GrowsTransitive(s.w, t.w, StoreFails(t).w);
      } else {
        var u := Read(s);
        ReadMoves(t.w, u.w);
        GrowsTransitive(s.w, t.w, u.w);
      }
    }
  }

  /** A cached read may be stale but never goes back. */
  lemma ReadMoves(w: World, v: World)
    requires WorldOk(w) && v == w.(cached := v.cached) && w.cached <= v.cached <= |w.past|
    ensures WorldOk(v) && Grows(w, v)
  {
    hide Evolves, ObjectOk, ChildKeys;
    assert forall i: nat | i <= |w.past| :: Version(v, i) == Version(w, i);
    forall i: nat | i <= |v.past| ensures VersionOk(v, i) { assert VersionOk(w, i); }
    forall i: nat | i < |v.past| ensures StepOk(v, i) { assert StepOk(w, i); }
  }

  lemma DispatchOk(s: Session)
    requires Fresh(s) && s.inst.rv == s.w.cached
    ensures Done(s, Dispatch(s))
  {
    hide WorldOk, Grows, Legal, Anchored, Evolves, Version, PhaseNetwork, PhaseStorage, PhaseVM, PhaseWaitReady,
         PhaseMonitoring, PhaseVpcPeering, PhaseAvailableStep, ReconcileModify, ReconcileDelete,
         FinalizerUpdate, StatusUpdate, SetVMRunning;
    FreshOk(s);
    StepsReflexive(s);
    var o := s.inst.obj;
    if o.deleting {
      if o.finalizer { ReconcileDeleteOk(s); }
    } else if !o.finalizer {
      FinalizerUpdateOk(s, true);
    } else if o.spec.running == Some(false) && o.status.phase == Available {
      PowerOk(s, Stopping, Stopped, false);
    } else if o.spec.running == Some(true) && o.status.phase == Stopped {
      PowerOk(s, Starting, Available, true);
    } else if o.status.phase == Available && o.generation != o.status.observedGeneration {
      ReconcileModifyOk(s);
    } else {
      match o.status.provisioning
      case Unset => PhaseNetworkOk(s);
      case NetworkProvisioned => PhaseStorageOk(s);
      case StorageProvisioned => PhaseVMOk(s);
      case VMCreated => PhaseWaitReadyOk(s);
      case WaitingForCloudInit => PhaseWaitReadyOk(s);
      case DatabaseReady => PhaseMonitoringOk(s);
      case MonitoringDeployed => PhaseVpcPeeringOk(s);
      case VpcPeeringCreated => PhaseAvailableOk(s);
      case PhaseAvailable => PhaseAvailableOk(s);
      case PhaseFailed =>
    }
  }

  /** One reconcile, under any script, keeps the invariants and never panics. */
  lemma ReconcileOk(w: World, script: seq<Turn>)
    requires WorldOk(w)
    ensures WorldOk(Reconcile(w, script).w) && Grows(w, Reconcile(w, script).w)
    ensures Reconcile(w, script).halt != Panicked
  {
    hide WorldOk, Grows, Legal, Anchored, Version, Dispatch, Read;
    ReadOk(Begin(w, script));
    var s := Read(Begin(w, script));
    if !Halted(s) && s.err == NoErr {
      DispatchOk(s);
      GrowsTransitive(w, s.w, Dispatch(s).w);
    }
  }

  lemma {:induction false} RunOk(w: World, scripts: seq<seq<Turn>>)
    requires WorldOk(w)
    ensures WorldOk(Run(w, scripts)) && Grows(w, Run(w, scripts))
    decreases |scripts|
  {
    if scripts != [] {
      hide WorldOk, Grows, Reconcile;
      ReconcileOk(w, scripts[0]);
      RunOk(Reconcile(w, scripts[0]).w, scripts[1..]);
      GrowsTransitive(w, Reconcile(w, scripts[0]).w, Run(w, scripts));
    } else {
      assert Run(w, scripts) == w;
    }
  }

  lemma InitOk(id: string, ns: string, spec: Spec, cluster: map<Key, Child>)
    ensures WorldOk(Init(id, ns, spec, cluster))
  {
    var w := Init(id, ns, spec, cluster);
    assert VersionOk(w, 0);
  }
}
