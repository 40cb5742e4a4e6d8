/** What `reconcileModify` promises when it reports success, and what it does not. */
module Modify {
  import opened Types
  import opened Names
  import opened World
  import opened Harvester
  import opened Reconciler
  import opened Invariants
  import opened Safety
  import opened Phases
  import opened Frames
  import opened Progress

  /** The VM and volume on the cluster have the size the spec asks for. */
  predicate Fits(w: World, spec: Spec) {
    var vm, volume, size := VmKey(w.id, w.ns), DataVolumeKey(w.id, w.ns), ClassOf(spec.instanceClass);
    && size.Some? && vm in w.cluster && volume in w.cluster
    && (w.cluster[vm].VmChild? ==>
          w.cluster[vm].cpuCores == size.value.cpuCores && w.cluster[vm].memoryMB == size.value.memoryMB)
    && (w.cluster[volume].VolumeChild? ==> w.cluster[volume].sizeGiB == spec.allocatedStorage)
  }

  /** A modify whose store writes both landed either reports failure or leaves VM and volume
      at the class and storage of exactly the spec version it records as observed. */
  lemma ModifyApplies(s: Session)
    requires Fresh(s) && At(s.w.id, s.inst.obj, PhaseAvailable) && !Halted(s)
    requires ReconcileModify(s).w.lost == s.w.lost
    ensures var v := ReconcileModify(s).w;
            || v.cur.status.phase == Failed
            || (v.cur.status.phase == Available && v.cur.status.observedGeneration == v.cur.generation
                && v.cur.spec == s.inst.obj.spec && v.cur.generation == s.inst.obj.generation
                && Fits(v, v.cur.spec))
  {
    hide WorldOk, Grows, Legal, Anchored, Evolves, StatusUpdate, ResizeVM, ResizeDataVolume, Version, ClassOf, Fits;
    FreshOk(s);
    PowerEdit(s.w.id, s.w.faults, s.inst.obj, Modifying);
    FirstWrite(s, Modifying);
    UnwrittenOk(s, St(s).(phase := Modifying));
    StatusUpdatePays(Mark(s, Modifying));
    var t := StatusUpdate(Mark(s, Modifying));
    assert !Halted(t);
    var size := ClassOf(t.inst.obj.spec.instanceClass);
    if size == None {
      UnwrittenOk(t, St(t).(phase := Failed, provisioning := PhaseFailed));
      StatusUpdatePays(WithStatus(t, St(t).(phase := Failed, provisioning := PhaseFailed)));
    } else {
      ResizeVMOk(t, St(t).refs.vm, size.value);
      var u := ResizeVM(t, St(t).refs.vm, size.value);
      assert !Halted(u);
      ResizeDataVolumeOk(u, St(u).refs.dataVolume, u.inst.obj.spec.allocatedStorage);
      var v := ResizeDataVolume(u, St(u).refs.dataVolume, u.inst.obj.spec.allocatedStorage);
      assert !Halted(v);
      var st := if u.err != NoErr || v.err != NoErr then St(v).(phase := Failed, provisioning := PhaseFailed)
                else St(v).(phase := Available, observedGeneration := v.inst.obj.generation);
      UnwrittenOk(v, st);
      StatusUpdatePays(WithStatus(v, st));
      StatusUpdateFrame(WithStatus(v, st));
      if u.err == NoErr && v.err == NoErr {
        assert St(t).refs == St(s).refs && St(u).refs == St(s).refs;
        Recorded(s.w.id, s.inst.obj);
        ResizesFit(t, u, v, size.value);
        FitsOnly(v.w, StatusUpdate(WithStatus(v, st)).w, s.inst.obj.spec);
      }
    }
  }

  lemma Recorded(id: string, o: Object)
    requires At(id, o, PhaseAvailable)
    ensures o.status.refs.vm == VmName(id) && o.status.refs.dataVolume == DataVolumeName(id)
  {
  }

  lemma ResizesFit(t: Session, u: Session, v: Session, size: ClassSpec)
    requires St(t).refs.vm == VmName(t.w.id) && St(u).refs.dataVolume == DataVolumeName(t.w.id)
    requires ClassOf(t.inst.obj.spec.instanceClass) == Some(size)
    requires u == ResizeVM(t, St(t).refs.vm, size) && !Halted(u) && u.err == NoErr
    requires v == ResizeDataVolume(u, St(u).refs.dataVolume, u.inst.obj.spec.allocatedStorage)
    requires !Halted(v) && v.err == NoErr
    ensures Fits(v.w, t.inst.obj.spec)
  {
    hide ResizeVM, ResizeDataVolume, ClassOf;
    ResizeVMFrame(t, St(t).refs.vm, size);
    ResizeDataVolumeFrame(u, St(u).refs.dataVolume, u.inst.obj.spec.allocatedStorage);
  }

  lemma FitsOnly(w: World, v: World, spec: Spec)
    requires Fits(w, spec) && Apart(w, v)
    ensures Fits(v, spec)
  {
  }
}
