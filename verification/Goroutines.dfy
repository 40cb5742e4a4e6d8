/** The two places where the controller fans out: teardown deletes up to eight children at
    once, modify resizes the VM and its volume at once. Each goroutine works on its own object,
    so the outcome depends on how far each got and not on the order in which they ran. */
module Goroutines {
  import opened Types
  import opened Names
  import opened World
  import opened Harvester
  import opened Frames

  datatype Update = SizeTo(size: ClassSpec) | CapacityTo(sizeGiB: int)

  function Apply(u: Update, c: Child): Child {
    match u
    case SizeTo(size) => SetSize(c, size)
    case CapacityTo(sizeGiB) => SetCapacity(c, sizeGiB)
  }

  datatype Action = Delete | Rewrite(update: Update)

  /** One goroutine: the object it works on, what it does, and the fate of its API calls. */
  datatype Job = Job(key: Key, action: Action, first: Outcome, second: Outcome)

  datatype Stage = Fresh | Fetched(copy: Child) | Finished(failed: bool)

  /** What one goroutine can see: its object and its own stage. */
  datatype Local = Local(child: Option<Child>, stage: Stage)

  /** The next API call of a goroutine. A delete is one call, a resize is Get then Update. */
  function Advance(j: Job, l: Local): Local {
    match l.stage
    case Finished(_) => l
    case Fresh =>
      if j.action.Delete? then
        Local(if j.first == Lost then l.child else None, Finished(j.first != Normal))
      else if j.first != Normal || l.child == None then Local(l.child, Finished(true))
      else Local(l.child, Fetched(l.child.value))
    case Fetched(c) =>
      if j.action.Delete? || j.second == Lost || l.child == None then Local(l.child, Finished(true))
      else Local(Some(Apply(j.action.update, c)), Finished(j.second != Normal))
  }

  function Repeat(j: Job, l: Local, n: nat): Local {
    if n == 0 then l else Advance(j, Repeat(j, l, n - 1))
  }

  // ---- Interleavings ----

  datatype State = State(cluster: map<Key, Child>, stages: seq<Stage>)

  function Lookup(cluster: map<Key, Child>, k: Key): Option<Child> {
    if k in cluster then Some(cluster[k]) else None
  }

  function Store(cluster: map<Key, Child>, k: Key, c: Option<Child>): map<Key, Child> {
    if c.Some? then cluster[k := c.value] else cluster - {k}
  }

  function View(jobs: seq<Job>, st: State, i: nat): Local
    requires i < |jobs| == |st.stages|
  {
    Local(Lookup(st.cluster, jobs[i].key), st.stages[i])
  }

  function Step(jobs: seq<Job>, st: State, i: nat): (r: State)
    requires |jobs| == |st.stages|
    ensures |r.stages| == |jobs|
  {
    if i >= |jobs| then st
    else
      var l := Advance(jobs[i], View(jobs, st, i));
      State(Store(st.cluster, jobs[i].key, l.child), st.stages[i := l.stage])
  }

  /** `schedule` lists which goroutine makes its next call; it may stop anywhere. */
  function Interleave(jobs: seq<Job>, st: State, schedule: seq<nat>): (r: State)
    requires |jobs| == |st.stages|
    ensures |r.stages| == |jobs|
  {
    if schedule == [] then st
    else
      var n := |schedule| - 1;
      Step(jobs, Interleave(jobs, st, schedule[..n]), schedule[n])
  }

  predicate Separate(jobs: seq<Job>) {
    forall i, j | 0 <= i < j < |jobs| :: jobs[i].key != jobs[j].key
  }

  predicate Untouched(jobs: seq<Job>, k: Key) { forall i | 0 <= i < |jobs| :: jobs[i].key != k }

  lemma StepIsLocal(jobs: seq<Job>, st: State, i: nat)
    requires |jobs| == |st.stages| && Separate(jobs)
    ensures forall j: nat | j < |jobs| ::
              View(jobs, Step(jobs, st, i), j) == (if i == j then Advance(jobs[j], View(jobs, st, j)) else View(jobs, st, j))
    ensures forall k | Untouched(jobs, k) :: Lookup(Step(jobs, st, i).cluster, k) == Lookup(st.cluster, k)
  {
    hide Advance;
    var t := Step(jobs, st, i);
    forall j: nat | j < |jobs|
      ensures View(jobs, t, j) == (if i == j then Advance(jobs[j], View(jobs, st, j)) else View(jobs, st, j))
    {
      if i < |jobs| && i != j {
        assert jobs[i].key != jobs[j].key;
      }
    }
  }

  /** After any interleaving, complete or cut short, each goroutine and its object are where
      that many calls of that goroutine alone would have brought them. */
  lemma {:induction false} OnlyCountsMatter(jobs: seq<Job>, st: State, schedule: seq<nat>)
    requires |jobs| == |st.stages| && Separate(jobs)
    ensures forall i: nat | i < |jobs| ::
              View(jobs, Interleave(jobs, st, schedule), i)
              == Repeat(jobs[i], View(jobs, st, i), multiset(schedule)[i])
    ensures forall k | Untouched(jobs, k) :: Lookup(Interleave(jobs, st, schedule).cluster, k) == Lookup(st.cluster, k)
    decreases |schedule|
  {
    hide Advance, View, Step, Lookup;
    if schedule != [] {
      var n := |schedule| - 1;
      assert schedule == schedule[..n] + [schedule[n]];
      OnlyCountsMatter(jobs, st, schedule[..n]);
      StepIsLocal(jobs, Interleave(jobs, st, schedule[..n]), schedule[n]);
    }
  }

  /** Order independence: schedules that give every goroutine as many calls end alike. */
  lemma OrderIndependent(jobs: seq<Job>, st: State, a: seq<nat>, b: seq<nat>)
    requires |jobs| == |st.stages| && Separate(jobs)
    requires forall i: nat | i < |jobs| :: multiset(a)[i] == multiset(b)[i]
    ensures Interleave(jobs, st, a) == Interleave(jobs, st, b)
  {
    hide Advance, Interleave;
    OnlyCountsMatter(jobs, st, a);
    OnlyCountsMatter(jobs, st, b);
    var s, t := Interleave(jobs, st, a), Interleave(jobs, st, b);
    forall i: nat | i < |jobs| ensures s.stages[i] == t.stages[i] && Lookup(s.cluster, jobs[i].key) == Lookup(t.cluster, jobs[i].key) {
      assert View(jobs, s, i) == View(jobs, t, i);
    }
    assert s.stages == t.stages;
    forall k ensures Lookup(s.cluster, k) == Lookup(t.cluster, k) {
      if !Untouched(jobs, k) {
        var i :| 0 <= i < |jobs| && jobs[i].key == k;
        assert Lookup(s.cluster, jobs[i].key) == Lookup(t.cluster, jobs[i].key);
      }
    }
    LookupExtensional(s.cluster, t.cluster);
  }

  lemma LookupExtensional(a: map<Key, Child>, b: map<Key, Child>)
    requires forall k :: Lookup(a, k) == Lookup(b, k)
    ensures a == b
  {
    forall k ensures k in a <==> k in b { assert Lookup(a, k) == Lookup(b, k); }
    forall k | k in a ensures a[k] == b[k] { assert Lookup(a, k) == Lookup(b, k); }
  }

  // ---- Teardown ----

  /** Delete goroutines for the given tasks; `deleted` are those whose call takes effect. */
  predicate Deletes(jobs: seq<Job>, keys: set<Key>, deleted: set<Key>) {
    && Separate(jobs)
    && (forall i | 0 <= i < |jobs| :: jobs[i].action == Delete && jobs[i].key in keys
                                      && (jobs[i].first != Lost <==> jobs[i].key in deleted))
    && (forall k | k in keys :: exists i :: 0 <= i < |jobs| && jobs[i].key == k)
  }

  /** Every schedule in which all delete goroutines ran leaves the cluster that `TeardownAll`
      computes: exactly the tasks whose delete took effect are gone. */
  lemma TeardownAnyOrder(jobs: seq<Job>, keys: set<Key>, deleted: set<Key>, st: State, schedule: seq<nat>)
    requires Deletes(jobs, keys, deleted) && |jobs| == |st.stages|
    requires forall i | 0 <= i < |jobs| :: st.stages[i] == Fresh
    requires forall i: nat | i < |jobs| :: i in schedule
    ensures Interleave(jobs, st, schedule).cluster == st.cluster - (keys * deleted)
  {
    hide Interleave;
    OnlyCountsMatter(jobs, st, schedule);
    var r, c := Interleave(jobs, st, schedule), st.cluster - (keys * deleted);
    forall k ensures Lookup(r.cluster, k) == Lookup(c, k) {
      if k in keys {
        var i: nat :| i < |jobs| && jobs[i].key == k;
        assert i in schedule && i in multiset(schedule);
        DeleteOnce(jobs[i], View(jobs, st, i), multiset(schedule)[i]);
        assert View(jobs, r, i) == Repeat(jobs[i], View(jobs, st, i), multiset(schedule)[i]);
      } else {
        assert Untouched(jobs, k);
      }
    }
    LookupExtensional(r.cluster, c);
  }

  lemma {:induction false} DeleteOnce(j: Job, l: Local, n: nat)
    requires j.action == Delete && l.stage == Fresh && n > 0
    ensures Repeat(j, l, n) == Local(if j.first == Lost then l.child else None, Finished(j.first != Normal))
    decreases n
  {
    if n > 1 { DeleteOnce(j, l, n - 1); }
  }

  // ---- Modify ----

  /** The two resize goroutines end alike in every complete interleaving: as if the VM were
      resized first and the volume second. */
  lemma ResizeAnyOrder(vm: Job, volume: Job, cluster: map<Key, Child>, schedule: seq<nat>)
    requires vm.key != volume.key && vm.action.Rewrite? && volume.action.Rewrite?
    requires multiset(schedule)[0] == 2 && multiset(schedule)[1] == 2
    ensures var st := State(cluster, [Fresh, Fresh]);
            Interleave([vm, volume], st, schedule) == Interleave([vm, volume], st, [0, 0, 1, 1])
    ensures forall i | 0 <= i < 2 ::
              Interleave([vm, volume], State(cluster, [Fresh, Fresh]), schedule).stages[i].Finished?
  {
    hide Interleave, Advance, Repeat, View;
    var jobs, st := [vm, volume], State(cluster, [Fresh, Fresh]);
    assert multiset([0, 0, 1, 1])[0] == 2 && multiset([0, 0, 1, 1])[1] == 2;
    OrderIndependent(jobs, st, schedule, [0, 0, 1, 1]);
    OnlyCountsMatter(jobs, st, schedule);
    forall i: nat | i < 2 ensures Interleave(jobs, st, schedule).stages[i].Finished? {
      StageOf(jobs, st, i);
      StageOf(jobs, Interleave(jobs, st, schedule), i);
      FinishedAfterTwo(jobs[i], View(jobs, st, i));
    }
  }

  lemma StageOf(jobs: seq<Job>, st: State, i: nat)
    requires i < |jobs| == |st.stages|
    ensures View(jobs, st, i).stage == st.stages[i]
  {
  }

  lemma FinishedAfterTwo(j: Job, l: Local)
    requires j.action.Rewrite? && l.stage == Fresh
    ensures Repeat(j, l, 2).stage.Finished?
  {
    TwoCalls(j, l);
  }

  /** `ResizeVM` run on its own is the VM goroutine's two calls. */
  lemma ResizeVMIsJob(s: Session, vm: string, size: ClassSpec) returns (j: Job)
    requires !Halted(ResizeVM(s, vm, size))
    ensures j.key == Key(Vm, s.w.ns, vm) && j.action == Rewrite(SizeTo(size))
    ensures var t := ResizeVM(s, vm, size);
            Repeat(j, Local(Lookup(s.w.cluster, j.key), Fresh), 2)
            == Local(Lookup(t.w.cluster, j.key), Finished(t.err != NoErr))
  {
    var k := Key(Vm, s.w.ns, vm);
    TakeFrame(s);
    var t := Get(s, k);
    var b := Normal;
    if t.err == NoErr {
      TakeFrame(t);
      b := Take(t).now.api;
    }
    j := Job(k, Rewrite(SizeTo(size)), Take(s).now.api, b);
    TwoCalls(j, Local(Lookup(s.w.cluster, k), Fresh));
  }

  lemma ResizeDataVolumeIsJob(s: Session, volume: string, sizeGiB: int) returns (j: Job)
    requires !Halted(ResizeDataVolume(s, volume, sizeGiB))
    ensures j.key == Key(DataVolume, s.w.ns, volume) && j.action == Rewrite(CapacityTo(sizeGiB))
    ensures var t := ResizeDataVolume(s, volume, sizeGiB);
            Repeat(j, Local(Lookup(s.w.cluster, j.key), Fresh), 2)
            == Local(Lookup(t.w.cluster, j.key), Finished(t.err != NoErr))
  {
    var k := Key(DataVolume, s.w.ns, volume);
    TakeFrame(s);
    var t := Get(s, k);
    var b := Normal;
    if t.err == NoErr {
      TakeFrame(t);
      b := Take(t).now.api;
    }
    j := Job(k, Rewrite(CapacityTo(sizeGiB)), Take(s).now.api, b);
    TwoCalls(j, Local(Lookup(s.w.cluster, k), Fresh));
  }

  lemma TwoCalls(j: Job, l: Local)
    ensures Repeat(j, l, 2) == Advance(j, Advance(j, l))
  {
    assert Repeat(j, l, 1) == Advance(j, l);
  }

  /** The sequential order used by `ReconcileModify` stands for all: whatever the scheduler
      does, the same cluster results and the same goroutines fail. */
  lemma ModifyAnyOrder(s: Session, vm: string, volume: string, size: ClassSpec, sizeGiB: int, schedule: seq<nat>)
    returns (a: Job, b: Job)
    requires var u := ResizeVM(s, vm, size); !Halted(u) && !Halted(ResizeDataVolume(u, volume, sizeGiB))
    requires multiset(schedule)[0] == 2 && multiset(schedule)[1] == 2
    ensures a.action == Rewrite(SizeTo(size)) && b.action == Rewrite(CapacityTo(sizeGiB))
    ensures a.key == Key(Vm, s.w.ns, vm) && b.key == Key(DataVolume, s.w.ns, volume)
    ensures var u := ResizeVM(s, vm, size); var v := ResizeDataVolume(u, volume, sizeGiB);
            Interleave([a, b], State(s.w.cluster, [Fresh, Fresh]), schedule)
            == State(v.w.cluster, [Finished(u.err != NoErr), Finished(v.err != NoErr)])
  {
    hide Interleave, ResizeVM, ResizeDataVolume, Advance;
    var u := ResizeVM(s, vm, size);
    var v := ResizeDataVolume(u, volume, sizeGiB);
    a := ResizeVMIsJob(s, vm, size);
    b := ResizeDataVolumeIsJob(u, volume, sizeGiB);
    ResizeVMFrame(s, vm, size);
    ResizeDataVolumeFrame(u, volume, sizeGiB);
    var jobs, st := [a, b], State(s.w.cluster, [Fresh, Fresh]);
    OnlyCountsMatter(jobs, st, schedule);
    var r := Interleave(jobs, st, schedule);
    assert View(jobs, r, 0) == Repeat(a, View(jobs, st, 0), 2);
    assert View(jobs, r, 1) == Repeat(b, View(jobs, st, 1), 2);
    assert r.stages == [Finished(u.err != NoErr), Finished(v.err != NoErr)];
    forall k ensures Lookup(r.cluster, k) == Lookup(v.w.cluster, k) {
      if k != a.key && k != b.key { assert Untouched(jobs, k); }
    }
    LookupExtensional(r.cluster, v.w.cluster);
  }

  // ---- Every concurrent outcome is a sequential one ----

  function CallTurn(api: Outcome): Turn { Idle.(api := api) }

  /** The turns one goroutine's calls take: the second only if the first succeeded. */
  function JobTurns(j: Job, child: Option<Child>): seq<Turn> {
    if j.first == Normal && child.Some? then [CallTurn(j.first), CallTurn(j.second)] else [CallTurn(j.first)]
  }

  lemma CallTake(s: Session, api: Outcome, rest: seq<Turn>)
    requires s.halt == Going && s.script == [CallTurn(api)] + rest
    ensures Take(s) == s.(script := rest, now := CallTurn(api))
  {
    assert s.script[1..] == rest;
  }

  /** What a resize goroutine does to its object, `ResizeVM` does under the turns built from the
      fates of its calls. */
  lemma JobIsResizeVM(s: Session, j: Job, vm: string, size: ClassSpec, rest: seq<Turn>)
    requires s.halt == Going && j.key == Key(Vm, s.w.ns, vm) && j.action == Rewrite(SizeTo(size))
    requires s.script == JobTurns(j, Lookup(s.w.cluster, j.key)) + rest
    ensures var t := ResizeVM(s, vm, size);
            && t.halt == Going && t.script == rest && t.w.ns == s.w.ns
            && Repeat(j, Local(Lookup(s.w.cluster, j.key), Fresh), 2)
               == Local(Lookup(t.w.cluster, j.key), Finished(t.err != NoErr))
  {
    var k := j.key;
    TwoCalls(j, Local(Lookup(s.w.cluster, k), Fresh));
    if j.first == Normal && k in s.w.cluster {
      assert s.script == [CallTurn(j.first)] + ([CallTurn(j.second)] + rest);
      CallTake(s, j.first, [CallTurn(j.second)] + rest);
      CallTake(Get(s, k), j.second, rest);
    } else {
      CallTake(s, j.first, rest);
    }
  }

  lemma JobIsResizeDataVolume(s: Session, j: Job, volume: string, sizeGiB: int, rest: seq<Turn>)
    requires s.halt == Going && j.key == Key(DataVolume, s.w.ns, volume) && j.action == Rewrite(CapacityTo(sizeGiB))
    requires s.script == JobTurns(j, Lookup(s.w.cluster, j.key)) + rest
    ensures var t := ResizeDataVolume(s, volume, sizeGiB);
            && t.halt == Going && t.script == rest && t.w.ns == s.w.ns
            && Repeat(j, Local(Lookup(s.w.cluster, j.key), Fresh), 2)
               == Local(Lookup(t.w.cluster, j.key), Finished(t.err != NoErr))
  {
    var k := j.key;
    TwoCalls(j, Local(Lookup(s.w.cluster, k), Fresh));
    if j.first == Normal && k in s.w.cluster {
      assert s.script == [CallTurn(j.first)] + ([CallTurn(j.second)] + rest);
      CallTake(s, j.first, [CallTurn(j.second)] + rest);
      CallTake(Get(s, k), j.second, rest);
    } else {
      CallTake(s, j.first, rest);
    }
  }

  /** For any fates of the four calls and any complete schedule of the two goroutines there are
      turns under which the sequential code ends in the same cluster, with the same goroutine
      failing, and goes on with the rest of the script. So no concurrent outcome is missed by
      theorems that quantify over all scripts. */
  lemma EveryScheduleIsSequential(
    s: Session, a: Job, b: Job, vm: string, volume: string, size: ClassSpec, sizeGiB: int, schedule: seq<nat>, rest: seq<Turn>)
    returns (turns: seq<Turn>)
    requires s.halt == Going && multiset(schedule)[0] == 2 && multiset(schedule)[1] == 2
    requires a.key == Key(Vm, s.w.ns, vm) && a.action == Rewrite(SizeTo(size))
    requires b.key == Key(DataVolume, s.w.ns, volume) && b.action == Rewrite(CapacityTo(sizeGiB))
    ensures var u := ResizeVM(s.(script := turns + rest), vm, size); var v := ResizeDataVolume(u, volume, sizeGiB);
            && v.halt == Going && v.script == rest
            && Interleave([a, b], State(s.w.cluster, [Fresh, Fresh]), schedule)
               == State(v.w.cluster, [Finished(u.err != NoErr), Finished(v.err != NoErr)])
  {
    hide Interleave, ResizeVM, ResizeDataVolume, Advance, JobTurns;
    var first, second := JobTurns(a, Lookup(s.w.cluster, a.key)), JobTurns(b, Lookup(s.w.cluster, b.key));
    turns := first + second;
    var s1 := s.(script := turns + rest);
    assert turns + rest == first + (second + rest);
    JobIsResizeVM(s1, a, vm, size, second + rest);
    ResizeVMFrame(s1, vm, size);
    var u := ResizeVM(s1, vm, size);
    assert Lookup(u.w.cluster, b.key) == Lookup(s.w.cluster, b.key);
    JobIsResizeDataVolume(u, b, volume, sizeGiB, rest);
    ResizeDataVolumeFrame(u, volume, sizeGiB);
    var v := ResizeDataVolume(u, volume, sizeGiB);
    var jobs, st := [a, b], State(s.w.cluster, [Fresh, Fresh]);
    OnlyCountsMatter(jobs, st, schedule);
    var r := Interleave(jobs, st, schedule);
    assert View(jobs, r, 0) == Repeat(a, View(jobs, st, 0), 2);
    assert View(jobs, r, 1) == Repeat(b, View(jobs, st, 1), 2);
    assert r.stages == [Finished(u.err != NoErr), Finished(v.err != NoErr)];
    forall k ensures Lookup(r.cluster, k) == Lookup(v.w.cluster, k) {
      if k != a.key && k != b.key { assert Untouched(jobs, k); }
    }
    LookupExtensional(r.cluster, v.w.cluster);
  }
}
