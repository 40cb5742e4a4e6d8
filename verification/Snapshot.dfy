/** `DBSnapshotReconciler`: a one-shot backup whose safety rests on version conflicts alone.
    Reads may serve any version, however old, and may go back. */
module Snapshot {
  import opened Types
  import opened World

  datatype SnapshotPhase = New | InProgress | Complete | Broken

  datatype SnapshotStatus = SnapshotStatus(phase: SnapshotPhase, done: bool)

  predicate Terminal(st: SnapshotStatus) { st.phase in {Complete, Broken} }

  /** Stored versions, with the number of backup commands run, of those that succeeded, and of
      store calls that failed or never returned. */
  datatype Shelf = Shelf(
    past: seq<SnapshotStatus>, cur: SnapshotStatus, live: bool,
    backups: nat, succeeded: nat, lost: nat)

  function Stored(w: Shelf, i: nat): SnapshotStatus { if i < |w.past| then w.past[i] else w.cur }

  const NewShelf: Shelf := Shelf([], SnapshotStatus(New, false), true, 0, 0, 0)

  /** The parent DBInstance as read: missing, unreadable, or with its phase and address. */
  datatype Parent = Missing | Unreadable | Found(phase: Phase, managementAddress: string)

  /** One API call: users first patch the snapshot `patches` times and perhaps delete it. */
  datatype Move = Move(
    patches: nat, delete: bool, readAt: nat, store: Outcome, bump: bool, parent: Parent, ok: bool)

  datatype Visit = Visit(
    w: Shelf, st: SnapshotStatus, rv: nat, script: seq<Move>, now: Move, err: bool, going: bool)

  const NoMove: Move := Move(0, false, 0, Normal, true, Missing, true)

  function Patched(w: Shelf, n: nat): Shelf
    decreases n
  {
    if n == 0 || !w.live then w
    else Patched(w.(past := w.past + [w.cur]), n - 1)
  }

  function NextMove(s: Visit): Visit {
    if !s.going then s
    else if s.script == [] then s.(going := false, w := s.w.(lost := s.w.lost + 1))
    else
      var m := s.script[0];
      var w := Patched(s.w, m.patches);
      s.(w := w.(live := w.live && !m.delete), script := s.script[1..], now := m)
  }

  function StoreStatus(s: Visit, st: SnapshotStatus): Visit {
    var t := NextMove(s).(st := st);
    if !t.going then t
    else if !t.w.live || t.rv != |t.w.past| || t.now.store == Lost
    then t.(w := t.w.(lost := t.w.lost + 1), err := true)
    else
      var w := if st == t.w.cur && !t.now.bump then t.w else t.w.(past := t.w.past + [t.w.cur], cur := st);
      if t.now.store == AckLost then t.(w := w.(lost := w.lost + 1), err := true)
      else t.(w := w, rv := |w.past|, err := false)
  }

  function ReadSnapshot(s: Visit): Visit {
    var t := NextMove(s);
    if !t.going then t
    else if t.now.store != Normal || (!t.w.live && t.now.readAt > |t.w.past|) then t.(err := true)
    else
      var rv := if t.now.readAt > |t.w.past| then |t.w.past| else t.now.readAt;
      t.(st := Stored(t.w, rv), rv := rv, err := false)
  }

  function FailSnapshot(s: Visit): Visit { StoreStatus(s, s.st.(phase := Broken)) }

  /** The SSH command: it may run and fail, or run and succeed. */
  function RunBackup(s: Visit): Visit {
    var t := NextMove(s);
    if !t.going then t
    else t.(w := t.w.(backups := t.w.backups + 1, succeeded := t.w.succeeded + if t.now.ok then 1 else 0),
            err := !t.now.ok)
  }

  function Backup(s: Visit): Visit {
    var c := StoreStatus(s, s.st.(phase := InProgress));
    if !c.going || c.err then c else
    var k := NextMove(c);
    if !k.going then k
    else if !k.now.ok then FailSnapshot(k) else
    var b := RunBackup(k);
    if !b.going then b
    else if b.err then FailSnapshot(b)
    else StoreStatus(b, SnapshotStatus(Complete, true))
  }

  function ReconcileSnapshot(w: Shelf, script: seq<Move>): Visit {
    var s := ReadSnapshot(Visit(w, w.cur, 0, script, NoMove, false, true));
    if !s.going || s.err || Terminal(s.st) then s else
    var p := NextMove(s);
    if !p.going || p.now.parent.Unreadable? then p
    else if p.now.parent.Missing? then FailSnapshot(p)
    else if p.now.parent.phase != Available || p.now.parent.managementAddress == "" then p
    else Backup(p)
  }

  function RunSnapshots(w: Shelf, scripts: seq<seq<Move>>): Shelf
    decreases |scripts|
  {
    if scripts == [] then w
    else RunSnapshots(ReconcileSnapshot(w, scripts[0]).w, scripts[1..])
  }

  // ---- Invariants ----

  /** `done` goes with `available`; terminal versions stay; an available snapshot was backed up. */
  ghost predicate Sound(w: Shelf) {
    && (forall i: nat | i <= |w.past| :: Stored(w, i).done <==> Stored(w, i).phase == Complete)
    && (forall i: nat, j: nat | i <= j <= |w.past| && Terminal(Stored(w, i)) :: Stored(w, j) == Stored(w, i))
    && (w.cur.phase == Complete ==> w.succeeded > 0)
  }

  /** Each backup beyond the first cost a lost store call. The bound is open while a backup
      awaits its record. */
  ghost predicate ShelfOk(w: Shelf) { Sound(w) && w.backups <= w.lost + if Terminal(w.cur) then 1 else 0 }

  /** Versions are never rewritten and counters never fall. */
  ghost predicate Later(w: Shelf, v: Shelf) {
    && |w.past| <= |v.past| && (forall i: nat | i <= |w.past| :: Stored(v, i) == Stored(w, i))
    && w.lost <= v.lost && w.backups <= v.backups && w.succeeded <= v.succeeded
  }

  /** The visit's copy was read at `rv`, apart from its pending phase. */
  ghost predicate Held(s: Visit) {
    && s.rv <= |s.w.past| && !Terminal(Stored(s.w, s.rv)) && s.st.done == Stored(s.w, s.rv).done
  }

  lemma SameVersions(w: Shelf, v: Shelf)
    requires Sound(w) && v.past == w.past && v.cur == w.cur
    requires w.succeeded <= v.succeeded && w.backups <= v.backups && w.lost <= v.lost
    ensures Sound(v) && Later(w, v)
  {
    assert forall i: nat | i <= |w.past| :: Stored(v, i) == Stored(w, i);
  }

  lemma {:induction false} PatchedOk(w: Shelf, n: nat)
    requires Sound(w)
    ensures var v := Patched(w, n);
            Sound(v) && Later(w, v) && v.cur == w.cur && v == w.(past := v.past)
    decreases n
  {
    if n > 0 && w.live {
      var v := w.(past := w.past + [w.cur]);
      assert forall i: nat | i <= |w.past| :: Stored(v, i) == Stored(w, i);
      assert Stored(v, |v.past|) == w.cur == Stored(w, |w.past|);
      PatchedOk(v, n - 1);
    }
  }

  lemma NextMoveOk(s: Visit)
    requires Sound(s.w)
    ensures var t := NextMove(s);
            && Sound(t.w) && Later(s.w, t.w) && t.st == s.st && t.rv == s.rv
            && t.w.cur == s.w.cur && t.w.backups == s.w.backups && t.w.succeeded == s.w.succeeded
            && (t.going ==> s.going && t.w.lost == s.w.lost) && (s.going && !t.going ==> t.w.lost == s.w.lost + 1)
            && (Held(s) ==> Held(t))
  {
    if s.going {
      if s.script == [] {
        SameVersions(s.w, NextMove(s).w);
      } else {
        PatchedOk(s.w, s.script[0].patches);
        SameVersions(Patched(s.w, s.script[0].patches), NextMove(s).w);
      }
    }
  }

  /** A status write that lands replaces the very version that was read. */
  lemma StoreStatusOk(s: Visit, st: SnapshotStatus)
    requires Sound(s.w) && Held(s) && s.going
    requires st.done <==> st.phase == Complete
    requires st.phase == Complete ==> s.w.succeeded > 0
    ensures var t := StoreStatus(s, st);
            && Sound(t.w) && Later(s.w, t.w) && t.w.backups == s.w.backups && t.w.succeeded == s.w.succeeded
            && t.st == st && (t.going && !t.err ==> t.w.cur == st && t.rv == |t.w.past| && t.w.lost == s.w.lost)
            && (!t.going || t.err ==> s.w.lost < t.w.lost)
            && (t.going && !t.err && !Terminal(st) && t.st.done == st.done ==> Held(t))
            && (!Terminal(s.w.cur) || t.w.cur == s.w.cur)
  {
    NextMoveOk(s);
    var t, u := NextMove(s), StoreStatus(s, st);
    if t.going {
      if t.w.live && t.rv == |t.w.past| && t.now.store != Lost {
        assert !Terminal(t.w.cur);
        var w := if st == t.w.cur && !t.now.bump then t.w else t.w.(past := t.w.past + [t.w.cur], cur := st);
        Replaced(t.w, st);
        SameVersions(w, u.w);
      } else {
        SameVersions(t.w, u.w);
      }
    }
  }

  lemma Replaced(w: Shelf, st: SnapshotStatus)
    requires Sound(w) && !Terminal(w.cur) && (st.done <==> st.phase == Complete)
    requires st.phase == Complete ==> w.succeeded > 0
    ensures var v := w.(past := w.past + [w.cur], cur := st); Sound(v) && Later(w, v)
  {
    var v := w.(past := w.past + [w.cur], cur := st);
    assert forall i: nat | i <= |w.past| :: Stored(v, i) == Stored(w, i);
    assert forall i: nat | i <= |w.past| :: Terminal(Stored(w, i)) ==> Stored(w, |w.past|) == Stored(w, i);
  }

  /** One reconcile keeps the invariants; if the snapshot was already terminal it runs no
      backup, whatever version it read. */
  lemma ReconcileSnapshotOk(w: Shelf, script: seq<Move>)
    requires ShelfOk(w)
    ensures var v := ReconcileSnapshot(w, script).w;
            ShelfOk(v) && Later(w, v) && (Terminal(w.cur) ==> v.backups == w.backups && v.cur == w.cur)
  {
    hide ShelfOk;
    assert Sound(w) by { Open(w); }
    hide Sound, StoreStatus, Backup;
    var b0 := Visit(w, w.cur, 0, script, NoMove, false, true);
    NextMoveOk(b0);
    var s := ReadSnapshot(b0);
    if !s.going || s.err || Terminal(s.st) {
      Close(w, s.w);
    } else {
      assert Held(s);
      NextMoveOk(s);
      var p := NextMove(s);
      if !p.going || p.now.parent.Unreadable? {
        Close(w, p.w);
      } else if p.now.parent.Missing? {
        StoreStatusOk(p, p.st.(phase := Broken));
        Close(w, FailSnapshot(p).w);
      } else if p.now.parent.phase != Available || p.now.parent.managementAddress == "" {
        Close(w, p.w);
      } else {
        BackupOk(p);
        Close(w, Backup(p).w);
      }
    }
  }

  lemma Open(w: Shelf)
    requires ShelfOk(w)
    ensures Sound(w)
  {
  }

  lemma Close(w: Shelf, v: Shelf)
    requires ShelfOk(w) && Sound(v) && Later(w, v)
    requires Terminal(w.cur) ==> v.cur == w.cur && v.backups == w.backups
    requires v.backups == w.backups ||
             (v.backups == w.backups + 1 && (w.lost < v.lost || (!Terminal(w.cur) && Terminal(v.cur))))
    ensures ShelfOk(v)
  {
  }

  lemma BackupOk(s: Visit)
    requires Sound(s.w) && Held(s) && s.going
    ensures var v := Backup(s).w;
            && Sound(v) && Later(s.w, v)
            && (Terminal(s.w.cur) ==> v.cur == s.w.cur && v.backups == s.w.backups)
            && (v.backups == s.w.backups ||
                (v.backups == s.w.backups + 1 && (s.w.lost < v.lost || (!Terminal(s.w.cur) && Terminal(v.cur)))))
  {
    hide Sound, NextMove, StoreStatus, RunBackup;
    SoundHeld(s);
    StoreStatusOk(s, s.st.(phase := InProgress));
    var c := StoreStatus(s, s.st.(phase := InProgress));
    if c.going && !c.err { RestOk(c); }
  }

  /** From the stored `creating` on: fetch the key, run the backup, store the outcome. */
  lemma RestOk(c: Visit)
    requires Sound(c.w) && Held(c) && c.going && !c.err && c.rv == |c.w.past|
    ensures var k := NextMove(c); var b := RunBackup(k);
            var v := if !k.going then k.w else if !k.now.ok then FailSnapshot(k).w
                     else if !b.going then b.w else if b.err then FailSnapshot(b).w
                     else StoreStatus(b, SnapshotStatus(Complete, true)).w;
            && Sound(v) && Later(c.w, v)
            && (v.backups == c.w.backups ||
                (v.backups == c.w.backups + 1 && (c.w.lost < v.lost || Terminal(v.cur))))
  {
    hide Sound;
    SoundHeld(c);
    NextMoveOk(c);
    var k := NextMove(c);
    if k.going {
      if !k.now.ok {
        StoreStatusOk(k, k.st.(phase := Broken));
      } else {
        NextMoveOk(k);
        var b := RunBackup(k);
        if b.going {
          SameVersions(NextMove(k).w, b.w);
          if b.err { StoreStatusOk(b, b.st.(phase := Broken)); }
          else { StoreStatusOk(b, SnapshotStatus(Complete, true)); }
        }
      }
    }
  }

  lemma SoundHeld(s: Visit)
    requires Sound(s.w) && Held(s)
    ensures !s.st.done
  {
  }

  // ---- Whole runs ----

  lemma {:induction false} SnapshotsOk(w: Shelf, scripts: seq<seq<Move>>)
    requires ShelfOk(w)
    ensures ShelfOk(RunSnapshots(w, scripts))
    ensures Terminal(w.cur) ==> RunSnapshots(w, scripts).backups == w.backups && RunSnapshots(w, scripts).cur == w.cur
    decreases |scripts|
  {
    if scripts != [] {
      hide ShelfOk, ReconcileSnapshot;
      ReconcileSnapshotOk(w, scripts[0]);
      SnapshotsOk(ReconcileSnapshot(w, scripts[0]).w, scripts[1..]);
    }
  }

  /** Over every run: once `available` or `failed` is stored, no further backup command runs. */
  lemma NoBackupAfterTerminal(before: seq<seq<Move>>, later: seq<seq<Move>>)
    requires Terminal(RunSnapshots(NewShelf, before).cur)
    ensures var w := RunSnapshots(NewShelf, before);
            RunSnapshots(w, later).backups == w.backups && RunSnapshots(w, later).cur == w.cur
  {
    SnapshotsOk(NewShelf, before);
    SnapshotsOk(RunSnapshots(NewShelf, before), later);
  }

  /** At most one backup plus one per lost or unacknowledged store call or crash; `done` is set
      exactly on `available`, and only after a backup that succeeded. */
  lemma BackupsBounded(scripts: seq<seq<Move>>, i: nat)
    requires i <= |RunSnapshots(NewShelf, scripts).past|
    ensures var w := RunSnapshots(NewShelf, scripts);
            && w.backups <= 1 + w.lost
            && (Stored(w, i).done <==> Stored(w, i).phase == Complete)
            && (w.cur.phase == Complete ==> w.succeeded > 0)
  {
    SnapshotsOk(NewShelf, scripts);
  }

  // ---- What a reconcile does ----

  predicate Ready(p: Parent) { p.Found? && p.phase == Available && p.managementAddress != "" }

  lemma MovesOn(s: Visit)
    ensures NextMove(s).w.backups == s.w.backups
    ensures NextMove(s).going ==> s.script != [] && NextMove(s).now == s.script[0] && NextMove(s).script == s.script[1..]
  {
    if s.script != [] { PatchedCounts(s.w, s.script[0].patches); }
  }

  lemma {:induction false} PatchedCounts(w: Shelf, n: nat)
    ensures Patched(w, n).backups == w.backups
    decreases n
  {
    if n > 0 && w.live { PatchedCounts(w.(past := w.past + [w.cur]), n - 1); }
  }

  /** A backup command runs only for a parent that was read as available and addressed, whatever
      else happens in the reconcile. */
  lemma BackupNeedsParent(w: Shelf, script: seq<Move>)
    requires ReconcileSnapshot(w, script).w.backups != w.backups
    ensures |script| >= 2 && Ready(script[1].parent)
  {
    var b0 := Visit(w, w.cur, 0, script, NoMove, false, true);
    MovesOn(b0);
    var s := ReadSnapshot(b0);
    MovesOn(s);
    var p := NextMove(s);
    MovesOn(p);
    hide NextMove;
  }

  /** Nobody interferes and the store answers. */
  predicate Undisturbed(m: Move) { m.patches == 0 && !m.delete && m.store == Normal }

  lemma Step(s: Visit)
    requires s.going && s.script != [] && (forall m | m in s.script :: Undisturbed(m))
    ensures NextMove(s) == s.(script := s.script[1..], now := s.script[0])
    ensures Undisturbed(s.script[0]) && forall m | m in s.script[1..] :: Undisturbed(m)
  {
    assert s.script[0] in s.script;
    assert Patched(s.w, 0) == s.w;
  }

  /** A status write of a visit that holds the newest version lands. */
  lemma StepWrites(s: Visit, st: SnapshotStatus)
    requires s.going && s.script != [] && (forall m | m in s.script :: Undisturbed(m))
    requires s.w.live && s.rv == |s.w.past|
    ensures var t := StoreStatus(s, st);
            && t.going && !t.err && t.script == s.script[1..] && t.rv == |t.w.past| && t.st == st
            && t.w == s.w.(past := t.w.past, cur := st)
            && forall m | m in t.script :: Undisturbed(m)
  {
    Step(s);
  }

  /** A reconcile of a live, unfinished snapshot in which nobody interferes: a missing parent and a
      failing step store `failed`; a parent that is not ready changes nothing; otherwise exactly
      one backup runs, and `available` with `done` is stored if and only if it succeeded. */
  lemma SnapshotOutcome(w: Shelf, script: seq<Move>)
    requires w.live && !Terminal(w.cur) && |script| >= 6 && script[0].readAt >= |w.past|
    requires forall m | m in script :: Undisturbed(m)
    ensures var v, parent := ReconcileSnapshot(w, script).w, script[1].parent;
            && v.live && v.lost == w.lost
            && if parent.Missing? then v.cur.phase == Broken && v.backups == w.backups
               else if !Ready(parent) then v == w
               else if !script[3].ok then v.cur.phase == Broken && v.backups == w.backups
               else if !script[4].ok then v.cur.phase == Broken && v.backups == w.backups + 1 && v.succeeded == w.succeeded
               else v.cur == SnapshotStatus(Complete, true) && v.backups == w.backups + 1 && v.succeeded == w.succeeded + 1
  {
    hide NextMove, StoreStatus, Undisturbed;
    var b0 := Visit(w, w.cur, 0, script, NoMove, false, true);
    Step(b0);
    StoreAnswers(script[0]);
    var s := ReadSnapshot(b0);
    assert s.st == w.cur && s.rv == |w.past| && s.script == script[1..];
    Step(s);
    var p := NextMove(s);
    assert p.now == script[1] && p.script == script[2..] && p.w == w;
    if p.now.parent.Missing? {
      StepWrites(p, p.st.(phase := Broken));
    } else if Ready(p.now.parent) {
      StepWrites(p, p.st.(phase := InProgress));
      var c := StoreStatus(p, p.st.(phase := InProgress));
      assert c.script == script[3..];
      Step(c);
      var k := NextMove(c);
      assert k.now == script[3] && k.script == script[4..];
      StepWrites(k, k.st.(phase := Broken));
      if k.now.ok {
        Step(k);
        var b := RunBackup(k);
        assert b.script == script[5..];
        StepWrites(b, b.st.(phase := Broken));
        StepWrites(b, SnapshotStatus(Complete, true));
      }
    }
  }

  lemma StoreAnswers(m: Move)
    requires Undisturbed(m)
    ensures m.store == Normal
  {
  }
}
