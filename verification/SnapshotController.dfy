/** `DBSnapshotReconciler` as imperative code, proved against the functions of module Snapshot. */
module SnapshotController {
  import opened Types
  import S = Snapshot
  import W = World

  /** What is written is the status given, whatever the copy in memory said before. */
  lemma PendingStatus(s: S.Visit, st: S.SnapshotStatus)
    ensures S.StoreStatus(s.(st := st), st) == S.StoreStatus(s, st)
  {
  }

  class DBSnapshotReconciler {
    var w: S.Shelf
    var status: S.SnapshotStatus
    var resourceVersion: nat
    var script: seq<S.Move>
    var now: S.Move
    var err: bool
    var going: bool

    ghost function State(): S.Visit
      reads this
    {
      S.Visit(w, status, resourceVersion, script, now, err, going)
    }

    constructor ()
      ensures w == S.NewShelf
    {
      w, status, resourceVersion := S.NewShelf, S.NewShelf.cur, 0;
      script, now, err, going := [], S.NoMove, false, true;
    }

    method NextMove()
      modifies this
      ensures State() == S.NextMove(old(State()))
    {
      if !going { return; }
      if script == [] {
        going, w := false, w.(lost := w.lost + 1);
        return;
      }
      now, script := script[0], script[1..];
      w := S.Patched(w, now.patches);
      if now.delete { w := w.(live := false); }
    }

    /** `Status().Update` of the status in memory. */
    method StoreStatus()
      modifies this
      ensures State() == S.StoreStatus(old(State()), old(status))
    {
      NextMove();
      if !going { return; }
      if !w.live || resourceVersion != |w.past| || now.store == W.Lost {
        w, err := w.(lost := w.lost + 1), true;
        return;
      }
      if status != w.cur || now.bump { w := w.(past := w.past + [w.cur], cur := status); }
      if now.store == W.AckLost {
        w, err := w.(lost := w.lost + 1), true;
      } else {
        resourceVersion, err := |w.past|, false;
      }
    }

    method Read()
      modifies this
      ensures State() == S.ReadSnapshot(old(State()))
    {
      NextMove();
      if !going { return; }
      if now.store != W.Normal || (!w.live && now.readAt > |w.past|) {
        err := true;
        return;
      }
      resourceVersion := if now.readAt > |w.past| then |w.past| else now.readAt;
      status, err := S.Stored(w, resourceVersion), false;
    }

    method Fail()
      modifies this
      ensures State() == S.FailSnapshot(old(State()))
    {
      status := status.(phase := S.Broken);
      StoreStatus();
    }

    method SSHExec()
      modifies this
      ensures State() == S.RunBackup(old(State()))
    {
      NextMove();
      if !going { return; }
      w := w.(backups := w.backups + 1);
      if now.ok { w := w.(succeeded := w.succeeded + 1); }
      err := !now.ok;
    }

    method Reconcile(moves: seq<S.Move>)
      modifies this
      ensures State() == S.ReconcileSnapshot(old(w), moves)
    {
      hide S.NextMove, S.StoreStatus, S.ReadSnapshot, S.RunBackup;
      status, resourceVersion := w.cur, 0;
      script, now, err, going := moves, S.NoMove, false, true;
      Read();
      if !going || err || status.phase == S.Complete || status.phase == S.Broken { return; }
      NextMove();
      if !going || now.parent.Unreadable? { return; }
      if now.parent.Missing? { Fail(); return; }
      if now.parent.phase != Available { return; }
      if now.parent.managementAddress == "" { return; }
      PendingStatus(State(), status.(phase := S.InProgress));
      status := status.(phase := S.InProgress);
      StoreStatus();
      if !going || err { return; }
      NextMove();
      if !going { return; }
      if !now.ok { Fail(); return; }
      SSHExec();
      if !going { return; }
      if err { Fail(); return; }
      PendingStatus(State(), S.SnapshotStatus(S.Complete, true));
      status := status.(phase := S.Complete, done := true);
      StoreStatus();
    }

    /** The work loop of a new snapshot. */
    method Run(scripts: seq<seq<S.Move>>)
      requires S.ShelfOk(w)
      modifies this
      ensures w == S.RunSnapshots(old(w), scripts) && S.ShelfOk(w)
      ensures S.Terminal(old(w.cur)) ==> w.backups == old(w.backups) && w.cur == old(w.cur)
    {
      hide S.ShelfOk, S.ReconcileSnapshot;
      S.SnapshotsOk(w, scripts);
      for n := 0 to |scripts|
        invariant S.RunSnapshots(w, scripts[n..]) == S.RunSnapshots(old(w), scripts)
      {
        Reconcile(scripts[n]);
      }
    }
  }
}
