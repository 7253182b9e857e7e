/** A run in which the car is handed a partition that is still mounted here: the process is killed in the middle
    of a media sync, and the boot that follows clears only the snapshot's mountpoint. No request is refused. */
module Handover {
  import opened Common
  import opened Outside
  import opened MachineSpec
  import opened Progress
  import opened Recovery
  import opened Story
  import S = SnapshotSpec
  import G = GadgetSpec
  import MS = MediaSync
  import Fsutil
  import MachineLaws

  /** Killed while the folders are synced, with the partition mounted. */
  const Answers: Env := n => if n == 87 then Killed else Done(if n < 87 then 0 else n)

  const Crashed := Plain(Answers, true)

  lemma CrashedBegins()
    ensures Begins(Crashed)
  {
  }

  ghost function After8(): Machine {
    Base(Crashed, 80, StateMediaSync, Log8 + [SnapUnmounted], true, Held, Some(TakenThere)).(l := Closed(Crashed))
  }

  lemma UnmountTakes()
    ensures S.Unmount(At(78), Held.(mounts := 1), Answers) == (At(80), Held, true)
  {
  }

  lemma EighthHere()
    ensures Run(Crashed, Init, 8) == After8()
  {
    hide Run, Shown, Closed, S.Unmount;
    CrashedBegins();
    UnmountTakes();
    EighthTurn(Crashed, SnapUnmount(Crashed, Unwound(Crashed)));
  }

  lemma OnlyMusic()
    ensures MS.OrderOf(Targets(Crashed)) == [Music]
    ensures MS.Of(Targets(Crashed), Music) == [MS.Target(true, Music, "Music", "")]
  {
    var ts := Targets(Crashed);
    assert MS.OrderOf(ts[..2][..1][..0]) == [];
    assert MS.OrderOf(ts[..2][..1]) == [Music];
    assert MS.OrderOf(ts[..2]) == [Music];
    assert ts[1..][1..][1..] == [];
    assert MS.Of(ts[1..][1..][1..], Music) == [];
    assert MS.Of(ts[1..][1..], Music) == [];
    assert MS.Of(ts[1..], Music) == [];
  }

  const Left := MS.Media(map[Music := 1], 0, [Music], [MS.Visit(MS.Target(true, Music, "Music", ""), 1)], [])

  lemma SyncDies(ts: seq<MS.Target>)
    requires ts == [MS.Target(true, Music, "Music", "")]
    ensures MS.SyncOne(At(83), Init.media, Music, ts, Answers) == (Proc(88, true), Left)
  {
    var at := Fsutil.MountPoint(0, 0);
    assert Fsutil.Mount(At(85), at, Answers) == Fsutil.Mounting(At(87), Fsutil.MountPoint(1, 0), true);
    assert ts[1..] == [];
    assert MS.SyncFolders(At(87), ts, Answers) == MS.Folders(Proc(88, true), ts, []) by {
      MS.DeadSyncs(Proc(88, true), ts[1..], Answers);
    }
    Fsutil.DeadUnmounts(Proc(88, true), Fsutil.MountPoint(1, 0), Answers);
    MS.SyncOneIs(At(83), Init.media, Music, ts, Answers);
    hide MS.SyncOne, MS.SyncFolders, Fsutil.Mount, Fsutil.Unmount;
    var put := MS.Put(MS.Tried(Init.media, Music), Music, Fsutil.MountPoint(1, 0));
    assert put == MS.Media(map[Music := 1], 0, [Music], [], []) by {
      assert [] + [Music] == [Music] && map[][Music := 1] == map[Music := 1];
    }
    assert MS.Record(put, MS.Folders(Proc(88, true), ts, []), 1) == Left by {
      assert MS.Visits(ts[1..], 1) == [];
    }
  }

  /** The ninth turn, once it is connected ... */
  ghost function Fetching(): Machine {
    After8().(p := At(82), log := Log8 + [SnapUnmounted] + [Connected])
  }

  lemma SyncHere()
    ensures var r := Sync(Crashed, Fetching());
      r.p == Proc(88, true) && r.media == Left && r == Fetching().(p := r.p, t := r.t, gad := r.gad, media := r.media,
                                                                 log := r.log)
  {
    hide Shown, Closed, MS.SyncOne, MS.OrderOf, MS.Of, Targets, Activate, G.Deactivate;
    CrashedBegins();
    PresentTakes(Crashed);
    OnlyMusic();
    SyncDies(MS.Of(Targets(Crashed), Music));
    DeactivateTakes(Crashed, Shown(Crashed).t, Shown(Crashed).g.(active := true), 82);
    assert [Music][1..] == [];
    var d := Deactivate(Crashed, Fetching()).0;
    var m2 := Say(d, SyncBegins(false));
    assert m2.p == At(83) && m2.media == Init.media;
    assert MS.SyncAll(m2.p, m2.media, [Music], Targets(Crashed), Answers) == (Proc(88, true), Left);
    SyncStops(m2.(p := Proc(88, true), media := Left));
  }

  /** ... and as a whole. */
  lemma TurnDies(m: Machine)
    requires m == After8()
    ensures var r := Turn(Crashed, m);
      r.p == Proc(88, true) && r.k == Held && r.media == Left && r.share == Init.share && r.state.StateMediaSync?
  {
    hide Shown, Closed, Sync, MS.OrderOf, Targets, Boot, CreateSnapshot, RunArchive, CleanupSnapshot, Activate;
    OnlyMusic();
    SyncHere();
    assert WithConnection(Crashed, m.(p := At(81)), true) == Hangup(Crashed, Sync(Crashed, Fetching()));
  }

  lemma SyncStops(m: Machine)
    requires m.p.dead
    ensures Activate(Crashed, m).p == m.p && Activate(Crashed, m).media == m.media
    ensures var r := Activate(Crashed, m); Hangup(Crashed, r) == r && r == m.(t := r.t, gad := r.gad)
  {
  }

  lemma NinthTurn(m: Machine)
    requires m == Run(Crashed, Init, 8) && m.p == At(80) && Turn(Crashed, m).p.dead
    ensures Run(Crashed, Init, 9) == Restart(Turn(Crashed, m), true)
  {
    hide Turn, Restart, Run;
    assert Run(Crashed, Init, 9) == Step(Crashed, m) by { OneMoreTurn(); }
  }

  lemma OneMoreTurn()
    ensures Run(Crashed, Init, 9) == Step(Crashed, Run(Crashed, Init, 8))
  {
    hide Step;
  }

  lemma SmoothAfterwards(m: Machine)
    requires m.p == At(88) && m.k == Held && m.share.temp == {}
    ensures Smooth(Ahead(Crashed, m))
  {
  }

  /** The car has its drive, and the music partition is mounted here - in a lawful setup in which no request
      was refused, only the process killed once. */
  lemma HandedOverMounted()
    ensures MachineLaws.Lawful(Crashed) && forall n :: !Crashed.env(n).Refused?
    ensures var m := Run(Crashed, Init, 11);
      && m.state.StateWaitingForWifi? && Bound(m) && MS.Mounted(m.media) == {Music}
      && m.media.faults == 0
  {
    hide Run, Shown, Closed, Turn, MachineLaws.Inv, MachineLaws.Lawful, Smooth, WholeDrive;
    CrashedBegins();
    StoryIsLawful(Crashed);
    EighthHere();
    var m8 := Run(Crashed, Init, 8);
    assert m8.p == At(80);
    TurnDies(m8);
    var m9 := Run(Crashed, Init, 9);
    NinthTurn(m8);
    var w := MachineLaws.Reachable(Crashed, 9);
    StartsSound(Crashed, m9, w);
    SmoothAfterwards(m9);
    BootsInTwo(Crashed, m9);
    RunSplits(Crashed, Init, 9, 2);
  }
}
