/** A run in which archiving comes to a standstill although the process lives on and every later request is
    carried out: in one cycle the mount table cannot be read when the snapshot is to be unmounted, and the two
    umounts of the Release that follows are refused. The clip recorded after that is never sent. */
module Standstill {
  import opened Common
  import opened Outside
  import opened MachineSpec
  import opened Discipline
  import opened Progress
  import opened Recovery
  import opened Story
  import S = SnapshotSpec
  import G = GadgetSpec
  import MS = MediaSync
  import Scan
  import MachineLaws

  /** The look at /proc/mounts after the session, and the two umounts. */
  const Refusals: set<nat> := {78, 81, 82}

  const Answers: Env := n => if n in Refusals then Refused else Done(if n < 87 then 0 else n)

  const Still := Plain(Answers, false)

  lemma StillBegins()
    ensures Begins(Still)
  {
  }

  /** What the refusals leave: one mount too many, and two faults. */
  ghost function After8(): Machine {
    Base(Still, 79, StateMediaSync, Log8 + [SnapUnmounted], true, Held.(mounts := 1, faults := 1), Some(TakenThere))
      .(l := Closed(Still))
  }
  ghost function After9(): Machine { After8().(p := At(80), state := StateCleanup) }
  ghost function After10(): Machine {
    After9().(p := At(87), state := StateWaitingForWifi, k := Held.(mounts := 1, faults := 2), snap := None)
  }

  lemma EighthHere()
    ensures Run(Still, Init, 8) == After8()
  {
    hide Run, Shown, Closed;
    StillBegins();
    assert S.Unmount(At(78), Held.(mounts := 1), Answers) == (At(79), Held.(mounts := 1, faults := 1), true);
    EighthTurn(Still, SnapUnmount(Still, Unwound(Still)));
  }

  lemma NothingToSync()
    ensures MS.OrderOf(Targets(Still)) == []
  {
    var ts := Targets(Still);
    assert MS.OrderOf(ts[..2][..1][..0]) == [];
    assert MS.OrderOf(ts[..2][..1]) == [];
    assert MS.OrderOf(ts[..2]) == [];
  }

  lemma NinthTurn()
    ensures Step(Still, After8()) == After9()
  {
    hide Step, Boot, CreateSnapshot, RunArchive, CleanupSnapshot, Activate, Closed, Shown, WithConnection,
      MS.OrderOf, Targets;
    NothingToSync();
    TurnIs(Still, After8(), After9());
  }

  lemma ReleaseTakes()
    ensures S.Release(At(81), Held.(mounts := 1, faults := 1), TakenThere, Answers)
      == S.Point(At(87), Held.(mounts := 1, faults := 2), S.Snap(None, false), false)
  {
    var u := S.ReleaseMount(At(81), Held.(mounts := 1, faults := 1), TakenThere, Answers);
    assert u == S.Point(At(83), Held.(mounts := 1, faults := 2), Taken, false);
  }

  lemma TenthTurn()
    ensures Step(Still, After9()) == After10()
  {
    hide Step, Boot, CreateSnapshot, RunArchive, RunMediaSync, Activate, Closed, Shown, S.Release;
    ReleaseTakes();
    TurnIs(Still, After9(), After10());
  }

  lemma TenTurns()
    ensures Run(Still, Init, 10) == After10()
  {
    hide Step, After8, After9, After10;
    EighthHere();
    NinthTurn();
    TenthTurn();
    assert Run(Still, Init, 9) == Step(Still, Run(Still, Init, 8));
  }

  /** Such a standstill is reached: a lawful setup, ten turns without a restart, and a machine that waits with
      the mount still there, while from here on every request is carried out. */
  lemma StuckIsReachable()
    ensures MachineLaws.Lawful(Still)
    ensures var m := Run(Still, Init, 10);
      MachineLaws.Stuck(m) && m.state.StateWaitingForWifi? && m.restarts == 0 && Smooth(Ahead(Still, m))
  {
    hide Run, Shown, Closed, MachineLaws.Lawful;
    TenTurns();
    StillBegins();
    StoryIsLawful(Still);
  }

  /** ... and it lasts: four, eight, twelve turns later, and so on, the machine waits with its ledger as it
      was, no session has begun, and the clip that every scan would list from now on has never been sent. */
  lemma StandstillLasts(c: nat)
    ensures var m, r := Run(Still, Init, 10), Run(Still, Init, 10 + 4 * c);
      && r.state.StateWaitingForWifi? && r.l == m.l && r.k.mounts == 1 && !SessionIn(m.log, r.log)
      && (forall now :: now >= m.p.clock ==> Clip in Scan.ScanAll(Dirs(Still, now)))
      && r.l.h.attempts[Clip] == 0 && Clip !in r.l.h.delivered
  {
    hide Run, Shown, Closed, SessionIn, Dirs, Scan.ScanAll;
    var m := Run(Still, Init, 10);
    TenTurns();
    StuckIsReachable();
    StillIsPoised();
    BlockedForever(Still, m, c);
    RunSplits(Still, Init, 10, 4 * c);
    StillBegins();
    SessionTakes(Still);
    forall now | now >= m.p.clock ensures Clip in Scan.ScanAll(Dirs(Still, now)) {
      ClipIsScanned(Still, now);
    }
  }

  lemma StillIsPoised()
    ensures Poised(Still, Run(Still, Init, 10))
  {
    hide Run, Closed, G.FindUdc, Shown;
    TenTurns();
    StuckIsReachable();
    StillBegins();
    PresentTakes(Still);
    OneController();
    assert After10().log + [] == After10().log;
  }
}
