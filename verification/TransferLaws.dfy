/** The archive connection, the media mounts and the ledger over the control loop. */
module TransferLaws {
  import opened Common
  import opened Outside
  import opened MachineSpec
  import opened Frames
  import S = SnapshotSpec
  import G = GadgetSpec
  import L = LedgerSpec
  import H = ShareSpec
  import MS = MediaSync
  import Scan

  /** Crashes that may have cut a connection short. */
  function Cut(m: Machine): nat { m.archiveCrashes + m.mediaCrashes }

  /** Mounts of the share: each paid for by a fault or by a crash inside a connection. */
  predicate ShareOk(m: Machine, extra: nat) { m.share.mounts <= m.share.faults + Cut(m) + extra }

  /** Credentials files: each left by a failed connect or a refused removal, or by such a crash. */
  predicate FilesOk(m: Machine, extra: nat) { |m.share.temp| <= m.share.kept + Cut(m) + extra }

  ghost predicate MediaOk(m: Machine, extra: nat) {
    |MS.Mounted(m.media)| <= m.media.faults + m.mediaCrashes + extra
  }

  /** Every crash inside runArchive may leave one path marked but undelivered, and one session open. */
  ghost predicate LedgerOk(m: Machine, extra: nat) {
    L.Sound(m.l, m.archiveCrashes + extra, m.archiveCrashes + extra)
  }

  /** All of them, up to a crash not yet counted: in runArchive (a), in runMediaSync (b). */
  ghost predicate Owing(m: Machine, a: nat, b: nat) {
    ShareOk(m, a + b) && FilesOk(m, a + b) && MediaOk(m, b) && LedgerOk(m, a)
  }

  ghost predicate Inv(m: Machine) { Owing(m, 0, 0) }

  /** What a directory listing guarantees. */
  ghost predicate Lawful(u: Setup) {
    forall now: nat, path: string ::
      Scan.Lawful(Scan.Dir(path, true, u.listing(now, path)))
  }

  lemma SoundGrows(l: L.Ledger, x: nat, y: nat)
    requires L.Sound(l, x, x) && x <= y
    ensures L.Sound(l, y, y)
  {
  }

  lemma DirsAreApart(u: Setup, now: nat)
    ensures var dirs := Dirs(u, now); forall i, j :: 0 <= i < j < |dirs| ==> dirs[i].path != dirs[j].path
  {
    assert "TeslaCam/SavedClips"[10] == 'a' && "TeslaCam/SentryClips"[10] == 'e';
    assert "TeslaCam/RecentClips"[9] == 'R' && "TeslaTrackMode"[5] == 'T';
  }

  lemma DirLawful(u: Setup, now: nat, path: string, enabled: bool)
    requires Lawful(u)
    ensures Scan.Lawful(Scan.Dir(path, enabled, u.listing(now, path)))
  {
    assert Scan.Lawful(Scan.Dir(path, true, u.listing(now, path)));
  }

  lemma ScanIsDistinct(u: Setup, now: nat)
    requires Lawful(u)
    ensures Distinct(Scan.ScanAll(Dirs(u, now)))
  {
    hide Scan.Lawful, Lawful, Distinct, Scan.ScanAll;
    DirsAreApart(u, now);
    DirLawful(u, now, "TeslaCam/SavedClips", u.savedClips);
    DirLawful(u, now, "TeslaCam/SentryClips", u.sentryClips);
    DirLawful(u, now, "TeslaCam/RecentClips", u.recentClips);
    DirLawful(u, now, "TeslaTrackMode", u.trackModeClips);
    Scan.ScanIsDistinct(Dirs(u, now));
  }

  /** What a scan lists, flag by flag of the configuration: every entry of each directory that is switched on
      and can be read. */
  lemma WhatIsScanned(u: Setup, now: nat, f: string)
    ensures f in Scan.ScanAll(Dirs(u, now)) <==>
      || (u.savedClips && Scan.Has("TeslaCam/SavedClips", u.listing(now, "TeslaCam/SavedClips"), f))
      || (u.sentryClips && Scan.Has("TeslaCam/SentryClips", u.listing(now, "TeslaCam/SentryClips"), f))
      || (u.recentClips && Scan.Has("TeslaCam/RecentClips", u.listing(now, "TeslaCam/RecentClips"), f))
      || (u.trackModeClips && Scan.Has("TeslaTrackMode", u.listing(now, "TeslaTrackMode"), f))
  {
    hide Scan.ScanAll, Scan.Has;
    var dirs := Dirs(u, now);
    Scan.ScanLists(dirs, f);
    assert dirs[0] in dirs && dirs[1] in dirs && dirs[2] in dirs && dirs[3] in dirs;
    assert forall d :: d in dirs <==> d == dirs[0] || d == dirs[1] || d == dirs[2] || d == dirs[3];
  }

  // ------------------------------------------------------------ the bodies

  lemma TransferKeeps(u: Setup, m: Machine)
    requires LedgerOk(m, 0) && !m.p.dead && Lawful(u)
    ensures var r := Transfer(u, m);
      LedgerOk(r, One(r.p.dead)) && r.share == m.share && r.media == m.media
  {
    hide L.Sound, L.RunSession, Dirs, Lawful;
    var d := if u.freeSpaceReserve > 0 then Ask(m.p, u.env) else Reply(m.p, false, 0);
    SoundGrows(m.l, m.archiveCrashes, m.archiveCrashes + 1);
    if !(d.ok && d.value < u.freeSpaceReserve) && !d.p.dead {
      ScanIsDistinct(u, d.p.clock);
      L.SessionKeeps(u.backend, d.p, m.l, Scan.ScanAll(Dirs(u, d.p.clock)), m.archiveCrashes, u.env);
    }
  }

  lemma SyncKeeps(u: Setup, m: Machine)
    requires MediaOk(m, 0) && !m.p.dead
    ensures var r := Sync(u, m);
      MediaOk(r, One(r.p.dead)) && r.share == m.share && r.l == m.l
  {
    hide Deactivate, Activate, MS.SyncAll, MS.OrderOf, Targets, MS.Mounted;
    var d := Deactivate(u, m);
    DeactivateFrame(u, m);
    if d.1 {
      var order := MS.OrderOf(Targets(u));
      var m1 := Say(d.0, SyncBegins(Bound(d.0)));
      var s := MS.SyncAll(m1.p, m1.media, order, Targets(u), u.env);
      MS.SyncAllCounts(m1.p, m1.media, order, Targets(u), u.env);
      ActivateFrame(u, m1.(p := s.0, media := s.1));
    }
  }

  /** What a connection that is up adds, until it is hung up. */
  predicate Up(u: Setup, m: Machine, s: H.Share) {
    && s.mounts <= s.faults + Cut(m) + One(H.Mounts(u.backend))
    && |s.temp| <= s.kept + Cut(m) + One(u.backend.Cifs?)
    && (u.backend.Cifs? ==> s.creds.Some? && s.creds.value in s.temp)
  }

  lemma ConnectKeeps(u: Setup, m: Machine, p: Proc)
    requires ShareOk(m, 0) && FilesOk(m, 0) && !p.dead
    ensures var c := H.Connect(u.backend, p, m.share, u.env);
      var r := m.(p := c.p, share := c.s);
      && (c.ok ==> !c.p.dead && Up(u, m, c.s))
      && (!c.ok ==> ShareOk(r, 0) && FilesOk(r, One(c.p.dead)))
  {
    hide H.Connect;
    H.ConnectMeaning(u.backend, p, m.share, u.env);
    H.ConnectFiles(u.backend, p, m.share, u.env);
  }

  lemma HangupKeeps(u: Setup, m: Machine)
    requires Up(u, m, m.share)
    ensures var r := Hangup(u, m);
      && ShareOk(r, One(r.p.dead)) && FilesOk(r, One(r.p.dead))
      && r.media == m.media && r.l == m.l && (m.p.dead ==> r.p.dead)
  {
    hide H.Disconnect;
    H.DisconnectMeaning(u.backend, m.p, m.share, u.env);
    H.DisconnectFiles(u.backend, m.p, m.share, u.env);
  }

  /** Whatever happens in between, the share is given back with its credentials file, the partitions are
      unmounted and the ledger stays lawful, up to faults and the process's death. */
  lemma WithConnectionKeeps(u: Setup, m: Machine, media: bool)
    requires Inv(m) && !m.p.dead && Lawful(u)
    ensures var r := WithConnection(u, m, media);
      Owing(r, One(r.p.dead && !media), One(r.p.dead && media))
  {
    hide H.Connect, Reachable, Sync, Transfer, Hangup, MS.Mounted, L.Sound, Lawful, Up;
    var q := Reachable(u, m.p);
    ReachableAlive(u, m.p);
    SoundGrows(m.l, m.archiveCrashes, m.archiveCrashes + 1);
    if q.ok {
      ConnectKeeps(u, m, q.p);
      var c := H.Connect(u.backend, q.p, m.share, u.env);
      if c.ok {
        var m1 := Say(m.(p := c.p, share := c.s), Connected);
        if media {
          SyncKeeps(u, m1);
          SyncFrame(u, m1);
          Rest(u, m, Sync(u, m1), media);
        } else {
          TransferKeeps(u, m1);
          TransferFrame(u, m1);
          Rest(u, m, Transfer(u, m1), media);
        }
      }
    }
  }

  lemma ReachableAlive(u: Setup, p: Proc)
    ensures Reachable(u, p).ok ==> !p.dead && !Reachable(u, p).p.dead
  {
  }

  lemma Rest(u: Setup, m: Machine, m2: Machine, media: bool)
    requires Inv(m) && Up(u, m, m2.share)
    requires m2.archiveCrashes == m.archiveCrashes && m2.mediaCrashes == m.mediaCrashes
    requires media ==> MediaOk(m2, One(m2.p.dead)) && m2.l == m.l
    requires !media ==> LedgerOk(m2, One(m2.p.dead)) && m2.media == m.media
    ensures var r := Hangup(u, m2);
      Owing(r, One(r.p.dead && !media), One(r.p.dead && media))
  {
    hide MS.Mounted, L.Sound, Hangup;
    HangupKeeps(u, m2);
    HangupFrame(u, m2);
    SoundGrows(m.l, m.archiveCrashes, m.archiveCrashes + 1);
    if !media && !m2.p.dead { SoundGrows(m2.l, m.archiveCrashes, m.archiveCrashes + 1); }
  }

  // ------------------------------------------------------------ the arms

  predicate SameTransfer(m: Machine, r: Machine) {
    && r.share == m.share && r.media == m.media && r.l == m.l && r.restarts == m.restarts
    && r.archiveCrashes == m.archiveCrashes && r.mediaCrashes == m.mediaCrashes
  }

  /** What a turn may leave owing: only a process that died in one of the two arms owes anything. */
  ghost predicate Left(m: Machine, r: Machine) {
    && Owing(r, One(r.p.dead && m.state.StateArchiving?), One(r.p.dead && m.state.StateMediaSync?))
    && (r.p.dead ==> r.state == m.state)
  }

  lemma SameTransferKeeps(m: Machine, r: Machine)
    requires Inv(m) && SameTransfer(m, r)
    ensures Inv(r)
    ensures (r.p.dead ==> r.state == m.state) ==> Left(m, r)
  {
    hide MS.Mounted, L.Sound;
    SoundGrows(m.l, m.archiveCrashes, m.archiveCrashes + 1);
  }

  lemma ArchivingKeeps(u: Setup, m: Machine)
    requires Inv(m) && m.state.StateArchiving? && !m.p.dead && Lawful(u)
    ensures Left(m, Arm(u, m))
  {
    hide S.Mount, WithConnection, S.Unmount, MS.Mounted, L.Sound, Lawful, Owing;
    if m.snap.Some? {
      var mt := S.Mount(m.p, m.k, m.snap.value, u.env);
      if mt.ok {
        var m2 := WakeStart(u, Say(m.(p := mt.p, k := mt.k, snap := Some(mt.s)), SnapMounted));
        ArchiveCarries(u, m, m2);
      } else {
        SameTransferKeeps(m, Arm(u, m));
      }
    } else {
      SameTransferKeeps(m, Arm(u, m));
    }
  }

  lemma ArchiveCarries(u: Setup, m: Machine, m2: Machine)
    requires Inv(m) && Lawful(u) && SameTransfer(m, m2) && m.state.StateArchiving? && m2.state == m.state
    ensures Left(m, Goto(SnapUnmount(u, WakeStop(u, WithConnection(u, m2, false))), StateMediaSync))
  {
    hide WithConnection, S.Unmount, MS.Mounted, L.Sound, Lawful;
    SameTransferKeeps(m, m2);
    var m3 := WithConnection(u, m2, false);
    if m2.p.dead {
      DeadStaysUnconnected(u, m2, false);
      SoundGrows(m.l, m.archiveCrashes, m.archiveCrashes + 1);
    } else {
      WithConnectionKeeps(u, m2, false);
      WithConnectionFrame(u, m2, false);
      SoundMore(m3);
    }
    var m4 := WakeStop(u, m3);
    DeadUnmounts(m4.p, m4.k, u.env);
  }

  lemma SoundMore(m: Machine)
    requires LedgerOk(m, One(m.p.dead))
    ensures LedgerOk(m, 1)
  {
    hide L.Sound;
    SoundGrows(m.l, m.archiveCrashes + One(m.p.dead), m.archiveCrashes + 1);
  }

  lemma MediaArmKeeps(u: Setup, m: Machine)
    requires Inv(m) && m.state.StateMediaSync? && !m.p.dead && Lawful(u)
    ensures Left(m, Arm(u, m))
  {
    hide WithConnection, MS.OrderOf, Targets, MS.Mounted, L.Sound, Lawful;
    WithConnectionKeeps(u, m, true);
    WithConnectionFrame(u, m, true);
  }

  lemma BootAside(u: Setup, m: Machine)
    ensures SameTransfer(m, Boot(u, m).0) && Boot(u, m).0.state == m.state
  {
    hide S.Unmount, S.Cleanup, G.Present;
  }

  lemma SnapshotAside(u: Setup, m: Machine)
    ensures SameTransfer(m, CreateSnapshot(u, m).0) && CreateSnapshot(u, m).0.state == m.state
  {
    hide Deactivate, Activate, S.Create;
    var d := Deactivate(u, m);
    DeactivateFrame(u, m);
    var c := S.Create(d.0.p, d.0.k, u.env);
    ActivateFrame(u, d.0.(p := c.p, k := c.k));
  }

  lemma OtherArmsKeep(u: Setup, m: Machine)
    requires Inv(m) && !m.p.dead && !m.state.StateArchiving? && !m.state.StateMediaSync?
    ensures Left(m, Arm(u, m))
  {
    hide Boot, CreateSnapshot, Activate, S.Release, Owing;
    BootAside(u, m);
    SnapshotAside(u, m);
    ActivateFrame(u, m);
    SameTransferKeeps(m, Arm(u, m));
  }

  lemma ArmKeeps(u: Setup, m: Machine)
    requires Inv(m) && !m.p.dead && Lawful(u)
    ensures Left(m, Arm(u, m))
  {
    hide Inv, Arm, Left, Lawful;
    match m.state
    case StateArchiving => ArchivingKeeps(u, m);
    case StateMediaSync => MediaArmKeeps(u, m);
    case _ => OtherArmsKeep(u, m);
  }

  /** A turn that gets to its arm may leave a crash to be counted; one that does not changes nothing. */
  lemma TurnKeeps(u: Setup, m: Machine)
    requires Inv(m) && !m.p.dead && Lawful(u)
    ensures if Ask(m.p, u.env).ok then Left(m, Turn(u, m)) else Inv(Turn(u, m)) && Turn(u, m).p.dead
  {
    hide Owing, Arm, Deactivate, Lawful;
    var m1 := m.(p := Ask(m.p, u.env).p);
    SameTransferKeeps(m, m1);
    DeactivateFrame(u, m1);
    if Ask(m.p, u.env).ok {
      ArmKeeps(u, m1);
    } else if !m1.p.dead {
      SameTransferKeeps(m1, Shutdown(u, m1));
    }
  }

  lemma RestartCounts(m: Machine, r: Machine)
    requires Left(m, r) && r.p.dead
    ensures Inv(Restart(r, true))
  {
    hide MS.Mounted, L.Sound;
  }

  lemma RestartKeeps(r: Machine)
    requires Inv(r)
    ensures Inv(Restart(r, false))
  {
    hide MS.Mounted, L.Sound;
  }

  lemma StepKeeps(u: Setup, m: Machine)
    requires Inv(m) && !m.p.dead && Lawful(u)
    ensures Inv(Step(u, m))
  {
    hide Turn, Owing, Restart, Lawful;
    TurnKeeps(u, m);
    var r := Turn(u, m);
    if !Ask(m.p, u.env).ok {
      RestartKeeps(r);
    } else if r.p.dead {
      RestartCounts(m, r);
    }
  }

  // ------------------------------------------------------------ what a connection leaves behind

  /** A credentials file that is there between two turns is there for good, and so is a mount of the share. */
  predicate LeftOver(m: Machine, r: Machine) {
    m.share.temp <= r.share.temp && m.share.mounts <= r.share.mounts
  }

  lemma LeftoversStay(u: Setup, m: Machine, media: bool)
    ensures LeftOver(m, WithConnection(u, m, media))
  {
    hide H.Connect, H.Disconnect, Reachable, Sync, Transfer;
    var q := Reachable(u, m.p);
    var c := H.Connect(u.backend, q.p, m.share, u.env);
    var m1 := Say(m.(p := c.p, share := c.s), Connected);
    SyncFrame(u, m1);
    TransferFrame(u, m1);
    var m2 := if media then Sync(u, m1) else Transfer(u, m1);
    H.LeftMountsStay(u.backend, q.p, m.share, m2.p, u.env);
    forall z | z in m.share.temp ensures z in WithConnection(u, m, media).share.temp {
      H.LeftFilesStay(u.backend, q.p, m.share, m2.p, u.env, z);
    }
  }

  lemma ArmLeftoversStay(u: Setup, m: Machine)
    ensures LeftOver(m, Arm(u, m))
  {
    hide Boot, CreateSnapshot, Activate, WithConnection, S.Release, S.Mount, S.Unmount, MS.OrderOf, Targets;
    BootAside(u, m);
    SnapshotAside(u, m);
    ActivateFrame(u, m);
    LeftoversStay(u, m, true);
    if m.snap.Some? {
      var mt := S.Mount(m.p, m.k, m.snap.value, u.env);
      LeftoversStay(u, WakeStart(u, Say(m.(p := mt.p, k := mt.k, snap := Some(mt.s)), SnapMounted)), false);
    }
  }

  /** Whatever the turn meets, and across restarts. */
  lemma LeftoversAreForGood(u: Setup, m: Machine)
    ensures LeftOver(m, Step(u, m))
  {
    hide Arm, Deactivate;
    var m1 := m.(p := Ask(m.p, u.env).p);
    DeactivateFrame(u, m1);
    ArmLeftoversStay(u, m1);
  }
}
