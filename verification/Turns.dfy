/** What a turn of the control loop does, and when, in terms of the answers it gets: which state follows which,
    what a shutdown leaves behind, and exactly when a session begins. */
module Turns {
  import opened Common
  import opened Outside
  import opened MachineSpec
  import opened Frames
  import opened Discipline
  import S = SnapshotSpec
  import G = GadgetSpec
  import L = LedgerSpec
  import H = ShareSpec
  import MS = MediaSync
  import Scan
  import KernelLaws
  import MachineLaws
  import TransferLaws

  // ------------------------------------------------------------ which state follows which

  /** The arrows of the state diagram. */
  predicate Follows(a: State, b: State) {
    match a
    case StateBooting => b.StateBooting? || b.StateGadgetUp?
    case StateGadgetUp => b.StateWaitingForWifi?
    case StateWaitingForWifi => b.StateWaitingForWifi? || b.StatePreArchive?
    case StatePreArchive => b.StateSnapshot?
    case StateSnapshot => b.StateFsck? || b.StateCleanup?
    case StateFsck => b.StateReconnect?
    case StateReconnect => b.StateArchiving?
    case StateArchiving => b.StateMediaSync?
    case StateMediaSync => b.StateCleanup?
    case StateCleanup => b.StateWaitingForWifi?
  }

  lemma ArmFollows(u: Setup, m: Machine)
    ensures !Arm(u, m).p.dead ==> Follows(m.state, Arm(u, m).state)
  {
    hide Boot, CreateSnapshot, RunArchive, WithConnection, Activate, S.Release, MS.OrderOf, Targets;
    ActivateFrame(u, m);
    WithConnectionFrame(u, m, true);
    TransferLaws.BootAside(u, m);
    TransferLaws.SnapshotAside(u, m);
    ArchiveState(u, m);
  }

  lemma ArchiveState(u: Setup, m: Machine)
    ensures RunArchive(u, m).state == m.state && RunArchive(u, m).restarts == m.restarts
  {
    hide S.Mount, S.Unmount, WithConnection, WakeStart, WakeStop, SnapUnmount;
    if m.snap.Some? {
      KernelLaws.ArchiveIs(u, m);
    }
  }

  /** A turn the process survives takes an arrow of the diagram; one that it does not survive leads to a restart
      at StateBooting. What went wrong in the turn makes no difference but at booting, waiting and snapshot. */
  lemma TurnsFollow(u: Setup, m: Machine)
    ensures var r := Step(u, m);
      (r.restarts == m.restarts ==> Follows(m.state, r.state)) && (r.restarts > m.restarts ==> r.state.StateBooting?)
  {
    hide Arm, Deactivate, Follows;
    var m1 := m.(p := Ask(m.p, u.env).p);
    DeactivateFrame(u, m1);
    ArmFollows(u, m1);
    MachineLaws.RestartsGrow(u, m);
    ArmRestarts(u, m1);
  }

  lemma ArmRestarts(u: Setup, m: Machine)
    ensures Arm(u, m).restarts == m.restarts
  {
    hide Boot, CreateSnapshot, RunArchive, WithConnection, Activate, S.Release, MS.OrderOf, Targets;
    ActivateFrame(u, m);
    WithConnectionFrame(u, m, true);
    TransferLaws.BootAside(u, m);
    TransferLaws.SnapshotAside(u, m);
    ArchiveState(u, m);
  }

  /** A wait ends when WiFi is there; until then nothing happens but that it is logged. */
  lemma WaitEndsIff(u: Setup, m: Machine)
    requires m.state.StateWaitingForWifi? && !m.p.dead && u.env(m.p.clock).Done? && !u.env(m.p.clock + 1).Killed?
    ensures Step(u, m) == m.(p := Proc(m.p.clock + 2, false), log := m.log + [Waiting(Bound(m))],
                             state := if u.env(m.p.clock + 1).Done? then StatePreArchive else StateWaitingForWifi)
  {
  }

  /** The snapshot turn: the drive is taken away or nothing happens at all; then there is a snapshot, and the drive
      stays away for the fsck, or there is none, and an activation is tried at once. */
  lemma SnapshotTurn(u: Setup, m: Machine, w: Watch)
    requires MachineLaws.Inv(u, m, w) && m.state.StateSnapshot? && u.env(m.p.clock).Done?
    ensures var r := Step(u, m);
      r.restarts == m.restarts ==>
        if u.env(m.p.clock + 1).Done? then
          && r.k == S.Create(Proc(m.p.clock + 2, false), m.k, u.env).k
          && (if r.state.StateFsck? then r.snap.Some? && !Bound(r) && r.log == m.log + [Deactivated]
              else r.snap.None? && exists ok :: r.log == m.log + [Deactivated, ActivateTried(ok)])
        else r == m.(p := Proc(m.p.clock + 2, false), state := StateCleanup)
  {
    hide S.Create, Activate, MachineLaws.Inv, G.Activate;
    SnapshotBasics(u, m, w);
    var m1 := m.(p := Proc(m.p.clock + 1, false));
    var d := Deactivate(u, m1);
    assert d.1 <==> u.env(m.p.clock + 1).Done?;
    if d.1 {
      assert d.0 == m.(p := Proc(m.p.clock + 2, false), t := m.t.(udc := ""), gad := d.0.gad,
                       log := m.log + [Deactivated]) && d.0.gad.Some?;
      var c := S.Create(d.0.p, m.k, u.env);
      var m2 := d.0.(p := c.p, k := c.k);
      ActivateFrame(u, m2);
      ActivateSays(u, m2);
      assert forall ok :: (m.log + [Deactivated]) + [ActivateTried(ok)] == m.log + [Deactivated, ActivateTried(ok)];
    }
  }

  lemma ActivateSays(u: Setup, m: Machine)
    requires m.gad.Some?
    ensures var r := Activate(u, m); !r.p.dead ==> exists ok :: r.log == m.log + [ActivateTried(ok)]
  {
    hide G.Activate;
  }

  lemma SnapshotBasics(u: Setup, m: Machine, w: Watch)
    requires MachineLaws.Inv(u, m, w) && m.state.StateSnapshot?
    ensures !m.p.dead && m.snap.None? && m.gad.Some? && G.Root in m.t.nodes
  {
    hide G.LunsAgree, Observe, TransferLaws.Inv, S.Sound;
  }

  /** Before the snapshot there is one request - the wait for idleness - and what it reports makes no difference. */
  lemma PreArchiveTurn(u: Setup, m: Machine)
    requires m.state.StatePreArchive? && !m.p.dead && u.env(m.p.clock).Done? && !u.env(m.p.clock + 1).Killed?
    ensures Step(u, m) == m.(p := Proc(m.p.clock + 2, false), state := StateSnapshot)
  {
  }

  /** And one fsck, whatever it reports. */
  lemma FsckTurn(u: Setup, m: Machine)
    requires m.state.StateFsck? && !m.p.dead && u.env(m.p.clock).Done? && !u.env(m.p.clock + 1).Killed?
    ensures Step(u, m)
      == m.(p := Proc(m.p.clock + 2, false), state := StateReconnect, log := m.log + [FsckBegins(Bound(m))])
  {
  }

  /** The end of an archiving turn, from its request number `at` on: the wake is stopped, and then the snapshot is
      unmounted if and only if it is seen to be mounted and one of the two umounts is carried out. */
  lemma UnwindUnmountsIff(u: Setup, m: Machine)
    requires !m.p.dead && m.k.mounts == 1
    ensures var r, at := SnapUnmount(u, WakeStop(u, m)), m.p.clock;
      !r.p.dead ==>
        && (r.k.mounts == 0 <==> u.env(at + 1).Done? && (u.env(at + 2).Done? || u.env(at + 3).Done?))
        && r.k == m.k.(mounts := r.k.mounts, faults := r.k.faults) && r.log == m.log + [WakeStopped, SnapUnmounted]
  {
    assert (m.log + [WakeStopped]) + [SnapUnmounted] == m.log + [WakeStopped, SnapUnmounted];
  }

  // ------------------------------------------------------------ shutdown

  /** A turn that finds the context done takes the drive away and ends the process: with a gadget, in one request
      - carried out, the gadget is unbound and that is logged; not carried out, configfs stays as it is - and
      without one, in none. Everything else a shutdown leaves as it finds it. */
  lemma ShutdownTurn(u: Setup, m: Machine, w: Watch)
    requires MachineLaws.Inv(u, m, w) && u.env(m.p.clock).Refused?
    ensures var r := Step(u, m);
      var goes := m.gad.Some? && u.env(m.p.clock + 1).Done? && G.Root in m.t.nodes;
      && r.t == (if goes then m.t.(udc := "") else m.t)
      && r.log == m.log + (if goes then [Deactivated, Restarted] else [Restarted])
      && (Bound(r) <==> Bound(m) && !(m.gad.Some? && u.env(m.p.clock + 1).Done?))
      && r.p == Proc(m.p.clock + (if m.gad.Some? then 2 else 1), false)
      && r.state.StateBooting? && r.restarts == m.restarts + 1
      && r.k == m.k && r.media == m.media && r.l == m.l && r.share == m.share.(creds := None)
      && r.archiveCrashes == m.archiveCrashes && r.mediaCrashes == m.mediaCrashes
  {
    hide MachineLaws.Inv, G.Deactivate;
    ShutdownBasics(u, m, w);
    if m.gad.Some? {
      UnbindIs(Proc(m.p.clock + 1, false), m.t, m.gad.value, u.env);
    }
    assert (m.log + [Deactivated]) + [Restarted] == m.log + [Deactivated, Restarted];
  }

  lemma UnbindIs(p: Proc, t: G.Tree, g: G.Gadget, env: Env)
    requires !p.dead
    ensures var r := G.Deactivate(p, t, g, env);
      && (r.ok <==> env(p.clock).Done? && G.Root in t.nodes)
      && r.t == (if r.ok then t.(udc := "") else t) && r.p.clock == p.clock + 1 && (r.p.dead <==> env(p.clock).Killed?)
  {
  }

  lemma ShutdownBasics(u: Setup, m: Machine, w: Watch)
    requires MachineLaws.Inv(u, m, w)
    ensures !m.p.dead && (G.Root !in m.t.nodes ==> !Bound(m))
  {
    hide G.LunsAgree, Observe, TransferLaws.Inv, KernelLaws.Inv;
  }

  /** So, for the drive of a machine that is up: it is gone after a shutdown if and only if the one request to take
      it away is carried out. */
  lemma ShutdownUnbindsIff(u: Setup, m: Machine, w: Watch)
    requires MachineLaws.Inv(u, m, w) && u.env(m.p.clock).Refused? && m.gad.Some? && Bound(m)
    ensures !Bound(Step(u, m)) <==> u.env(m.p.clock + 1).Done?
  {
    hide MachineLaws.Inv, Step;
    ShutdownTurn(u, m, w);
  }

  // ------------------------------------------------------------ when a session begins

  /** The look at the free space - request number `at` - says that there is too little. */
  predicate TooFull(u: Setup, at: nat) {
    u.freeSpaceReserve > 0 && u.env(at).Done? && u.env(at).value < u.freeSpaceReserve
  }

  /** It is not, and the process survives the look - which, without a reserve to keep, is not taken. */
  predicate Room(u: Setup, at: nat) { !TooFull(u, at) && (u.freeSpaceReserve > 0 ==> !u.env(at).Killed?) }

  /** The session begins if and only if there is room; a failed look counts as room. Where there is none, nothing
      happens. */
  lemma TransferBeginsIff(u: Setup, m: Machine)
    requires !m.p.dead
    ensures var r, at := Transfer(u, m), m.p.clock;
      && r.log == m.log + (if Room(u, at) then [SessionBegins(Bound(m), if u.freeSpaceReserve > 0 then at + 1 else at)]
                           else [])
      && (TooFull(u, at) ==> r == m.(p := Proc(at + 1, false)))
      && (!Room(u, at) ==> r == m.(p := r.p))
  {
    hide L.RunSession, Dirs, Scan.ScanAll;
  }

  function Ping(u: Setup): nat { One(!u.backend.Noop?) }

  /** From request number `at` on: the archive answers, and connecting to it works. */
  predicate Connects(u: Setup, s: H.Share, at: nat) {
    var c := at + Ping(u);
    && (u.backend.Noop? || u.env(at).Done?)
    && (forall i :: c <= i < c + H.Cost(u.backend) ==> u.env(i).Done?)
    && (u.backend.Cifs? ==> u.env(c + 1).Done? && u.env(c + 1).value !in s.temp)
  }

  lemma ConnectionBeginsIff(u: Setup, m: Machine)
    requires !m.p.dead
    ensures var r, at := WithConnection(u, m, false), m.p.clock;
      SessionIn(m.log, r.log) <==> Connects(u, m.share, at) && Room(u, at + Ping(u) + H.Cost(u.backend))
  {
    hide H.Connect, H.Disconnect, Transfer, Room, TooFull, Connects;
    var at := m.p.clock;
    var q := Reachable(u, m.p);
    assert q.ok <==> u.backend.Noop? || u.env(at).Done?;
    assert q.ok ==> q.p == Proc(at + Ping(u), false);
    var r := WithConnection(u, m, false);
    if q.ok {
      H.ConnectWorksIff(u.backend, q.p, m.share, u.env);
      var c := H.Connect(u.backend, q.p, m.share, u.env);
      assert c.ok <==> Connects(u, m.share, at) by { ConnectsIs(u, m.share, at); }
      if c.ok {
        var m1 := m.(p := c.p, share := c.s, log := m.log + [Connected]);
        TransferBeginsIff(u, m1);
        var t := Transfer(u, m1);
        assert r == Hangup(u, t);
        SessionAfter(m.log, Bound(m), if u.freeSpaceReserve > 0 then c.p.clock + 1 else c.p.clock,
                     if r.p.dead then [] else [Disconnected], Room(u, c.p.clock));
      } else {
        NothingIn(m.log);
      }
    } else {
      ConnectsIs(u, m.share, at);
      NothingIn(m.log);
    }
  }

  lemma ConnectsIs(u: Setup, s: H.Share, at: nat)
    ensures var c := at + Ping(u);
      Connects(u, s, at) <==>
        && (u.backend.Noop? || u.env(at).Done?)
        && (forall i :: c <= i < c + H.Cost(u.backend) ==> u.env(i).Done?)
        && (u.backend.Cifs? ==> u.env(c + 1).Done? && u.env(c + 1).value !in s.temp)
  {
  }

  lemma NothingIn(log: seq<Event>)
    ensures !SessionIn(log, log)
  {
    assert log[|log|..] == [];
  }

  /** Connected, then the session if there is room, then whatever is no session. */
  lemma SessionAfter(log: seq<Event>, b: bool, now: nat, tail: seq<Event>, room: bool)
    requires forall e :: e in tail ==> !e.SessionBegins?
    ensures SessionIn(log, log + [Connected] + (if room then [SessionBegins(b, now)] else []) + tail) <==> room
  {
    var added := [Connected] + (if room then [SessionBegins(b, now)] else []) + tail;
    var after := log + [Connected] + (if room then [SessionBegins(b, now)] else []) + tail;
    assert after[|log|..] == added;
    if room { assert added[1] == SessionBegins(b, now); }
  }

  /** From request number `at` on: the snapshot can be mounted, and the process survives waking the car. */
  predicate Mounts(u: Setup, m: Machine, at: nat) {
    m.snap.Some? && m.k.snap.Some? && u.env(at).Done? && u.env(at + 1).Done? && !u.env(at + 2).Killed?
  }

  /** What has to come about for an archiving turn to begin a session: its context is alive, the snapshot is mounted,
      the archive answers and can be connected to, and there is room. */
  predicate Begins(u: Setup, m: Machine) {
    var at := m.p.clock;
    && u.env(at).Done? && Mounts(u, m, at + 1)
    && Connects(u, m.share, at + 4) && Room(u, at + 4 + Ping(u) + H.Cost(u.backend))
  }

  /** Whatever else happens, an archiving turn begins a session if and only if these requests are answered so; and
      if it does not, the ledger is not touched. */
  lemma ArchivingBeginsIff(u: Setup, m: Machine)
    requires m.state.StateArchiving? && !m.p.dead
    ensures SessionIn(m.log, Step(u, m).log) <==> Begins(u, m)
    ensures !Begins(u, m) ==> Step(u, m).l == m.l
  {
    hide WithConnection, S.Mount, S.Unmount, Connects, Room, Deactivate, Step, MachineLaws.SessionAt,
      MachineLaws.SyncAt, RunArchive;
    var m1 := m.(p := Ask(m.p, u.env).p);
    if u.env(m.p.clock).Done? {
      ArchiveBeginsIff(u, m1);
      ArchiveLogs(u, m, m1);
    } else {
      NoTurnNoSession(u, m);
    }
    var now, at := MachineLaws.EffectsAreLogged(u, m);
    if Step(u, m).l != m.l {
      SessionLoggedIsIn(m, Step(u, m), now);
    }
  }

  lemma SessionLoggedIsIn(m: Machine, r: Machine, now: nat)
    requires MachineLaws.Logged(m, r, SessionBegins(Bound(m), now))
    ensures SessionIn(m.log, r.log)
  {
  }

  lemma MoreAfter(log: seq<Event>, mid: seq<Event>, after: seq<Event>, tail: seq<Event>)
    requires log <= mid && after == mid + tail && forall e :: e in tail ==> !e.SessionBegins?
    ensures SessionIn(log, after) <==> SessionIn(log, mid)
  {
    assert after[|log|..] == mid[|log|..] + tail;
  }

  lemma LessBefore(log: seq<Event>, mid: seq<Event>, after: seq<Event>, head: seq<Event>)
    requires mid == log + head && mid <= after && forall e :: e in head ==> !e.SessionBegins?
    ensures SessionIn(log, after) <==> SessionIn(mid, after)
  {
    assert after[|log|..] == head + after[|mid|..];
  }

  lemma NoTurnNoSession(u: Setup, m: Machine)
    requires !m.p.dead && !u.env(m.p.clock).Done?
    ensures !SessionIn(m.log, Step(u, m).log)
  {
    hide G.Deactivate, Arm;
    var r := Step(u, m);
    assert r.log == m.log + [Restarted] || r.log == (m.log + [Deactivated]) + [Restarted];
    assert (m.log + [Deactivated]) + [Restarted] == m.log + [Deactivated, Restarted];
    assert r.log[|m.log|..] == [Restarted] || r.log[|m.log|..] == [Deactivated, Restarted];
  }

  lemma ArchiveLogs(u: Setup, m: Machine, m1: Machine)
    requires m.state.StateArchiving? && !m.p.dead && u.env(m.p.clock).Done? && m1 == m.(p := Ask(m.p, u.env).p)
    ensures SessionIn(m.log, Step(u, m).log) <==> SessionIn(m.log, RunArchive(u, m1).log)
  {
    hide RunArchive;
    var r := RunArchive(u, m1);
    var now := MachineLaws.ArchiveIsLogged(u, m1);
    assert r.log + [] == r.log;
    MoreAfter(m.log, r.log, Step(u, m).log, if r.p.dead then [Restarted] else []);
  }

  lemma ArchiveBeginsIff(u: Setup, m: Machine)
    requires !m.p.dead
    ensures var at := m.p.clock;
      SessionIn(m.log, RunArchive(u, m).log) <==>
        (Mounts(u, m, at) && Connects(u, m.share, at + 3) && Room(u, at + 3 + Ping(u) + H.Cost(u.backend)))
  {
    hide WithConnection, S.Mount, S.Unmount, Connects, Room, RunArchive, SnapUnmount, WakeStop, Hangup;
    NothingIn(m.log);
    if m.snap.None? {
      assert RunArchive(u, m) == m by { NoSnapshot(u, m); }
    } else {
      S.MountWorksIff(m.p, m.k, m.snap.value, u.env);
      MachineLaws.MountIsAside(u, m);
      var mt := S.Mount(m.p, m.k, m.snap.value, u.env);
      if mt.ok {
        var m2 := WakeStart(u, Say(m.(p := mt.p, k := mt.k, snap := Some(mt.s)), SnapMounted));
        MountedBeginsIff(u, m2);
        var now := MachineLaws.CarryIsLogged(u, m2);
        var head := if m2.p.dead then [SnapMounted] else [SnapMounted, WakeStarted];
        assert m2.log == m.log + head;
        hide SessionIn;
        LessBefore(m.log, m2.log, RunArchive(u, m).log, head);
      }
    }
  }

  lemma MountedBeginsIff(u: Setup, m: Machine)
    ensures var r, at := SnapUnmount(u, WakeStop(u, WithConnection(u, m, false))), m.p.clock;
      SessionIn(m.log, r.log) <==>
        (!m.p.dead && Connects(u, m.share, at) && Room(u, at + Ping(u) + H.Cost(u.backend)))
  {
    hide WithConnection, Connects, Room, SnapUnmount, WakeStop, SessionIn;
    var c := WithConnection(u, m, false);
    var r := SnapUnmount(u, WakeStop(u, c));
    var now, at := MachineLaws.ConnectionIsLogged(u, m, false);
    UnwindingLogs(u, c);
    var tail :| r.log == c.log + tail && NoSession(tail);
    MoreAfter(m.log, c.log, r.log, tail);
    if m.p.dead {
      DeadStaysUnconnected(u, m, false);
      NothingIn(m.log);
    } else {
      ConnectionBeginsIff(u, m);
    }
  }

  lemma NoSnapshot(u: Setup, m: Machine)
    requires m.snap.None?
    ensures RunArchive(u, m) == m
  {
  }

  predicate NoSession(log: seq<Event>) { forall e :: e in log ==> !e.SessionBegins? }

  lemma UnwindingLogs(u: Setup, m: Machine)
    ensures exists tail :: SnapUnmount(u, WakeStop(u, m)).log == m.log + tail && NoSession(tail)
  {
    hide S.Unmount;
    var w := WakeStop(u, m);
    var r := SnapUnmount(u, w);
    var tail := (if w.p.dead then [] else [WakeStopped]) + (if r.p.dead then [] else [SnapUnmounted]);
    DeadUnmounts(w.p, w.k, u.env);
    assert r.log == m.log + tail;
  }

  // ------------------------------------------------------------ when a media sync begins

  /** A media sync began between these two logs. */
  predicate SyncIn(before: seq<Event>, after: seq<Event>) {
    before <= after && exists e :: e in after[|before|..] && e.SyncBegins?
  }

  /** What has to come about for a sync: a folder that is switched on, an archive that can be connected to, and a
      drive that can be taken away. */
  predicate Fetches(u: Setup, m: Machine) {
    var at := m.p.clock;
    && (u.syncMusic || u.syncLightShow || u.syncBoombox)
    && u.env(at).Done? && Connects(u, m.share, at + 1)
    && m.gad.Some? && G.Root in m.t.nodes && u.env(at + 1 + Ping(u) + H.Cost(u.backend)).Done?
  }

  lemma NoTargetsIff(u: Setup)
    ensures MS.OrderOf(Targets(u)) == [] <==> !(u.syncMusic || u.syncLightShow || u.syncBoombox)
  {
    var ts := Targets(u);
    assert ts[..2] == [ts[0], ts[1]] && ts[..2][..1] == [ts[0]] && ts[..2][..1][..0] == [];
    assert MS.OrderOf(ts[..2][..1][..0]) == [];
    assert MS.OrderOf(ts[..2][..1]) == if u.syncMusic then [Music] else [];
    assert MS.OrderOf(ts[..2]) == [] <==> !(u.syncMusic || u.syncLightShow);
  }

  /** Whatever else happens, a media turn begins a sync if and only if these requests are answered so; with no
      folder switched on it makes no request at all. */
  lemma MediaBeginsIff(u: Setup, m: Machine)
    requires m.state.StateMediaSync? && !m.p.dead
    ensures SyncIn(m.log, Step(u, m).log) <==> Fetches(u, m)
    ensures !(u.syncMusic || u.syncLightShow || u.syncBoombox) && u.env(m.p.clock).Done? ==>
      Step(u, m) == m.(p := Proc(m.p.clock + 1, false), state := StateCleanup)
  {
    hide WithConnection, Connects, MS.OrderOf, Targets, Deactivate;
    NoTargetsIff(u);
    NoSyncIn(m.log);
    if u.env(m.p.clock).Done? {
      var m1 := m.(p := Proc(m.p.clock + 1, false));
      if MS.OrderOf(Targets(u)) != [] {
        FetchBeginsIff(u, m1);
        var c := WithConnection(u, m1, true);
        WithConnectionFrame(u, m1, true);
        var now, at := MachineLaws.ConnectionIsLogged(u, m1, true);
        assert c.log + [] == c.log;
        MoreAfterSync(m.log, c.log, Step(u, m).log, if c.p.dead then [Restarted] else []);
      }
    } else {
      NoTurnNoSync(u, m);
    }
  }

  lemma NoSyncIn(log: seq<Event>)
    ensures !SyncIn(log, log)
  {
    assert log[|log|..] == [];
  }

  lemma MoreAfterSync(log: seq<Event>, mid: seq<Event>, after: seq<Event>, tail: seq<Event>)
    requires log <= mid && after == mid + tail && forall e :: e in tail ==> !e.SyncBegins?
    ensures SyncIn(log, after) <==> SyncIn(log, mid)
  {
    assert after[|log|..] == mid[|log|..] + tail;
  }

  lemma NoTurnNoSync(u: Setup, m: Machine)
    requires !m.p.dead && !u.env(m.p.clock).Done?
    ensures !SyncIn(m.log, Step(u, m).log)
  {
    hide G.Deactivate, Arm;
    var r := Step(u, m);
    assert r.log == m.log + [Restarted] || r.log == (m.log + [Deactivated]) + [Restarted];
    assert (m.log + [Deactivated]) + [Restarted] == m.log + [Deactivated, Restarted];
    assert r.log[|m.log|..] == [Restarted] || r.log[|m.log|..] == [Deactivated, Restarted];
  }

  lemma FetchBeginsIff(u: Setup, m: Machine)
    requires !m.p.dead
    ensures var r, at := WithConnection(u, m, true), m.p.clock;
      SyncIn(m.log, r.log) <==>
        (Connects(u, m.share, at) && m.gad.Some? && G.Root in m.t.nodes
         && u.env(at + Ping(u) + H.Cost(u.backend)).Done?)
  {
    hide H.Connect, H.Disconnect, Sync, Connects;
    var at := m.p.clock;
    var q := Reachable(u, m.p);
    assert q.ok <==> u.backend.Noop? || u.env(at).Done?;
    assert q.ok ==> q.p == Proc(at + Ping(u), false);
    var r := WithConnection(u, m, true);
    ConnectsIs(u, m.share, at);
    NoSyncIn(m.log);
    if q.ok {
      H.ConnectWorksIff(u.backend, q.p, m.share, u.env);
      var c := H.Connect(u.backend, q.p, m.share, u.env);
      if c.ok {
        var m1 := m.(p := c.p, share := c.s, log := m.log + [Connected]);
        var f := Sync(u, m1);
        assert r == Hangup(u, f);
        var tail := SyncSays(u, m1);
        DeactivatesIff(u, m1);
        var end := if r.p.dead then [] else [Disconnected];
        assert r.log == m.log + ([Connected] + tail + end);
        SyncAmong(m.log, tail, end);
      }
    }
  }

  lemma SyncAmong(log: seq<Event>, tail: seq<Event>, end: seq<Event>)
    requires forall e :: e in end ==> !e.SyncBegins?
    ensures SyncIn(log, log + ([Connected] + tail + end)) <==> HasSync(tail)
  {
    var added := [Connected] + tail + end;
    assert (log + added)[|log|..] == added;
    forall e | e in tail ensures e in added { }
  }

  lemma DeactivatesIff(u: Setup, m: Machine)
    requires !m.p.dead
    ensures Deactivate(u, m).1 <==> m.gad.Some? && G.Root in m.t.nodes && u.env(m.p.clock).Done?
  {
    if m.gad.Some? { UnbindIs(m.p, m.t, m.gad.value, u.env); }
  }

  predicate HasSync(log: seq<Event>) { exists e :: e in log && e.SyncBegins? }

  lemma SyncSays(u: Setup, m: Machine) returns (tail: seq<Event>)
    ensures Sync(u, m).log == m.log + tail && (HasSync(tail) <==> Deactivate(u, m).1)
  {
    hide G.Deactivate, G.Activate, MS.SyncAll, MS.OrderOf, Targets;
    var d := Deactivate(u, m);
    DeactivateFrame(u, m);
    if d.1 {
      var b := SyncBegins(Bound(d.0));
      var m1 := Say(d.0, b);
      var s := MS.SyncAll(m1.p, m1.media, MS.OrderOf(Targets(u)), Targets(u), u.env);
      var end := ActivateLogs(u, m1.(p := s.0, media := s.1));
      tail := [Deactivated, b] + end;
      assert tail[1] == b && b in tail;
      assert (m.log + [Deactivated]) + [b] + end == m.log + tail;
    } else {
      tail := [];
      assert m.log + [] == m.log;
    }
  }

  lemma ActivateLogs(u: Setup, m: Machine) returns (end: seq<Event>)
    ensures Activate(u, m).log == m.log + end && !HasSync(end)
  {
    hide G.Activate;
    var r := Activate(u, m);
    end := if m.gad.None? || r.p.dead then []
           else [ActivateTried(G.Activate(m.p, m.t, m.gad.value, u.names, u.env).ok)];
  }
}
