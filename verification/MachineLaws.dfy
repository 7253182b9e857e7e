/** What holds of the control loop over every run: any configuration, any mix of failures, and a crash or a
    shutdown at any request. */
module MachineLaws {
  import opened Common
  import opened Outside
  import opened MachineSpec
  import opened Frames
  import opened Discipline
  import S = SnapshotSpec
  import G = GadgetSpec
  import L = LedgerSpec
  import H = ShareSpec
  import MS = MediaSync
  import Scan
  import KernelLaws
  import Luns
  import GadgetLaws
  import TransferLaws

  ghost predicate Inv(u: Setup, m: Machine, w: Watch) {
    !m.p.dead && KernelLaws.Inv(m) && GadgetLaws.Inv(u, m, w) && TransferLaws.Inv(m)
  }

  /** /sys/class/udc lists names, and directory listings are directory listings. */
  ghost predicate Lawful(u: Setup) { G.Listed(u.names) && TransferLaws.Lawful(u) }

  lemma Begins(u: Setup)
    ensures Inv(u, Init, Start)
  {
    hide KernelLaws.Inv, GadgetLaws.Inv, TransferLaws.Inv, Observe, G.Sound, L.Tables;
    BeginsKernel();
    BeginsGadget(u);
    BeginsTransfer();
  }

  lemma BeginsKernel()
    ensures KernelLaws.Inv(Init)
  {
    hide KernelLaws.Inv;
    KernelLaws.StartKeeps(Init);
  }

  lemma BeginsGadget(u: Setup)
    ensures GadgetLaws.Inv(u, Init, Start)
  {
  }

  lemma BeginsTransfer()
    ensures TransferLaws.Inv(Init)
  {
    assert MS.Mounted(Init.media) == {};
    assert L.Lag(L.Empty) == {} && L.Open(L.Empty) == {};
    assert forall q :: L.Counted(L.Empty, q);
  }

  lemma StepKeeps(u: Setup, m: Machine, w: Watch) returns (w': Watch)
    requires Inv(u, m, w) && Lawful(u)
    ensures Inv(u, Step(u, m), w')
  {
    hide KernelLaws.Inv, TransferLaws.Inv, TransferLaws.Lawful, GadgetLaws.Settled, Observe, Step, G.Sound;
    KernelLaws.StepKeeps(u, m);
    TransferLaws.StepKeeps(u, m);
    w' := GadgetLaws.StepKeeps(u, m, w);
  }

  lemma {:induction false} RunKeeps(u: Setup, m: Machine, w: Watch, n: nat) returns (w': Watch)
    requires Inv(u, m, w) && Lawful(u)
    ensures Inv(u, Run(u, m, n), w')
  {
    hide Inv, Lawful, Step;
    w' := w;
    if n > 0 {
      w' := RunKeeps(u, m, w, n - 1);
      w' := StepKeeps(u, Run(u, m, n - 1), w');
    }
  }

  lemma Reachable(u: Setup, n: nat) returns (w: Watch)
    requires Lawful(u)
    ensures Inv(u, Run(u, Init, n), w)
  {
    hide Inv, Lawful, Run;
    Begins(u);
    w := RunKeeps(u, Init, Start, n);
  }

  // ------------------------------------------------------------ the theorems

  /** Kernel resources are conserved. At any moment at most one mount is on /mnt/snap, and the zram
      devices number at most the refused teardowns, plus the ends of the process while it made, held or
      released a snapshot - no other end leaks one - plus the live one.
      Whenever the machine waits it holds no snapshot, and unless a teardown was refused since the last
      boot began there is no dm node and no mount either - whatever happened before that boot. */
  lemma ResourcesAreConserved(u: Setup, n: nat)
    requires Lawful(u)
    ensures var m := Run(u, Init, n);
      && S.Sound(m.k) && m.k.mounts <= 1
      && |m.k.zram| <= m.k.faults + m.holdEnds + One(m.snap.Some?)
      && (m.snap.Some? ==> m.k.snap == m.snap.value.zram && m.snap.value.zram.Some?)
      && (m.state.StateWaitingForWifi? ==> m.snap.None? && (m.k.faults == m.calm ==> S.Clean(m.k)))
  {
    hide Run, TransferLaws.Inv, GadgetLaws.Inv, Lawful;
    var w := Reachable(u, n);
  }

  /** The log of every run is accepted by the discipline: fsck and the syncs run only while the car
      is cut off; what is deactivated is reactivated, or that is tried, before anything is archived and
      before the next wait; brackets close, innermost first. (ExclusiveAccess, DeactivationIsMadeUpFor,
      BoundUnlessActivationFailed, BracketsClose and InnermostFirst say so event by event.) */
  lemma RunsAreDisciplined(u: Setup, n: nat)
    requires Lawful(u)
    ensures Accepted(Run(u, Init, n).log)
  {
    hide Run, TransferLaws.Inv, KernelLaws.Inv, Lawful, Observe;
    var w := Reachable(u, n);
  }

  /** The same, spelled out for any two moments i < j of any run. */
  lemma EveryRunInWords(u: Setup, n: nat, i: nat, j: nat, b: Bracket)
    requires Lawful(u) && i < j < |Run(u, Init, n).log|
    ensures var log := Run(u, Init, n).log;
      && (log[j].FsckBegins? || log[j].SyncBegins? ==> !log[j].bound)
      && (Uses(log[j]) ==> BootedBefore(log, j) && (log[j].bound || Unrepaired(log, j)))
      && (log[i] == Deactivated && Uses(log[j]) ==> Between(log, i, j, Reactivation))
      && (log[i].Waiting? && log[j].Waiting? && Restartless(log[i..j]) ==>
            Count(log[i..j], e => Opens(b, e)) == Count(log[i..j], e => Closes(b, e)))
  {
    hide Run, Lawful, Observe, Accepted, Opens, Closes, Count, Between, Restartless, Unrepaired, BootedBefore;
    RunsAreDisciplined(u, n);
    var log := Run(u, Init, n).log;
    ExclusiveAccess(log, j);
    if Uses(log[j]) {
      BoundUnlessActivationFailed(log, j);
    }
    if log[i] == Deactivated && Uses(log[j]) {
      DeactivationIsMadeUpFor(log, i, j);
    }
    if log[i].Waiting? && log[j].Waiting? && Restartless(log[i..j]) {
      BracketsClose(log, i, j, b);
    }
  }

  /** ... and in the plainest words: as long as no activation has failed since the boot of this life, the car
      has its drive at the start of every cycle and when a session begins. */
  lemma BoundWhileActivationsWork(u: Setup, n: nat, i: nat, j: nat)
    requires Lawful(u) && i < j < |Run(u, Init, n).log| && Uses(Run(u, Init, n).log[j])
    requires Run(u, Init, n).log[i] == Booted(true)
    requires forall k :: i < k < j ==> Run(u, Init, n).log[k] != ActivateTried(false)
    ensures Run(u, Init, n).log[j].bound
  {
    hide Run, Lawful, Observe, Accepted, Unrepaired;
    RunsAreDisciplined(u, n);
    var log := Run(u, Init, n).log;
    BoundUnlessActivationFailed(log, j);
    NoFailureSinceBoot(log, i, j);
  }

  // ------------------------------------------------------------ nothing happens off the record

  /** r continues m, and e is among what was logged meanwhile. */
  predicate Logged(m: Machine, r: Machine, e: Event) { m.log <= r.log && e in r.log[|m.log|..] }

  lemma LoggedWithin(m: Machine, m1: Machine, r1: Machine, r: Machine, e: Event)
    requires m.log <= m1.log && Logged(m1, r1, e) && r1.log <= r.log
    ensures Logged(m, r, e)
  {
    var i :| 0 <= i < |r1.log| - |m1.log| && r1.log[|m1.log|..][i] == e;
    assert r.log[|m.log|..][|m1.log| + i - |m.log|] == e;
  }

  lemma LogGrows(u: Setup, m: Machine)
    ensures m.log <= Deactivate(u, m).0.log && m.log <= Activate(u, m).log && m.log <= Hangup(u, m).log
    ensures Deactivate(u, m).1 ==> Deactivate(u, m).0.t.udc == "" && !Deactivate(u, m).0.p.dead
  {
    hide G.Activate, H.Disconnect;
  }

  /** What a sync whose first request is number `at` has made of the media - all of it, or as much as it lived
      to do. */
  ghost function SyncAt(u: Setup, media: MS.Media, at: nat): MS.Media {
    MS.SyncAll(Proc(at, false), media, MS.OrderOf(Targets(u)), Targets(u), u.env).1
  }

  ghost predicate SyncLogged(u: Setup, m: Machine, r: Machine, at: nat) {
    r.media == SyncAt(u, m.media, at) && Logged(m, r, SyncBegins(false))
  }

  lemma SyncIsLogged(u: Setup, m: Machine) returns (at: nat)
    ensures var r := Sync(u, m);
      m.log <= r.log && (r.media != m.media ==> SyncLogged(u, m, r, at))
  {
    at := Deactivate(u, m).0.p.clock;
    hide Deactivate, Activate, MS.SyncAll, MS.OrderOf, Targets;
    var d := Deactivate(u, m);
    LogGrows(u, m);
    DeactivateFrame(u, m);
    if d.1 {
      var m1 := Say(d.0, SyncBegins(false));
      var s := MS.SyncAll(m1.p, m1.media, MS.OrderOf(Targets(u)), Targets(u), u.env);
      var m2 := m1.(p := s.0, media := s.1);
      LogGrows(u, m2);
      ActivateFrame(u, m2);
      assert m2.log[|d.0.log|..] == [SyncBegins(false)];
      LoggedWithin(m, d.0, m2, Sync(u, m), SyncBegins(false));
    }
  }

  /** What a session that began at `now` has made of the ledger l - all of it, or as much as it lived to do. */
  ghost function SessionAt(u: Setup, l: L.Ledger, now: nat): L.Ledger {
    L.RunSession(u.backend, Proc(now, false), l, Scan.ScanAll(Dirs(u, now)), u.env).l
  }

  ghost predicate SessionLogged(u: Setup, m: Machine, r: Machine, now: nat) {
    r.l == SessionAt(u, m.l, now) && m.p.clock <= now && Logged(m, r, SessionBegins(Bound(m), now))
  }

  lemma TransferIsLogged(u: Setup, m: Machine) returns (now: nat)
    ensures var r := Transfer(u, m);
      m.log <= r.log && r.t == m.t && (r.l != m.l ==> SessionLogged(u, m, r, now))
  {
    hide L.RunSession, Dirs, Scan.ScanAll;
    var d := if u.freeSpaceReserve > 0 then Ask(m.p, u.env) else Reply(m.p, false, 0);
    now := d.p.clock;
    assert (m.log + [SessionBegins(Bound(m), now)])[|m.log|..] == [SessionBegins(Bound(m), now)];
  }

  lemma ConnectionIsLogged(u: Setup, m: Machine, media: bool) returns (now: nat, at: nat)
    ensures var r := WithConnection(u, m, media);
      && m.log <= r.log
      && (r.media != m.media ==> media && SyncLogged(u, m, r, at))
      && (!media ==> r.t == m.t) && (r.l != m.l ==> !media && SessionLogged(u, m, r, now))
  {
    hide H.Connect, MachineSpec.Reachable, Sync, Transfer, Hangup, Logged, SessionAt, SyncAt;
    now, at := 0, 0;
    var q := MachineSpec.Reachable(u, m.p);
    LaterReach(u, m);
    var c := H.Connect(u.backend, q.p, m.share, u.env);
    if q.ok && c.ok {
      var m1 := Say(m.(p := c.p, share := c.s), Connected);
      at := SyncIsLogged(u, m1);
      SyncFrame(u, m1);
      now := TransferIsLogged(u, m1);
      TransferFrame(u, m1);
      var m2 := if media then Sync(u, m1) else Transfer(u, m1);
      LogGrows(u, m2);
      HangupFrame(u, m2);
      if m2.media != m.media {
        LoggedWithin(m, m1, m2, Hangup(u, m2), SyncBegins(false));
      }
      if m2.l != m.l {
        LoggedWithin(m, m1, m2, Hangup(u, m2), SessionBegins(Bound(m), now));
      }
    }
  }

  lemma LaterReach(u: Setup, m: Machine)
    ensures var q := MachineSpec.Reachable(u, m.p);
      q.p.clock >= m.p.clock && H.Connect(u.backend, q.p, m.share, u.env).p.clock >= q.p.clock
  {
  }

  lemma UnmountIsAside(u: Setup, m: Machine)
    ensures var r := SnapUnmount(u, WakeStop(u, m));
      m.log <= r.log && r.media == m.media && r.t == m.t && r.l == m.l
  {
    hide S.Unmount;
  }

  /** The run of one session, once the snapshot is mounted. */
  lemma CarryIsLogged(u: Setup, m: Machine) returns (now: nat)
    ensures var r := SnapUnmount(u, WakeStop(u, WithConnection(u, m, false)));
      && m.log <= r.log && r.media == m.media && r.t == m.t
      && (r.l != m.l ==> SessionLogged(u, m, r, now))
  {
    hide WithConnection, SnapUnmount, WakeStop, Logged, SessionAt;
    var at;
    now, at := ConnectionIsLogged(u, m, false);
    WithConnectionFrame(u, m, false);
    var m3 := WithConnection(u, m, false);
    UnmountIsAside(u, m3);
    if m3.l != m.l {
      LoggedWithin(m, m, m3, SnapUnmount(u, WakeStop(u, m3)), SessionBegins(Bound(m), now));
    }
  }

  lemma MountIsAside(u: Setup, m: Machine)
    requires m.snap.Some?
    ensures var mt := S.Mount(m.p, m.k, m.snap.value, u.env);
      var m2 := WakeStart(u, Say(m.(p := mt.p, k := mt.k, snap := Some(mt.s)), SnapMounted));
      && RunArchive(u, m)
        == (if mt.ok then SnapUnmount(u, WakeStop(u, WithConnection(u, m2, false)))
            else m.(p := mt.p, k := mt.k, snap := Some(mt.s)))
      && m.log <= m2.log && m2.media == m.media && m2.t == m.t && m2.l == m.l && m2.p.clock >= m.p.clock
  {
    hide S.Mount, WithConnection, SnapUnmount, WakeStop;
    LaterMount(m.p, m.k, m.snap.value, u.env);
  }

  lemma ArchiveIsLogged(u: Setup, m: Machine) returns (now: nat)
    ensures var r := RunArchive(u, m);
      && m.log <= r.log && r.media == m.media && r.t == m.t
      && (r.l != m.l ==> SessionLogged(u, m, r, now))
  {
    hide S.Mount, WithConnection, SnapUnmount, WakeStop, WakeStart, Logged, SessionAt;
    now := 0;
    if m.snap.Some? {
      hide RunArchive;
      MountIsAside(u, m);
      var mt := S.Mount(m.p, m.k, m.snap.value, u.env);
      if mt.ok {
        var m2 := WakeStart(u, Say(m.(p := mt.p, k := mt.k, snap := Some(mt.s)), SnapMounted));
        now := CarryIsLogged(u, m2);
        var r := RunArchive(u, m);
        if r.l != m.l {
          LoggedWithin(m, m2, r, r, SessionBegins(Bound(m), now));
        }
      }
    }
  }

  lemma LaterMount(p: Proc, k: S.Kernel, s: S.Snap, env: Env)
    ensures S.Mount(p, k, s, env).p.clock >= p.clock
  {
  }

  lemma ArmIsLogged(u: Setup, m: Machine) returns (now: nat, at: nat)
    ensures var r := Arm(u, m);
      && m.log <= r.log
      && (r.media != m.media ==> SyncLogged(u, m, r, at))
      && (r.l != m.l ==> r.t == m.t && SessionLogged(u, m, r, now))
  {
    hide RunArchive, RunMediaSync, Logged, SessionAt, SyncAt;
    now, at := 0, 0;
    match m.state
    case StateArchiving =>
      now := ArchiveIsLogged(u, m);
      ArchiveGoes(u, m, now);
    case StateMediaSync => at := MediaIsLogged(u, m);
    case _ => OthersAreAside(u, m);
  }

  lemma ArchiveGoes(u: Setup, m: Machine, now: nat)
    requires m.state.StateArchiving? && m.log <= RunArchive(u, m).log
    requires RunArchive(u, m).l != m.l ==> SessionLogged(u, m, RunArchive(u, m), now)
    ensures Arm(u, m).l != m.l ==> SessionLogged(u, m, Arm(u, m), now)
  {
    hide RunArchive, SessionAt;
  }

  lemma MediaIsLogged(u: Setup, m: Machine) returns (at: nat)
    requires m.state.StateMediaSync?
    ensures var r := Arm(u, m);
      m.log <= r.log && r.l == m.l && (r.media != m.media ==> SyncLogged(u, m, r, at))
  {
    hide WithConnection, MS.OrderOf, Targets, SyncAt;
    var now;
    now, at := ConnectionIsLogged(u, m, true);
  }

  lemma OthersAreAside(u: Setup, m: Machine)
    requires !m.state.StateArchiving? && !m.state.StateMediaSync?
    ensures var r := Arm(u, m); m.log <= r.log && r.media == m.media && r.l == m.l
  {
    hide Boot, CreateSnapshot, Activate, Deactivate, Hangup, RunArchive, RunMediaSync, S.Release;
    TransferLaws.BootAside(u, m);
    BootLogGrows(u, m);
    TransferLaws.SnapshotAside(u, m);
    SnapshotLogGrows(u, m);
    LogGrows(u, m);
    ActivateFrame(u, m);
  }

  lemma BootLogGrows(u: Setup, m: Machine)
    ensures m.log <= Boot(u, m).0.log
  {
    hide S.Unmount, S.Cleanup, G.Present;
  }

  lemma SnapshotLogGrows(u: Setup, m: Machine)
    ensures m.log <= CreateSnapshot(u, m).0.log
  {
    hide Deactivate, Activate, S.Create;
    var d := Deactivate(u, m);
    LogGrows(u, m);
    var c := S.Create(d.0.p, d.0.k, u.env);
    LogGrows(u, d.0.(p := c.p, k := c.k));
  }

  /** A turn that touches the media partitions has first logged that a sync begins, with the car cut off, and
      does to them what a sync of all enabled targets does; a turn that touches the ledger has first logged that
      a session begins, does not touch the binding at all, and does to the ledger what that session does, with
      the scan made at that moment - also when the process dies in it. So what the log's discipline says of
      these beginnings it says of every sync and every transfer, from the first request to the last. */
  lemma EffectsAreLogged(u: Setup, m: Machine) returns (now: nat, at: nat)
    ensures var r := Step(u, m);
      && (r.media != m.media ==> SyncLogged(u, m, r, at))
      && (r.l != m.l ==> r.t == m.t && SessionLogged(u, m, r, now))
  {
    hide Arm, Deactivate, Logged, SessionAt, SyncAt;
    var m1 := m.(p := Ask(m.p, u.env).p);
    DeactivateFrame(u, m1);
    now, at := ArmIsLogged(u, m1);
    var r := Turn(u, m);
    if r.media != m.media {
      LoggedWithin(m, m1, r, Step(u, m), SyncBegins(false));
    }
    if r.l != m.l {
      LoggedWithin(m, m1, r, Step(u, m), SessionBegins(Bound(m), now));
    }
  }

  /** A call of SyncMedia that should be made: for a target that is switched on, with its partition mounted. */
  ghost predicate Proper(u: Setup, v: MS.Visit) { v.depth > 0 && v.target in Targets(u) && v.target.enabled }

  lemma StepFetches(u: Setup, m: Machine)
    ensures var r := Step(u, m);
      m.media.asked <= r.media.asked && forall v :: v in r.media.asked[|m.media.asked|..] ==> Proper(u, v)
  {
    hide Step, Logged, Targets, MS.OrderOf, MS.Flatten, SessionAt, Bound, MS.TargetsOf;
    var now, at := EffectsAreLogged(u, m);
    var r := Step(u, m);
    if r.media != m.media {
      var ts := MS.Flatten(MS.OrderOf(Targets(u)), Targets(u));
      var keep := MS.SyncAllAsks(Proc(at, false), m.media, MS.OrderOf(Targets(u)), Targets(u), u.env);
      ChosenAmong(ts, keep);
      MS.FlattenEnabled(MS.OrderOf(Targets(u)), Targets(u));
      MS.FlattenAmong(MS.OrderOf(Targets(u)), Targets(u));
      var added := r.media.asked[|m.media.asked|..];
      MS.TargetsOfAre(added);
    }
  }

  /** Over every run, whatever fails: SyncMedia is only called for folders that are switched on, and only while
      their own partition is mounted - so that nothing is ever written beside it. */
  lemma {:induction false} MediaAreMountedWhenSynced(u: Setup, n: nat)
    ensures forall v :: v in Run(u, Init, n).media.asked ==> Proper(u, v)
    decreases n
  {
    hide Step, Proper;
    if n > 0 {
      MediaAreMountedWhenSynced(u, n - 1);
      var m := Run(u, Init, n - 1);
      StepFetches(u, m);
      var asked := Step(u, m).media.asked;
      assert asked == m.media.asked + asked[|m.media.asked|..];
    }
  }

  /** Partitions have one owner. Between deactivation and reactivation the gadget is unbound; and a media
      partition that is mounted while the car has it is paid for by a refused unmount or by a crash inside
      runMediaSync. (That every fsck, and every sync from its first request on, finds the gadget unbound
      say EveryRunInWords and EffectsAreLogged.) */
  lemma PartitionsHaveOneOwner(u: Setup, n: nat)
    requires Lawful(u)
    ensures var m := Run(u, Init, n);
      && (m.state.StateFsck? || m.state.StateReconnect? ==> !Bound(m))
      && |MS.Mounted(m.media)| <= m.media.faults + m.mediaCrashes
  {
    hide Run, KernelLaws.Inv, Lawful, Observe, MS.Mounted;
    var w := Reachable(u, n);
  }

  /** Out of booting, the Gadget object is what configfs holds - lun by lun, and as to being bound - and
      the controller is the one findUDC names. */
  lemma MemoryAgreesWithConfigfs(u: Setup, n: nat)
    requires Lawful(u)
    ensures var m := Run(u, Init, n);
      G.Sound(m.t) && (!m.state.StateBooting? ==> GadgetLaws.Agrees(u, m))
  {
    hide Run, KernelLaws.Inv, TransferLaws.Inv, Lawful, Observe, G.Sound;
    var w := Reachable(u, n);
  }

  /** So the car sees nothing but partitions of the card: each lun is backed by the device of one of them and
      shows the label of that same one, in the order of the table. */
  lemma LunsArePartitions(u: Setup, n: nat, i: nat)
    requires Lawful(u) && !Run(u, Init, n).state.StateBooting?
    ensures var m := Run(u, Init, n);
      && m.gad.Some? && Luns.OfParts(m.gad.value.luns, Partitions)
      && (i < |m.gad.value.luns| ==>
            exists part :: part in Partitions && G.Reads(m.t, i, "file", part.0)
                                              && G.Reads(m.t, i, "inquiry_string", part.1))
  {
    hide Run, KernelLaws.Inv, TransferLaws.Inv, Lawful, Observe, G.Sound, Luns.OfParts;
    var w := Reachable(u, n);
    var m := Run(u, Init, n);
    Luns.EachIsAPart(m.gad.value.luns, Partitions);
    if i < |m.gad.value.luns| {
      var l := m.gad.value.luns[i];
      assert G.LunAgrees(m.t, i, l) && (l.device, l.inquiry) in Partitions;
    }
  }

  /** The share is mounted no more often than umounts were refused and the process died inside runArchive or
      runMediaSync: not at all when neither happened, whatever shutdowns there were. Of the credentials files
      as many are left as a live process left behind, and at most one per such crash. */
  lemma ConnectionsAreGivenBack(u: Setup, n: nat)
    requires Lawful(u)
    ensures var m := Run(u, Init, n);
      && m.share.mounts <= m.share.faults + m.archiveCrashes + m.mediaCrashes
      && |m.share.temp| <= m.share.kept + m.archiveCrashes + m.mediaCrashes
  {
    hide Run, KernelLaws.Inv, GadgetLaws.Inv, Lawful, MS.Mounted, L.Sound;
    var w := Reachable(u, n);
  }

  /** The ledger over the whole life of the daemon: no path is copied twice but for failed ledger
      requests about it; marked and undelivered paths, and sessions left running, are paid for by failed
      sessions, failed updates and crashes inside runArchive - shutdowns cost nothing; rows name sessions;
      no session is closed twice. */
  lemma LedgerHolds(u: Setup, n: nat, q: string)
    requires Lawful(u)
    ensures var m := Run(u, Init, n);
      && m.l.h.attempts[q] <= 1 + m.l.h.markFails[q] + m.l.h.lookupFails[q]
      && |L.Lag(m.l)| <= m.l.h.failedSessions + m.archiveCrashes
      && |L.Open(m.l)| <= m.l.h.statusFails + m.archiveCrashes
      && L.Tables(m.l)
  {
    hide Run, KernelLaws.Inv, GadgetLaws.Inv, Lawful, MS.Mounted, L.Lag, L.Open, L.Tables;
    var w := Reachable(u, n);
    assert L.Counted(Run(u, Init, n).l, q);
  }

  // ------------------------------------------------------------ after a crash

  /** A boot that gets through heals: from any reachable state, it leaves the gadget bound and no snapshot,
      and - if none of its own requests was refused - no dm node and no mount. Only the zram devices stay. */
  lemma BootHeals(u: Setup, m: Machine, w: Watch)
    requires Inv(u, m, w) && Lawful(u) && m.state.StateBooting?
    ensures var r := Step(u, m);
      r.state.StateGadgetUp? ==>
        && Bound(r) && GadgetLaws.Agrees(u, r) && r.snap.None? && r.k.zram == m.k.zram
        && (r.k.faults == m.k.faults ==> S.Clean(r.k))
  {
    hide KernelLaws.Good, GadgetLaws.Watched, GadgetLaws.Agrees, TransferLaws.Inv, Lawful, Step, Observe,
      S.Clean, Bound;
    var r := Step(u, m);
    var w' := StepKeeps(u, m, w);
    Basics(u, m, w);
    if r.state.StateGadgetUp? {
      BootTurn(u, m);
    }
  }

  /** It does not heal the media mountpoints: from any reachable state a boot that gets through hands the car
      its partitions with exactly those still mounted here that were mounted before - so with none of them
      if and only if no earlier life left one mounted. */
  lemma BootHandsOver(u: Setup, m: Machine, w: Watch)
    requires Inv(u, m, w) && Lawful(u) && m.state.StateBooting?
    ensures var r := Step(u, m);
      r.state.StateGadgetUp? ==>
        && Bound(r) && MS.Mounted(r.media) == MS.Mounted(m.media)
        && (MS.Mounted(r.media) == {} <==> MS.Mounted(m.media) == {})
  {
    hide KernelLaws.Good, GadgetLaws.Watched, GadgetLaws.Agrees, TransferLaws.Inv, Lawful, Observe,
      S.Clean, Bound, Boot, Deactivate, MS.Mounted, Inv;
    Basics(u, m, w);
    BootTurn(u, m);
    var m1 := m.(p := Ask(m.p, u.env).p);
    TransferLaws.BootAside(u, m1);
    DeactivateFrame(u, m1);
  }

  lemma Basics(u: Setup, m: Machine, w: Watch)
    requires Inv(u, m, w) && Lawful(u)
    ensures !m.p.dead && G.Sound(m.t) && G.Listed(u.names) && S.Sound(m.k)
  {
    hide G.Sound, G.Listed, S.Sound, Observe, TransferLaws.Inv;
  }

  /** A turn that got from StateBooting to StateGadgetUp is a boot that succeeded. */
  lemma BootTurn(u: Setup, m: Machine)
    requires m.state.StateBooting? && !m.p.dead && G.Sound(m.t) && G.Listed(u.names) && S.Sound(m.k)
    ensures var r := Step(u, m);
      r.state.StateGadgetUp? ==> Bound(r) && r.calm == m.k.faults && r.k.zram == m.k.zram
  {
    hide S.Unmount, S.Cleanup, G.Present, G.Sound, G.LunsAgree, S.Sound, S.Clean, G.FindUdc, Deactivate;
    var m1 := m.(p := Ask(m.p, u.env).p);
    var un := S.Unmount(m1.p, m.k, u.env);
    KernelLaws.UnmountKeeps(m1.p, m.k, u.env);
    var c := S.Cleanup(un.0, un.1, u.env);
    S.CleanupSweeps(un.0, un.1, u.env);
    G.PresentMeaning(c.0, m.t, Partitions, u.names, u.env);
  }

  /** A zram device nobody holds. */
  predicate Leaked(m: Machine, z: nat) {
    z in m.k.zram && (m.snap.Some? ==> m.snap.value.zram != Some(z))
  }

  lemma CreateKeepsOthers(p: Proc, k: S.Kernel, env: Env)
    requires S.Sound(k) && !p.dead
    ensures var c := S.Create(p, k, env);
      k.zram <= c.k.zram && (c.ok ==> c.s.zram.Some? && c.s.zram.value !in k.zram)
  {
    hide S.Create, S.Cleanup;
    S.CreateAllOrNothing(p, k, env);
    S.CreateAddsAtMostOne(p, k, env);
  }

  lemma ReleaseKeepsOthers(p: Proc, k: S.Kernel, s: S.Snap, env: Env)
    requires S.Sound(k)
    ensures var r := S.Release(p, k, s, env); forall z :: z in k.zram && s.zram != Some(z) ==> z in r.k.zram
  {
    hide S.Unpin, S.Sound;
    S.UnpinMeaning(p, k, s, env);
  }

  /** The other side of the count: what a crash leaks stays leaked. No turn of the loop, no boot and no
      restart ever gives such a device back. */
  lemma LeaksAreForGood(u: Setup, m: Machine, w: Watch, z: nat)
    requires Inv(u, m, w) && Lawful(u) && Leaked(m, z)
    ensures Leaked(Step(u, m), z)
  {
    hide Turn, Inv, Lawful, Leaked;
    TurnLeaks(u, m, w, z);
    RestartLeaks(Turn(u, m), z, Ask(m.p, u.env).ok);
  }

  lemma RestartLeaks(m: Machine, z: nat, busy: bool)
    requires Leaked(m, z)
    ensures Leaked(Restart(m, busy), z)
  {
  }

  lemma TurnLeaks(u: Setup, m: Machine, w: Watch, z: nat)
    requires Inv(u, m, w) && Lawful(u) && Leaked(m, z)
    ensures Leaked(Turn(u, m), z)
  {
    hide GadgetLaws.Inv, TransferLaws.Inv, Lawful, Arm, Deactivate, S.Sound, S.Clean, S.Releasable;
    var m1 := m.(p := Ask(m.p, u.env).p);
    DeactivateFrame(u, m1);
    if !m1.p.dead {
      ArmLeaks(u, m1, z);
    }
  }

  lemma ArmLeaks(u: Setup, m: Machine, z: nat)
    requires KernelLaws.Inv(m) && !m.p.dead && Leaked(m, z)
    ensures Leaked(Arm(u, m), z)
  {
    hide Boot, CreateSnapshot, RunArchive, WithConnection, CleanupSnapshot, Activate, MS.OrderOf, Targets,
      S.Sound, S.Clean, S.Releasable;
    match m.state
    case StateBooting => BootZram(u, m);
    case StateSnapshot => SnapshotZram(u, m);
    case StateReconnect => ActivateFrame(u, m);
    case StateArchiving => ArchiveZram(u, m);
    case StateMediaSync => WithConnectionFrame(u, m, true);
    case StateCleanup => CleanupZram(u, m, z);
    case _ =>
  }

  lemma BootZram(u: Setup, m: Machine)
    requires S.Sound(m.k)
    ensures var b := Boot(u, m); b.0.k.zram == m.k.zram && b.0.snap == m.snap
  {
    hide S.Unmount, S.Cleanup, G.Present, S.Sound;
    var un := S.Unmount(m.p, m.k, u.env);
    KernelLaws.UnmountKeeps(m.p, m.k, u.env);
    S.CleanupSweeps(un.0, un.1, u.env);
  }

  lemma SnapshotZram(u: Setup, m: Machine)
    requires S.Sound(m.k) && m.snap.None?
    ensures var c := CreateSnapshot(u, m);
      m.k.zram <= c.0.k.zram && (c.0.snap.Some? ==> c.0.snap.value.zram.Some? && c.0.snap.value.zram.value !in m.k.zram)
  {
    hide Deactivate, Activate, S.Create, S.Sound;
    var d := Deactivate(u, m);
    DeactivateFrame(u, m);
    if d.1 {
      var c := S.Create(d.0.p, d.0.k, u.env);
      CreateKeepsOthers(d.0.p, d.0.k, u.env);
      ActivateFrame(u, d.0.(p := c.p, k := c.k));
    }
  }

  lemma ArchiveZram(u: Setup, m: Machine)
    requires S.Sound(m.k) && m.k.mounts == 0
    ensures var r := RunArchive(u, m);
      && r.k.zram == m.k.zram && (m.snap.Some? <==> r.snap.Some?)
      && (m.snap.Some? ==> r.snap.value.zram == m.snap.value.zram)
  {
    hide S.Mount, S.Unmount, WithConnection, S.Sound, WakeStart, WakeStop, SnapUnmount;
    if m.snap.Some? {
      KernelLaws.ArchiveIs(u, m);
      KernelLaws.MountKeeps(m.p, m.k, m.snap.value, u.env);
      var k := S.Mount(m.p, m.k, m.snap.value, u.env).k;
      if RunArchive(u, m).k != k {
        var p :| RunArchive(u, m).k == S.Unmount(p, k, u.env).1;
        KernelLaws.UnmountKeeps(p, k, u.env);
      }
    }
  }

  lemma CleanupZram(u: Setup, m: Machine, z: nat)
    requires S.Sound(m.k) && Leaked(m, z)
    ensures Leaked(CleanupSnapshot(u, m), z)
  {
    hide S.Release, S.Sound;
    if m.snap.Some? {
      ReleaseKeepsOthers(m.p, m.k, m.snap.value, u.env);
    }
  }

  // ------------------------------------------------------------ the stuck mount

  /** A stale mount on /mnt/snap, and no snapshot. */
  predicate Stuck(m: Machine) {
    && m.snap.None? && m.k.mounts > 0 && S.Sound(m.k) && !m.p.dead
    && !m.state.StateBooting? && !KernelLaws.HoldsSnapshot(m.state)
  }

  lemma StuckArm(u: Setup, m: Machine)
    requires Stuck(m)
    ensures var r := Arm(u, m);
      (r.p.dead || Stuck(r)) && r.l == m.l && r.restarts == m.restarts && r.k.mounts == m.k.mounts
  {
    hide Deactivate, Activate, S.Create, S.Sound;
    if m.state.StateSnapshot? {
      var d := Deactivate(u, m);
      DeactivateFrame(u, m);
      if d.1 {
        var c := S.Create(d.0.p, d.0.k, u.env);
        S.StaleMountBlocksCreate(d.0.p, d.0.k, u.env);
        S.CreateAllOrNothing(d.0.p, d.0.k, u.env);
        ActivateFrame(u, d.0.(p := c.p, k := c.k));
      }
    }
  }

  lemma StuckStep(u: Setup, m: Machine)
    requires Stuck(m)
    ensures var r := Step(u, m); r.restarts == m.restarts ==> Stuck(r) && r.l == m.l
  {
    hide Deactivate, Arm, S.Sound;
    var m1 := m.(p := Ask(m.p, u.env).p);
    DeactivateFrame(u, m1);
    if !m1.p.dead {
      StuckArm(u, m1);
    }
  }

  lemma RestartsGrow(u: Setup, m: Machine)
    ensures m.restarts <= Step(u, m).restarts
  {
    hide Boot, CreateSnapshot, RunArchive, WithConnection, Activate, Deactivate, S.Release, MS.OrderOf, Targets;
    var m1 := m.(p := Ask(m.p, u.env).p);
    DeactivateFrame(u, m1);
    ActivateFrame(u, m1);
    WithConnectionFrame(u, m1, true);
    TransferLaws.BootAside(u, m1);
    TransferLaws.SnapshotAside(u, m1);
    ArchiveRestarts(u, m1);
  }

  lemma ArchiveRestarts(u: Setup, m: Machine)
    ensures RunArchive(u, m).restarts == m.restarts
  {
    hide S.Mount, S.Unmount, WithConnection, WakeStart, WakeStop, SnapUnmount;
    if m.snap.Some? {
      KernelLaws.ArchiveIs(u, m);
    }
  }

  /** A mount that outlasts its cycle's Release ends all archiving: for as long as the process lives, no later
      cycle gets a snapshot, none touches the ledger, and the mount stays. */
  lemma {:induction false} StuckUntilRestart(u: Setup, m: Machine, n: nat)
    requires Stuck(m)
    ensures var r := Run(u, m, n);
      && m.restarts <= r.restarts
      && (r.restarts == m.restarts ==> Stuck(r) && r.l == m.l)
  {
    hide Step, Stuck;
    if n > 0 {
      StuckUntilRestart(u, m, n - 1);
      var r := Run(u, m, n - 1);
      RestartsGrow(u, r);
      if r.restarts == m.restarts {
        StuckStep(u, r);
      }
    }
  }
}
