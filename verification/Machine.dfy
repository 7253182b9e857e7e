/** cmd/teslausb/main.go as the source writes it: a StateMachine object whose fields `state`, `snap` and
    `gad` the loop updates, over the objects it works on. Each method is proved to do exactly what
    MachineSpec says of it. */
module Machine {
  import opened Common
  import opened Outside
  import opened MachineSpec
  import S = SnapshotSpec
  import G = GadgetSpec
  import L = LedgerSpec
  import MS = MediaSync
  import H = ShareSpec
  import Scan
  import Archiver
  import Gadget
  import Ledger
  import Snapshot

  class StateMachine {
    ghost const u: Setup
    const h: Host
    const d: Snapshot.Devices
    const fs: Gadget.Configfs
    const media: MS.Partitions
    const archiver: Archiver.Archiver
    const db: Ledger.DB
    const freeSpaceReserve: nat
    const names: seq<string>
    const targets: seq<MS.Target>
    const dirs: nat -> seq<Scan.Dir>

    var state: State
    var snap: Snapshot.Snapshot?
    var gad: Gadget.Gadget?

    ghost var restarts: nat
    ghost var holdEnds: nat
    ghost var archiveCrashes: nat
    ghost var mediaCrashes: nat
    ghost var calm: nat
    ghost var log: seq<Event>

    constructor (ghost u: Setup, h: Host, d: Snapshot.Devices, fs: Gadget.Configfs, media: MS.Partitions,
                 archiver: Archiver.Archiver, db: Ledger.DB, freeSpaceReserve: nat, names: seq<string>,
                 targets: seq<MS.Target>, dirs: nat -> seq<Scan.Dir>)
      requires h.env == u.env && archiver.backend == u.backend && freeSpaceReserve == u.freeSpaceReserve
      requires names == u.names && G.Listed(names) && targets == Targets(u) && forall now :: dirs(now) == Dirs(u, now)
      ensures Wired()
      ensures View() == Init.(p := h.p, k := d.k, t := fs.t, media := media.m, share := archiver.View(), l := db.l)
    {
      this.u, this.h, this.d, this.fs, this.media, this.archiver, this.db := u, h, d, fs, media, archiver, db;
      this.freeSpaceReserve, this.names, this.targets, this.dirs := freeSpaceReserve, names, targets, dirs;
      state, snap, gad := StateBooting, null, null;
      restarts, holdEnds, archiveCrashes, mediaCrashes, calm, log := 0, 0, 0, 0, 0, [];
    }

    /** The parts are those the setup describes. */
    ghost predicate Wired() {
      && h.env == u.env && archiver.backend == u.backend && freeSpaceReserve == u.freeSpaceReserve
      && names == u.names && G.Listed(names) && targets == Targets(u) && forall now :: dirs(now) == Dirs(u, now)
    }

    ghost function View(): MachineSpec.Machine
      reads this, h, d, fs, media, archiver, db, snap, gad
    {
      MachineSpec.Machine(state, if snap == null then None else Some(snap.View()),
                          if gad == null then None else Some(gad.View()),
                          h.p, d.k, fs.t, media.m, archiver.View(), db.l,
                          restarts, holdEnds, archiveCrashes, mediaCrashes, calm, log)
    }

    ghost method Say(e: Event)
      modifies this`log
      ensures View() == MachineSpec.Say(old(View()), e)
    {
      log := if h.p.dead then log else log + [e];
    }

    /** sm.gad.Deactivate(), a nil dereference where there is no gadget. */
    method Deactivate() returns (ok: bool)
      requires Wired()
      modifies this, h, fs, gad
      ensures (View(), ok) == MachineSpec.Deactivate(u, old(View()))
      ensures snap == old(snap) && gad == old(gad)
    {
      hide G.Deactivate;
      if gad == null {
        h.p := h.p.(dead := true);
        return false;
      }
      ok := gad.Deactivate(h, fs);
      if ok { Say(Deactivated); }
    }

    method Activate()
      requires Wired()
      modifies this, h, fs, gad
      ensures View() == MachineSpec.Activate(u, old(View()))
      ensures snap == old(snap) && gad == old(gad)
    {
      hide G.Activate, G.Listed;
      if gad == null {
        h.p := h.p.(dead := true);
        return;
      }
      var ok := gad.Activate(h, fs, names);
      Say(ActivateTried(ok));
    }

    /** The two loops of boot: a LUN for each partition that exists, then nofua on all of them. */
    method AddPartitions(g: Gadget.Gadget)
      modifies h, fs, g
      ensures var r := G.AddAll(old(h.p), old(fs.t), old(g.View()), Partitions, h.env);
        (h.p, fs.t, g.View()) == (r.p, r.t, r.g)
    {
      hide G.AddLUN;
      ghost var goal := G.AddAll(h.p, fs.t, g.View(), Partitions, h.env);
      for i := 0 to |Partitions|
        invariant var r := G.AddAll(h.p, fs.t, g.View(), Partitions[i..], h.env);
          (r.p, r.t, r.g) == (goal.p, goal.t, goal.g)
      {
        assert Partitions[i..][1..] == Partitions[i + 1..];
        var found := h.Do();   // os.Stat
        if found {
          var _ := g.AddLUN(h, fs, Partitions[i].0, Partitions[i].1);
        }
      }
      assert Partitions[|Partitions|..] == [];
    }

    method EnableNofua(g: Gadget.Gadget)
      modifies h, fs, g
      ensures var r := G.NofuaAll(old(h.p), old(fs.t), old(g.View()), 0, h.env);
        (h.p, fs.t, g.View()) == (r.p, r.t, r.g)
    {
      ghost var goal := G.NofuaAll(h.p, fs.t, g.View(), 0, h.env);
      for i := 0 to |g.LUNs|
        invariant |g.LUNs| == |old(g.LUNs)|
        invariant var r := G.NofuaAll(h.p, fs.t, g.View(), i, h.env);
          (r.p, r.t, r.g) == (goal.p, goal.t, goal.g)
      {
        var _ := g.SetNofua(h, fs, i, true);
      }
    }

    /** The gadget half of boot, on a new Gadget object. */
    method Present(g: Gadget.Gadget) returns (ok: bool)
      requires Wired() && g.View() == G.Gadget([], false)
      modifies h, fs, g
      ensures G.Call(h.p, fs.t, g.View(), ok) == G.Present(old(h.p), old(fs.t), Partitions, names, h.env)
    {
      hide G.Configure, G.AddAll, G.NofuaAll, G.Activate, G.Listed, Targets, Dirs;
      ok := g.Configure(h, fs);
      if !ok { return; }
      AddPartitions(g);
      EnableNofua(g);
      ok := g.Activate(h, fs, names);
    }

    method Boot() returns (ok: bool)
      requires Wired()
      modifies this, h, d, fs
      ensures (View(), ok) == MachineSpec.Boot(u, old(View()))
      ensures snap == old(snap) && gad != null && fresh(gad)
    {
      hide S.Unmount, S.Cleanup, G.Present, G.Listed, Targets, Dirs;
      calm := d.k.faults;
      var _ := Snapshot.Unmount(h, d);
      Snapshot.Cleanup(h, d);
      gad := new Gadget.Gadget();
      ok := Present(gad);
      Say(Booted(ok));
    }

    method CreateSnapshot() returns (ok: bool)
      requires Wired()
      modifies this, h, d, fs, gad
      ensures (View(), ok) == MachineSpec.CreateSnapshot(u, old(View()))
      ensures gad == old(gad) && (snap == old(snap) || (snap != null && fresh(snap)))
    {
      hide S.Create, MachineSpec.Deactivate, MachineSpec.Activate, Wired;
      EnvIs();
      ok := Deactivate();
      if !ok { return; }
      var s := Snapshot.Create(h, d);
      if s == null {
        Activate();
        return false;
      }
      snap := s;
    }

    lemma EnvIs()
      requires Wired()
      ensures h.env == u.env && archiver.backend == u.backend
    {
    }

    method RunFsck()
      requires Wired()
      modifies this, h
      ensures View() == MachineSpec.RunFsck(u, old(View()))
      ensures snap == old(snap) && gad == old(gad)
    {
      Say(FsckBegins(fs.t.udc != ""));
      var _ := h.Do();
    }

    method ReactivateGadget()
      requires Wired()
      modifies this, h, fs, gad
      ensures View() == MachineSpec.ReactivateGadget(u, old(View()))
      ensures snap == old(snap) && gad == old(gad)
    {
      hide MachineSpec.Activate;
      if gad != null {
        Activate();
      }
    }

    /** The session itself: create, scan, filter, archive, close. */
    method Session() returns (ok: bool)
      requires Wired()
      modifies h, db
      ensures L.After(h.p, db.l, ok)
        == L.RunSession(u.backend, old(h.p), old(db.l), Scan.ScanAll(Dirs(u, old(h.p).clock)), h.env)
    {
      hide L.CreateSession, L.ListUnarchived, L.ArchiveFiles, L.Finish, Scan.ScanAll, Dirs, Targets;
      var found := dirs(h.p.clock);   // what the snapshot holds now
      var id;
      ok, id := db.CreateSession(h);
      if !ok { return; }
      var allFiles := Scan.ScanFilesForArchive(found);
      var newFiles := db.ListUnarchived(h, allFiles);
      if |newFiles| == 0 {
        db.CompleteSession(h, id, 0);
        return true;
      }
      var archived;
      ok, archived := db.ArchiveFiles(h, archiver.backend, newFiles, id);
      if !ok {
        db.FailSession(h, id);
        return false;
      }
      db.CompleteSession(h, id, archived);
    }

    method Transfer()
      requires Wired()
      modifies this, h, db
      ensures View() == MachineSpec.Transfer(u, old(View()))
      ensures snap == old(snap) && gad == old(gad)
    {
      hide L.RunSession, Scan.ScanAll, Dirs;
      if freeSpaceReserve > 0 {
        var ok, free := h.Request();   // statfs
        if ok && free < freeSpaceReserve {
          return;
        }
      }
      if h.p.dead { return; }
      Say(SessionBegins(fs.t.udc != "", h.p.clock));
      var _ := Session();
    }

    method Sync(order: seq<string>, byPartition: map<string, seq<MS.Target>>)
      requires Wired() && order == MS.OrderOf(targets)
      requires forall part :: part in order ==> part in byPartition && byPartition[part] == MS.Of(targets, part)
      modifies this, h, fs, gad, media
      ensures View() == MachineSpec.Sync(u, old(View()))
      ensures snap == old(snap) && gad == old(gad)
    {
      hide MachineSpec.Deactivate, MachineSpec.Activate, MS.SyncAll, MS.OrderOf, MS.Of, Targets, G.Listed;
      var ok := Deactivate();
      if !ok { return; }
      Say(SyncBegins(fs.t.udc != ""));
      media.SyncPartitions(h, order, byPartition, targets);
      Activate();
    }

    method IsReachable() returns (ok: bool)
      requires Wired()
      modifies h
      ensures var r := Reachable(u, old(h.p)); h.p == r.p && ok == r.ok
    {
      if archiver.backend.Noop? {
        return !h.p.dead;
      }
      ok := h.Do();   // ping, rclone lsd
    }

    method Hangup()
      requires Wired()
      modifies this, h, archiver
      ensures View() == MachineSpec.Hangup(u, old(View()))
      ensures snap == old(snap) && gad == old(gad)
    {
      hide H.Disconnect;
      var _ := archiver.Disconnect(h);
      Say(Disconnected);
    }

    /** Reachable? Connect? */
    method Dial() returns (ok: bool)
      requires Wired()
      modifies this, h, archiver
      ensures var q := Reachable(u, old(h.p));
        var c := H.Connect(u.backend, q.p, old(archiver.View()), u.env);
        var m := old(View());
        if !q.ok then !ok && View() == m.(p := q.p)
        else if !c.ok then !ok && View() == m.(p := c.p, share := c.s)
        else ok && View() == MachineSpec.Say(m.(p := c.p, share := c.s), Connected)
      ensures snap == old(snap) && gad == old(gad)
    {
      hide H.Connect, Reachable;
      ok := IsReachable();
      if !ok { return; }
      ok := archiver.Connect(h);
      if !ok { return; }
      Say(Connected);
    }

    method SnapUnmount()
      requires Wired()
      modifies this, h, d
      ensures View() == MachineSpec.SnapUnmount(u, old(View()))
      ensures snap == old(snap) && gad == old(gad)
    {
      hide S.Unmount;
      var _ := Snapshot.Unmount(h, d);
      Say(SnapUnmounted);
    }

    /** runArchive between the wake start and the wake stop. */
    method Archive()
      requires Wired()
      modifies this, h, archiver, db
      ensures View() == MachineSpec.WithConnection(u, old(View()), false)
      ensures snap == old(snap) && gad == old(gad)
    {
      hide H.Connect, Reachable, MachineSpec.Transfer, MachineSpec.Hangup, Wired, MachineSpec.Sync;
      var ok := Dial();
      if !ok { return; }
      Transfer();
      Hangup();
    }

    method RunArchive()
      requires Wired()
      modifies this, h, d, snap, archiver, db
      ensures View() == MachineSpec.RunArchive(u, old(View()))
      ensures snap == old(snap) && gad == old(gad)
    {
      hide S.Mount, MachineSpec.WithConnection, MachineSpec.SnapUnmount, Wired;
      EnvIs();
      if snap == null { return; }
      var ok := snap.Mount(h, d);
      if !ok { return; }
      Say(SnapMounted);
      var _ := h.Do();   // wake.Start
      Say(WakeStarted);
      Archive();
      var _ := h.Do();   // wake.Stop
      Say(WakeStopped);
      SnapUnmount();
    }

    method RunMediaSync()
      requires Wired()
      modifies this, h, fs, gad, media, archiver
      ensures View() == MachineSpec.RunMediaSync(u, old(View()))
      ensures snap == old(snap) && gad == old(gad)
    {
      hide H.Connect, Reachable, MachineSpec.Transfer, MachineSpec.Hangup, MachineSpec.Sync, MS.OrderOf, MS.Of,
        Targets, G.Listed;
      var order, byPartition := MS.Group(targets);
      if |order| == 0 { return; }
      var ok := Dial();
      if !ok { return; }
      Sync(order, byPartition);
      Hangup();
    }

    method CleanupSnapshot()
      requires Wired()
      modifies this, h, d, snap
      ensures View() == MachineSpec.CleanupSnapshot(u, old(View()))
      ensures snap == null && gad == old(gad)
    {
      hide S.Release;
      if snap != null {
        var _ := snap.Release(h, d);
        snap := null;
      }
    }

    // ---------------------------------------------------------- the loop

    method Transition(next: State)
      modifies this`state
      ensures View() == Goto(old(View()), next)
    {
      if !h.p.dead { state := next; }
    }

    method WaitForWifi()
      requires Wired()
      modifies this, h
      ensures View() == MachineSpec.WaitForWifi(u, old(View()))
      ensures snap == old(snap) && gad == old(gad)
    {
      Say(Waiting(fs.t.udc != ""));
      var home := h.Do();
      if home { state := StatePreArchive; }
    }

    /** WaitForIdle, whatever it reports, and the delay. */
    method PreArchive()
      requires Wired()
      modifies this, h
      ensures var m := old(View()); View() == m.(p := Ask(m.p, u.env).p)
      ensures snap == old(snap) && gad == old(gad)
    {
      var _ := h.Do();
    }

    /** The switch of Run. */
    method Arm()
      requires Wired()
      modifies this, h, d, fs, media, archiver, db, snap, gad
      ensures View() == MachineSpec.Arm(u, old(View()))
      ensures (snap == null || snap == old(snap) || fresh(snap)) && (gad == null || gad == old(gad) || fresh(gad))
    {
      hide MachineSpec.Boot, MachineSpec.CreateSnapshot, MachineSpec.RunFsck, MachineSpec.ReactivateGadget,
        MachineSpec.RunArchive, MachineSpec.RunMediaSync, MachineSpec.CleanupSnapshot, MachineSpec.WaitForWifi, Goto,
        Wired;
      EnvIs();
      assert View().state == state;
      hide View;
      match state
      case StateBooting =>
        var ok := Boot();
        if ok { Transition(StateGadgetUp); }
      case StateGadgetUp => Transition(StateWaitingForWifi);
      case StateWaitingForWifi => WaitForWifi();
      case StatePreArchive =>
        PreArchive();
        Transition(StateSnapshot);
      case StateSnapshot =>
        var ok := CreateSnapshot();
        if ok { Transition(StateFsck); } else { Transition(StateCleanup); }
      case StateFsck => RunFsck(); Transition(StateReconnect);
      case StateReconnect => ReactivateGadget(); Transition(StateArchiving);
      case StateArchiving => RunArchive(); Transition(StateMediaSync);
      case StateMediaSync => RunMediaSync(); Transition(StateCleanup);
      case StateCleanup => CleanupSnapshot(); Transition(StateWaitingForWifi);
    }

    /** deactivateGadget, and the end of the process. */
    method Shutdown()
      requires Wired()
      modifies this, h, fs, gad
      ensures View() == MachineSpec.Shutdown(u, old(View()))
      ensures snap == old(snap) && gad == old(gad)
    {
      hide MachineSpec.Deactivate;
      if gad != null {
        var _ := Deactivate();
      }
      h.p := h.p.(dead := true);
    }

    /** One turn of the endless loop in Run; busy: whether it got as far as the switch. */
    method Turn() returns (ghost busy: bool)
      requires Wired()
      modifies this, h, d, fs, media, archiver, db, snap, gad
      ensures View() == MachineSpec.Turn(u, old(View())) && busy == Ask(old(h.p), u.env).ok
      ensures (snap == null || snap == old(snap) || fresh(snap)) && (gad == null || gad == old(gad) || fresh(gad))
    {
      hide MachineSpec.Arm, MachineSpec.Shutdown, Wired;
      EnvIs();
      var open := h.Do();   // refused: the context is done
      busy := open;
      if h.p.dead { return; }
      if !open {
        Shutdown();
        return;
      }
      Arm();
    }

    /** The service is restarted: a new process, the same machine underneath. */
    method Restart(ghost busy: bool)
      modifies this, h, archiver
      ensures View() == MachineSpec.Restart(old(View()), busy)
      ensures snap == null && gad == null
    {
      hide View, HoldsDevice;
      Count(busy);
      Forget();
      Revive();
    }

    ghost method Count(busy: bool)
      modifies this`restarts, this`holdEnds, this`archiveCrashes, this`mediaCrashes, this`log
      ensures var m := old(View());
        View() == m.(restarts := m.restarts + 1, holdEnds := m.holdEnds + One(HoldsDevice(m, busy)),
                     archiveCrashes := m.archiveCrashes + One(busy && m.state.StateArchiving?),
                     mediaCrashes := m.mediaCrashes + One(busy && m.state.StateMediaSync?), log := m.log + [Restarted])
    {
      hide HoldsDevice;
      holdEnds := holdEnds + One(HoldsDevice(View(), busy));
      archiveCrashes := archiveCrashes + One(busy && state.StateArchiving?);
      mediaCrashes := mediaCrashes + One(busy && state.StateMediaSync?);
      restarts, log := restarts + 1, log + [Restarted];
    }

    /** The object itself, made anew. */
    method Forget()
      modifies this`state, this`snap, this`gad
      ensures View() == old(View()).(state := StateBooting, snap := None, gad := None)
      ensures snap == null && gad == null
    {
      state, snap, gad := StateBooting, null, null;
    }

    /** The part of a restart that is not this object: a new process, and a backend object that knows nothing. */
    method Revive()
      requires snap == null && gad == null
      modifies h, archiver
      ensures var m := old(View());
        View() == m.(p := Proc(m.p.clock, false), share := m.share.(creds := None))
    {
      h.p := Proc(h.p.clock, false);
      archiver.credentialsFile := None;
    }

    /** n turns in the life of the service, restarts included. */
    method Run(n: nat)
      requires Wired()
      modifies this, h, d, fs, media, archiver, db, snap, gad
      ensures View() == MachineSpec.Run(u, old(View()), n)
    {
      hide MachineSpec.Turn, MachineSpec.Restart, Wired;
      for i := 0 to n
        invariant View() == MachineSpec.Run(u, old(View()), i)
        invariant (snap == null || snap == old(snap) || fresh(snap)) && (gad == null || gad == old(gad) || fresh(gad))
      {
        ghost var busy := Turn();
        if h.p.dead {
          Restart(busy);
        }
      }
    }
  }
}
