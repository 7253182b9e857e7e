/** The gadget over the control loop: every turn keeps configfs well-formed, the Gadget object in agreement
    with it, and the log within the discipline. */
module GadgetLaws {
  import opened Common
  import opened Outside
  import opened MachineSpec
  import opened Frames
  import opened Discipline
  import S = SnapshotSpec
  import G = GadgetSpec
  import L = LedgerSpec
  import H = ShareSpec
  import MS = MediaSync
  import Luns

  /** The log is accepted so far, and the watch is right about the gadget. */
  predicate Watched(m: Machine, w: Watch) {
    && Observe(m.log) == Fine(w) && G.Sound(m.t) && (w.sure ==> Bound(m))
  }

  /** The object in memory is what configfs holds, lun by lun, and knows whether the gadget is bound; the luns
      are those of some of the partitions; there is a configuration to link and a function to link it to. */
  ghost predicate Agrees(u: Setup, m: Machine) {
    && m.gad.Some? && G.LunsAgree(m.gad.value, m.t) && G.ActiveAgrees(m.gad.value, m.t)
    && (Bound(m) ==> m.t.udc == G.FindUdc(u.names))
    && G.Config in m.t.nodes && G.Function in m.t.nodes
    && Luns.OfParts(m.gad.value.luns, Partitions)
  }

  predicate Apart(s: State) { s.StateFsck? || s.StateReconnect? }

  /** What is true between two turns. */
  ghost predicate Settled(u: Setup, m: Machine, w: Watch) {
    && w.phase == Resting
    && (if m.state.StateBooting? then !w.sure else Agrees(u, m) && w.booted)
    && (Apart(m.state) ==> w.owed && !Bound(m))
    && (!Apart(m.state) && !m.state.StateBooting? ==> !w.owed)
  }

  ghost predicate Inv(u: Setup, m: Machine, w: Watch) {
    Watched(m, w) && (!m.p.dead ==> Settled(u, m, w))
  }

  // ------------------------------------------------------------ the two requests

  lemma SaysOn(m: Machine, w: Watch, e: Event)
    requires Watched(m, w) && (!m.p.dead ==> Next(w, e).Fine? && (Next(w, e).w.sure ==> Bound(m)))
    ensures Watched(Say(m, e), if m.p.dead then w else Next(w, e).w)
  {
    ObserveMore(m.log, e);
    hide G.Sound, Observe;
  }

  lemma DeactivateIsSeen(u: Setup, m: Machine, w: Watch) returns (w': Watch)
    requires Watched(m, w) && m.gad.Some? && (w.phase == Resting || w.phase == Fetching)
    ensures var r := Deactivate(u, m);
      && Watched(r.0, w') && w'.phase == w.phase && w'.booted == w.booted
      && (r.1 ==> !r.0.p.dead && w'.owed && !Bound(r.0)) && (!r.1 ==> w' == w)
  {
    hide G.Sound, G.Deactivate, Observe;
    G.DeactivateMeaning(m.p, m.t, m.gad.value, u.env);
    w' := w;
    if G.Deactivate(m.p, m.t, m.gad.value, u.env).ok {
      w' := w.(owed := true, sure := false);
      ObserveMore(m.log, Deactivated);
    }
  }

  lemma DeactivateKeeps(u: Setup, m: Machine, w: Watch) returns (w': Watch)
    requires Watched(m, w) && Agrees(u, m) && (w.phase == Resting || w.phase == Fetching)
    ensures var r := Deactivate(u, m);
      && Watched(r.0, w') && Agrees(u, r.0) && w'.phase == w.phase && w'.booted == w.booted
      && (r.1 ==> !r.0.p.dead && w'.owed && !Bound(r.0)) && (!r.1 ==> w' == w)
  {
    hide G.Sound, G.LunsAgree, G.Deactivate, Watched, Luns.OfParts;
    var r := G.Deactivate(m.p, m.t, m.gad.value, u.env);
    w' := DeactivateIsSeen(u, m, w);
    SoundThere(m, w);
    G.DeactivateMeaning(m.p, m.t, m.gad.value, u.env);
    SameLuns(m.gad.value, m.t, r.g, r.t);
  }

  lemma SoundThere(m: Machine, w: Watch)
    requires Watched(m, w)
    ensures G.Sound(m.t)
  {
  }

  /** LunsAgree speaks of luns and attributes only. */
  lemma SameLuns(g: G.Gadget, t: G.Tree, g': G.Gadget, t': G.Tree)
    requires g'.luns == g.luns && t'.luns == t.luns && t'.attrs == t.attrs
    ensures G.LunsAgree(g', t') == G.LunsAgree(g, t)
  {
    forall i | 0 <= i < |g.luns| ensures G.LunAgrees(t', i, g'.luns[i]) == G.LunAgrees(t, i, g.luns[i]) { }
  }

  lemma ActivateKeeps(u: Setup, m: Machine, w: Watch) returns (w': Watch)
    requires Watched(m, w) && Agrees(u, m) && (w.phase == Resting || w.phase == Fetching) && G.Listed(u.names)
    ensures var r := Activate(u, m);
      && Watched(r, w') && Agrees(u, r) && w'.phase == w.phase && w'.booted == w.booted
      && (!r.p.dead ==> !w'.owed)
  {
    hide G.Sound, G.LunsAgree, G.Activate, G.FindUdc, Observe, Luns.OfParts;
    var r := G.Activate(m.p, m.t, m.gad.value, u.names, u.env);
    G.ActivateMeaning(m.p, m.t, m.gad.value, u.names, u.env);
    SameLuns(m.gad.value, m.t, r.g, r.t);
    w' := if r.p.dead then w else w.(owed := false, sure := r.ok);
    ObserveMore(m.log, ActivateTried(r.ok));
  }

  // ------------------------------------------------------------ the arms

  predicate SameGadget(m: Machine, r: Machine) { r.t == m.t && r.gad == m.gad && r.log == m.log }

  lemma SameGadgetKeeps(u: Setup, m: Machine, r: Machine, w: Watch)
    requires Watched(m, w) && SameGadget(m, r)
    ensures Watched(r, w) && (Agrees(u, m) ==> Agrees(u, r))
  {
    hide G.Sound, G.LunsAgree, Observe, Luns.OfParts;
  }

  lemma BootKeeps(u: Setup, m: Machine, w: Watch) returns (w': Watch)
    requires Inv(u, m, w) && m.state.StateBooting? && !m.p.dead && G.Listed(u.names)
    ensures Inv(u, Arm(u, m), w')
  {
    hide G.Sound, G.LunsAgree, G.Present, G.FindUdc, S.Unmount, S.Cleanup, Observe, Luns.OfParts;
    var un := S.Unmount(m.p, m.k, u.env);
    var c := S.Cleanup(un.0, un.1, u.env);
    var g := G.Present(c.0, m.t, Partitions, u.names, u.env);
    G.PresentMeaning(c.0, m.t, Partitions, u.names, u.env);
    Luns.PresentOfParts(c.0, m.t, Partitions, u.names, u.env);
    ObserveMore(m.log, Booted(g.ok));
    w' := if g.p.dead then w else Watch(Resting, w.owed && !g.ok, g.ok, g.ok);
  }

  lemma SnapshotKeeps(u: Setup, m: Machine, w: Watch) returns (w': Watch)
    requires Inv(u, m, w) && m.state.StateSnapshot? && !m.p.dead && G.Listed(u.names)
    ensures Inv(u, Arm(u, m), w')
  {
    hide Deactivate, Activate, S.Create, Agrees, Watched;
    var d := Deactivate(u, m);
    w' := DeactivateKeeps(u, m, w);
    DeactivateFrame(u, m);
    if d.1 {
      var c := S.Create(d.0.p, d.0.k, u.env);
      var m1 := d.0.(p := c.p, k := c.k);
      if c.ok {
        SameGadgetKeeps(u, d.0, Arm(u, m), w');
      } else {
        SameGadgetKeeps(u, d.0, m1, w');
        w' := ActivateKeeps(u, m1, w');
        SameGadgetKeeps(u, Activate(u, m1), Arm(u, m), w');
      }
    } else {
      SameGadgetKeeps(u, d.0, Arm(u, m), w');
    }
  }

  lemma SyncKeeps(u: Setup, m: Machine, w: Watch) returns (w': Watch)
    requires Watched(m, w) && Agrees(u, m) && !m.p.dead && w.phase == Fetching && w.booted && !w.owed
    requires G.Listed(u.names)
    ensures var r := Sync(u, m);
      Watched(r, w') && (!r.p.dead ==> Agrees(u, r) && w'.phase == Fetching && w'.booted && !w'.owed)
  {
    hide Deactivate, Activate, MS.SyncAll, MS.OrderOf, Targets, Agrees, Watched, Next;
    var d := Deactivate(u, m);
    w' := DeactivateKeeps(u, m, w);
    if d.1 {
      SyncIsAllowed(w');
      SureIsBound(d.0, w');
      SaysOn(d.0, w', SyncBegins(Bound(d.0)));
      var m1 := Say(d.0, SyncBegins(Bound(d.0)));
      StillAgrees(u, d.0, m1);
      var s := MS.SyncAll(m1.p, m1.media, MS.OrderOf(Targets(u)), Targets(u), u.env);
      var m2 := m1.(p := s.0, media := s.1);
      SameGadgetKeeps(u, m1, m2, w');
      w' := ActivateKeeps(u, m2, w');
    }
  }

  lemma SureIsBound(m: Machine, w: Watch)
    requires Watched(m, w)
    ensures w.sure ==> Bound(m)
  {
  }

  lemma StillAgrees(u: Setup, m: Machine, r: Machine)
    requires Agrees(u, m) && r.gad == m.gad && r.t == m.t
    ensures Agrees(u, r)
  {
  }

  lemma SyncIsAllowed(w: Watch)
    requires w.phase == Fetching && w.booted && w.owed
    ensures Next(w, SyncBegins(false)) == Fine(w)
  {
  }

  lemma TransferKeeps(u: Setup, m: Machine, w: Watch)
    requires Watched(m, w) && (!m.p.dead ==> w.phase == Carrying && w.booted && !w.owed)
    ensures Watched(Transfer(u, m), w) && Transfer(u, m).gad == m.gad && Transfer(u, m).t == m.t
  {
    hide L.RunSession, Dirs, Observe, G.Sound;
    var d := if u.freeSpaceReserve > 0 then Ask(m.p, u.env) else Reply(m.p, false, 0);
    ObserveMore(m.log, SessionBegins(Bound(m), d.p.clock));
  }

  lemma HangupKeeps(u: Setup, m: Machine, w: Watch) returns (w': Watch)
    requires Watched(m, w) && (!m.p.dead ==> w.phase == Carrying || (w.phase == Fetching && !w.owed))
    ensures var r := Hangup(u, m);
      && Watched(r, w') && r.t == m.t && r.gad == m.gad
      && (!r.p.dead ==> w'.owed == w.owed && w'.booted == w.booted
                        && w'.phase == if w.phase == Carrying then Spent else Resting)
  {
    hide H.Disconnect, Observe, G.Sound;
    H.DisconnectMeaning(u.backend, m.p, m.share, u.env);
    var d := H.Disconnect(u.backend, m.p, m.share, u.env);
    ObserveMore(m.log, Disconnected);
    w' := if d.p.dead then w else Next(w, Disconnected).w;
  }

  lemma ConnectSaid(u: Setup, m: Machine, w: Watch, media: bool)
    requires Watched(m, w) && Agrees(u, m) && !m.p.dead && w.booted && !w.owed
    requires w.phase == (if media then Resting else Awake)
    ensures var q := Reachable(u, m.p);
      var c := H.Connect(u.backend, q.p, m.share, u.env);
      q.ok && c.ok ==>
        var m1 := Say(m.(p := c.p, share := c.s), Connected);
        !m1.p.dead && Agrees(u, m1) && Watched(m1, w.(phase := if media then Fetching else Carrying))
  {
    hide H.Connect, Observe, G.Sound, G.LunsAgree;
    var q := Reachable(u, m.p);
    H.ConnectMeaning(u.backend, q.p, m.share, u.env);
    ObserveMore(m.log, Connected);
  }

  predicate After(media: bool, ph: Phase) { if media then ph == Resting else ph == Awake || ph == Spent }

  /** A media sync comes back to rest; an archive run comes back disconnected, or never connected. */
  lemma WithConnectionKeeps(u: Setup, m: Machine, w: Watch, media: bool) returns (w': Watch)
    requires Watched(m, w) && Agrees(u, m) && !m.p.dead && w.booted && !w.owed
    requires w.phase == (if media then Resting else Awake) && G.Listed(u.names)
    ensures var r := WithConnection(u, m, media);
      && Watched(r, w')
      && (!r.p.dead ==> Agrees(u, r) && w'.booted && !w'.owed && After(media, w'.phase))
  {
    hide H.Connect, Reachable, Sync, Transfer, Hangup, Agrees, Watched, Observe;
    var q := Reachable(u, m.p);
    var r := WithConnection(u, m, media);
    ConnectSaid(u, m, w, media);
    var c := H.Connect(u.backend, q.p, m.share, u.env);
    if q.ok && c.ok {
      var m1 := Say(m.(p := c.p, share := c.s), Connected);
      var w1 := w.(phase := if media then Fetching else Carrying);
      if media {
        var w2 := SyncKeeps(u, m1, w1);
        var m2 := Sync(u, m1);
        DeadHangs(u, m2);
        w' := HangupKeeps(u, m2, w2);
        if !r.p.dead { StillAgrees(u, m2, r); }
      } else {
        TransferKeeps(u, m1, w1);
        var m2 := Transfer(u, m1);
        w' := HangupKeeps(u, m2, w1);
        StillAgrees(u, m1, r);
      }
    } else {
      w' := w;
      SameGadgetKeeps(u, m, r, w);
    }
  }

  lemma DeadHangs(u: Setup, m: Machine)
    ensures m.p.dead ==> Hangup(u, m).p.dead
  {
    hide H.Disconnect;
    H.DisconnectMeaning(u.backend, m.p, m.share, u.env);
  }

  lemma WakeStartKeeps(u: Setup, m: Machine, w: Watch) returns (w': Watch)
    requires Watched(m, w) && (!m.p.dead ==> w.phase == Mounted)
    ensures var r := WakeStart(u, m);
      && Watched(r, w') && r.t == m.t && r.gad == m.gad && w'.owed == w.owed
      && w'.booted == w.booted && (!r.p.dead ==> w'.phase == Awake)
  {
    hide Observe, G.Sound;
    ObserveMore(m.log, WakeStarted);
    w' := if WakeStart(u, m).p.dead then w else w.(phase := Awake);
  }

  lemma WakeStopKeeps(u: Setup, m: Machine, w: Watch) returns (w': Watch)
    requires Watched(m, w) && (!m.p.dead ==> w.phase == Awake || w.phase == Spent)
    ensures var r := WakeStop(u, m);
      && Watched(r, w') && r.t == m.t && r.gad == m.gad && w'.owed == w.owed && w'.booted == w.booted
      && (!r.p.dead ==> !m.p.dead && w'.phase == Asleep)
  {
    hide Observe, G.Sound;
    ObserveMore(m.log, WakeStopped);
    w' := if WakeStop(u, m).p.dead then w else w.(phase := Asleep);
  }

  lemma SnapUnmountKeeps(u: Setup, m: Machine, w: Watch) returns (w': Watch)
    requires Watched(m, w) && (!m.p.dead ==> w.phase == Asleep)
    ensures var r := SnapUnmount(u, m);
      && Watched(r, w') && r.t == m.t && r.gad == m.gad && w'.owed == w.owed && w'.booted == w.booted
      && (!r.p.dead ==> !m.p.dead && w'.phase == Resting)
  {
    hide Observe, G.Sound, S.Unmount;
    DeadUnmounts(m.p, m.k, u.env);
    ObserveMore(m.log, SnapUnmounted);
    w' := if SnapUnmount(u, m).p.dead then w else w.(phase := Resting);
  }

  lemma ArchiveKeeps(u: Setup, m: Machine, w: Watch) returns (w': Watch)
    requires Watched(m, w) && Agrees(u, m) && !m.p.dead && w.booted && !w.owed && w.phase == Resting
    requires G.Listed(u.names)
    ensures var r := RunArchive(u, m);
      Watched(r, w') && (!r.p.dead ==> Agrees(u, r) && w'.booted && !w'.owed && w'.phase == Resting)
  {
    hide S.Mount, WithConnection, WakeStart, WakeStop, SnapUnmount, Agrees, Watched, Observe, Next;
    w' := w;
    var r := RunArchive(u, m);
    if m.snap.Some? {
      var mt := S.Mount(m.p, m.k, m.snap.value, u.env);
      var m1 := m.(p := mt.p, k := mt.k, snap := Some(mt.s));
      SameGadgetKeeps(u, m, m1, w);
      if mt.ok {
        MountedAlive(m.p, m.k, m.snap.value, u.env);
        var m2 := Say(m1, SnapMounted);
        var w2 := MountSaid(m1, w);
        var m3 := WakeStart(u, m2);
        var w3 := WakeStartKeeps(u, m2, w2);
        StillAgrees(u, m, m3);
        var m4 := WithConnection(u, m3, false);
        w' := CarriesOn(u, m3, w3);
        var m5 := WakeStop(u, m4);
        w' := WakeStopKeeps(u, m4, w');
        w' := SnapUnmountKeeps(u, m5, w');
        assert r == SnapUnmount(u, m5);
        if !r.p.dead {
          StillAgrees(u, m4, r);
        }
      }
    }
  }

  lemma MountSaid(m: Machine, w: Watch) returns (w': Watch)
    requires Watched(m, w) && !m.p.dead && w.phase == Resting && w.booted && !w.owed
    ensures Watched(Say(m, SnapMounted), w') && w' == w.(phase := Mounted)
  {
    hide Observe, G.Sound;
    ObserveMore(m.log, SnapMounted);
    w' := w.(phase := Mounted);
  }

  /** WithConnection on a process that may have died just before: then nothing happens. */
  lemma CarriesOn(u: Setup, m: Machine, w: Watch) returns (w': Watch)
    requires Watched(m, w) && Agrees(u, m) && w.booted && !w.owed && (!m.p.dead ==> w.phase == Awake)
    requires G.Listed(u.names)
    ensures var r := WithConnection(u, m, false);
      Watched(r, w') && (!r.p.dead ==> Agrees(u, r) && w'.booted && !w'.owed && After(false, w'.phase))
  {
    hide WithConnection, Agrees, Watched, Observe;
    if m.p.dead {
      DeadStaysUnconnected(u, m, false);
      SameGadgetKeeps(u, m, WithConnection(u, m, false), w);
      w' := w;
    } else {
      w' := WithConnectionKeeps(u, m, w, false);
    }
  }

  lemma MediaKeeps(u: Setup, m: Machine, w: Watch) returns (w': Watch)
    requires Inv(u, m, w) && m.state.StateMediaSync? && !m.p.dead && G.Listed(u.names)
    ensures Inv(u, Arm(u, m), w')
  {
    hide WithConnection, MS.OrderOf, Targets, Agrees, Watched;
    WithConnectionFrame(u, m, true);
    w' := w;
    if MS.OrderOf(Targets(u)) == [] {
      SameGadgetKeeps(u, m, Arm(u, m), w);
    } else {
      w' := WithConnectionKeeps(u, m, w, true);
      SameGadgetKeeps(u, WithConnection(u, m, true), Arm(u, m), w');
    }
  }

  lemma ArchivingKeeps(u: Setup, m: Machine, w: Watch) returns (w': Watch)
    requires Inv(u, m, w) && m.state.StateArchiving? && !m.p.dead && G.Listed(u.names)
    ensures Inv(u, Arm(u, m), w')
  {
    hide RunArchive, Agrees, Watched;
    w' := ArchiveKeeps(u, m, w);
    SameGadgetKeeps(u, RunArchive(u, m), Arm(u, m), w');
  }

  lemma WaitingKeeps(u: Setup, m: Machine, w: Watch)
    requires Inv(u, m, w) && m.state.StateWaitingForWifi? && !m.p.dead
    ensures Inv(u, Arm(u, m), w)
  {
    hide Observe, G.Sound, G.LunsAgree, G.ActiveAgrees, G.FindUdc;
    ObserveMore(m.log, Waiting(Bound(m)));
  }

  lemma FsckKeeps(u: Setup, m: Machine, w: Watch)
    requires Inv(u, m, w) && m.state.StateFsck? && !m.p.dead
    ensures Inv(u, Arm(u, m), w)
  {
    hide Observe, G.Sound, G.LunsAgree;
    ObserveMore(m.log, FsckBegins(Bound(m)));
  }

  lemma ReconnectKeeps(u: Setup, m: Machine, w: Watch) returns (w': Watch)
    requires Inv(u, m, w) && m.state.StateReconnect? && !m.p.dead && G.Listed(u.names)
    ensures Inv(u, Arm(u, m), w')
  {
    hide Activate, Agrees, Watched;
    w' := ActivateKeeps(u, m, w);
    GadgetThere(u, m);
    ActivateFrame(u, m);
    SameGadgetKeeps(u, Activate(u, m), Arm(u, m), w');
  }

  lemma GadgetThere(u: Setup, m: Machine)
    requires Agrees(u, m)
    ensures m.gad.Some?
  {
  }

  lemma QuietArmsKeep(u: Setup, m: Machine, w: Watch)
    requires Inv(u, m, w) && !m.p.dead
    requires m.state.StateGadgetUp? || m.state.StatePreArchive? || m.state.StateCleanup?
    ensures Inv(u, Arm(u, m), w)
  {
    hide Agrees, Watched, S.Release;
    SameGadgetKeeps(u, m, Arm(u, m), w);
  }

  lemma ArmKeeps(u: Setup, m: Machine, w: Watch) returns (w': Watch)
    requires Inv(u, m, w) && !m.p.dead && G.Listed(u.names)
    ensures Inv(u, Arm(u, m), w')
  {
    hide Inv, Arm;
    w' := w;
    match m.state
    case StateBooting => w' := BootKeeps(u, m, w);
    case StateWaitingForWifi => WaitingKeeps(u, m, w);
    case StateSnapshot => w' := SnapshotKeeps(u, m, w);
    case StateFsck => FsckKeeps(u, m, w);
    case StateReconnect => w' := ReconnectKeeps(u, m, w);
    case StateArchiving => w' := ArchivingKeeps(u, m, w);
    case StateMediaSync => w' := MediaKeeps(u, m, w);
    case _ => QuietArmsKeep(u, m, w);
  }

  // ------------------------------------------------------------ the turn

  lemma ShutdownKeeps(u: Setup, m: Machine, w: Watch) returns (w': Watch)
    requires Inv(u, m, w) && !m.p.dead
    ensures Watched(Shutdown(u, m), w')
  {
    hide Deactivate, Agrees, Watched;
    w' := w;
    if m.gad.Some? {
      w' := DeactivateIsSeen(u, m, w);
      SameGadgetKeeps(u, Deactivate(u, m).0, Shutdown(u, m), w');
    } else {
      SameGadgetKeeps(u, m, Shutdown(u, m), w');
    }
  }

  lemma RestartKeeps(u: Setup, m: Machine, w: Watch, busy: bool) returns (w': Watch)
    requires Watched(m, w)
    ensures Inv(u, Restart(m, busy), w')
  {
    hide Observe, G.Sound;
    ObserveMore(m.log, Restarted);
    w' := Watch(Resting, w.owed, false, false);
  }

  lemma TurnKeeps(u: Setup, m: Machine, w: Watch) returns (w': Watch)
    requires Inv(u, m, w) && !m.p.dead && G.Listed(u.names)
    ensures Inv(u, Turn(u, m), w')
  {
    hide Agrees, Watched, Arm, Shutdown;
    var m1 := m.(p := Ask(m.p, u.env).p);
    SameGadgetKeeps(u, m, m1, w);
    w' := w;
    if !m1.p.dead {
      if Ask(m.p, u.env).ok {
        w' := ArmKeeps(u, m1, w);
      } else {
        w' := ShutdownKeeps(u, m1, w);
        ShutdownDies(u, m1);
      }
    }
  }

  lemma ShutdownDies(u: Setup, m: Machine)
    ensures Shutdown(u, m).p.dead
  {
    hide Deactivate;
  }

  lemma StepKeeps(u: Setup, m: Machine, w: Watch) returns (w': Watch)
    requires Inv(u, m, w) && !m.p.dead && G.Listed(u.names)
    ensures Inv(u, Step(u, m), w')
  {
    hide Turn, Settled, Watched, Restart;
    w' := TurnKeeps(u, m, w);
    if Turn(u, m).p.dead {
      w' := RestartKeeps(u, Turn(u, m), w', Ask(m.p, u.env).ok);
    }
  }
}
