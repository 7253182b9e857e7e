/** What each function of the control loop leaves alone, and that a dead process does nothing. */
module Frames {
  import opened Outside
  import opened MachineSpec
  import S = SnapshotSpec
  import G = GadgetSpec
  import L = LedgerSpec
  import H = ShareSpec
  import MS = MediaSync
  import Fsutil

  lemma DeadUnmounts(p: Proc, k: S.Kernel, env: Env)
    ensures p.dead ==> S.Unmount(p, k, env).0 == p
  {
    if p.dead { Fsutil.DeadUnmounts(p, S.At(k), env); }
  }

  lemma MountedAlive(p: Proc, k: S.Kernel, s: S.Snap, env: Env)
    ensures var r := S.Mount(p, k, s, env); r.ok ==> !r.p.dead
  {
  }

  lemma DeactivateFrame(u: Setup, m: Machine)
    ensures var d := Deactivate(u, m);
      && d.0 == m.(p := d.0.p, t := d.0.t, gad := d.0.gad, log := d.0.log)
      && (d.1 ==> !d.0.p.dead) && (m.p.dead ==> d.0.p == m.p)
  {
  }

  lemma ActivateFrame(u: Setup, m: Machine)
    ensures var r := Activate(u, m);
      r == m.(p := r.p, t := r.t, gad := r.gad, log := r.log) && (m.p.dead ==> r.p == m.p)
  {
    hide G.EnsureLink, G.Attach;
    if m.p.dead && m.gad.Some? {
      DeadActivates(m.p, m.t, m.gad.value, u.names, u.env);
    }
  }

  lemma DeadActivates(p: Proc, t: G.Tree, g: G.Gadget, names: seq<string>, env: Env)
    ensures p.dead ==> G.Activate(p, t, g, names, env).p == p
  {
  }

  lemma SyncFrame(u: Setup, m: Machine)
    ensures var r := Sync(u, m);
      r == m.(p := r.p, t := r.t, gad := r.gad, media := r.media, log := r.log)
  {
    hide Deactivate, Activate, MS.SyncAll, MS.OrderOf, Targets;
    var d := Deactivate(u, m);
    DeactivateFrame(u, m);
    var m1 := Say(d.0, SyncBegins(Bound(d.0)));
    var s := MS.SyncAll(m1.p, m1.media, MS.OrderOf(Targets(u)), Targets(u), u.env);
    ActivateFrame(u, m1.(p := s.0, media := s.1));
  }

  lemma TransferFrame(u: Setup, m: Machine)
    ensures var r := Transfer(u, m);
      r == m.(p := r.p, l := r.l, log := r.log)
  {
    hide L.RunSession, Dirs;
  }

  lemma WithConnectionFrame(u: Setup, m: Machine, media: bool)
    ensures var r := WithConnection(u, m, media);
      r == m.(p := r.p, t := r.t, gad := r.gad, media := r.media, share := r.share, l := r.l, log := r.log)
  {
    hide H.Connect, H.Disconnect, Sync, Transfer, Reachable;
    var q := Reachable(u, m.p);
    var c := H.Connect(u.backend, q.p, m.share, u.env);
    var m1 := Say(m.(p := c.p, share := c.s), Connected);
    SyncFrame(u, m1);
    TransferFrame(u, m1);
  }

  lemma HangupFrame(u: Setup, m: Machine)
    ensures var r := Hangup(u, m); r == m.(p := r.p, share := r.share, log := r.log)
  {
    hide H.Disconnect;
  }

  lemma DeadStaysUnconnected(u: Setup, m: Machine, media: bool)
    requires m.p.dead
    ensures WithConnection(u, m, media) == m
  {
    hide H.Connect, Sync, Transfer, Hangup;
  }
}
