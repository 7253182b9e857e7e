/** Kernel resources over the control loop: what every turn keeps of the dm nodes, the zram devices and
    the snapshot's mount. */
module KernelLaws {
  import opened Common
  import opened Outside
  import opened MachineSpec
  import opened Frames
  import S = SnapshotSpec
  import G = GadgetSpec
  import MS = MediaSync
  import Fsutil

  /** n: how many zram devices are accounted for by something other than a fault. */
  ghost predicate Good(m: Machine, n: nat) {
    && S.Sound(m.k) && m.k.mounts <= 1 && |m.k.zram| <= m.k.faults + n && Held(m)
  }

  /** A snapshot the machine holds is the one the kernel has, and can be released. */
  predicate Held(m: Machine) {
    m.snap.Some? ==> var s := m.snap.value; s.zram.Some? && m.k.snap == s.zram && S.Releasable(m.k, s)
  }

  /** How many devices a machine in this state may hold: those it did not live to release, and the live one. */
  function Due(m: Machine, busy: bool): nat { m.holdEnds + One(HoldsDevice(m, busy)) }

  predicate HoldsSnapshot(s: State) {
    s.StateFsck? || s.StateReconnect? || s.StateArchiving? || s.StateMediaSync?
  }

  /** What is true between two turns. */
  predicate Settled(m: Machine) {
    && (m.snap.Some? ==> HoldsSnapshot(m.state) || m.state.StateCleanup?)
    && (HoldsSnapshot(m.state) ==> m.snap.Some?)
    && (HoldsSnapshot(m.state) && !m.state.StateMediaSync? ==> m.k.mounts == 0)
    && (!m.state.StateBooting? && m.snap.None? && m.k.faults == m.calm ==> S.Clean(m.k))
  }

  /** busy: whether the machine, if it is dead, died in the arm of its state. */
  ghost predicate Kept(m: Machine, busy: bool) {
    Good(m, Due(m, busy)) && m.calm <= m.k.faults && (!m.p.dead ==> Settled(m))
  }

  ghost predicate Inv(m: Machine) { Kept(m, m.p.dead) }

  predicate SameKernel(m: Machine, r: Machine) {
    r.k == m.k && r.snap == m.snap && r.holdEnds == m.holdEnds && r.calm == m.calm
  }

  /** The transitions of the arms that leave the kernel alone. */
  predicate Onward(a: State, b: State) {
    || a == b
    || (a.StateGadgetUp? && b.StateWaitingForWifi?) || (a.StateWaitingForWifi? && b.StatePreArchive?)
    || (a.StatePreArchive? && b.StateSnapshot?) || (a.StateFsck? && b.StateReconnect?)
    || (a.StateReconnect? && b.StateArchiving?) || (a.StateMediaSync? && b.StateCleanup?)
  }

  lemma SameKernelKeeps(m: Machine, r: Machine)
    requires Inv(m) && !m.p.dead && SameKernel(m, r) && Onward(m.state, r.state)
    ensures Inv(r)
  {
    hide S.Sound, S.Clean, S.Releasable;
  }

  lemma UnmountKeeps(p: Proc, k: S.Kernel, env: Env)
    requires S.Sound(k)
    ensures var u := S.Unmount(p, k, env);
      && u.1 == k.(mounts := u.1.mounts, faults := u.1.faults) && u.1.faults >= k.faults
      && u.1.mounts <= k.mounts && S.Sound(u.1)
      && (p.dead ==> u.0 == p && u.1 == k)
      && (!p.dead && !u.0.dead && u.1.faults == k.faults && k.mounts <= 1 ==> u.1.mounts == 0)
  {
    if p.dead {
      Fsutil.DeadUnmounts(p, S.At(k), env);
    } else {
      Fsutil.UnmountMeaning(p, S.At(k), env);
    }
  }

  /** The kernel half of boot: nothing is added, and without faults the dm nodes and the mount go. */
  lemma ReconcileKeeps(p: Proc, k: S.Kernel, env: Env)
    requires S.Sound(k) && k.mounts <= 1
    ensures var un := S.Unmount(p, k, env);
      var c := S.Cleanup(un.0, un.1, env);
      && S.Sound(c.1) && c.1.zram == k.zram && c.1.mounts <= 1 && c.1.faults >= k.faults
      && (!p.dead && !c.0.dead && c.1.faults == k.faults ==> S.Clean(c.1))
  {
    hide S.Unmount, S.Cleanup;
    var un := S.Unmount(p, k, env);
    UnmountKeeps(p, k, env);
    S.CleanupSweeps(un.0, un.1, env);
  }

  lemma BootKeeps(u: Setup, m: Machine)
    requires Inv(m) && m.state.StateBooting? && !m.p.dead && G.Sound(m.t) && G.Listed(u.names)
    ensures Inv(Arm(u, m))
  {
    hide S.Unmount, S.Cleanup, S.Sound, S.Clean, G.Present;
    var un := S.Unmount(m.p, m.k, u.env);
    var c := S.Cleanup(un.0, un.1, u.env);
    ReconcileKeeps(m.p, m.k, u.env);
    BootOk(u, c.0, m.t);
  }

  lemma BootOk(u: Setup, p: Proc, t: G.Tree)
    requires G.Sound(t) && G.Listed(u.names)
    ensures var g := G.Present(p, t, Partitions, u.names, u.env); g.ok ==> !p.dead && !g.p.dead
  {
    hide G.Present;
    G.PresentMeaning(p, t, Partitions, u.names, u.env);
  }

  lemma SnapshotKeeps(u: Setup, m: Machine)
    requires Inv(m) && m.state.StateSnapshot? && !m.p.dead
    ensures Inv(Arm(u, m))
  {
    hide Deactivate, Activate, S.Create, S.Cleanup;
    var d := Deactivate(u, m);
    DeactivateFrame(u, m);
    if d.1 {
      var c := S.Create(d.0.p, d.0.k, u.env);
      S.CreateAllOrNothing(d.0.p, d.0.k, u.env);
      S.CreateCounts(d.0.p, d.0.k, u.env);
      S.CleanupSweeps(d.0.p, d.0.k, u.env);
      ActivateFrame(u, d.0.(p := c.p, k := c.k));
    }
  }

  /** After the mount, only the unmount at the end touches the kernel. */
  lemma ArchiveIs(u: Setup, m: Machine)
    requires m.snap.Some?
    ensures var mt := S.Mount(m.p, m.k, m.snap.value, u.env);
      var r := RunArchive(u, m);
      && r.snap == Some(mt.s) && r.state == m.state && r.calm == m.calm
      && r.restarts == m.restarts && r.holdEnds == m.holdEnds
      && (r.k == mt.k || exists p :: r.k == S.Unmount(p, mt.k, u.env).1)
  {
    hide S.Mount, WithConnection, S.Unmount;
    var mt := S.Mount(m.p, m.k, m.snap.value, u.env);
    var m1 := m.(p := mt.p, k := mt.k, snap := Some(mt.s));
    if mt.ok {
      var m2 := WakeStart(u, Say(m1, SnapMounted));
      var m3 := WithConnection(u, m2, false);
      WithConnectionFrame(u, m2, false);
      var m4 := WakeStop(u, m3);
      assert RunArchive(u, m) == SnapUnmount(u, m4);
      assert m4.k == mt.k && SnapUnmount(u, m4).k == S.Unmount(m4.p, mt.k, u.env).1;
    }
  }

  lemma ArchivingKeeps(u: Setup, m: Machine)
    requires Inv(m) && m.state.StateArchiving? && !m.p.dead
    ensures Inv(Arm(u, m))
  {
    hide S.Mount, S.Unmount, RunArchive;
    ArchiveIs(u, m);
    var mt := S.Mount(m.p, m.k, m.snap.value, u.env);
    MountKeeps(m.p, m.k, m.snap.value, u.env);
    var r := RunArchive(u, m);
    if r.k != mt.k {
      var p :| r.k == S.Unmount(p, mt.k, u.env).1;
      UnmountKeeps(p, mt.k, u.env);
    }
  }

  lemma MountKeeps(p: Proc, k: S.Kernel, s: S.Snap, env: Env)
    requires S.Sound(k) && k.mounts == 0
    ensures var r := S.Mount(p, k, s, env);
      && S.Sound(r.k) && r.k == k.(mounts := r.k.mounts) && r.k.mounts <= 1
      && r.s == s.(mountpoint := true)
  {
  }

  lemma CleanupKeeps(u: Setup, m: Machine)
    requires Inv(m) && m.state.StateCleanup? && !m.p.dead
    ensures Inv(Arm(u, m))
  {
    hide S.Release;
    if m.snap.Some? {
      S.ReleaseCounts(m.p, m.k, m.snap.value, u.env);
    }
  }

  lemma OtherArmsKeep(u: Setup, m: Machine)
    requires Inv(m) && !m.p.dead
    requires !m.state.StateBooting? && !m.state.StateSnapshot? && !m.state.StateArchiving? && !m.state.StateCleanup?
    ensures Inv(Arm(u, m))
  {
    hide WithConnection, Activate, MS.OrderOf, Targets, Inv;
    WithConnectionFrame(u, m, true);
    ActivateFrame(u, m);
    SameKernelKeeps(m, Arm(u, m));
  }

  lemma ArmKeeps(u: Setup, m: Machine)
    requires Inv(m) && !m.p.dead && G.Sound(m.t) && G.Listed(u.names)
    ensures Inv(Arm(u, m))
  {
    hide Inv, Arm;
    match m.state
    case StateBooting => BootKeeps(u, m);
    case StateSnapshot => SnapshotKeeps(u, m);
    case StateArchiving => ArchivingKeeps(u, m);
    case StateCleanup => CleanupKeeps(u, m);
    case _ => OtherArmsKeep(u, m);
  }

  lemma TurnKeeps(u: Setup, m: Machine)
    requires Inv(m) && !m.p.dead && G.Sound(m.t) && G.Listed(u.names)
    ensures Kept(Turn(u, m), Turn(u, m).p.dead && Ask(m.p, u.env).ok)
  {
    hide Deactivate, Arm, S.Sound, S.Clean, S.Releasable;
    var m1 := m.(p := Ask(m.p, u.env).p);
    DeactivateFrame(u, m1);
    if !m1.p.dead {
      ArmKeeps(u, m1);
    }
  }

  lemma RestartKeeps(m: Machine, busy: bool)
    requires Kept(m, busy) && m.p.dead
    ensures Inv(Restart(m, busy))
  {
    hide S.Sound, S.Clean, S.Releasable;
  }

  lemma StartKeeps(m: Machine)
    requires m.state.StateBooting? && m.snap.None? && !m.p.dead && m.calm == 0
    requires m.k == S.Kernel(None, false, {}, 0, 0)
    ensures Inv(m)
  {
  }

  lemma StepKeeps(u: Setup, m: Machine)
    requires Inv(m) && !m.p.dead && G.Sound(m.t) && G.Listed(u.names)
    ensures Inv(Step(u, m)) && !Step(u, m).p.dead
  {
    hide Turn, Good;
    TurnKeeps(u, m);
    if Turn(u, m).p.dead {
      RestartKeeps(Turn(u, m), Ask(m.p, u.env).ok);
    }
  }
}
