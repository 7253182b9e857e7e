/** internal/fsutil/fsutil.go: the mount discipline. One mountpoint is the number of mounts
    stacked on it, plus a count of the faults that hit it: requests that had something to undo,
    were made by a live process, and were refused all the same. */
module Fsutil {
  import opened Common
  import opened Outside

  datatype MountPoint = MountPoint(depth: nat, faults: nat)

  datatype Mounting = Mounting(p: Proc, at: MountPoint, ok: bool)

  /** A plain `umount`: refused when nothing is mounted. */
  function Umount(p: Proc, at: MountPoint, env: Env): Mounting {
    var a := Ask(p, env);
    if a.ok && at.depth > 0 then Mounting(a.p, at.(depth := at.depth - 1), true)
    else Mounting(a.p, at, false)
  }

  /** `umount -l`, the last resort: its refusal on a mounted path is a fault. */
  function LazyUmount(p: Proc, at: MountPoint, env: Env): Mounting {
    var u := Umount(p, at, env);
    if !u.ok && !u.p.dead && at.depth > 0 then u.(at := at.(faults := at.faults + 1)) else u
  }

  function UmountOrLazy(p: Proc, at: MountPoint, env: Env): Mounting {
    var u := Umount(p, at, env);
    if u.ok then u else LazyUmount(u.p, u.at, env)
  }

  /** IsMounted: an unreadable /proc/mounts reads as "not mounted". */
  function IsMounted(p: Proc, at: MountPoint, env: Env): Mounting {
    var a := Ask(p, env);
    if a.ok then Mounting(a.p, at, at.depth > 0)
    else if !a.p.dead && at.depth > 0 then Mounting(a.p, at.(faults := at.faults + 1), false)
    else Mounting(a.p, at, false)
  }

  function Unmount(p: Proc, at: MountPoint, env: Env): Mounting {
    var m := IsMounted(p, at, env);
    if !m.ok then m.(ok := true) else UmountOrLazy(m.p, m.at, env)
  }

  /** The `mount` command itself stacks happily. */
  function MountCmd(p: Proc, at: MountPoint, env: Env): Mounting {
    var a := Ask(p, env);
    if a.ok then Mounting(a.p, at.(depth := at.depth + 1), true) else Mounting(a.p, at, false)
  }

  function Mount(p: Proc, at: MountPoint, env: Env): Mounting {
    var m := IsMounted(p, at, env);
    if !m.ok then MountCmd(m.p, m.at, env)
    else
      var u := Unmount(m.p, m.at, env);
      if !u.ok then u else MountCmd(u.p, u.at, env)
  }

  /** Unmount takes off at most one mount, and reports success for a live process exactly when
      there was nothing to take off, one mount came off, or the mount table could not be read. */
  lemma UnmountMeaning(p: Proc, at: MountPoint, env: Env)
    requires !p.dead
    ensures var u := Unmount(p, at, env);
      && u.at.faults >= at.faults
      && (u.at.depth == at.depth || u.at.depth + 1 == at.depth)
      && (u.at.depth == at.depth && at.depth > 0 && !u.p.dead ==> u.at.faults == at.faults + 1)
      && (u.at.faults == at.faults && !u.p.dead ==> u.ok && u.at.depth == if at.depth > 0 then at.depth - 1 else 0)
  {
  }

  lemma DeadUnmounts(p: Proc, at: MountPoint, env: Env)
    requires p.dead
    ensures var u := Unmount(p, at, env); u.p == p && u.at == at
  {
  }

  /** Mount never deepens a stack unless /proc/mounts could not be read: a fault-free success
      leaves the mountpoint exactly as deep as before, or one deep if it was free. With a fault
      it can stack, so "never stack mounts" holds exactly up to faults. */
  lemma MountNeverStacks(p: Proc, at: MountPoint, env: Env)
    requires !p.dead
    ensures var m := Mount(p, at, env);
      && m.at.faults >= at.faults
      && m.at.depth <= at.depth + 1
      && (m.ok && m.at.faults == at.faults ==> m.at.depth == if at.depth > 0 then at.depth else 1)
      && (m.at.depth > at.depth && at.depth > 0 ==> m.at.faults > at.faults)
      && (m.ok ==> !m.p.dead) && (!m.ok ==> m.at.depth <= at.depth)
      && (!m.ok && !m.p.dead && m.at.faults == at.faults && at.depth > 0 ==> m.at.depth == at.depth - 1)
  {
  }

  /** An Unmount takes a mount off if and only if it sees it and one of its two umounts is carried out. */
  lemma UnmountWorksIff(p: Proc, at: MountPoint, env: Env)
    requires !p.dead && at.depth > 0
    ensures var u, c := Unmount(p, at, env), p.clock;
      u.at.depth == at.depth - 1 <==> env(c).Done? && (env(c + 1).Done? || (env(c + 1).Refused? && env(c + 2).Done?))
  {
  }

  /** When the mount command of a Mount is issued: at once where nothing is seen to be mounted, else after the
      Unmount in between - and not at all where that saw the stale mount and could not take it off. */
  function MountAt(clock: nat, depth: nat, env: Env): Option<nat> {
    if env(clock).Killed? then None
    else if !env(clock).Done? || depth == 0 then Some(clock + 1)
    else if env(clock + 1).Killed? then None
    else if !env(clock + 1).Done? then Some(clock + 2)   // it is not seen the second time
    else if env(clock + 2).Done? then Some(clock + 3)
    else if env(clock + 2).Refused? && env(clock + 3).Done? then Some(clock + 4)
    else None
  }

  /** A Mount works if and only if its mount command is issued and carried out; otherwise it adds nothing. */
  lemma MountWorksIff(p: Proc, at: MountPoint, env: Env)
    requires !p.dead
    ensures var m, cmd := Mount(p, at, env), MountAt(p.clock, at.depth, env);
      && (m.ok <==> cmd.Some? && env(cmd.value).Done?)
      && (cmd.None? ==> m.at.depth == at.depth)
      && (m.ok ==> m.p == Proc(cmd.value + 1, false))
  {
  }
}
