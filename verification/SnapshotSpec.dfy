/** internal/snapshot/snapshot.go over the kernel objects it manipulates. A kernel request has its
    effect only when the kernel can honour it: a mount pins the snapshot, the snapshot pins its
    origin and its zram device. */
module SnapshotSpec {
  import opened Common
  import opened Outside
  import opened Fsutil

  /** snap: the zram device backing `teslausb-snap`, if that dm node exists.
      origin: whether `teslausb-snap-origin` exists.  zram: the hot-added zram devices.
      mounts: how many times the snapshot is mounted on /mnt/snap.
      faults: teardown requests refused although the kernel could have honoured them. */
  datatype Kernel = Kernel(snap: Option<nat>, origin: bool, zram: set<nat>, mounts: nat, faults: nat)

  /** What the pinning rules enforce in every state, whatever the daemon does. */
  predicate Sound(k: Kernel) {
    && (k.snap.Some? ==> k.origin && k.snap.value in k.zram)
    && (k.mounts > 0 ==> k.snap.Some?)
  }

  predicate Clean(k: Kernel) {
    k.snap.None? && !k.origin && k.mounts == 0
  }

  /** The object behind *Snapshot: the zram device it holds and whether `mountpoint` is set. */
  datatype Snap = Snap(zram: Option<nat>, mountpoint: bool)

  /** A program point inside an operation: `ok` turns false at the first failing step, and the
      steps after it are skipped. */
  datatype Point = Point(p: Proc, k: Kernel, s: Snap, ok: bool)

  // ------------------------------------------------------------ kernel requests

  function Teardown(p: Proc, k: Kernel, env: Env, enabled: bool, after: Kernel): (r: (Proc, Kernel, bool)) {
    var a := Ask(p, env);
    if a.ok && enabled then (a.p, after, true)
    else if enabled && !a.p.dead then (a.p, k.(faults := k.faults + 1), false)
    else (a.p, k, false)
  }

  function RemoveSnap(p: Proc, k: Kernel, env: Env): (Proc, Kernel, bool) {
    Teardown(p, k, env, k.snap.Some? && k.mounts == 0, k.(snap := None))
  }

  function RemoveOrigin(p: Proc, k: Kernel, env: Env): (Proc, Kernel, bool) {
    Teardown(p, k, env, k.origin && k.snap.None?, k.(origin := false))
  }

  function HotRemove(p: Proc, k: Kernel, z: nat, env: Env): (Proc, Kernel, bool) {
    Teardown(p, k, env, z in k.zram && k.snap != Some(z), k.(zram := k.zram - {z}))
  }

  function At(k: Kernel): MountPoint { MountPoint(k.mounts, k.faults) }

  function WithMounts(k: Kernel, at: MountPoint): Kernel { k.(mounts := at.depth, faults := at.faults) }

  /** fsutil.Unmount("/mnt/snap"). */
  function Unmount(p: Proc, k: Kernel, env: Env): (Proc, Kernel, bool) {
    var u := Fsutil.Unmount(p, At(k), env);
    (u.p, WithMounts(k, u.at), u.ok)
  }

  // ------------------------------------------------------------ creation steps

  function HotAdd(c: Point, env: Env): Point {
    if !c.ok then c else
      var a := Ask(c.p, env);
      if a.ok && a.value !in c.k.zram
      then Point(a.p, c.k.(zram := c.k.zram + {a.value}), c.s.(zram := Some(a.value)), true)
      else Point(a.p, c.k, c.s, false)
  }

  /** A step that creates nothing: the disksize write, blockdev --getsz, mkdir -p. */
  function Check(c: Point, env: Env): Point {
    if !c.ok then c else
      var a := Ask(c.p, env);
      Point(a.p, c.k, c.s, a.ok)
  }

  function MakeOrigin(c: Point, env: Env): Point {
    if !c.ok then c else
      var a := Ask(c.p, env);
      if a.ok && !c.k.origin then Point(a.p, c.k.(origin := true), c.s, true)
      else Point(a.p, c.k, c.s, false)
  }

  function MakeSnap(c: Point, env: Env): Point {
    if !c.ok then c else
      var a := Ask(c.p, env);
      if a.ok && c.k.origin && c.k.snap.None? && c.s.zram.Some? && c.s.zram.value in c.k.zram
      then Point(a.p, c.k.(snap := c.s.zram), c.s, true)
      else Point(a.p, c.k, c.s, false)
  }

  function MountSnap(c: Point, env: Env): Point {
    if !c.ok then c else
      var a := Ask(c.p, env);
      if a.ok && c.k.snap.Some? then Point(a.p, c.k.(mounts := c.k.mounts + 1), c.s, true)
      else Point(a.p, c.k, c.s, false)
  }

  // ------------------------------------------------------------ the operations

  function Cleanup(p: Proc, k: Kernel, env: Env): (Proc, Kernel) {
    var a := RemoveSnap(p, k, env);
    var b := RemoveOrigin(a.0, a.1, env);
    (b.0, b.1)
  }

  function Build(p: Proc, k: Kernel, env: Env): Point {
    var c1 := HotAdd(Point(p, k, Snap(None, false), true), env);
    var c2 := Check(c1, env);
    var c3 := Check(c2, env);
    var c4 := MakeOrigin(c3, env);
    MakeSnap(c4, env)
  }

  /** CreateWithCOWSize: ok says whether a snapshot is returned. */
  function Create(p: Proc, k: Kernel, env: Env): Point {
    var c := Cleanup(p, k, env);
    var b := Build(c.0, c.1, env);
    if b.ok then b else Release(b.p, b.k, b.s, env).(ok := false)
  }

  function Mount(p: Proc, k: Kernel, s: Snap, env: Env): Point {
    MountSnap(Check(Point(p, k, s.(mountpoint := true), true), env), env)
  }

  function ReleaseMount(p: Proc, k: Kernel, s: Snap, env: Env): Point {
    if !s.mountpoint then Point(p, k, s, true) else
      var u := UmountOrLazy(p, At(k), env);
      Point(u.p, WithMounts(k, u.at), s.(mountpoint := false), u.ok)
  }

  function ReleaseZram(p: Proc, k: Kernel, s: Snap, env: Env): Point {
    if s.zram.None? then Point(p, k, s, true) else
      var reset := Ask(p, env);
      var h := HotRemove(reset.p, k, s.zram.value, env);
      Point(h.0, h.1, s.(zram := None), reset.ok)
  }

  /** The mount and the two dm nodes. */
  function Unpin(p: Proc, k: Kernel, s: Snap, env: Env): Point {
    var m := ReleaseMount(p, k, s, env);
    var a := RemoveSnap(m.p, m.k, env);
    var b := RemoveOrigin(a.0, a.1, env);
    Point(b.0, b.1, m.s, m.ok && a.2 && b.2)
  }

  /** Release: every step is tried whatever the earlier ones reported. */
  function Release(p: Proc, k: Kernel, s: Snap, env: Env): Point {
    var u := Unpin(p, k, s, env);
    var z := ReleaseZram(u.p, u.k, u.s, env);
    z.(ok := u.ok && z.ok)
  }

  // ------------------------------------------------------------ what they mean

  /** A Mount works if and only if its mkdir and its mount are carried out and there is a snapshot; it then adds
      one mount. Either way the mountpoint is remembered. */
  lemma MountWorksIff(p: Proc, k: Kernel, s: Snap, env: Env)
    requires !p.dead
    ensures var r := Mount(p, k, s, env);
      && (r.ok <==> env(p.clock).Done? && env(p.clock + 1).Done? && k.snap.Some?)
      && (r.ok ==> r.p == Proc(p.clock + 2, false))
      && r.k == (if r.ok then k.(mounts := k.mounts + 1) else k) && r.s == s.(mountpoint := true)
  {
  }

  /** The dm nodes as a fault-free Cleanup leaves them: gone, unless a mount pins them. */
  function Swept(k: Kernel): Kernel {
    if k.mounts > 0 then k
    else k.(snap := None, origin := false)
  }

  lemma CleanupSweeps(p: Proc, k: Kernel, env: Env)
    requires Sound(k)
    ensures var c := Cleanup(p, k, env);
      && Sound(c.1) && c.1.zram == k.zram && c.1.mounts == k.mounts && c.1.faults >= k.faults
      && (c.1.snap == k.snap || c.1.snap.None?)
      && (k.origin || !c.1.origin)
      && Swept(c.1) == Swept(k).(faults := c.1.faults)
      && (!c.0.dead && c.1.faults == k.faults ==> c.1 == Swept(k))
      && (p.dead ==> c.0 == p)
  {
  }

  /** The steps of Create after its Cleanup: on success exactly one fresh zram device, the origin
      and the snapshot exist; on failure at most the zram device and the origin were added. */
  lemma BuildMeaning(p: Proc, k: Kernel, env: Env)
    requires Sound(k)
    ensures var b := Build(p, k, env);
      && Sound(b.k) && b.k.mounts == k.mounts && b.k.faults == k.faults && !b.s.mountpoint
      && (b.s.zram.None? ==> b.k == k && !b.ok)
      && (b.s.zram.Some? ==> b.s.zram.value !in k.zram && b.k.zram == k.zram + {b.s.zram.value})
      && (b.ok ==> Clean(k) && !b.p.dead && b.k.origin && b.k.snap == b.s.zram)
      && (!b.ok ==> b.k.snap == k.snap && (k.origin ==> b.k.origin) && Swept(b.k).zram == b.k.zram)
  {
  }

  lemma BuildWorksIff(p: Proc, k: Kernel, env: Env)
    requires !p.dead
    ensures var b := Build(p, k, env);
      && (b.ok <==> (forall i :: p.clock <= i < p.clock + 5 ==> env(i).Done?) && env(p.clock).Done?
                    && env(p.clock).value !in k.zram && !k.origin && k.snap.None?)
      && (b.ok ==> b.p == Proc(p.clock + 5, false) && b.s == Snap(Some(env(p.clock).value), false))
  {
  }

  /** A creation works if and only if its two cleanup requests are survived and leave neither node, its five
      requests are all carried out, and the device is a new one. */
  lemma CreateWorksIff(p: Proc, k: Kernel, env: Env)
    requires !p.dead
    ensures var c, r := Cleanup(p, k, env), Create(p, k, env);
      && (r.ok <==> !env(p.clock).Killed? && !env(p.clock + 1).Killed? && !c.1.origin && c.1.snap.None?
                    && (forall i :: p.clock + 2 <= i < p.clock + 7 ==> env(i).Done?)
                    && env(p.clock + 2).Done? && env(p.clock + 2).value !in k.zram)
      && (r.ok ==> r.p == Proc(p.clock + 7, false) && r.s == Snap(Some(env(p.clock + 2).value), false))
  {
    hide Build, Release;
    var c := Cleanup(p, k, env);
    assert c.1.zram == k.zram;
    assert c.0.dead <==> env(p.clock).Killed? || env(p.clock + 1).Killed?;
    if c.0.dead {
      DeadBuilds(c.0, c.1, env);
    } else {
      assert c.0 == Proc(p.clock + 2, false);
      BuildWorksIff(c.0, c.1, env);
    }
  }

  lemma DeadBuilds(p: Proc, k: Kernel, env: Env)
    ensures p.dead ==> !Build(p, k, env).ok
  {
  }

  /** A Release that is survived has tried everything: the mount, twice if need be, both nodes, and both steps for
      the device. */
  lemma ReleaseTries(p: Proc, k: Kernel, s: Snap, env: Env)
    requires !Release(p, k, s, env).p.dead
    ensures Release(p, k, s, env).p.clock
      == p.clock + (if !s.mountpoint then 0 else if env(p.clock).Done? && k.mounts > 0 then 1 else 2)
         + 2 + (if s.zram.Some? then 2 else 0)
  {
    UnpinTries(p, k, s, env);
    hide Unpin;
  }

  lemma UnpinTries(p: Proc, k: Kernel, s: Snap, env: Env)
    ensures var u := Unpin(p, k, s, env);
      && u.s.zram == s.zram
      && (!u.p.dead ==>
            u.p.clock == p.clock + (if !s.mountpoint then 0 else if env(p.clock).Done? && k.mounts > 0 then 1 else 2)
                         + 2)
  {
  }

  /** What Release owes its caller: the mount it may undo is at most one deep, and it knows of it. */
  predicate Releasable(k: Kernel, s: Snap) {
    && Sound(k)
    && (s.zram.Some? ==> s.zram.value in k.zram)
    && (k.snap == s.zram && k.mounts > 0 ==> s.mountpoint)
  }

  /** Undoing what pins the zram device: whatever is refused, nothing is added; without faults the
      dm nodes go as in a Cleanup after one umount. */
  lemma UnpinMeaning(p: Proc, k: Kernel, s: Snap, env: Env)
    requires Sound(k)
    ensures var u := Unpin(p, k, s, env);
      && Sound(u.k) && u.k.zram == k.zram && u.s.zram == s.zram && u.k.faults >= k.faults
      && u.k.mounts <= k.mounts && (!s.mountpoint ==> u.k.mounts == k.mounts)
      && (u.k.snap == k.snap || u.k.snap.None?)
      && (p.dead ==> u.p == p && u.k == k)
      && (!u.p.dead && u.k.faults == k.faults ==>
            u.k == Swept(if s.mountpoint && k.mounts > 0 then k.(mounts := k.mounts - 1) else k))
  {
    var m := ReleaseMount(p, k, s, env);
    ReleaseMountMeaning(p, k, s, env);
    CleanupSweeps(m.p, m.k, env);
    hide ReleaseMount;
  }

  lemma ReleaseMountMeaning(p: Proc, k: Kernel, s: Snap, env: Env)
    requires Sound(k)
    ensures var m := ReleaseMount(p, k, s, env);
      && m.k == k.(mounts := m.k.mounts, faults := m.k.faults) && m.s.zram == s.zram && m.k.faults >= k.faults
      && (m.k.mounts == k.mounts || (s.mountpoint && m.k.mounts + 1 == k.mounts))
      && (p.dead ==> m.p == p && m.k == k)
      && (!m.p.dead && m.k.faults == k.faults ==>
            m.k.mounts == if s.mountpoint && k.mounts > 0 then k.mounts - 1 else k.mounts)
  {
  }

  /** The zram device, once unpinned, goes unless a fault or the process's death prevents it. */
  lemma ReleaseZramMeaning(p: Proc, k: Kernel, s: Snap, env: Env)
    requires Sound(k) && s.zram.Some? && s.zram.value in k.zram
    ensures var r := ReleaseZram(p, k, s, env);
      && Sound(r.k) && r.k == k.(zram := r.k.zram, faults := r.k.faults) && r.k.faults >= k.faults
      && (r.k.zram == k.zram || (k.snap != s.zram && r.k.zram == k.zram - {s.zram.value}))
      && (p.dead ==> r.p == p && r.k == k)
      && (!r.p.dead && r.k.faults == k.faults && k.snap != s.zram ==> r.k.zram == k.zram - {s.zram.value})
  {
  }

  /** Creation is all or nothing. On success the kernel holds exactly one zram device more than
      before, backing the one snapshot, and nothing is mounted. On failure of any step whatever,
      a process that lives and whose undoing met no fault leaves what a fault-free Cleanup of the
      old state leaves - no zram device of this attempt, no dm node unless an older mount pins it. */
  lemma CreateAllOrNothing(p: Proc, k: Kernel, env: Env)
    requires Sound(k) && !p.dead
    ensures var r, c := Create(p, k, env), Cleanup(p, k, env);
      && Sound(r.k) && r.k.mounts == k.mounts && c.1.faults <= r.k.faults
      && (r.ok ==>
            && !r.p.dead && r.s.zram.Some? && r.s.zram.value !in k.zram && !r.s.mountpoint
            && r.k == Kernel(r.s.zram, true, k.zram + {r.s.zram.value}, 0, c.1.faults))
      && (!r.ok && !r.p.dead && r.k.faults == c.1.faults ==> r.k == Swept(k).(faults := c.1.faults))
  {
    var c := Cleanup(p, k, env);
    CleanupSweeps(p, k, env);
    BuildMeaning(c.0, c.1, env);
    RollbackMeaning(c.0, c.1, env);
    hide Cleanup, Build, Release;
  }

  /** The rollback of a failed Build gives back what the Build had added. */
  lemma RollbackMeaning(p: Proc, k: Kernel, env: Env)
    requires Sound(k)
    ensures var b := Build(p, k, env);
      var r := Release(b.p, b.k, b.s, env);
      !b.ok ==> Sound(r.k) && r.k.mounts == k.mounts && r.k.faults >= k.faults
                && (!r.p.dead && r.k.faults == k.faults ==> r.k == Swept(k))
  {
    var b := Build(p, k, env);
    BuildMeaning(p, k, env);
    if !b.ok {
      UnpinMeaning(b.p, b.k, b.s, env);
      var u := Unpin(b.p, b.k, b.s, env);
      if b.s.zram.Some? {
        ReleaseZramMeaning(u.p, u.k, u.s, env);
        assert b.k.zram - {b.s.zram.value} == k.zram;
        hide Build, Unpin, ReleaseZram;
      }
    }
  }

  /** Release of the snapshot's own dm nodes: without faults everything goes - exactly when at
      most one mount is stacked on it. Errors reported on the way (an umount of what is already
      unmounted, a failed zram reset) change nothing. */
  lemma ReleaseRestoresIff(p: Proc, k: Kernel, s: Snap, env: Env)
    requires Releasable(k, s) && s.zram.Some? && k.snap == s.zram
    ensures var r := Release(p, k, s, env);
      !r.p.dead && r.k.faults == k.faults ==>
        (k.mounts <= 1 <==> r.k == Kernel(None, false, k.zram - {s.zram.value}, 0, k.faults))
  {
    var u := Unpin(p, k, s, env);
    UnpinMeaning(p, k, s, env);
    ReleaseZramMeaning(u.p, u.k, u.s, env);
    hide Unpin, ReleaseZram;
  }

  /** What can happen to a snapshot between its creation and its release. */
  datatype Use = MountIt | UnmountIt

  function UseAll(p: Proc, k: Kernel, s: Snap, uses: seq<Use>, env: Env): Point
    decreases |uses|
  {
    if uses == [] then Point(p, k, s, true)
    else match uses[0]
      case MountIt => var m := Mount(p, k, s, env); UseAll(m.p, m.k, m.s, uses[1..], env)
      case UnmountIt => var u := Unmount(p, k, env); UseAll(u.0, u.1, s, uses[1..], env)
  }

  lemma {:induction false} UseAllKeeps(p: Proc, k: Kernel, s: Snap, uses: seq<Use>, env: Env)
    requires Releasable(k, s) && s.zram.Some? && k.snap == s.zram
    ensures var u := UseAll(p, k, s, uses, env);
      && Releasable(u.k, u.s) && u.s.zram == s.zram
      && u.k == k.(mounts := u.k.mounts, faults := u.k.faults) && k.faults <= u.k.faults
    decreases |uses|
  {
    if uses != [] {
      match uses[0]
      case MountIt =>
        var m := Mount(p, k, s, env);
        UseAllKeeps(m.p, m.k, m.s, uses[1..], env);
      case UnmountIt =>
        var u := Unmount(p, k, env);
        UseAllKeeps(u.0, u.1, s, uses[1..], env);
    }
  }

  /** The whole life of a snapshot is undone: create it from any state, mount and unmount it any
      number of times with any outcome, release it. If the release met no fault, the kernel is
      back to what Cleanup would have left of the first state - if and only if no more than one
      mount was still stacked on it. (Release takes off one mount; a second pins everything.) */
  lemma LifeOfSnapshotIsUndoneIff(p: Proc, k: Kernel, uses: seq<Use>, env: Env)
    requires Sound(k) && !p.dead && Create(p, k, env).ok
    ensures var c := Create(p, k, env);
      var u := UseAll(c.p, c.k, c.s, uses, env);
      var r := Release(u.p, u.k, u.s, env);
      !r.p.dead && r.k.faults == u.k.faults ==>
        (u.k.mounts <= 1 <==> r.k == Swept(k).(faults := u.k.faults))
  {
    var c := Create(p, k, env);
    CreateAllOrNothing(p, k, env);
    var u := UseAll(c.p, c.k, c.s, uses, env);
    UseAllKeeps(c.p, c.k, c.s, uses, env);
    ReleaseRestoresIff(u.p, u.k, u.s, env);
    assert u.k.zram - {c.s.zram.value} == k.zram;
  }

  /** ... and twice mounted, never unmounted, is such a case. */
  lemma TwiceMountedIsNotUndone()
    ensures exists env: Env ::
      var p, k := Proc(0, false), Kernel(None, false, {}, 0, 0);
      var c := Create(p, k, env);
      var u := UseAll(c.p, c.k, c.s, [MountIt, MountIt], env);
      var r := Release(u.p, u.k, u.s, env);
      c.ok && u.k.mounts == 2 && !r.p.dead && r.k.faults == u.k.faults && r.k.snap == Some(0) && 0 in r.k.zram
  {
    var env: Env := n => Done(0);
    var p, k := Proc(0, false), Kernel(None, false, {}, 0, 0);
    var c := Create(p, k, env);
    CreateOnce(env);
    var u := UseAll(c.p, c.k, c.s, [MountIt, MountIt], env);
    hide Create;
    assert [MountIt, MountIt][1..] == [MountIt] && [MountIt][1..] == [];
    assert u.k == c.k.(mounts := 2) && !u.p.dead && u.s == Snap(Some(0), true);
    hide UseAll;
    ReleaseOfTwo(u.p, u.k, u.s, env);
  }

  lemma CreateOnce(env: Env)
    requires forall n :: env(n) == Done(0)
    ensures var c := Create(Proc(0, false), Kernel(None, false, {}, 0, 0), env);
      c.ok && !c.p.dead && c.k == Kernel(Some(0), true, {0}, 0, 0) && c.s == Snap(Some(0), false)
  {
    hide Release;
    assert Cleanup(Proc(0, false), Kernel(None, false, {}, 0, 0), env)
        == (Proc(2, false), Kernel(None, false, {}, 0, 0));
  }

  lemma ReleaseOfTwo(p: Proc, k: Kernel, s: Snap, env: Env)
    requires (forall n :: env(n) == Done(0)) && !p.dead && s == Snap(Some(0), true)
    requires k == Kernel(Some(0), true, {0}, 2, 0)
    ensures var r := Release(p, k, s, env); !r.p.dead && r.k == k.(mounts := 1)
  {
    var m := ReleaseMount(p, k, s, env);
    assert m.k == k.(mounts := 1) && !m.p.dead && m.s == Snap(Some(0), false);
  }

  /** A mount left behind by a faulty teardown blocks every later Create: it fails and leaves the
      pinned snapshot, its origin and its mount in place. */
  lemma StaleMountBlocksCreate(p: Proc, k: Kernel, env: Env)
    requires Sound(k) && k.mounts > 0
    ensures var r := Create(p, k, env);
      !r.ok && r.k.snap == k.snap && r.k.origin && r.k.mounts == k.mounts && k.zram <= r.k.zram
  {
  }

  // ------------------------------------------------------------ counting zram devices

  /** Release drops its zram device unless a fault or the process's death prevents it. */
  lemma ReleaseFrees(p: Proc, k: Kernel, s: Snap, env: Env)
    requires Releasable(k, s) && s.zram.Some? && (k.snap == s.zram ==> k.mounts <= 1)
    ensures var r := Release(p, k, s, env);
      && Sound(r.k) && r.k.mounts <= k.mounts && r.k.faults >= k.faults
      && (p.dead ==> r.p == p && r.k == k)
      && (r.k.zram == k.zram - {s.zram.value}
          || (r.k.zram == k.zram && (p.dead || r.p.dead || r.k.faults > k.faults)))
  {
    var u := Unpin(p, k, s, env);
    UnpinMeaning(p, k, s, env);
    ReleaseZramMeaning(u.p, u.k, u.s, env);
    hide Unpin, ReleaseZram;
  }

  /** Create leaves the set of zram devices as it was, or adds one device: the live one, or one
      that a fault or the process's death left behind. */
  lemma CreateAddsAtMostOne(p: Proc, k: Kernel, env: Env)
    requires Sound(k) && !p.dead
    ensures var r := Create(p, k, env);
      && r.k.faults >= k.faults
      && (r.k.zram == k.zram
          || ((exists z: nat :: r.k.zram == k.zram + {z}) && (r.ok || r.p.dead || r.k.faults > k.faults)))
  {
    var c := Cleanup(p, k, env);
    CleanupSweeps(p, k, env);
    var b := Build(c.0, c.1, env);
    BuildMeaning(c.0, c.1, env);
    if !b.ok && b.s.zram.Some? {
      ReleaseFrees(b.p, b.k, b.s, env);
      assert b.k.zram - {b.s.zram.value} == k.zram;
    }
  }

  lemma OneMore(before: set<nat>, after: set<nat>)
    requires after == before || exists z: nat :: after == before + {z}
    ensures |after| <= |before| + 1
  {
    if after != before {
      var z: nat :| after == before + {z};
      assert z in before ==> after == before;
      assert z !in before ==> |after| == |before| + 1;
    }
  }

  /** A Create adds one live device, and otherwise one only for a fault or for the process's death. */
  lemma CreateCounts(p: Proc, k: Kernel, env: Env)
    requires Sound(k) && !p.dead
    ensures var r := Create(p, k, env);
      && r.k.faults >= k.faults
      && |r.k.zram| <= |k.zram| + (if r.ok then 1 else 0) + (r.k.faults - k.faults) + Died(p, r.p)
  {
    CreateAddsAtMostOne(p, k, env);
    OneMore(k.zram, Create(p, k, env).k.zram);
  }

  /** A Release gives the live device back, except for a fault or for the process's death. */
  lemma ReleaseCounts(p: Proc, k: Kernel, s: Snap, env: Env)
    requires Releasable(k, s) && s.zram.Some? && k.snap == s.zram && k.mounts <= 1 && !p.dead
    ensures var r := Release(p, k, s, env);
      && Sound(r.k) && r.k.mounts <= 1 && r.k.faults >= k.faults
      && |r.k.zram| + 1 <= |k.zram| + (r.k.faults - k.faults) + Died(p, r.p)
      && (!r.p.dead && r.k.faults == k.faults ==> Clean(r.k))
  {
    ReleaseFrees(p, k, s, env);
    ReleaseRestoresIff(p, k, s, env);
    assert |k.zram - {s.zram.value}| == |k.zram| - 1;
  }
}
