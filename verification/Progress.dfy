/** What the control loop is for: when the outside world cooperates, one cycle delivers every path its scan
    lists - unless the ledger wrongly says it was archived - syncs the media and gives everything back, in
    exactly this order. */
module Progress {
  import opened Common
  import opened Outside
  import opened MachineSpec
  import S = SnapshotSpec
  import G = GadgetSpec
  import L = LedgerSpec
  import H = ShareSpec
  import MS = MediaSync
  import Fsutil
  import Scan

  /** A stretch of the outside world: the requests of `env` from number `from` on. */
  datatype World = World(env: Env, from: nat, least: nat, taken: set<nat>)

  /** Every request is carried out, with numbers not in `taken` (fresh device and file names) and at least
      `least` (free space). */
  ghost predicate Smooth(v: World) {
    forall i :: i >= v.from ==> v.env(i).Done? && v.env(i).value >= v.least && v.env(i).value !in v.taken
  }

  /** What lies ahead of a machine. */
  function Ahead(u: Setup, m: Machine): World {
    World(u.env, m.p.clock, u.freeSpaceReserve, m.k.zram + m.share.temp)
  }

  predicate On(p: Proc, from: nat) { !p.dead && p.clock >= from }

  // ------------------------------------------------------------ each operation gets through

  /** A creation gets through if and only if nothing is mounted: dm nodes left over are swept first; a
      mount left over pins them, and the attempt is undone without a trace. */
  lemma SmoothCreate(p: Proc, k: S.Kernel, v: World)
    requires Smooth(v) && On(p, v.from) && S.Sound(k) && k.zram <= v.taken
    ensures var c := S.Create(p, k, v.env);
      && On(c.p, v.from) && (c.ok <==> k.mounts == 0)
      && (c.ok ==> c.s.zram.Some? && !c.s.mountpoint && c.s.zram.value !in k.zram
                   && c.k == S.Kernel(c.s.zram, true, k.zram + {c.s.zram.value}, 0, k.faults))
      && (!c.ok ==> c.k == k)
  {
    hide S.Release, S.Build;
    var c := S.Cleanup(p, k, v.env);
    assert c.1 == S.Swept(k) && On(c.0, v.from);
    if k.mounts == 0 {
      SmoothBuild(c.0, c.1, v);
    } else {
      PinnedBuild(c.0, k, v);
      var b := S.Build(c.0, k, v.env);
      PinnedRelease(b.p, b.k, b.s, v);
      assert (k.zram + {b.s.zram.value}) - {b.s.zram.value} == k.zram;
    }
  }

  lemma SmoothBuild(p: Proc, k: S.Kernel, v: World)
    requires Smooth(v) && On(p, v.from) && S.Clean(k) && k.zram <= v.taken
    ensures var c := S.Build(p, k, v.env);
      && c.ok && On(c.p, v.from) && c.s.zram.Some? && !c.s.mountpoint && c.s.zram.value !in k.zram
      && c.k == S.Kernel(c.s.zram, true, k.zram + {c.s.zram.value}, 0, k.faults)
  {
  }

  lemma PinnedBuild(p: Proc, k: S.Kernel, v: World)
    requires Smooth(v) && On(p, v.from) && k.origin && k.zram <= v.taken
    ensures var c := S.Build(p, k, v.env);
      && !c.ok && On(c.p, v.from) && c.s.zram.Some? && !c.s.mountpoint && c.s.zram.value !in k.zram
      && c.k == k.(zram := k.zram + {c.s.zram.value})
  {
  }

  lemma PinnedRelease(p: Proc, k: S.Kernel, s: S.Snap, v: World)
    requires Smooth(v) && On(p, v.from) && k.mounts > 0 && k.snap.Some?
    requires s.zram.Some? && k.snap != s.zram && s.zram.value in k.zram && !s.mountpoint
    ensures var c := S.Release(p, k, s, v.env);
      On(c.p, v.from) && c.k == k.(zram := k.zram - {s.zram.value})
  {
  }

  lemma SmoothMount(p: Proc, k: S.Kernel, s: S.Snap, v: World)
    requires Smooth(v) && On(p, v.from) && k.snap.Some?
    ensures var c := S.Mount(p, k, s, v.env);
      c.ok && On(c.p, v.from) && c.k == k.(mounts := k.mounts + 1) && c.s == s.(mountpoint := true)
  {
  }

  lemma SmoothUnmount(p: Proc, k: S.Kernel, v: World)
    requires Smooth(v) && On(p, v.from) && k.mounts == 1
    ensures var c := S.Unmount(p, k, v.env); On(c.0, v.from) && c.1 == k.(mounts := 0)
  {
  }

  /** Although its umount is refused - the snapshot is unmounted already - a release frees everything. */
  lemma SmoothRelease(p: Proc, k: S.Kernel, s: S.Snap, v: World)
    requires Smooth(v) && On(p, v.from) && k.mounts == 0
    requires s.zram.Some? && k.snap == s.zram && k.origin && s.zram.value in k.zram
    ensures var c := S.Release(p, k, s, v.env);
      On(c.p, v.from) && c.k == S.Kernel(None, false, k.zram - {s.zram.value}, 0, k.faults) && (s.mountpoint ==> !c.ok)
  {
    SmoothUnpin(p, k, s, v);
    hide S.Unpin;
  }

  lemma SmoothUnpin(p: Proc, k: S.Kernel, s: S.Snap, v: World)
    requires Smooth(v) && On(p, v.from) && k.mounts == 0 && k.snap.Some? && k.origin
    ensures var c := S.Unpin(p, k, s, v.env);
      On(c.p, v.from) && c.k == k.(snap := None, origin := false) && c.s.zram == s.zram && (s.mountpoint ==> !c.ok)
  {
    var m := S.ReleaseMount(p, k, s, v.env);
    assert On(m.p, v.from) && m.k == k && (s.mountpoint ==> !m.ok);
  }

  lemma SmoothDeactivate(p: Proc, t: G.Tree, g: G.Gadget, v: World)
    requires Smooth(v) && On(p, v.from) && G.Root in t.nodes
    ensures var r := G.Deactivate(p, t, g, v.env);
      r.ok && On(r.p, v.from) && r.t == t.(udc := "") && r.g == g.(active := false)
  {
  }

  lemma SmoothActivate(p: Proc, t: G.Tree, g: G.Gadget, names: seq<string>, v: World)
    requires Smooth(v) && On(p, v.from) && names != []
    requires G.Root in t.nodes && G.Config in t.nodes && G.Function in t.nodes && t.udc == ""
    ensures var r := G.Activate(p, t, g, names, v.env);
      && r.ok && On(r.p, v.from) && r.g == g.(active := true)
      && r.t == t.(udc := G.FindUdc(names),
                   links := if G.FunctionLink in t.links then t.links else t.links + [G.FunctionLink])
  {
    hide G.FindUdc;
  }

  lemma SmoothConnect(b: L.Backend, p: Proc, s: H.Share, v: World)
    requires Smooth(v) && On(p, v.from) && s.temp <= v.taken
    ensures var c := H.Connect(b, p, s, v.env);
      && c.ok && On(c.p, v.from) && (!b.Cifs? ==> c.s.creds == s.creds)
  {
  }

  lemma SmoothDisconnect(b: L.Backend, p: Proc, q: Proc, s: H.Share, v: World)
    requires Smooth(v) && On(p, v.from) && On(q, v.from) && s.temp <= v.taken
    ensures var d := H.Disconnect(b, q, H.Connect(b, p, s, v.env).s, v.env);
      On(d.p, v.from) && d.s.mounts == s.mounts && d.s.temp == s.temp
  {
    hide H.Connect;
    SmoothConnect(b, p, s, v);
    H.ConnectMeaning(b, p, s, v.env);
    H.DisconnectUndoesConnect(b, p, s, q, v.env);
    SmoothHangup(b, q, H.Connect(b, p, s, v.env).s, v);
  }

  lemma SmoothHangup(b: L.Backend, p: Proc, s: H.Share, v: World)
    requires Smooth(v) && On(p, v.from)
    ensures var d := H.Disconnect(b, p, s, v.env); On(d.p, v.from) && d.s.faults == s.faults
  {
  }

  // ------------------------------------------------------------ the media

  lemma {:induction false} SmoothFolders(p: Proc, ts: seq<MS.Target>, v: World)
    requires Smooth(v) && On(p, v.from)
    ensures var f := MS.SyncFolders(p, ts, v.env); On(f.p, v.from) && f.asked == ts && f.done == ts
    decreases |ts|
  {
    if ts != [] {
      var dir := if ts[0].subdir == "" then Reply(p, true, 0) else Ask(p, v.env);
      var sync := Ask(dir.p, v.env);
      assert dir.ok && sync.ok;
      SmoothFolders(sync.p, ts[1..], v);
    }
  }

  function Less(depth: nat, c: nat): nat { if depth > c then depth - c else 0 }

  /** r has on each of these partitions c mounts less than m: none, where there were no more. */
  predicate Lowered(m: MS.Media, r: MS.Media, order: seq<string>, c: nat) {
    forall part :: part in order ==> MS.At(r, part).depth == Less(MS.At(m, part).depth, c)
  }

  /** fsutil.Mount replaces the topmost stale mount, and fsutil.Unmount takes it off. */
  lemma SmoothVisit(p: Proc, at: Fsutil.MountPoint, ts: seq<MS.Target>, v: World)
    requires Smooth(v) && On(p, v.from)
    ensures var mt := Fsutil.Mount(p, at, v.env);
      var u := Fsutil.Unmount(MS.SyncFolders(mt.p, ts, v.env).p, mt.at, v.env);
      mt.ok && On(mt.p, v.from) && On(u.p, v.from) && u.at == at.(depth := Less(at.depth, 1))
  {
    hide MS.SyncFolders;
    var mt := Fsutil.Mount(p, at, v.env);
    assert mt.ok && On(mt.p, v.from) && mt.at == at.(depth := if at.depth > 0 then at.depth else 1);
    SmoothFolders(mt.p, ts, v);
  }

  /** From m to r SyncMedia was called for these targets, each with its partition mounted, and succeeded. */
  ghost predicate Fetches(m: MS.Media, r: MS.Media, ts: seq<MS.Target>) {
    MS.Asked(m, r, ts) && MS.AskedMounted(m, r) && r.done == m.done + ts
  }

  lemma FetchesMore(m: MS.Media, r: MS.Media, t: MS.Media, a: seq<MS.Target>, b: seq<MS.Target>)
    requires Fetches(m, r, a) && Fetches(r, t, b)
    ensures Fetches(m, t, a + b)
  {
    MS.AskedMore(m, r, t, a, b);
    assert (m.done + a) + b == m.done + (a + b);
  }

  lemma FetchesNothing(m: MS.Media)
    ensures Fetches(m, m, [])
  {
    MS.AskedNothing(m);
  }

  lemma SmoothSyncOne(p: Proc, m: MS.Media, part: string, ts: seq<MS.Target>, v: World)
    requires Smooth(v) && On(p, v.from)
    ensures var r := MS.SyncOne(p, m, part, ts, v.env);
      && On(r.0, v.from) && r.1.tried == m.tried + [part] && MS.At(r.1, part).depth == Less(MS.At(m, part).depth, 1)
      && Fetches(m, r.1, ts)
      && (forall q :: q != part ==> MS.At(r.1, q).depth == MS.At(m, q).depth)
  {
    MS.SyncOneIs(p, m, part, ts, v.env);
    var q := Ask(Ask(p, v.env).p, v.env).p;
    SmoothVisit(q, MS.At(m, part), ts, v);
    hide MS.SyncOne, MS.SyncFolders, Fsutil.Mount, Fsutil.Unmount, MS.Asked, MS.AskedMounted, MS.Visits;
    var mt := Fsutil.Mount(q, MS.At(m, part), v.env);
    var f := MS.SyncFolders(mt.p, ts, v.env);
    SmoothFolders(mt.p, ts, v);
    MS.MountedAfterMount(q, MS.At(m, part), v.env);
    var u := Fsutil.Unmount(f.p, mt.at, v.env);
    MS.RecordAsks(m, MS.Put(MS.Tried(m, part), part, u.at), f, mt.at.depth);
  }

  /** Every partition in the order is mounted, once and in order, and unmounted again. */
  lemma {:induction false} SmoothSyncAll(p: Proc, m: MS.Media, order: seq<string>, ts: seq<MS.Target>, v: World)
    requires Smooth(v) && On(p, v.from) && Distinct(order)
    ensures var r := MS.SyncAll(p, m, order, ts, v.env);
      && On(r.0, v.from) && r.1.tried == m.tried + order && Lowered(m, r.1, order, 1)
      && Fetches(m, r.1, MS.Flatten(order, ts))
      && (forall q :: q !in order ==> MS.At(r.1, q).depth == MS.At(m, q).depth)
    decreases |order|
  {
    hide MS.SyncOne, MS.At, MS.Of, Fetches;
    if order == [] {
      FetchesNothing(m);
    } else {
      var r := MS.SyncOne(p, m, order[0], MS.Of(ts, order[0]), v.env);
      assert order[0] in order && order[0] !in order[1..];
      SmoothSyncOne(p, m, order[0], MS.Of(ts, order[0]), v);
      SmoothSyncAll(r.0, r.1, order[1..], ts, v);
      assert order == [order[0]] + order[1..];
      assert m.tried + order == (m.tried + [order[0]]) + order[1..];
      FetchesMore(m, r.1, MS.SyncAll(p, m, order, ts, v.env).1, MS.Of(ts, order[0]), MS.Flatten(order[1..], ts));
    }
  }

  /** Which folders a sync is for, in the order in which it takes them. */
  function ToSync(u: Setup): seq<MS.Target> { MS.Flatten(MS.OrderOf(Targets(u)), Targets(u)) }

  /** That is: each folder that is switched on, in the order of the configuration. */
  lemma ToSyncIs(u: Setup)
    ensures ToSync(u) == (if u.syncMusic then [MS.Target(true, "/dev/mmcblk0p6", "Music", "")] else [])
                       + (if u.syncLightShow then [MS.Target(true, "/dev/mmcblk0p7", "LightShow", "")] else [])
                       + (if u.syncBoombox then [MS.Target(true, "/dev/mmcblk0p7", "Boombox", "Boombox")] else [])
  {
    var ts := Targets(u);
    assert ts[..2] == [ts[0], ts[1]] && ts[..1] == [ts[0]] && ts[..0] == [];
    assert ts[1..] == [ts[1], ts[2]] && ts[2..] == [ts[2]] && ts[3..] == [];
    MusicIsNotLightShow();
    OrderOfThree(ts[0], ts[1], ts[2]);
    OfThree(ts[0], ts[1], ts[2], Music);
    OfThree(ts[0], ts[1], ts[2], LightShow);
    FlattenTwo(ts, Music, LightShow);
    hide MS.OrderOf, MS.Of, MS.Flatten;
    var music := if u.syncMusic then [ts[0]] else [];
    var shows := (if u.syncLightShow then [ts[1]] else []) + (if u.syncBoombox then [ts[2]] else []);
    assert ts == [ts[0], ts[1], ts[2]];
    assert MS.Of(ts, Music) == music + ([] + []) == music;
    assert MS.Of(ts, LightShow) == [] + shows == shows;
    assert MS.OrderOf(ts)
        == (if u.syncMusic then [Music] else []) + (if u.syncLightShow || u.syncBoombox then [LightShow] else []);
    assert MS.Flatten(MS.OrderOf(ts), ts) == music + shows;
  }

  lemma MusicIsNotLightShow()
    ensures Music != LightShow
  {
    assert Music[13] == '6' && LightShow[13] == '7';
  }

  lemma OrderOfThree(a: MS.Target, b: MS.Target, c: MS.Target)
    requires a.partition != b.partition && c.partition == b.partition
    ensures MS.OrderOf([a, b, c])
      == (if a.enabled then [a.partition] else []) + (if b.enabled || c.enabled then [b.partition] else [])
  {
    assert [a, b, c][..2] == [a, b] && [a, b][..1] == [a] && [a][..0] == [];
    assert MS.OrderOf([]) == [];
    assert MS.OrderOf([a]) == if a.enabled then [a.partition] else [];
    assert MS.OrderOf([a, b]) == MS.OrderOf([a]) + if b.enabled then [b.partition] else [];
  }

  lemma OfThree(a: MS.Target, b: MS.Target, c: MS.Target, part: string)
    ensures MS.Of([a, b, c], part)
      == (if a.enabled && a.partition == part then [a] else [])
         + ((if b.enabled && b.partition == part then [b] else [])
            + (if c.enabled && c.partition == part then [c] else []))
  {
    assert [a, b, c][1..] == [b, c] && [b, c][1..] == [c] && [c][1..] == [];
    assert MS.Of([], part) == [];
    assert MS.Of([c], part) == if c.enabled && c.partition == part then [c] else [];
  }

  lemma FlattenTwo(ts: seq<MS.Target>, x: string, y: string)
    ensures MS.Flatten([], ts) == [] && MS.Flatten([x], ts) == MS.Of(ts, x) && MS.Flatten([y], ts) == MS.Of(ts, y)
    ensures MS.Flatten([x, y], ts) == MS.Of(ts, x) + MS.Of(ts, y)
  {
    assert [x][1..] == [] && [y][1..] == [] && [x, y][1..] == [y];
    assert MS.Flatten([], ts) == [];
    assert MS.Of(ts, x) + [] == MS.Of(ts, x) && MS.Of(ts, y) + [] == MS.Of(ts, y);
  }

  // ------------------------------------------------------------ the session

  lemma {:induction false} SmoothList(p: Proc, l: L.Ledger, all: seq<string>, v: World)
    requires Smooth(v) && On(p, v.from)
    ensures var u := L.ListUnarchived(p, l, all, v.env);
      && On(u.p, v.from) && u.l == l
      && (forall f :: f in u.files <==> f in all && f !in l.db.files)
    decreases |all|
  {
    if all != [] {
      var a := L.IsArchived(p, l, all[0], v.env);
      SmoothList(a.p, l, all[1..], v);
      assert all == [all[0]] + all[1..];
    }
  }

  lemma SmoothSend(b: L.Backend, p: Proc, l: L.Ledger, f: string, sid: nat, v: World)
    requires Smooth(v) && On(p, v.from) && !b.Noop?
    ensures var r := L.SendOne(b, p, l, f, sid, v.env);
      && r.ok && On(r.p, v.from) && r.l.db.files.Keys == l.db.files.Keys + {f} && r.l.h.delivered == l.h.delivered + {f}
  {
  }

  ghost function Tail(files: seq<string>, i: nat): set<string>
    requires i <= |files|
  {
    set f | f in files[i..]
  }

  lemma {:induction false} SmoothArchive(b: L.Backend, p: Proc, l: L.Ledger, files: seq<string>, i: nat,
                                         current: int, sid: nat, v: World)
    requires Smooth(v) && On(p, v.from) && !b.Noop? && i <= |files|
    ensures var a := L.ArchiveFiles(b, p, l, files, i, current, sid, v.env);
      && a.ok && On(a.p, v.from)
      && a.l.db.files.Keys == l.db.files.Keys + Tail(files, i) && a.l.h.delivered == l.h.delivered + Tail(files, i)
    decreases |files| - i
  {
    hide L.SendOne;
    if i < |files| {
      var c := L.SendOne(b, p, l, files[i], sid, v.env);
      SmoothSend(b, p, l, files[i], sid, v);
      SmoothArchive(b, c.p, c.l, files, i + 1, i, sid, v);
      assert files[i..] == [files[i]] + files[i + 1..];
      assert Tail(files, i) == {files[i]} + Tail(files, i + 1);
    }
  }

  /** What a session that is carried out does: every path of its scan is marked, and is delivered in the end
      if and only if it was not marked and undelivered before; nothing more is lost, and nothing that was lost
      is found. The noop backend neither marks nor sends. */
  ghost predicate AllDone(b: L.Backend, before: L.Ledger, after: L.Ledger, all: seq<string>) {
    L.Lag(after) == L.Lag(before) &&
    if b.Noop? then after.db.files == before.db.files && after.h.delivered == before.h.delivered
    else forall f :: f in all ==> f in after.db.files && (f in after.h.delivered <==> f !in L.Lag(before))
  }

  ghost predicate Delivered(l: L.Ledger, all: seq<string>) { forall f :: f in all ==> f in l.h.delivered }

  /** Some path is marked as archived and was never delivered. */
  ghost predicate Lost(l: L.Ledger, all: seq<string>) { exists f :: f in all && f in L.Lag(l) }

  lemma DeliveredIffNoneLost(b: L.Backend, before: L.Ledger, after: L.Ledger, all: seq<string>)
    requires AllDone(b, before, after, all) && !b.Noop?
    ensures Delivered(after, all) <==> !Lost(before, all)
  {
  }

  lemma SmoothSession(b: L.Backend, p: Proc, l: L.Ledger, all: seq<string>, v: World)
    requires Smooth(v) && On(p, v.from)
    ensures var r := L.RunSession(b, p, l, all, v.env); r.ok && On(r.p, p.clock + 1) && AllDone(b, l, r.l, all)
  {
    hide L.ListUnarchived, L.ArchiveFiles, Smooth, AllDone;
    var c := L.CreateSession(p, l, v.env);
    SmoothStart(p, l, v);
    var v := v.(from := p.clock + 1);
    var u := L.ListUnarchived(c.p, c.l, all, v.env);
    SmoothList(c.p, c.l, all, v);
    var sid := c.l.db.lastSession;
    if u.files == [] {
      SmoothFinish(u.p, u.l, sid, L.Completed, Some(0), v);
      NothingNew(b, l, L.RunSession(b, p, l, all, v.env).l, all, u.files);
    } else {
      var a := L.ArchiveFiles(b, u.p, u.l, u.files, 0, 0, sid, v.env);
      if b.Noop? {
        assert a == L.Sent(u.p, u.l, 0, true) by { NoopSends(u.p, u.l, u.files, sid, v.env); }
      } else {
        SmoothArchive(b, u.p, u.l, u.files, 0, 0, sid, v);
        assert u.files[0..] == u.files;
      }
      SmoothFinish(a.p, a.l, sid, L.Completed, Some(a.current), v);
      NewOnesSent(b, l, L.RunSession(b, p, l, all, v.env).l, all, u.files);
    }
  }

  lemma NoopSends(p: Proc, l: L.Ledger, files: seq<string>, sid: nat, env: Env)
    ensures L.ArchiveFiles(L.Noop, p, l, files, 0, 0, sid, env) == L.Sent(p, l, 0, true)
  {
  }

  lemma NothingNew(b: L.Backend, l: L.Ledger, r: L.Ledger, all: seq<string>, files: seq<string>)
    requires forall f :: f in files <==> f in all && f !in l.db.files
    requires files == [] && r.db.files == l.db.files && r.h.delivered == l.h.delivered
    ensures AllDone(b, l, r, all)
  {
    forall f | f in all ensures f in l.db.files { assert f in files <==> f !in l.db.files; }
  }

  lemma NewOnesSent(b: L.Backend, l: L.Ledger, r: L.Ledger, all: seq<string>, files: seq<string>)
    requires forall f :: f in files <==> f in all && f !in l.db.files
    requires b.Noop? ==> r.db.files == l.db.files && r.h.delivered == l.h.delivered
    requires !b.Noop? ==> r.db.files.Keys == l.db.files.Keys + Tail(files, 0)
                          && r.h.delivered == l.h.delivered + Tail(files, 0)
    ensures AllDone(b, l, r, all)
  {
    assert files[0..] == files;
    if !b.Noop? {
      forall f | f in all ensures f in r.db.files && (f in r.h.delivered <==> f !in L.Lag(l)) {
        assert f in files <==> f !in l.db.files;
        assert f in r.db.files <==> f in r.db.files.Keys;
      }
    }
  }

  lemma SmoothStart(p: Proc, l: L.Ledger, v: World)
    requires Smooth(v) && On(p, v.from)
    ensures var c := L.CreateSession(p, l, v.env);
      c.ok && c.p == Proc(p.clock + 1, false) && c.l.db.files == l.db.files && c.l.h == l.h
    ensures Smooth(v.(from := p.clock + 1))
  {
  }

  lemma SmoothFinish(p: Proc, l: L.Ledger, sid: nat, status: L.Status, files: Option<int>, v: World)
    requires Smooth(v) && On(p, v.from)
    ensures var r := L.Finish(p, l, sid, status, files, v.env);
      On(r.p, v.from) && r.l.db.files == l.db.files && r.l.h.delivered == l.h.delivered
  {
  }

  // ------------------------------------------------------------ the turns

  /** What every turn of the cycle that began at m0 can rely on ... */
  ghost predicate Equipped(u: Setup, m0: Machine, m: Machine) {
    && Smooth(Ahead(u, m0)) && On(m.p, m0.p.clock)
    && m.gad.Some? && G.Root in m.t.nodes && G.Config in m.t.nodes && G.Function in m.t.nodes
    && G.Listed(u.names) && u.names != []
  }

  /** ... and leaves as it was. */
  ghost predicate Going(u: Setup, m0: Machine, m: Machine) {
    Equipped(u, m0, m) && m.share.mounts == m0.share.mounts && m.share.temp == m0.share.temp
  }

  /** The same world, seen from m. */
  function Here(u: Setup, m0: Machine, m: Machine): World { Ahead(u, m0).(from := m.p.clock) }

  lemma StillSmooth(u: Setup, m0: Machine, m: Machine)
    requires Smooth(Ahead(u, m0)) && On(m.p, m0.p.clock)
    ensures Smooth(Here(u, m0, m))
  {
  }

  /** The live snapshot, and nothing else, on top of what was there before. */
  ghost predicate Holding(m0: Machine, m: Machine) {
    && m.snap.Some? && m.snap.value.zram.Some?
    && var z := m.snap.value.zram.value;
    z !in m0.k.zram && m.k == S.Kernel(Some(z), true, m0.k.zram + {z}, 0, m0.k.faults)
  }

  /** The session that began at `now`, between m0 and m, did with the paths its scan listed what it should. */
  ghost predicate Archived(u: Setup, m0: Machine, m: Machine, now: nat) {
    m0.p.clock <= now < m.p.clock && AllDone(u.backend, m0.l, m.l, Scan.ScanAll(Dirs(u, now)))
  }

  lemma ArchivedStays(u: Setup, m0: Machine, m: Machine, r: Machine, now: nat)
    requires Archived(u, m0, m, now) && r.l == m.l && m.p.clock <= r.p.clock
    ensures Archived(u, m0, r, now)
  {
  }

  /** Where the cycle stands: what it said so far, whether it holds the snapshot, whether the car has its
      drive, when the session began if it is done, and whether the media are. */
  datatype Where = Where(state: State, said: seq<Event>, held: bool, up: bool, scan: Option<nat>, synced: bool)

  /** Each partition with an enabled target was tried once, in order, and has a stale mount less; and every folder
      that is switched on was synced, with its partition mounted. */
  ghost predicate Synced(u: Setup, m0: Machine, m: Machine) {
    && m.media.tried == m0.media.tried + MS.OrderOf(Targets(u))
    && Lowered(m0.media, m.media, MS.OrderOf(Targets(u)), 1)
    && Fetches(m0.media, m.media, ToSync(u))
  }

  ghost predicate Stage(u: Setup, m0: Machine, m: Machine, w: Where) {
    && Going(u, m0, m) && m.state == w.state && m.log == m0.log + w.said
    && (if w.held then Holding(m0, m) else m.snap.None? && m.k == if w.synced then S.Swept(m0.k) else m0.k)
    && m.t.udc == (if w.up then G.FindUdc(u.names) else "")
    && (if w.scan.Some? then Archived(u, m0, m, w.scan.value) else m.l == m0.l)
    && (if w.synced then Synced(u, m0, m) else m.media == m0.media)
  }

  /** Waiting, in a world that cooperates from here on. */
  ghost predicate Poised(u: Setup, m: Machine) {
    S.Sound(m.k) && Stage(u, m, m, AtWaiting(Bound(m)))
  }

  /** ... with nothing mounted on the snapshot's mountpoint. */
  ghost predicate Ready(u: Setup, m: Machine) { Poised(u, m) && m.k.mounts == 0 }

  function Reconnected(b: bool): seq<Event> { [Waiting(b), Deactivated, FsckBegins(false), ActivateTried(true)] }

  function Carried(now: nat): seq<Event> {
    [SnapMounted, WakeStarted, Connected, SessionBegins(true, now), Disconnected, WakeStopped, SnapUnmounted]
  }

  const Fetched: seq<Event> := [Connected, Deactivated, SyncBegins(false), ActivateTried(true), Disconnected]

  function SyncEvents(u: Setup): seq<Event> { if MS.OrderOf(Targets(u)) == [] then [] else Fetched }

  /** What a cycle does, in order; b: whether the drive was presented when it began; now: when its session did. */
  function CycleEvents(u: Setup, b: bool, now: nat): seq<Event> { Reconnected(b) + Carried(now) + SyncEvents(u) }

  /** What a cycle does that gets no snapshot. */
  function BlockedEvents(b: bool): seq<Event> { [Waiting(b), Deactivated, ActivateTried(true)] }

  function AtWaiting(b: bool): Where { Where(StateWaitingForWifi, [], false, b, None, false) }
  function AtPreArchive(b: bool): Where { Where(StatePreArchive, [Waiting(b)], false, b, None, false) }
  function AtSnapshot(b: bool): Where { Where(StateSnapshot, [Waiting(b)], false, b, None, false) }
  function AtFsck(b: bool): Where { Where(StateFsck, [Waiting(b), Deactivated], true, false, None, false) }
  function AtReconnect(b: bool): Where {
    Where(StateReconnect, [Waiting(b), Deactivated, FsckBegins(false)], true, false, None, false)
  }
  function AtArchiving(b: bool): Where { Where(StateArchiving, Reconnected(b), true, true, None, false) }
  function AtMediaSync(b: bool, now: nat): Where {
    Where(StateMediaSync, Reconnected(b) + Carried(now), true, true, Some(now), false)
  }
  function AtCleanup(u: Setup, b: bool, now: nat): Where {
    Where(StateCleanup, CycleEvents(u, b, now), true, true, Some(now), true)
  }
  function AtEnd(u: Setup, b: bool, now: nat): Where {
    Where(StateWaitingForWifi, CycleEvents(u, b, now), false, true, Some(now), true)
  }
  function AtBlocked(b: bool): Where { Where(StateCleanup, BlockedEvents(b), false, true, None, false) }
  function AtBlockedEnd(b: bool): Where { Where(StateWaitingForWifi, BlockedEvents(b), false, true, None, false) }

  lemma FindUdcNames(u: Setup)
    requires G.Listed(u.names) && u.names != []
    ensures G.FindUdc(u.names) != ""
  {
    hide G.FindUdc;
    G.FindUdcPicks(u.names);
  }

  lemma WaitingArm(u: Setup, m0: Machine, m: Machine, b: bool)
    requires Stage(u, m0, m, AtWaiting(b))
    ensures Stage(u, m0, Arm(u, m), AtPreArchive(b))
  {
    hide Boot, CreateSnapshot, RunArchive, RunMediaSync, CleanupSnapshot, Activate,
      G.FindUdc, MS.OrderOf, Targets, G.Listed, Lowered, Fetches;
    FindUdcNames(u);
  }

  lemma PreArchiveArm(u: Setup, m0: Machine, m: Machine, b: bool)
    requires Stage(u, m0, m, AtPreArchive(b))
    ensures Stage(u, m0, Arm(u, m), AtSnapshot(b))
  {
    hide Boot, CreateSnapshot, RunArchive, RunMediaSync, CleanupSnapshot, Activate,
      G.FindUdc, MS.OrderOf, Targets, G.Listed, Lowered, Fetches;
  }

  lemma SnapshotArm(u: Setup, m0: Machine, m: Machine, b: bool)
    requires S.Sound(m0.k) && Stage(u, m0, m, AtSnapshot(b))
    ensures Stage(u, m0, Arm(u, m), if m0.k.mounts == 0 then AtFsck(b) else AtBlocked(b))
  {
    hide Boot, RunArchive, RunMediaSync, CleanupSnapshot,
      G.FindUdc, MS.OrderOf, Targets, G.Listed, G.Deactivate, G.Activate, S.Create, S.Sound, Smooth, Lowered, Fetches;
    var v := Ahead(u, m0);
    SmoothDeactivate(m.p, m.t, m.gad.value, v);
    var d := G.Deactivate(m.p, m.t, m.gad.value, u.env);
    SmoothCreate(d.p, m.k, v);
    var c := S.Create(d.p, m.k, u.env);
    SmoothActivate(c.p, d.t, d.g, u.names, v);
    assert [Waiting(b)] + [Deactivated] == [Waiting(b), Deactivated];
    assert [Waiting(b), Deactivated] + [ActivateTried(true)] == BlockedEvents(b);
  }

  lemma FsckArm(u: Setup, m0: Machine, m: Machine, b: bool)
    requires Stage(u, m0, m, AtFsck(b))
    ensures Stage(u, m0, Arm(u, m), AtReconnect(b))
  {
    hide Boot, CreateSnapshot, RunArchive, RunMediaSync, CleanupSnapshot, Activate,
      G.FindUdc, MS.OrderOf, Targets, G.Listed, Lowered, Fetches;
    assert [Waiting(b), Deactivated] + [FsckBegins(false)] == [Waiting(b), Deactivated, FsckBegins(false)];
  }

  lemma ReconnectArm(u: Setup, m0: Machine, m: Machine, b: bool)
    requires Stage(u, m0, m, AtReconnect(b))
    ensures Stage(u, m0, Arm(u, m), AtArchiving(b))
  {
    hide Boot, CreateSnapshot, RunArchive, RunMediaSync, CleanupSnapshot,
      G.FindUdc, MS.OrderOf, Targets, G.Listed, G.Activate, Smooth, Lowered, Fetches;
    SmoothActivate(m.p, m.t, m.gad.value, u.names, Ahead(u, m0));
    assert [Waiting(b), Deactivated, FsckBegins(false)] + [ActivateTried(true)] == Reconnected(b);
  }

  /** Connected and done with the session. */
  lemma SmoothTransfer(u: Setup, m0: Machine, m: Machine) returns (now: nat)
    requires Smooth(Ahead(u, m0)) && On(m.p, m0.p.clock) && m.l == m0.l
    ensures var r := Transfer(u, m);
      && On(r.p, m.p.clock) && Archived(u, m0, r, now)
      && r == m.(p := r.p, l := r.l, log := m.log + [SessionBegins(Bound(m), now)])
  {
    hide L.RunSession, Dirs, Scan.ScanAll, AllDone;
    StillSmooth(u, m0, m);
    var v := Here(u, m0, m);
    var d := if u.freeSpaceReserve > 0 then Ask(m.p, u.env) else Reply(m.p, false, 0);
    assert On(d.p, v.from) && !(d.ok && d.value < u.freeSpaceReserve);
    now := d.p.clock;
    SmoothSession(u.backend, d.p, m.l, Scan.ScanAll(Dirs(u, now)), v);
    assert m0.p.clock <= now < Transfer(u, m).p.clock;
  }

  /** Connect, the body, Disconnect: the share comes back as it was. */
  lemma SmoothConnection(u: Setup, m0: Machine, m: Machine, media: bool) returns (m1: Machine)
    requires Smooth(Ahead(u, m0)) && On(m.p, m0.p.clock)
    requires m.share.temp <= m0.share.temp
    ensures On(m1.p, m.p.clock) && m1 == m.(p := m1.p, share := m1.share, log := m.log + [Connected])
    ensures WithConnection(u, m, media) == Hangup(u, if media then Sync(u, m1) else Transfer(u, m1))
    ensures forall m2: Machine :: m2.share == m1.share && On(m2.p, m1.p.clock) ==> HungUp(u, m, m2)
  {
    hide H.Connect, H.Disconnect, Sync, Transfer;
    StillSmooth(u, m0, m);
    var v := Here(u, m0, m);
    var q := Reachable(u, m.p);
    assert q.ok && On(q.p, v.from);
    var c := H.Connect(u.backend, q.p, m.share, u.env);
    SmoothConnect(u.backend, q.p, m.share, v);
    m1 := Say(m.(p := c.p, share := c.s), Connected);
    forall m2: Machine | m2.share == m1.share && On(m2.p, m1.p.clock) ensures HungUp(u, m, m2) {
      SmoothDisconnect(u.backend, q.p, m2.p, m.share, v);
      StillSmooth(u, m0, m2);
      SmoothHangup(u.backend, m2.p, m1.share, Here(u, m0, m2));
    }
  }

  ghost predicate HungUp(u: Setup, m: Machine, m2: Machine) {
    var r := Hangup(u, m2);
    && On(r.p, m2.p.clock) && r == m2.(p := r.p, share := r.share, log := m2.log + [Disconnected])
    && r.share.mounts == m.share.mounts && r.share.temp == m.share.temp
  }

  lemma SmoothCarry(u: Setup, m0: Machine, m: Machine) returns (now: nat)
    requires Smooth(Ahead(u, m0)) && On(m.p, m0.p.clock) && m.share.temp <= m0.share.temp && m.l == m0.l
    ensures var r := WithConnection(u, m, false);
      && On(r.p, m.p.clock) && Archived(u, m0, r, now)
      && r == m.(p := r.p, share := r.share, l := r.l,
                 log := ((m.log + [Connected]) + [SessionBegins(Bound(m), now)]) + [Disconnected])
      && r.share.mounts == m.share.mounts && r.share.temp == m.share.temp
  {
    hide WithConnection, Smooth, Sync, Transfer, Hangup, Archived;
    var c := SmoothConnection(u, m0, m, false);
    now := SmoothTransfer(u, m0, c);
    var t := Transfer(u, c);
    assert HungUp(u, m, t);
    ArchivedStays(u, m0, t, Hangup(u, t), now);
  }

  lemma SmoothRunArchive(u: Setup, m0: Machine, m: Machine, b: bool) returns (now: nat)
    requires Stage(u, m0, m, AtArchiving(b))
    ensures var r := RunArchive(u, m);
      && On(r.p, m.p.clock) && r.k == m.k && Holding(m0, r)
      && r.share.mounts == m.share.mounts && r.share.temp == m.share.temp
      && Archived(u, m0, r, now) && r.log == m.log + Carried(now)
      && r.state == m.state && r.t == m.t && r.gad == m.gad && r.media == m.media
  {
    hide S.Mount, S.Unmount, WithConnection, Smooth, Archived, MS.OrderOf, Targets, G.Listed, G.FindUdc;
    FindUdcNames(u);
    StillSmooth(u, m0, m);
    SmoothMount(m.p, m.k, m.snap.value, Here(u, m0, m));
    var mt := S.Mount(m.p, m.k, m.snap.value, u.env);
    var m1 := Say(m.(p := mt.p, k := mt.k, snap := Some(mt.s)), SnapMounted);
    StillSmooth(u, m0, m1);
    SmoothAsk(m1.p, Here(u, m0, m1));
    var m2 := WakeStart(u, m1);
    now := SmoothCarry(u, m0, m2);
    var m3 := WithConnection(u, m2, false);
    StillSmooth(u, m0, m3);
    SmoothAsk(m3.p, Here(u, m0, m3));
    var m4 := WakeStop(u, m3);
    StillSmooth(u, m0, m4);
    SmoothUnmount(m4.p, m4.k, Here(u, m0, m4));
    var r := SnapUnmount(u, m4);
    assert RunArchive(u, m) == r;
    ArchivedStays(u, m0, m3, r, now);
    CarriedIs(m.log, now);
  }

  lemma CarriedIs(log: seq<Event>, now: nat)
    ensures log + Carried(now)
      == (((((((log + [SnapMounted]) + [WakeStarted]) + [Connected]) + [SessionBegins(true, now)])
            + [Disconnected]) + [WakeStopped]) + [SnapUnmounted])
  {
  }

  lemma SmoothAsk(p: Proc, v: World)
    requires Smooth(v) && On(p, v.from)
    ensures Ask(p, v.env).ok && On(Ask(p, v.env).p, v.from)
  {
  }

  lemma ArchivingArm(u: Setup, m0: Machine, m: Machine, b: bool) returns (now: nat)
    requires Stage(u, m0, m, AtArchiving(b))
    ensures Stage(u, m0, Arm(u, m), AtMediaSync(b, now))
  {
    hide Boot, CreateSnapshot, RunMediaSync, CleanupSnapshot, Activate,
      RunArchive, Smooth, MS.OrderOf, Targets, G.Listed, G.FindUdc, Archived, Lowered, Fetches, Reconnected;
    now := SmoothRunArchive(u, m0, m, b);
    ArchivedStays(u, m0, RunArchive(u, m), Arm(u, m), now);
    assert (m0.log + Reconnected(b)) + Carried(now) == m0.log + (Reconnected(b) + Carried(now));
  }

  lemma OrderIsDistinct(targets: seq<MS.Target>)
    ensures Distinct(MS.OrderOf(targets))
  {
    if targets != [] {
      OrderIsDistinct(targets[..|targets| - 1]);
    }
  }

  lemma SmoothSync(u: Setup, m0: Machine, m: Machine)
    requires Equipped(u, m0, m)
    ensures var r := Sync(u, m);
      && On(r.p, m.p.clock) && r.log == m.log + [Deactivated] + [SyncBegins(false)] + [ActivateTried(true)]
      && r == m.(p := r.p, t := r.t, gad := r.gad, media := r.media, log := r.log)
      && r.t.udc == G.FindUdc(u.names) && r.t.nodes == m.t.nodes && r.gad.Some?
      && r.media.tried == m.media.tried + MS.OrderOf(Targets(u))
      && Lowered(m.media, r.media, MS.OrderOf(Targets(u)), 1) && Fetches(m.media, r.media, ToSync(u))
  {
    hide G.FindUdc, MS.OrderOf, Targets, G.Listed, G.Deactivate, G.Activate, Smooth, MS.SyncAll, MS.At,
      Lowered, Distinct, Fetches, MS.Flatten;
    OrderIsDistinct(Targets(u));
    StillSmooth(u, m0, m);
    var v := Here(u, m0, m);
    SmoothDeactivate(m.p, m.t, m.gad.value, v);
    var d := Deactivate(u, m);
    var m1 := Say(d.0, SyncBegins(Bound(d.0)));
    SmoothSyncAll(m1.p, m1.media, MS.OrderOf(Targets(u)), Targets(u), v);
    var s := MS.SyncAll(m1.p, m1.media, MS.OrderOf(Targets(u)), Targets(u), u.env);
    SmoothActivate(s.0, m1.t, m1.gad.value, u.names, v);
  }

  lemma MediaArm(u: Setup, m0: Machine, m: Machine, b: bool, now: nat)
    requires Stage(u, m0, m, AtMediaSync(b, now))
    ensures Stage(u, m0, Arm(u, m), AtCleanup(u, b, now))
  {
    hide WithConnection, Smooth, MS.OrderOf, Targets, G.Listed, G.FindUdc, Archived, Sync, Transfer, Hangup, MS.At,
      Boot, CreateSnapshot, RunArchive, CleanupSnapshot, Activate, Lowered, Fetches, Reconnected;
    ArchivedStays(u, m0, m, m, now);
    if MS.OrderOf(Targets(u)) != [] {
      var c := SmoothConnection(u, m0, m, true);
      SmoothSync(u, m0, c);
      var t := Sync(u, c);
      assert HungUp(u, m, t);
      ArchivedStays(u, m0, m, Arm(u, m), now);
      assert m0.log + (Reconnected(b) + Carried(now) + Fetched)
          == (((((m0.log + (Reconnected(b) + Carried(now))) + [Connected]) + [Deactivated]) + [SyncBegins(false)])
              + [ActivateTried(true)]) + [Disconnected];
    } else {
      NothingLowered(m0.media, u);
      ArchivedStays(u, m0, m, Arm(u, m), now);
      assert Reconnected(b) + Carried(now) + [] == Reconnected(b) + Carried(now);
    }
  }

  lemma NothingLowered(m: MS.Media, u: Setup)
    requires MS.OrderOf(Targets(u)) == []
    ensures Lowered(m, m, [], 1) && Fetches(m, m, ToSync(u))
  {
    hide MS.OrderOf, Targets;
    FetchesNothing(m);
  }

  lemma CleanupArm(u: Setup, m0: Machine, m: Machine, b: bool, now: nat)
    requires m0.k.mounts == 0 && Stage(u, m0, m, AtCleanup(u, b, now))
    ensures Stage(u, m0, Arm(u, m), AtEnd(u, b, now))
  {
    hide Boot, CreateSnapshot, RunArchive, RunMediaSync, Activate,
      Smooth, MS.OrderOf, Targets, G.Listed, G.FindUdc, Archived, S.Release, SyncEvents, Reconnected, MS.At,
      Lowered, Fetches;
    StillSmooth(u, m0, m);
    SmoothRelease(m.p, m.k, m.snap.value, Here(u, m0, m));
    ArchivedStays(u, m0, m, Arm(u, m), now);
    var z := m.snap.value.zram.value;
    assert (m0.k.zram + {z}) - {z} == m0.k.zram;
  }

  lemma BlockedArm(u: Setup, m0: Machine, m: Machine, b: bool)
    requires Stage(u, m0, m, AtBlocked(b))
    ensures Stage(u, m0, Arm(u, m), AtBlockedEnd(b))
  {
    hide Boot, CreateSnapshot, RunArchive, RunMediaSync, Activate,
      Smooth, MS.OrderOf, Targets, G.Listed, G.FindUdc, Lowered, Fetches;
  }

  // ------------------------------------------------------------ the cycle

  /** The machine with its context found alive, before its arm. */
  function Begun(u: Setup, m: Machine): Machine { m.(p := Ask(m.p, u.env).p) }

  lemma Begin(u: Setup, m0: Machine, m: Machine, w: Where)
    requires Stage(u, m0, m, w)
    ensures Stage(u, m0, Begun(u, m), w) && Ask(m.p, u.env).ok
  {
    hide Smooth, MS.OrderOf, Targets, G.Listed, G.FindUdc, Archived, Lowered, Fetches, S.Swept;
    StillSmooth(u, m0, m);
    SmoothAsk(m.p, Here(u, m0, m));
    if w.scan.Some? { ArchivedStays(u, m0, m, Begun(u, m), w.scan.value); }
  }

  /** A turn that finds its context alive and survives is the arm of its state. */
  lemma Turned(u: Setup, m0: Machine, n: nat, w: Where)
    requires var m := Run(u, m0, n); Ask(m.p, u.env).ok && Stage(u, m0, Arm(u, Begun(u, m)), w)
    ensures Stage(u, m0, Run(u, m0, n + 1), w)
  {
    hide Arm, Smooth, MS.OrderOf, Targets, G.Listed, G.FindUdc, Archived, Lowered, Fetches, S.Swept;
    var m := Run(u, m0, n);
    assert Run(u, m0, n + 1) == Step(u, m);
  }

  /** Up to the snapshot, every cycle is the same. */
  lemma ToSnapshot(u: Setup, m: Machine)
    requires Poised(u, m)
    ensures Stage(u, m, Run(u, m, 3), if m.k.mounts == 0 then AtFsck(Bound(m)) else AtBlocked(Bound(m)))
  {
    hide Stage, Arm, Step;
    var b := Bound(m);
    assert Run(u, m, 0) == m;
    Begin(u, m, m, AtWaiting(b));
    WaitingArm(u, m, Begun(u, m), b);
    Turned(u, m, 0, AtPreArchive(b));
    var m1 := Run(u, m, 1);
    Begin(u, m, m1, AtPreArchive(b));
    PreArchiveArm(u, m, Begun(u, m1), b);
    Turned(u, m, 1, AtSnapshot(b));
    var m2 := Run(u, m, 2);
    Begin(u, m, m2, AtSnapshot(b));
    SnapshotArm(u, m, Begun(u, m2), b);
    Turned(u, m, 2, if m.k.mounts == 0 then AtFsck(b) else AtBlocked(b));
  }

  lemma ToArchiving(u: Setup, m: Machine)
    requires Ready(u, m)
    ensures Stage(u, m, Run(u, m, 5), AtArchiving(Bound(m)))
  {
    hide Stage, Arm, Step, Run;
    var b := Bound(m);
    ToSnapshot(u, m);
    var m3 := Run(u, m, 3);
    Begin(u, m, m3, AtFsck(b));
    FsckArm(u, m, Begun(u, m3), b);
    Turned(u, m, 3, AtReconnect(b));
    var m4 := Run(u, m, 4);
    Begin(u, m, m4, AtReconnect(b));
    ReconnectArm(u, m, Begun(u, m4), b);
    Turned(u, m, 4, AtArchiving(b));
  }

  lemma ToEnd(u: Setup, m: Machine) returns (now: nat)
    requires Ready(u, m)
    ensures Stage(u, m, Run(u, m, 8), AtEnd(u, Bound(m), now))
  {
    hide Stage, Arm, Step, Run;
    var b := Bound(m);
    ToArchiving(u, m);
    var m5 := Run(u, m, 5);
    Begin(u, m, m5, AtArchiving(b));
    now := ArchivingArm(u, m, Begun(u, m5), b);
    Turned(u, m, 5, AtMediaSync(b, now));
    var m6 := Run(u, m, 6);
    Begin(u, m, m6, AtMediaSync(b, now));
    MediaArm(u, m, Begun(u, m6), b, now);
    Turned(u, m, 6, AtCleanup(u, b, now));
    var m7 := Run(u, m, 7);
    Begin(u, m, m7, AtCleanup(u, b, now));
    CleanupArm(u, m, Begun(u, m7), b, now);
    Turned(u, m, 7, AtEnd(u, b, now));
  }

  /** A stage that is a wait is where a next cycle can begin. */
  lemma PoisedAgain(u: Setup, m: Machine, r: Machine, w: Where)
    requires S.Sound(m.k) && Stage(u, m, r, w) && w.state.StateWaitingForWifi? && w.up && !w.held
    ensures Poised(u, r) && Bound(r)
  {
    hide MS.OrderOf, Targets, G.Listed, G.FindUdc, Lowered, Fetches;
    FindUdcNames(u);
    StillSmooth(u, m, r);
    FewerTaken(Here(u, m, r), r.k.zram + r.share.temp);
    assert r.log + [] == r.log;
  }

  lemma FewerTaken(v: World, taken: set<nat>)
    requires Smooth(v) && taken <= v.taken
    ensures Smooth(v.(taken := taken))
  {
  }

  /** One cycle in a world that cooperates, with nothing mounted on the snapshot's mountpoint: eight turns
      after a wait the machine waits again, having done exactly these things in exactly this order. Every file
      listed by the scan of its session is in the ledger, and all of them have been delivered if and only if
      none had been lost before; every partition with an enabled target was mounted once, and has no mount
      left but those stale ones that lay under its topmost; dm nodes left over from before are gone, and
      otherwise the kernel is as it was, and so are the share and its credentials files - so that the next
      cycle finds what this one did. */
  lemma OneCycle(u: Setup, m: Machine) returns (now: nat)
    requires Ready(u, m)
    ensures var r := Run(u, m, 8);
      && Ready(u, r) && Bound(r) && r.log == m.log + CycleEvents(u, Bound(m), now) && Archived(u, m, r, now)
      && r.k == S.Swept(m.k) && r.share.mounts == m.share.mounts && r.share.temp == m.share.temp && Synced(u, m, r)
    ensures var all := Scan.ScanAll(Dirs(u, now));
      !u.backend.Noop? ==> (Delivered(Run(u, m, 8).l, all) <==> !Lost(m.l, all))
  {
    hide Run, Targets, MS.OrderOf, G.Listed, G.FindUdc, CycleEvents, Synced, Smooth, AllDone, Delivered, Lost, Dirs;
    now := ToEnd(u, m);
    PoisedAgain(u, m, Run(u, m, 8), AtEnd(u, Bound(m), now));
    if !u.backend.Noop? {
      DeliveredIffNoneLost(u.backend, m.l, Run(u, m, 8).l, Scan.ScanAll(Dirs(u, now)));
    }
  }

  /** ... and with a mount there: four turns later the machine waits again, with nothing done but the drive
      taken away and given back; kernel, ledger, share and media are exactly as before. */
  lemma BlockedCycle(u: Setup, m: Machine)
    requires Poised(u, m) && m.k.mounts > 0
    ensures var r := Run(u, m, 4);
      && Poised(u, r) && Bound(r) && r.log == m.log + BlockedEvents(Bound(m))
      && r.k == m.k && r.l == m.l && r.media == m.media
      && r.share.mounts == m.share.mounts && r.share.temp == m.share.temp
  {
    hide Run, Arm, Step, Archived, Targets, MS.OrderOf, G.Listed, G.FindUdc, Smooth;
    var b := Bound(m);
    ToSnapshot(u, m);
    var m3 := Run(u, m, 3);
    Begin(u, m, m3, AtBlocked(b));
    BlockedArm(u, m, Begun(u, m3), b);
    Turned(u, m, 3, AtBlockedEnd(b));
    PoisedAgain(u, m, Run(u, m, 4), AtBlockedEnd(b));
  }
}
