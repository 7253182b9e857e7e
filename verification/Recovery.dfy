/** The way back: from whatever a crash left behind, a machine that boots into a world that cooperates is
    presented again after two turns, and after ten has delivered everything its scan lists but for what an
    earlier life marked and lost. */
module Recovery {
  import opened Common
  import opened Outside
  import opened MachineSpec
  import opened Discipline
  import opened Progress
  import S = SnapshotSpec
  import G = GadgetSpec
  import L = LedgerSpec
  import MS = MediaSync
  import Scan
  import KernelLaws
  import Luns
  import MachineLaws
  import TransferLaws

  // ------------------------------------------------------------ teardown

  predicate NoFault(r: (Proc, G.Tree), t: G.Tree, from: nat) { On(r.0, from) && r.1.faults == t.faults }

  lemma {:induction false} SmoothUnlinkAll(p: Proc, t: G.Tree, ls: seq<string>, v: World)
    requires Smooth(v) && On(p, v.from)
    ensures NoFault(G.UnlinkAll(p, t, ls, v.env), t, v.from)
    decreases |ls|
  {
    if ls != [] {
      var r := G.Unlink(p, t, ls[0], v.env);
      assert NoFault(r, t, v.from);
      SmoothUnlinkAll(r.0, r.1, ls[1..], v);
    }
  }

  lemma SmoothRmdir(p: Proc, t: G.Tree, n: G.Node, v: World)
    requires Smooth(v) && On(p, v.from)
    ensures NoFault(G.Rmdir(p, t, n, v.env), t, v.from)
  {
  }

  lemma {:induction false} SmoothRmdirLuns(p: Proc, t: G.Tree, ids: seq<nat>, v: World)
    requires Smooth(v) && On(p, v.from)
    ensures NoFault(G.RmdirLuns(p, t, ids, v.env), t, v.from)
    decreases |ids|
  {
    hide G.Rmdir;
    if ids != [] {
      SmoothRmdir(p, t, G.Lun(ids[0]), v);
      var r := G.Rmdir(p, t, G.Lun(ids[0]), v.env);
      SmoothRmdirLuns(r.0, r.1, ids[1..], v);
    }
  }

  lemma {:induction false} SmoothRmdirAll(p: Proc, t: G.Tree, ns: seq<G.Node>, v: World)
    requires Smooth(v) && On(p, v.from)
    ensures NoFault(G.RmdirAll(p, t, ns, v.env), t, v.from)
    decreases |ns|
  {
    hide G.Rmdir;
    if ns != [] {
      SmoothRmdir(p, t, ns[0], v);
      var r := G.Rmdir(p, t, ns[0], v.env);
      SmoothRmdirAll(r.0, r.1, ns[1..], v);
    }
  }

  lemma SmoothTeardown(p: Proc, t: G.Tree, v: World)
    requires Smooth(v) && On(p, v.from) && G.Sound(t)
    ensures var d := G.TeardownExisting(p, t, v.env); On(d.0, v.from) && d.1 == G.Absent(t.faults)
  {
    hide G.UnlinkAll, G.RmdirLuns, G.RmdirAll, G.Sound;
    G.TeardownRemovesAll(p, t, v.env);
    var s := G.Stat(p, t, v.env);
    var c := G.ClearUdc(s.0, s.1, v.env);
    assert NoFault(c, t, v.from);
    SmoothUnlinkAll(c.0, c.1, c.1.links, v);
    var a := G.UnlinkAll(c.0, c.1, c.1.links, v.env);
    SmoothRmdirLuns(a.0, a.1, a.1.luns, v);
    var b := G.RmdirLuns(a.0, a.1, a.1.luns, v.env);
    SmoothRmdirAll(b.0, b.1, G.Doomed, v);
  }

  // ------------------------------------------------------------ building

  predicate Building(c: G.Point, from: nat) { c.ok && On(c.p, from) && c.t.udc == "" }

  lemma SmoothMkdirAll(c: G.Point, n: G.Node, v: World)
    requires Smooth(v) && Building(c, v.from) && !n.Lun?
    ensures var r := G.MkdirAll(c, n, v.env);
      Building(r, v.from) && r.t == c.t.(nodes := c.t.nodes + G.Chain(n))
  {
    hide G.MkdirAll, Smooth;
    MkdirAllOk(c, n, v);
    G.MkdirAllMakes(c, n, v.env);
  }

  lemma MkdirAllOk(c: G.Point, n: G.Node, v: World)
    requires Smooth(v) && Building(c, v.from) && !n.Lun?
    ensures var r := G.MkdirAll(c, n, v.env); r.ok && On(r.p, v.from)
  {
    hide G.Mkdir;
    MkdirOk(c, G.Root, v);
    var r := G.Mkdir(c, G.Root, v.env);
    MkdirOk(r, G.Config, v);
    MkdirOk(r, n, v);
    MkdirOk(G.Mkdir(r, G.Config, v.env), n, v);
  }

  lemma MkdirOk(c: G.Point, n: G.Node, v: World)
    requires Smooth(v) && c.ok && On(c.p, v.from)
    ensures var r := G.Mkdir(c, n, v.env); r.ok && On(r.p, v.from)
  {
  }

  lemma SmoothWrite(c: G.Point, n: G.Node, name: string, value: string, v: World)
    requires Smooth(v) && Building(c, v.from) && G.Has(c.t, n)
    ensures var r := G.Write(c, n, name, value, v.env); Building(r, v.from) && r.t == c.t.(attrs := r.t.attrs)
  {
  }

  lemma {:induction false} SmoothWriteAll(c: G.Point, n: G.Node, items: seq<(string, string)>, v: World)
    requires Smooth(v) && Building(c, v.from) && G.Has(c.t, n)
    ensures var r := G.WriteAll(c, n, items, v.env); Building(r, v.from) && r.t == c.t.(attrs := r.t.attrs)
    decreases |items|
  {
    hide G.Write;
    if items != [] {
      SmoothWrite(c, n, items[0].0, items[0].1, v);
      SmoothWriteAll(G.Write(c, n, items[0].0, items[0].1, v.env), n, items[1..], v);
    }
  }

  lemma SmoothPopulate(p: Proc, faults: nat, v: World)
    requires Smooth(v) && On(p, v.from)
    ensures Building(G.Populate(p, G.Absent(faults), v.env), v.from)
  {
    hide G.MkdirAll, G.Write, G.WriteAll, Smooth;
    var c0 := G.Point(p, G.Absent(faults), true);
    SmoothMkdirAll(c0, G.Root, v);
    var c1 := G.MkdirAll(c0, G.Root, v.env);
    SmoothWriteAll(c1, G.Root, G.Descriptors, v);
    var c2 := G.WriteAll(c1, G.Root, G.Descriptors, v.env);
    SmoothMkdirAll(c2, G.Strings, v);
    var c3 := G.MkdirAll(c2, G.Strings, v.env);
    SmoothWriteAll(c3, G.Strings, G.EnglishStrings, v);
    var c4 := G.WriteAll(c3, G.Strings, G.EnglishStrings, v.env);
    SmoothMkdirAll(c4, G.ConfigStrings, v);
    var c5 := G.MkdirAll(c4, G.ConfigStrings, v.env);
    SmoothWrite(c5, G.Config, "MaxPower", "250", v);
    var c6 := G.Write(c5, G.Config, "MaxPower", "250", v.env);
    SmoothWrite(c6, G.ConfigStrings, "configuration", "TeslaUSB", v);
    var c7 := G.Write(c6, G.ConfigStrings, "configuration", "TeslaUSB", v.env);
    SmoothMkdirAll(c7, G.Function, v);
    SmoothWrite(G.MkdirAll(c7, G.Function, v.env), G.Function, "stall", "1", v);
  }

  lemma SmoothLunDir(p: Proc, t: G.Tree, i: nat, v: World)
    requires Smooth(v) && On(p, v.from) && G.Root in t.nodes && G.Function in t.nodes && t.udc == ""
    ensures var r := G.MkdirAll(G.Point(p, t, true), G.Lun(i), v.env);
      Building(r, v.from) && G.Has(r.t, G.Lun(i)) && r.t.nodes == t.nodes
  {
  }

  lemma SmoothAddLun(p: Proc, t: G.Tree, g: G.Gadget, device: string, inquiry: string, v: World)
    requires Smooth(v) && On(p, v.from) && G.Root in t.nodes && G.Function in t.nodes && t.udc == ""
    ensures var r := G.AddLUN(p, t, g, device, inquiry, v.env);
      r.ok && On(r.p, v.from) && r.t.nodes == t.nodes && r.t.udc == ""
  {
    hide G.MkdirAll, G.Write, Smooth;
    var n := G.Lun(|g.luns|);
    SmoothLunDir(p, t, |g.luns|, v);
    var c3 := G.MkdirAll(G.Point(p, t, true), n, v.env);
    SmoothWrite(c3, n, "file", device, v);
    var c4 := G.Write(c3, n, "file", device, v.env);
    SmoothWrite(c4, n, "inquiry_string", inquiry, v);
    var c5 := G.Write(c4, n, "inquiry_string", inquiry, v.env);
    SmoothWrite(c5, n, "removable", "1", v);
    var c6 := G.Write(c5, n, "removable", "1", v.env);
    SmoothWrite(c6, n, "ro", "0", v);
    SmoothWrite(G.Write(c6, n, "ro", "0", v.env), n, "nofua", "0", v);
  }

  lemma {:induction false} SmoothAddAll(p: Proc, t: G.Tree, g: G.Gadget, parts: seq<(string, string)>, v: World)
    requires Smooth(v) && On(p, v.from) && G.Root in t.nodes && G.Function in t.nodes && t.udc == ""
    ensures var r := G.AddAll(p, t, g, parts, v.env); r.ok && On(r.p, v.from)
    decreases |parts|
  {
    hide G.AddLUN;
    if parts != [] {
      var e := Ask(p, v.env);
      SmoothAddLun(e.p, t, g, parts[0].0, parts[0].1, v);
      var r := G.AddLUN(e.p, t, g, parts[0].0, parts[0].1, v.env);
      SmoothAddAll(r.p, r.t, r.g, parts[1..], v);
    }
  }

  lemma {:induction false} SmoothNofuaAll(p: Proc, t: G.Tree, g: G.Gadget, i: nat, v: World)
    requires Smooth(v) && On(p, v.from) && i <= |g.luns| && G.Sound(t) && G.LunsAgree(g, t)
    ensures var r := G.NofuaAll(p, t, g, i, v.env); r.ok && On(r.p, v.from)
    decreases |g.luns| - i
  {
    hide G.Sound;
    if i < |g.luns| {
      var r := G.SetNofua(p, t, g, i, true, v.env);
      assert G.LunAgrees(t, i, g.luns[i]);
      G.SetNofuaMeaning(p, t, g, i, true, v.env);
      hide G.LunsAgree;
      SmoothNofuaAll(r.p, r.t, r.g, i + 1, v);
    }
  }

  /** The whole drive: a lun for every partition, with nofua on, in a tree that is determined by that to its
      last attribute, linked and bound. */
  ghost predicate WholeDrive(t: G.Tree, g: G.Gadget, parts: seq<(string, string)>, faults: nat, names: seq<string>) {
    && Luns.Labels(g.luns) == parts && (forall l :: l in g.luns ==> l.nofua) && g.active
    && t == G.Built(g.luns, faults).(links := [G.FunctionLink], udc := G.FindUdc(names))
    && G.LunsAgree(g, t)
  }

  /** The gadget is presented, whatever configfs held before. */
  lemma SmoothPresent(p: Proc, t: G.Tree, parts: seq<(string, string)>, names: seq<string>, v: World)
    requires Smooth(v) && On(p, v.from) && G.Sound(t) && G.Listed(names) && names != []
    ensures var r := G.Present(p, t, parts, names, v.env);
      && r.ok && On(r.p, v.from) && WholeDrive(r.t, r.g, parts, t.faults, names)
      && r.t.udc == G.FindUdc(names) && G.Root in r.t.nodes && G.Config in r.t.nodes && G.Function in r.t.nodes
  {
    hide G.TeardownExisting, G.Populate, G.AddAll, G.NofuaAll, G.Activate, G.Sound, G.LunsAgree, G.FindUdc, Smooth,
      Luns.Labels, G.Built, G.Configured, Luns.Found, G.Grows;
    SmoothTeardown(p, t, v);
    G.TeardownRemovesAll(p, t, v.env);
    var d := G.TeardownExisting(p, t, v.env);
    SmoothPopulate(d.0, t.faults, v);
    G.PopulateKeeps(d.0, d.1, v.env);
    G.PopulateBuilds(d.0, t.faults, v.env);
    var c := G.Populate(d.0, d.1, v.env);
    PopulatedIsSound(G.Point(d.0, d.1, true), c);
    var g0 := G.Gadget([], false);
    NoLunsAgree(c.t);
    assert c.t.udc == "";
    var a := G.AddAll(c.p, c.t, g0, parts, v.env);
    G.AddAllMeaning(c.p, c.t, g0, parts, v.env);
    SmoothAddAll(c.p, c.t, g0, parts, v);
    var n := G.NofuaAll(a.p, a.t, a.g, 0, v.env);
    G.NofuaAllMeaning(a.p, a.t, a.g, 0, v.env);
    SmoothNofuaAll(a.p, a.t, a.g, 0, v);
    SmoothActivate(n.p, n.t, n.g, names, v);
    var r := G.Present(p, t, parts, names, v.env);
    assert r == G.Activate(n.p, n.t, n.g, names, v.env);
    var found := Luns.BootPresentsWhatItFound(p, t, parts, names, v.env);
    AllFound(c.p, parts, found, v);
    G.BootDeterminesTheTree(p, t, parts, names, v.env);
    G.PresentMeaning(p, t, parts, names, v.env);
  }

  lemma AllFound(p: Proc, parts: seq<(string, string)>, found: seq<bool>, v: World)
    requires Smooth(v) && On(p, v.from) && |found| == |parts| && Luns.Found(p.clock, found, v.env)
    ensures Chosen(parts, found) == parts
  {
    forall i | 0 <= i < |parts| ensures found[i] {
      assert v.env(Luns.LookAt(p.clock, found, i)).Done?;
    }
    ChosenAll(parts, found);
  }

  lemma PopulatedIsSound(c: G.Point, r: G.Point)
    requires G.Grows(c, r)
    ensures G.Sound(r.t)
  {
  }

  lemma NoLunsAgree(t: G.Tree)
    ensures G.LunsAgree(G.Gadget([], false), t)
  {
  }

  // ------------------------------------------------------------ the boot

  lemma SmoothReconcile(p: Proc, k: S.Kernel, v: World)
    requires Smooth(v) && On(p, v.from) && S.Sound(k) && k.mounts <= 1
    ensures var un := S.Unmount(p, k, v.env);
      var c := S.Cleanup(un.0, un.1, v.env);
      On(c.0, v.from) && c.1 == S.Kernel(None, false, k.zram, 0, k.faults)
  {
    KernelLaws.ReconcileKeeps(p, k, v.env);
    var un := S.Unmount(p, k, v.env);
    assert On(un.0, v.from) && un.1 == k.(mounts := 0);
  }

  lemma SmoothStays(v: World, later: nat)
    requires Smooth(v) && v.from <= later
    ensures Smooth(v.(from := later))
  {
  }

  /** A machine about to boot, over whatever an earlier life left behind. */
  ghost predicate AboutToBoot(u: Setup, m: Machine) {
    && m.state.StateBooting? && m.snap.None? && S.Sound(m.k) && m.k.mounts <= 1 && G.Sound(m.t)
    && G.Listed(u.names) && u.names != []
    && Smooth(Ahead(u, m)) && !m.p.dead
  }

  lemma BootArm(u: Setup, m0: Machine, m: Machine)
    requires AboutToBoot(u, m0) && On(m.p, m0.p.clock) && m == m0.(p := m.p)
    ensures var r := Arm(u, m);
      && On(r.p, m0.p.clock) && r.state.StateGadgetUp? && r.k == S.Kernel(None, false, m.k.zram, 0, m.k.faults)
      && r.t.udc == G.FindUdc(u.names) && G.Root in r.t.nodes && G.Config in r.t.nodes && G.Function in r.t.nodes
      && r.gad.Some? && WholeDrive(r.t, r.gad.value, Partitions, m.t.faults, u.names)
      && r.log == m.log + [Booted(true)]
      && r == m.(p := r.p, state := r.state, k := r.k, t := r.t, gad := r.gad, calm := r.calm, log := r.log)
  {
    hide S.Unmount, S.Cleanup, G.Present, G.Sound, G.FindUdc, G.Listed, Smooth, MS.OrderOf, Targets, WholeDrive,
      CreateSnapshot, RunArchive, RunMediaSync, CleanupSnapshot, Activate;
    var v := Ahead(u, m0);
    SmoothReconcile(m.p, m.k, v);
    var un := S.Unmount(m.p, m.k, u.env);
    var c := S.Cleanup(un.0, un.1, u.env);
    SmoothPresent(c.0, m.t, Partitions, u.names, v);
  }

  /** A turn that finds its context alive and survives is the arm of its state. */
  lemma SmoothTurn(u: Setup, m0: Machine, m: Machine)
    requires Smooth(Ahead(u, m0)) && On(m.p, m0.p.clock)
    ensures On(Begun(u, m).p, m0.p.clock) && (!Arm(u, Begun(u, m)).p.dead ==> Step(u, m) == Arm(u, Begun(u, m)))
  {
    hide Arm;
  }

  /** Two turns after the restart the whole drive is presented and the machine waits, ready for a cycle. */
  lemma BootsInTwo(u: Setup, m: Machine)
    requires AboutToBoot(u, m)
    ensures var r := Run(u, m, 2);
      && Ready(u, r) && Bound(r) && On(r.p, m.p.clock) && r.log == m.log + [Booted(true)]
      && r.gad.Some? && WholeDrive(r.t, r.gad.value, Partitions, m.t.faults, u.names)
      && r.l == m.l && r.share == m.share && r.media == m.media
      && r.k == S.Kernel(None, false, m.k.zram, 0, m.k.faults)
  {
    hide Step, Boot, G.Sound, G.FindUdc, G.Listed, Smooth, MS.OrderOf, Targets, WholeDrive,
      CreateSnapshot, RunArchive, RunMediaSync, CleanupSnapshot, Activate;
    assert Run(u, m, 0) == m;
    SmoothTurn(u, m, m);
    var a := Begun(u, m);
    BootArm(u, m, a);
    var m1 := Arm(u, a);
    assert Run(u, m, 1) == m1;
    SmoothTurn(u, m, m1);
    var a1 := Begun(u, m1);
    var r := Arm(u, a1);
    assert r == a1.(state := StateWaitingForWifi);
    assert Run(u, m, 2) == r;
    SmoothStays(Ahead(u, m), r.p.clock);
    FindUdcNames(u);
    assert r.log + [] == r.log;
  }

  lemma {:induction false} RunSplits(u: Setup, m: Machine, i: nat, j: nat)
    ensures Run(u, Run(u, m, i), j) == Run(u, m, i + j)
    decreases j
  {
    hide Step;
    if j > 0 {
      RunSplits(u, m, i, j - 1);
    }
  }

  // ------------------------------------------------------------ cycle after cycle

  /** What the cycles do whose sessions begin at these moments. */
  function ManyEvents(u: Setup, b: bool, scans: seq<nat>): seq<Event> {
    if scans == [] then []
    else
      var n := |scans| - 1;
      ManyEvents(u, b, scans[..n]) + CycleEvents(u, b || n > 0, scans[n])
  }

  /** Cycle number k of those that begin at m did with what its scan listed what it should: it was delivered,
      but for what had been lost before m. */
  ghost predicate CycleArchived(u: Setup, m: Machine, k: nat, now: nat) {
    var r, all := Run(u, m, 8 * k + 8), Scan.ScanAll(Dirs(u, now));
    Archived(u, Run(u, m, 8 * k), r, now) && (!u.backend.Noop? ==> (Delivered(r.l, all) <==> !Lost(m.l, all)))
  }

  /** Any number of cycles in a row, the world staying as it is: every one of them does the same again, and
      archives what it finds; what was lost before stays lost, and no more is; stale mounts under the media
      mountpoints go one by one. */
  lemma {:induction false} Cycles(u: Setup, m: Machine, c: nat) returns (scans: seq<nat>)
    requires Ready(u, m)
    ensures |scans| == c && forall k: nat :: k < c ==> CycleArchived(u, m, k, scans[k])
    ensures var r := Run(u, m, 8 * c);
      && Ready(u, r) && (c > 0 ==> Bound(r)) && r.log == m.log + ManyEvents(u, Bound(m), scans)
      && r.k == (if c == 0 then m.k else S.Swept(m.k))
      && r.share.mounts == m.share.mounts && r.share.temp == m.share.temp
      && L.Lag(r.l) == L.Lag(m.l) && Lowered(m.media, r.media, MS.OrderOf(Targets(u)), c)
    decreases c
  {
    hide Ready, Run, AllDone, CycleEvents, ManyEvents, MS.OrderOf, Targets, MS.At, Bound, Delivered, Lost, L.Lag,
      Lowered, Dirs, Scan.ScanAll;
    if c == 0 {
      RunZero(u, m);
      scans := [];
    } else {
      var before := Cycles(u, m, c - 1);
      var r := Run(u, m, 8 * (c - 1));
      var now := OneCycle(u, r);
      scans := before + [now];
      RunSplits(u, m, 8 * (c - 1), 8);
      SameLost(u.backend, r.l, Run(u, m, 8 * c).l, m.l, Scan.ScanAll(Dirs(u, now)));
      assert CycleArchived(u, m, c - 1, now);
      if c == 1 { RunZero(u, m); }
      OneMoreCycle(u, m.log, Bound(m), before, now);
      LoweredOnce(m.media, r.media, Run(u, m, 8 * c).media, MS.OrderOf(Targets(u)), c - 1);
    }
  }

  lemma OneMoreCycle(u: Setup, log: seq<Event>, b: bool, scans: seq<nat>, now: nat)
    ensures (log + ManyEvents(u, b, scans)) + CycleEvents(u, b || |scans| > 0, now)
      == log + ManyEvents(u, b, scans + [now])
  {
    hide CycleEvents;
    assert (scans + [now])[..|scans|] == scans;
  }

  lemma SameLost(b: L.Backend, before: L.Ledger, after: L.Ledger, first: L.Ledger, all: seq<string>)
    requires AllDone(b, before, after, all) && L.Lag(before) == L.Lag(first)
    ensures L.Lag(after) == L.Lag(first) && (Lost(before, all) <==> Lost(first, all))
  {
  }

  lemma LoweredOnce(m: MS.Media, r: MS.Media, t: MS.Media, order: seq<string>, c: nat)
    requires Lowered(m, r, order, c) && Lowered(r, t, order, 1)
    ensures Lowered(m, t, order, c + 1)
  {
  }

  lemma RunZero(u: Setup, m: Machine)
    ensures Run(u, m, 0) == m
    ensures m.log + ManyEvents(u, Bound(m), []) == m.log && Lowered(m.media, m.media, MS.OrderOf(Targets(u)), 0)
  {
    hide MS.OrderOf, Targets;
  }

  // ------------------------------------------------------------ from any reachable state

  /** From any reachable state in which the process has just been restarted - whatever died halfway before -
      ten turns of a world that cooperates from here on deliver everything the scan of their session lists,
      if and only if no path of it was marked and left undelivered by an earlier life; and they leave of
      those lives only such paths, the zram devices they leaked, and media mounts that lay under another. */
  lemma RecoversAndArchives(u: Setup, m: Machine, w: Watch) returns (now: nat)
    requires MachineLaws.Inv(u, m, w) && MachineLaws.Lawful(u) && m.state.StateBooting? && u.names != []
    requires Smooth(Ahead(u, m))
    ensures var r := Run(u, m, 10);
      && Ready(u, r) && Archived(u, m, r, now) && r.log == m.log + [Booted(true)] + CycleEvents(u, true, now)
      && r.k == S.Kernel(None, false, m.k.zram, 0, m.k.faults) && Synced(u, m, r)
    ensures var all := Scan.ScanAll(Dirs(u, now));
      !u.backend.Noop? ==> (Delivered(Run(u, m, 10).l, all) <==> !Lost(m.l, all))
  {
    hide Run, Ready, AllDone, CycleEvents, Smooth, MS.OrderOf, Targets, Bound, Delivered, Lost, Dirs,
      MachineLaws.Inv, MachineLaws.Lawful;
    StartsSound(u, m, w);
    BootsInTwo(u, m);
    var m2 := Run(u, m, 2);
    now := OneCycle(u, m2);
    RunSplits(u, m, 2, 8);
  }

  lemma StartsSound(u: Setup, m: Machine, w: Watch)
    requires MachineLaws.Inv(u, m, w) && MachineLaws.Lawful(u) && m.state.StateBooting?
    ensures !m.p.dead && m.snap.None? && S.Sound(m.k) && m.k.mounts <= 1 && G.Sound(m.t) && G.Listed(u.names)
  {
    hide G.Sound, G.Listed, Observe;
  }

  lemma WaitingIsPoised(u: Setup, m: Machine, w: Watch)
    requires MachineLaws.Inv(u, m, w) && MachineLaws.Lawful(u) && m.state.StateWaitingForWifi?
    requires u.names != [] && Smooth(Ahead(u, m))
    ensures Poised(u, m)
  {
    hide G.Listed, Observe, Smooth, MS.OrderOf, Targets, G.FindUdc, G.LunsAgree, TransferLaws.Inv;
    assert m.log + [] == m.log;
  }

  /** From any reachable wait on, in a world that cooperates: the next cycle takes a snapshot, and a session
      begins within the next eight turns, if and only if no mount is left on the snapshot's mountpoint. */
  lemma NextCycleArchivesIff(u: Setup, m: Machine, w: Watch) returns (now: nat)
    requires MachineLaws.Inv(u, m, w) && MachineLaws.Lawful(u) && m.state.StateWaitingForWifi?
    requires u.names != [] && Smooth(Ahead(u, m))
    ensures Run(u, m, 3).state.StateFsck? <==> m.k.mounts == 0
    ensures SessionIn(m.log, Run(u, m, 8).log) <==> m.k.mounts == 0
    ensures m.k.mounts == 0 ==> Archived(u, m, Run(u, m, 8), now)
    ensures m.k.mounts > 0 ==> Run(u, m, 8).l == m.l && Run(u, m, 8).k == m.k
  {
    hide Run, Poised, Archived, Smooth, MS.OrderOf, Targets, Bound, MachineLaws.Inv, MachineLaws.Lawful, SyncEvents;
    WaitingIsPoised(u, m, w);
    SnapshotOrNot(u, m);
    now := 0;
    if m.k.mounts == 0 {
      now := OneCycle(u, m);
      SessionAmong(m.log, Reconnected(Bound(m)), SyncEvents(u), now);
    } else {
      BlockedCycle(u, m);
      var r := Run(u, m, 4);
      BlockedCycle(u, r);
      RunSplits(u, m, 4, 4);
      NoSessionAmong(m.log, Bound(m), Bound(r));
    }
  }

  /** And so it stays: with a mount left there, cycle after cycle does nothing but take the drive away and give
      it back, although every single request is carried out. */
  lemma {:induction false} BlockedForever(u: Setup, m: Machine, c: nat)
    requires Poised(u, m) && m.k.mounts > 0
    ensures var r := Run(u, m, 4 * c);
      Poised(u, r) && r.k == m.k && r.l == m.l && r.media == m.media && m.log <= r.log && !SessionIn(m.log, r.log)
    decreases c
  {
    hide Run, Poised, BlockedEvents;
    if c == 0 {
      RunZero(u, m);
      assert m.log[|m.log|..] == [];
    } else {
      BlockedForever(u, m, c - 1);
      var r := Run(u, m, 4 * (c - 1));
      BlockedCycle(u, r);
      RunSplits(u, m, 4 * (c - 1), 4);
      StillNoSession(m.log, r.log, Bound(r));
    }
  }

  lemma StillNoSession(before: seq<Event>, log: seq<Event>, b: bool)
    requires before <= log && !SessionIn(before, log)
    ensures before <= log + BlockedEvents(b) && !SessionIn(before, log + BlockedEvents(b))
  {
    assert (log + BlockedEvents(b))[|before|..] == log[|before|..] + BlockedEvents(b);
  }

  lemma SnapshotOrNot(u: Setup, m: Machine)
    requires Poised(u, m)
    ensures Run(u, m, 3).state.StateFsck? <==> m.k.mounts == 0
  {
    hide Run, Going, Archived, Smooth, MS.OrderOf, Targets;
    ToSnapshot(u, m);
  }

  lemma SessionAmong(log: seq<Event>, before: seq<Event>, after: seq<Event>, now: nat)
    ensures SessionIn(log, log + (before + Carried(now) + after))
  {
    var all := log + (before + Carried(now) + after);
    assert Carried(now)[3] == SessionBegins(true, now);
    assert all[|log|..] == before + Carried(now) + after;
    assert (before + Carried(now) + after)[|before| + 3] == SessionBegins(true, now);
  }

  lemma NoSessionAmong(log: seq<Event>, a: bool, b: bool)
    ensures !SessionIn(log, log + BlockedEvents(a) + BlockedEvents(b))
  {
    assert (log + BlockedEvents(a) + BlockedEvents(b))[|log|..] == BlockedEvents(a) + BlockedEvents(b);
  }
}
