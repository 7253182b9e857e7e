/** A life of the machine request by request: it boots with all three partitions, and gets as far as the end of
    its first session, every request so far carried out. What happens then is up to the setup. */
module Story {
  import opened Common
  import opened Outside
  import opened MachineSpec
  import S = SnapshotSpec
  import G = GadgetSpec
  import L = LedgerSpec
  import Scan
  import MachineLaws

  /** The clip directory is empty at first, and holds one clip later on. */
  const Recording: (nat, string) -> Option<seq<string>> :=
    (now, path) => if path != "TeslaCam/SavedClips" then None else Some(if now < 87 then [] else ["clip.mp4"])

  const Clip := "TeslaCam/SavedClips" + "/" + "clip.mp4"

  /** Archiving by rsync, and music to sync or not. */
  function Plain(env: Env, music: bool): Setup {
    Setup(env, L.Rsync, 0, ["u"], true, false, false, false, music, false, false, Recording)
  }

  /** From request a up to request b everything is carried out. */
  ghost predicate Calm(env: Env, a: nat, b: nat) {
    forall i :: a <= i < b ==> env(i) == Done(0)
  }

  ghost predicate Begins(u: Setup) { u == Plain(u.env, u.syncMusic) && Calm(u.env, 0, 78) }

  function At(clock: nat): Proc { Proc(clock, false) }

  lemma StoryIsLawful(u: Setup)
    requires Begins(u)
    ensures MachineLaws.Lawful(u)
  {
    hide Calm;
    assert Scan.SlashFree("clip.mp4");
    forall now: nat, path: string ensures Scan.Lawful(Scan.Dir(path, true, u.listing(now, path))) {}
  }

  lemma OnlyTheFirst(a: Scan.Dir, b: Scan.Dir, c: Scan.Dir, d: Scan.Dir)
    requires !b.enabled && !c.enabled && !d.enabled
    ensures Scan.ScanAll([a, b, c, d]) == Scan.Listing(a)
  {
    assert Scan.Listing(b) == Scan.Listing(c) == Scan.Listing(d) == [];
    hide Scan.Listing;
    assert [d][1..] == [] && [c, d][1..] == [d] && [b, c, d][1..] == [c, d] && [a, b, c, d][1..] == [b, c, d];
    assert Scan.ScanAll([]) == [];
    assert Scan.ScanAll([d]) == [];
    assert Scan.ScanAll([c, d]) == [];
    assert Scan.ScanAll([b, c, d]) == [];
  }

  lemma ClipIsScanned(u: Setup, now: nat)
    requires u == Plain(u.env, u.syncMusic)
    ensures Scan.ScanAll(Dirs(u, now)) == if now < 87 then [] else [Clip]
  {
    var dirs := Dirs(u, now);
    OnlyTheFirst(dirs[0], dirs[1], dirs[2], dirs[3]);
    assert dirs == [dirs[0], dirs[1], dirs[2], dirs[3]];
  }

  // ------------------------------------------------------------ the boot

  predicate Going(c: G.Point, clock: nat) { c.ok && c.p == At(clock) && c.t.udc == "" }

  lemma CalmWithin(env: Env, a: nat, b: nat)
    requires Calm(env, a, b)
    ensures forall i: nat, j: nat :: a <= i <= j <= b ==> Calm(env, i, j)
  {
  }

  lemma MkdirTakes(c: G.Point, n: G.Node, env: Env, clock: nat)
    requires Going(c, clock) && Calm(env, clock, clock + 1) && !G.Has(c.t, n)
    ensures var r := G.Mkdir(c, n, env);
      && Going(r, clock + 1)
      && r.t == if n.Lun? then c.t.(luns := c.t.luns + [n.index]) else c.t.(nodes := c.t.nodes + {n})
  {
  }

  lemma MkdirAgain(c: G.Point, n: G.Node, env: Env)
    requires G.Has(c.t, n)
    ensures G.Mkdir(c, n, env) == c
  {
  }

  lemma WriteTakes(c: G.Point, n: G.Node, name: string, value: string, env: Env, clock: nat)
    requires Going(c, clock) && Calm(env, clock, clock + 1) && G.Has(c.t, n)
    ensures var r := G.Write(c, n, name, value, env); Going(r, clock + 1) && r.t == c.t.(attrs := r.t.attrs)
  {
  }

  lemma {:induction false} WriteAllTakes(c: G.Point, n: G.Node, items: seq<(string, string)>, env: Env, clock: nat)
    requires Going(c, clock) && Calm(env, clock, clock + |items|) && G.Has(c.t, n)
    ensures var r := G.WriteAll(c, n, items, env); Going(r, clock + |items|) && r.t == c.t.(attrs := r.t.attrs)
    decreases |items|
  {
    hide G.Write;
    if items != [] {
      WriteTakes(c, n, items[0].0, items[0].1, env, clock);
      WriteAllTakes(G.Write(c, n, items[0].0, items[0].1, env), n, items[1..], env, clock + 1);
    }
  }

  lemma PopulateTakes(clock: nat, env: Env)
    requires Calm(env, clock, clock + 15)
    ensures G.Populate(At(clock), G.Absent(0), env) == G.Point(At(clock + 15), G.Configured(0), true)
  {
    hide G.Mkdir, G.Write, G.WriteAll, G.Configured, Calm;
    CalmWithin(env, clock, clock + 15);
    G.PopulateBuilds(At(clock), 0, env);
    var c0 := G.Point(At(clock), G.Absent(0), true);
    MkdirTakes(c0, G.Root, env, clock);
    var c1 := G.Mkdir(c0, G.Root, env);
    WriteAllTakes(c1, G.Root, G.Descriptors, env, clock + 1);
    var c2 := G.WriteAll(c1, G.Root, G.Descriptors, env);
    MkdirAgain(c2, G.Root, env);
    MkdirTakes(c2, G.Strings, env, clock + 5);
    var c3 := G.Mkdir(c2, G.Strings, env);
    WriteAllTakes(c3, G.Strings, G.EnglishStrings, env, clock + 6);
    var c4 := G.WriteAll(c3, G.Strings, G.EnglishStrings, env);
    MkdirAgain(c4, G.Root, env);
    MkdirTakes(c4, G.Config, env, clock + 9);
    var c5 := G.Mkdir(c4, G.Config, env);
    MkdirTakes(c5, G.ConfigStrings, env, clock + 10);
    var c6 := G.Mkdir(c5, G.ConfigStrings, env);
    WriteTakes(c6, G.Config, "MaxPower", "250", env, clock + 11);
    var c7 := G.Write(c6, G.Config, "MaxPower", "250", env);
    WriteTakes(c7, G.ConfigStrings, "configuration", "TeslaUSB", env, clock + 12);
    var c8 := G.Write(c7, G.ConfigStrings, "configuration", "TeslaUSB", env);
    MkdirAgain(c8, G.Root, env);
    MkdirTakes(c8, G.Function, env, clock + 13);
    WriteTakes(G.Mkdir(c8, G.Function, env), G.Function, "stall", "1", env, clock + 14);
  }

  /** The directories of a gadget that is there but not bound, with its luns. */
  ghost predicate Standing(t: G.Tree, g: G.Gadget, links: seq<string>) {
    && G.Root in t.nodes && G.Config in t.nodes && G.Function in t.nodes && t.links == links && t.udc == ""
    && (forall i :: i in t.luns <==> 0 <= i < |g.luns|)
  }

  lemma AddLunTakes(clock: nat, t: G.Tree, g: G.Gadget, device: string, inquiry: string, env: Env)
    requires Calm(env, clock, clock + 6) && Standing(t, g, [])
    ensures var r := G.AddLUN(At(clock), t, g, device, inquiry, env);
      && r.ok && r.p == At(clock + 6) && r.t == t.(luns := t.luns + [|g.luns|], attrs := r.t.attrs)
      && Standing(r.t, r.g, []) && r.g.active == g.active && |r.g.luns| == |g.luns| + 1
  {
    hide G.Mkdir, G.Write, Calm;
    CalmWithin(env, clock, clock + 6);
    var n := G.Lun(|g.luns|);
    var c0 := G.Point(At(clock), t, true);
    MkdirAgain(c0, G.Root, env);
    MkdirAgain(c0, G.Function, env);
    MkdirTakes(c0, n, env, clock);
    var c1 := G.Mkdir(c0, n, env);
    WriteTakes(c1, n, "file", device, env, clock + 1);
    var c2 := G.Write(c1, n, "file", device, env);
    WriteTakes(c2, n, "inquiry_string", inquiry, env, clock + 2);
    var c3 := G.Write(c2, n, "inquiry_string", inquiry, env);
    WriteTakes(c3, n, "removable", "1", env, clock + 3);
    var c4 := G.Write(c3, n, "removable", "1", env);
    WriteTakes(c4, n, "ro", "0", env, clock + 4);
    WriteTakes(G.Write(c4, n, "ro", "0", env), n, "nofua", "0", env, clock + 5);
  }

  lemma {:induction false} AddAllTakes(clock: nat, t: G.Tree, g: G.Gadget, parts: seq<(string, string)>, env: Env)
    requires Calm(env, clock, clock + 7 * |parts|) && Standing(t, g, [])
    ensures var r := G.AddAll(At(clock), t, g, parts, env);
      && r.ok && r.p == At(clock + 7 * |parts|)
      && Standing(r.t, r.g, []) && r.g.active == g.active && |r.g.luns| == |g.luns| + |parts|
    decreases |parts|
  {
    hide G.AddLUN, Standing;
    if parts != [] {
      AddLunTakes(clock + 1, t, g, parts[0].0, parts[0].1, env);
      var r := G.AddLUN(At(clock + 1), t, g, parts[0].0, parts[0].1, env);
      AddAllTakes(clock + 7, r.t, r.g, parts[1..], env);
    }
  }

  lemma {:induction false} NofuaAllTakes(clock: nat, t: G.Tree, g: G.Gadget, i: nat, env: Env)
    requires i <= |g.luns| && Calm(env, clock, clock + |g.luns| - i) && Standing(t, g, [])
    ensures var r := G.NofuaAll(At(clock), t, g, i, env);
      && r.ok && r.p == At(clock + |g.luns| - i) && Standing(r.t, r.g, []) && r.g.active == g.active
    decreases |g.luns| - i
  {
    if i < |g.luns| {
      var r := G.SetNofua(At(clock), t, g, i, true, env);
      assert r.ok && r.p == At(clock + 1) && r.t == t.(attrs := r.t.attrs);
      NofuaAllTakes(clock + 1, r.t, r.g, i + 1, env);
    }
  }

  lemma OneController()
    ensures G.FindUdc(["u"]) == "u"
  {
    assert ["u"][1..] == [];
  }

  /** What the boot presents. */
  ghost function Shown(u: Setup): G.Call { G.Present(At(4), G.Absent(0), Partitions, ["u"], u.env) }

  lemma PresentTakes(u: Setup)
    requires Calm(u.env, 4, 49)
    ensures var c := Shown(u);
      && c.ok && c.p == At(49) && c.g.active && c.t.udc == "u"
      && Standing(c.t.(udc := ""), c.g, [G.FunctionLink])
  {
    hide G.Populate, G.AddAll, G.NofuaAll, G.Configured, G.FindUdc, Calm;
    CalmWithin(u.env, 4, 49);
    OneController();
    assert u.env(4) == Done(0) && Calm(u.env, 44, 49) by { CalmAt(u.env, 4, 49, 4); }
    assert G.TeardownExisting(At(4), G.Absent(0), u.env) == (At(5), G.Absent(0)) by { hide G.RemoveConfigfsTree; }
    PopulateTakes(5, u.env);
    ConfiguredNodes();
    var g0 := G.Gadget([], false);
    AddAllTakes(20, G.Configured(0), g0, Partitions, u.env);
    var a := G.AddAll(At(20), G.Configured(0), g0, Partitions, u.env);
    NofuaAllTakes(41, a.t, a.g, 0, u.env);
    var n := G.NofuaAll(At(41), a.t, a.g, 0, u.env);
    FirstActivation(n.t, n.g, u.env);
  }

  lemma CalmAt(env: Env, a: nat, b: nat, i: nat)
    requires Calm(env, a, b) && a <= i < b
    ensures env(i) == Done(0)
  {
  }

  lemma FirstActivation(t: G.Tree, g: G.Gadget, env: Env)
    requires Calm(env, 44, 49) && Standing(t, g, [])
    ensures G.Activate(At(44), t, g, ["u"], env)
      == G.Call(At(49), t.(links := [G.FunctionLink], udc := "u"), g.(active := true), true)
  {
    hide G.FindUdc;
    OneController();
  }

  lemma ConfiguredNodes()
    ensures Standing(G.Configured(0), G.Gadget([], false), [])
  {
  }

  // ------------------------------------------------------------ the machine, turn by turn

  const NoKernel := S.Kernel(None, false, {}, 0, 0)
  const Held := S.Kernel(Some(0), true, {0}, 0, 0)
  const Taken := S.Snap(Some(0), false)
  const TakenThere := S.Snap(Some(0), true)

  /** The machine of this life; up: whether the car has its drive. */
  ghost function Base(u: Setup, clock: nat, state: State, log: seq<Event>, up: bool, k: S.Kernel,
                      snap: Option<S.Snap>): Machine
  {
    var c := Shown(u);
    Init.(state := state, p := At(clock), log := log, k := k, snap := snap,
          t := if up then c.t else c.t.(udc := ""), gad := Some(c.g.(active := up)))
  }

  function Next(m: Machine): Machine { m.(p := At(m.p.clock + 1)) }

  /** A turn whose context is alive, and that survives. */
  lemma TurnIs(u: Setup, m: Machine, r: Machine)
    requires !m.p.dead && u.env(m.p.clock) == Done(0) && Arm(u, Next(m)) == r && !r.p.dead
    ensures Step(u, m) == r
  {
    hide Arm;
  }

  const Log1: seq<Event> := [Booted(true)]
  const Log3: seq<Event> := Log1 + [Waiting(true)]
  const Log5: seq<Event> := Log3 + [Deactivated]
  const Log6: seq<Event> := Log5 + [FsckBegins(false)]
  const Log7: seq<Event> := Log6 + [ActivateTried(true)]
  const Log8: seq<Event> :=
    Log7 + [SnapMounted] + [WakeStarted] + [Connected] + [SessionBegins(true, 75)] + [Disconnected] + [WakeStopped]

  ghost function After1(u: Setup): Machine { Base(u, 49, StateGadgetUp, Log1, true, NoKernel, None) }
  ghost function After2(u: Setup): Machine { Base(u, 50, StateWaitingForWifi, Log1, true, NoKernel, None) }
  ghost function After3(u: Setup): Machine { Base(u, 52, StatePreArchive, Log3, true, NoKernel, None) }
  ghost function After4(u: Setup): Machine { Base(u, 54, StateSnapshot, Log3, true, NoKernel, None) }
  ghost function After5(u: Setup): Machine { Base(u, 63, StateFsck, Log5, false, Held, Some(Taken)) }
  ghost function After6(u: Setup): Machine { Base(u, 65, StateReconnect, Log6, false, Held, Some(Taken)) }
  ghost function After7(u: Setup): Machine { Base(u, 70, StateArchiving, Log7, true, Held, Some(Taken)) }

  lemma FirstTurn(u: Setup)
    requires Begins(u)
    ensures Step(u, Init) == After1(u)
  {
    hide G.Present, Shown, Step, RunArchive, RunMediaSync, CreateSnapshot, CleanupSnapshot, Activate;
    PresentTakes(u);
    var m := Next(Init);
    assert S.Unmount(At(1), Init.k, u.env) == (At(2), Init.k, true);
    assert S.Cleanup(At(2), Init.k, u.env) == (At(4), Init.k);
    var g := Shown(u);
    assert g == G.Present(At(4), G.Absent(0), Partitions, ["u"], u.env) by { ShownIs(u); }
    assert Boot(u, m)
        == (Say(m.(p := g.p, k := m.k, t := g.t, gad := Some(g.g), calm := m.k.faults), Booted(g.ok)), g.ok);
    assert [] + [Booted(true)] == Log1;
    TurnIs(u, Init, After1(u));
  }

  lemma ShownIs(u: Setup)
    ensures Shown(u) == G.Present(At(4), G.Absent(0), Partitions, ["u"], u.env)
  {
  }

  lemma SecondTurn(u: Setup)
    requires Begins(u)
    ensures Step(u, After1(u)) == After2(u)
  {
    hide Step, Shown;
    TurnIs(u, After1(u), After2(u));
  }

  lemma ThirdTurn(u: Setup)
    requires Begins(u)
    ensures Step(u, After2(u)) == After3(u)
  {
    hide Step, Shown;
    PresentTakes(u);
    TurnIs(u, After2(u), After3(u));
  }

  lemma FourthTurn(u: Setup)
    requires Begins(u)
    ensures Step(u, After3(u)) == After4(u)
  {
    hide Step, Shown;
    TurnIs(u, After3(u), After4(u));
  }

  lemma CreateTakes(env: Env)
    requires Calm(env, 56, 63)
    ensures S.Create(At(56), NoKernel, env) == S.Point(At(63), Held, Taken, true)
  {
    hide S.Release;
    assert S.Cleanup(At(56), NoKernel, env) == (At(58), NoKernel);
  }

  lemma DeactivateTakes(u: Setup, t: G.Tree, g: G.Gadget, clock: nat)
    requires u.env(clock) == Done(0) && G.Root in t.nodes
    ensures G.Deactivate(At(clock), t, g, u.env) == G.Call(At(clock + 1), t.(udc := ""), g.(active := false), true)
  {
  }

  lemma FifthTurn(u: Setup)
    requires Begins(u)
    ensures Step(u, After4(u)) == After5(u)
  {
    hide Step, Boot, RunFsck, RunArchive, RunMediaSync, CleanupSnapshot, Activate, Shown, S.Create, G.Deactivate;
    PresentTakes(u);
    DeactivateTakes(u, Shown(u).t, Shown(u).g.(active := true), 55);
    CreateTakes(u.env);
    TurnIs(u, After4(u), After5(u));
  }

  lemma SixthTurn(u: Setup)
    requires Begins(u)
    ensures Step(u, After5(u)) == After6(u)
  {
    hide Step, Boot, CreateSnapshot, RunArchive, RunMediaSync, CleanupSnapshot, Activate, Shown;
    PresentTakes(u);
    TurnIs(u, After5(u), After6(u));
  }

  lemma SecondActivation(t: G.Tree, g: G.Gadget, env: Env)
    requires Calm(env, 66, 70) && Standing(t, g, [G.FunctionLink])
    ensures G.Activate(At(66), t, g, ["u"], env) == G.Call(At(70), t.(udc := "u"), g.(active := true), true)
  {
    hide G.FindUdc;
    OneController();
  }

  lemma SeventhTurn(u: Setup)
    requires Begins(u)
    ensures Step(u, After6(u)) == After7(u)
  {
    hide Step, Boot, CreateSnapshot, RunArchive, RunMediaSync, CleanupSnapshot, Shown, G.Activate, Standing;
    PresentTakes(u);
    SecondActivation(Shown(u).t.(udc := ""), Shown(u).g.(active := false), u.env) by { StandsInactive(u); }
    assert Shown(u).t.(udc := "").(udc := "u") == Shown(u).t;
    TurnIs(u, After6(u), After7(u));
  }

  lemma StandsInactive(u: Setup)
    requires Begins(u)
    ensures Standing(Shown(u).t.(udc := ""), Shown(u).g.(active := false), [G.FunctionLink])
  {
    hide Shown, Calm;
    CalmWithin(u.env, 0, 78);
    PresentTakes(u);
  }

  lemma SevenTurns(u: Setup)
    requires Begins(u)
    ensures Run(u, Init, 7) == After7(u)
  {
    hide Step, After1, After2, After3, After4, After5, After6, After7, Begins;
    FirstTurn(u);
    SecondTurn(u);
    ThirdTurn(u);
    FourthTurn(u);
    FifthTurn(u);
    SixthTurn(u);
    SeventhTurn(u);
    assert Run(u, Init, 0) == Init;
    assert Run(u, Init, 1) == Step(u, Init);
    assert Run(u, Init, 2) == Step(u, Run(u, Init, 1));
    assert Run(u, Init, 3) == Step(u, Run(u, Init, 2));
    assert Run(u, Init, 4) == Step(u, Run(u, Init, 3));
    assert Run(u, Init, 5) == Step(u, Run(u, Init, 4));
    assert Run(u, Init, 6) == Step(u, Run(u, Init, 5));
  }

  // ------------------------------------------------------------ the session

  /** There is nothing to archive yet: the session opens and closes. */
  ghost function Closed(u: Setup): L.Ledger { L.RunSession(L.Rsync, At(75), L.Empty, [], u.env).l }

  lemma SessionTakes(u: Setup)
    requires Begins(u)
    ensures L.RunSession(L.Rsync, At(75), L.Empty, [], u.env).p == At(77)
    ensures Closed(u).h.attempts == multiset{} && Closed(u).h.delivered == {} && Closed(u).db.files == map[]
  {
  }

  lemma TransferTakes(u: Setup, m: Machine)
    requires Begins(u) && m.p == At(75) && m.l == L.Empty && Bound(m)
    ensures Transfer(u, m) == m.(p := At(77), l := Closed(u), log := m.log + [SessionBegins(true, 75)])
  {
    hide L.RunSession, Dirs, Scan.ScanAll;
    ClipIsScanned(u, 75);
    SessionTakes(u);
  }

  lemma CarryTakes(u: Setup, m: Machine)
    requires Begins(u) && m.p == At(74) && m.l == L.Empty && Bound(m)
    ensures WithConnection(u, m, false)
      == m.(p := At(77), l := Closed(u), log := m.log + [Connected] + [SessionBegins(true, 75)] + [Disconnected])
  {
    hide Transfer, Sync, Closed;
    TransferTakes(u, m.(p := At(75), log := m.log + [Connected]));
  }

  /** The eighth turn, up to the unmount of the snapshot. */
  ghost function Unwound(u: Setup): Machine {
    Base(u, 78, StateArchiving, Log8, true, Held.(mounts := 1), Some(TakenThere)).(l := Closed(u))
  }

  lemma MountTakes(env: Env)
    requires Calm(env, 71, 73)
    ensures S.Mount(At(71), Held, Taken, env) == S.Point(At(73), Held.(mounts := 1), TakenThere, true)
  {
  }

  lemma ArchiveTakes(u: Setup)
    requires Begins(u)
    ensures RunArchive(u, Next(After7(u))) == SnapUnmount(u, Unwound(u))
  {
    hide Closed, WithConnection, S.Mount, S.Unmount, Shown, SnapUnmount;
    PresentTakes(u);
    MountTakes(u.env);
    var m := Next(After7(u));
    var m1 := m.(p := At(73), k := Held.(mounts := 1), snap := Some(TakenThere));
    var m2 :=
      Base(u, 74, StateArchiving, Log7 + [SnapMounted] + [WakeStarted], true, Held.(mounts := 1), Some(TakenThere));
    assert WakeStart(u, Say(m1, SnapMounted)) == m2;
    CarryTakes(u, m2);
    assert WakeStop(u, WithConnection(u, m2, false)) == Unwound(u);
  }

  lemma EighthTurn(u: Setup, r: Machine)
    requires Begins(u) && r == SnapUnmount(u, Unwound(u)) && !r.p.dead
    ensures Run(u, Init, 8) == r.(state := StateMediaSync)
  {
    hide RunArchive, SnapUnmount, Unwound, Shown, Step, Boot, CreateSnapshot, RunMediaSync, CleanupSnapshot, Activate;
    SevenTurns(u);
    ArchiveTakes(u);
    TurnIs(u, After7(u), r.(state := StateMediaSync));
    assert Run(u, Init, 8) == Step(u, Run(u, Init, 7));
  }
}
