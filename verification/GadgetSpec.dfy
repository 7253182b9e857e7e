/** internal/gadget/gadget.go over a model of configfs: directories that may only be removed after
    their children, a function that may not be removed while a config links it, and nothing
    structural that may be removed while the gadget is bound to a controller. */
module GadgetSpec {
  import opened Common
  import opened Outside

  /** The directories the daemon makes. The default groups between them (functions, configs,
      strings) come and go with their parents and are not nodes of their own. */
  datatype Node = Root | Strings | Config | ConfigStrings | Function | Lun(index: nat)

  /** nodes: the directories present other than luns; luns: the lun.N directories in listing order;
      links: the *.usb0 links of c.1, each naming the function; attrs: attribute files;
      udc: contents of UDC, "" when unbound; faults: teardown requests refused for no reason. */
  datatype Tree = Tree(nodes: set<Node>, luns: seq<nat>, links: seq<string>,
                       attrs: map<(Node, string), string>, udc: string, faults: nat)

  function Absent(faults: nat): Tree { Tree({}, [], [], map[], "", faults) }

  predicate Has(t: Tree, n: Node) {
    if n.Lun? then n.index in t.luns else n in t.nodes
  }

  /** Every tree a crash can leave behind: any part of the structure, any luns and links, any
      attributes, bound or not - but no orphan. */
  predicate Sound(t: Tree) {
    && Nested(t.nodes)
    && (t.luns != [] ==> Function in t.nodes)
    && (t.links != [] ==> Config in t.nodes && Function in t.nodes)
    && (t.udc != "" ==> Root in t.nodes)
    && Owned(t)
    && Distinct(t.luns)
  }

  /** Every directory has its parent. */
  predicate Nested(nodes: set<Node>) {
    && (forall n :: n in nodes ==> !n.Lun? && (n == Root || Root in nodes))
    && (ConfigStrings in nodes ==> Config in nodes)
  }

  /** Every attribute file is in a directory that is there. */
  predicate Owned(t: Tree) {
    forall a :: a in t.attrs ==> Has(t, a.0)
  }

  datatype Point = Point(p: Proc, t: Tree, ok: bool)

  // ------------------------------------------------------------ configfs requests

  function Mkdir(c: Point, n: Node, env: Env): Point {
    if !c.ok || Has(c.t, n) then c else
      var a := Ask(c.p, env);
      if !a.ok then Point(a.p, c.t, false)
      else if n.Lun? then Point(a.p, c.t.(luns := c.t.luns + [n.index]), true)
      else Point(a.p, c.t.(nodes := c.t.nodes + {n}), true)
  }

  function MkdirAll(c: Point, n: Node, env: Env): Point {
    var r := Mkdir(c, Root, env);
    match n
    case Root => r
    case ConfigStrings => Mkdir(Mkdir(r, Config, env), n, env)
    case Lun(_) => Mkdir(Mkdir(r, Function, env), n, env)
    case _ => Mkdir(r, n, env)
  }

  /** An attribute write; "stall" cannot be rewritten while the gadget is bound. */
  function Write(c: Point, n: Node, name: string, value: string, env: Env): Point {
    if !c.ok then c else
      var a := Ask(c.p, env);
      if a.ok && Has(c.t, n) && (name == "stall" ==> c.t.udc == "")
      then Point(a.p, c.t.(attrs := c.t.attrs[(n, name) := value]), true)
      else Point(a.p, c.t, false)
  }

  function WriteAll(c: Point, n: Node, items: seq<(string, string)>, env: Env): Point
    decreases |items|
  {
    if items == [] then c
    else WriteAll(Write(c, n, items[0].0, items[0].1, env), n, items[1..], env)
  }

  /** Writing a controller's name: refused when one is bound already or no function is linked. */
  function Bind(c: Point, u: string, env: Env): Point {
    if !c.ok then c else
      var a := Ask(c.p, env);
      if a.ok && Root in c.t.nodes && c.t.links != [] && c.t.udc == "" then Point(a.p, c.t.(udc := u), true)
      else Point(a.p, c.t, false)
  }

  /** Writing "" to UDC, which is a no-op when nothing is bound. */
  function Unbind(c: Point, env: Env): Point {
    if !c.ok then c else
      var a := Ask(c.p, env);
      if a.ok && Root in c.t.nodes then Point(a.p, c.t.(udc := ""), true)
      else Point(a.p, c.t, false)
  }

  /** Reading UDC: the contents, or "" when the file cannot be read. */
  function ReadUdc(p: Proc, t: Tree, env: Env): (Proc, string) {
    var a := Ask(p, env);
    (a.p, if a.ok && Root in t.nodes then t.udc else "")
  }

  /** A best-effort removal: refused while disabled; refused while enabled is a fault. */
  function Removal(p: Proc, t: Tree, env: Env, enabled: bool, after: Tree): (r: (Proc, Tree)) {
    var a := Ask(p, env);
    if a.ok && enabled then (a.p, after)
    else if enabled && !a.p.dead then (a.p, t.(faults := t.faults + 1))
    else (a.p, t)
  }

  function Without<T(==, !new)>(s: seq<T>, x: T): (r: seq<T>)
    ensures forall y :: y in r <==> y in s && y != x
    ensures |r| <= |s|
    ensures Distinct(s) ==> Distinct(r)
  {
    if s == [] then [] else
      var rest := Without(s[1..], x);
      assert Distinct(s) ==> Distinct(s[1..]) && s[0] !in s[1..];
      if s[0] == x then rest else [s[0]] + rest
  }

  function Forget(attrs: map<(Node, string), string>, n: Node): map<(Node, string), string> {
    map a | a in attrs && a.0 != n :: attrs[a]
  }

  function Unlink(p: Proc, t: Tree, l: string, env: Env): (Proc, Tree) {
    Removal(p, t, env, l in t.links && t.udc == "", t.(links := Without(t.links, l)))
  }

  predicate Childless(t: Tree, n: Node) {
    match n
    case Root => Strings !in t.nodes && Config !in t.nodes && Function !in t.nodes && t.udc == ""
    case Config => ConfigStrings !in t.nodes && t.links == []
    case Function => t.luns == [] && t.links == []
    case _ => true
  }

  function Rmdir(p: Proc, t: Tree, n: Node, env: Env): (Proc, Tree) {
    Removal(p, t, env, Has(t, n) && Childless(t, n),
            if n.Lun? then t.(luns := Without(t.luns, n.index), attrs := Forget(t.attrs, n))
            else t.(nodes := t.nodes - {n}, attrs := Forget(t.attrs, n)))
  }

  // ------------------------------------------------------------ teardown

  function ClearUdc(p: Proc, t: Tree, env: Env): (Proc, Tree) {
    var a := Ask(p, env);
    if !a.ok then (a.p, if t.udc != "" && !a.p.dead then t.(faults := t.faults + 1) else t)
    else if Root !in t.nodes || t.udc == "" then (a.p, t)
    else Removal(a.p, t, env, true, t.(udc := ""))
  }

  function UnlinkAll(p: Proc, t: Tree, ls: seq<string>, env: Env): (Proc, Tree)
    decreases |ls|
  {
    if ls == [] then (p, t) else
      var r := Unlink(p, t, ls[0], env);
      UnlinkAll(r.0, r.1, ls[1..], env)
  }

  function RmdirLuns(p: Proc, t: Tree, ids: seq<nat>, env: Env): (Proc, Tree)
    decreases |ids|
  {
    if ids == [] then (p, t) else
      var r := Rmdir(p, t, Lun(ids[0]), env);
      RmdirLuns(r.0, r.1, ids[1..], env)
  }

  /** Deepest first, parents after their children. */
  const Doomed: seq<Node> := [Function, ConfigStrings, Config, Strings, Root]

  function RmdirAll(p: Proc, t: Tree, ns: seq<Node>, env: Env): (Proc, Tree)
    decreases |ns|
  {
    if ns == [] then (p, t) else
      var r := Rmdir(p, t, ns[0], env);
      RmdirAll(r.0, r.1, ns[1..], env)
  }

  function RemoveConfigfsTree(p: Proc, t: Tree, env: Env): (Proc, Tree) {
    var a := UnlinkAll(p, t, t.links, env);
    var b := RmdirLuns(a.0, a.1, a.1.luns, env);
    RmdirAll(b.0, b.1, Doomed, env)
  }

  /** os.Stat of the gadget directory: a refused look at an existing tree is a fault. */
  function Stat(p: Proc, t: Tree, env: Env): (r: (Proc, Tree, bool)) {
    var a := Ask(p, env);
    if !a.ok then (a.p, if Root in t.nodes && !a.p.dead then t.(faults := t.faults + 1) else t, false)
    else (a.p, t, Root in t.nodes)
  }

  function TeardownExisting(p: Proc, t: Tree, env: Env): (Proc, Tree) {
    var s := Stat(p, t, env);
    if !s.2 then (s.0, s.1)
    else
      var u := ClearUdc(s.0, s.1, env);
      RemoveConfigfsTree(u.0, u.1, env)
  }

  // ------------------------------------------------------------ the Gadget object

  datatype LUN = LUN(device: string, inquiry: string, nofua: bool)

  datatype Gadget = Gadget(luns: seq<LUN>, active: bool)

  datatype Call = Call(p: Proc, t: Tree, g: Gadget, ok: bool)

  const Descriptors: seq<(string, string)> :=
    [("idVendor", "0x1d6b"), ("idProduct", "0x0104"), ("bcdUSB", "0x0200"), ("bcdDevice", "0x0100")]

  const EnglishStrings: seq<(string, string)> :=
    [("manufacturer", "Tesla"), ("product", "USB Drive"), ("serialnumber", "000000000001")]

  const FunctionLink := "mass_storage.usb0"

  /** Configure after its teardown. */
  function Populate(p: Proc, t: Tree, env: Env): Point {
    var c1 := MkdirAll(Point(p, t, true), Root, env);
    var c2 := WriteAll(c1, Root, Descriptors, env);
    var c3 := MkdirAll(c2, Strings, env);
    var c4 := WriteAll(c3, Strings, EnglishStrings, env);
    var c5 := MkdirAll(c4, ConfigStrings, env);
    var c6 := Write(c5, Config, "MaxPower", "250", env);
    var c7 := Write(c6, ConfigStrings, "configuration", "TeslaUSB", env);
    var c8 := MkdirAll(c7, Function, env);
    Write(c8, Function, "stall", "1", env)
  }

  function Configure(p: Proc, t: Tree, env: Env): Point {
    var d := TeardownExisting(p, t, env);
    Populate(d.0, d.1, env)
  }

  function WriteLun(c: Point, i: nat, device: string, inquiry: string, env: Env): Point {
    var c1 := Write(c, Lun(i), "file", device, env);
    var c2 := Write(c1, Lun(i), "inquiry_string", inquiry, env);
    var c3 := Write(c2, Lun(i), "removable", "1", env);
    var c4 := Write(c3, Lun(i), "ro", "0", env);
    Write(c4, Lun(i), "nofua", "0", env)
  }

  function AddLUN(p: Proc, t: Tree, g: Gadget, device: string, inquiry: string, env: Env): Call {
    var c := WriteLun(MkdirAll(Point(p, t, true), Lun(|g.luns|), env), |g.luns|, device, inquiry, env);
    Call(c.p, c.t, if c.ok then g.(luns := g.luns + [LUN(device, inquiry, false)]) else g, c.ok)
  }

  function Flag(enabled: bool): string { if enabled then "1" else "0" }

  function SetNofua(p: Proc, t: Tree, g: Gadget, lun: int, enabled: bool, env: Env): Call {
    if lun < 0 || lun >= |g.luns| then Call(p, t, g, false) else
      var c := Write(Point(p, t, true), Lun(lun), "nofua", Flag(enabled), env);
      Call(c.p, c.t, if c.ok then g.(luns := g.luns[lun := g.luns[lun].(nofua := enabled)]) else g, c.ok)
  }

  /** Creating the link unless it is there already. An unreadable link counts as there. */
  function EnsureLink(p: Proc, t: Tree, env: Env): Point {
    var a := Ask(p, env);   // Lstat
    if a.p.dead then Point(a.p, t, false)
    else if !a.ok || FunctionLink in t.links then Point(a.p, t, true)
    else
      var b := Ask(a.p, env);
      if b.ok && Config in t.nodes && Function in t.nodes
      then Point(b.p, t.(links := t.links + [FunctionLink]), true)
      else Point(b.p, t, false)
  }

  predicate ContainsDummy(name: string) {
    "dummy" <= name || (name != "" && ContainsDummy(name[1..]))
  }

  /** findUDC: the first controller that is not a dummy, else the first one. */
  function FirstReal(names: seq<string>): string {
    if names == [] then "" else if !ContainsDummy(names[0]) then names[0] else FirstReal(names[1..])
  }

  function FindUdc(names: seq<string>): string {
    if names == [] then "" else if FirstReal(names) != "" then FirstReal(names) else names[0]
  }

  /** Activate after the link: `names` is the listing of /sys/class/udc at the time of the call. */
  function Attach(p: Proc, t: Tree, g: Gadget, names: seq<string>, env: Env): Call {
    var d := Ask(p, env);   // ReadDir
    if !d.ok || names == [] then Call(d.p, t, g, false) else
      var cur := ReadUdc(d.p, t, env);
      if cur.1 != "" && cur.1 == FindUdc(names) then Call(cur.0, t, g.(active := true), true)
      else
        var cl := if cur.1 != "" then ClearUdc(cur.0, t, env) else (cur.0, t);
        var b := Bind(Point(cl.0, cl.1, true), FindUdc(names), env);
        Call(b.p, b.t, if b.ok then g.(active := true) else g, b.ok)
  }

  function Activate(p: Proc, t: Tree, g: Gadget, names: seq<string>, env: Env): Call {
    var l := EnsureLink(p, t, env);
    if !l.ok then Call(l.p, l.t, g, false) else Attach(l.p, l.t, g, names, env)
  }

  function Deactivate(p: Proc, t: Tree, g: Gadget, env: Env): Call {
    var c := Unbind(Point(p, t, true), env);
    Call(c.p, c.t, if c.ok then g.(active := false) else g, c.ok)
  }

  // ------------------------------------------------------------ every state is sound

  lemma UnlinkAllKeeps(p: Proc, t: Tree, ls: seq<string>, env: Env)
    requires Sound(t)
    ensures var r := UnlinkAll(p, t, ls, env);
      && Sound(r.1) && r.1 == t.(links := r.1.links, faults := r.1.faults) && r.1.faults >= t.faults
      && (forall l :: l in r.1.links ==> l in t.links)
      && (p.dead ==> r == (p, t))
      && (!r.0.dead && r.1.faults == t.faults && t.udc == "" ==> forall l :: l in r.1.links ==> l !in ls)
    decreases |ls|
  {
    if ls != [] {
      var r := Unlink(p, t, ls[0], env);
      UnlinkAllKeeps(r.0, r.1, ls[1..], env);
    }
  }

  lemma RmdirKeeps(p: Proc, t: Tree, n: Node, env: Env)
    requires Sound(t)
    ensures var r := Rmdir(p, t, n, env);
      && Sound(r.1) && r.1.faults >= t.faults && r.1.udc == t.udc && r.1.links == t.links
      && (!n.Lun? ==> r.1.luns == t.luns) && (n.Lun? ==> r.1.nodes == t.nodes) && r.1.nodes <= t.nodes
      && (forall i :: i in r.1.luns ==> i in t.luns)
      && (p.dead ==> r == (p, t))
      && (!r.0.dead && r.1.faults == t.faults && Childless(t, n) ==> !Has(r.1, n))
  {
  }

  lemma RmdirLunsKeeps(p: Proc, t: Tree, ids: seq<nat>, env: Env)
    requires Sound(t)
    ensures var r := RmdirLuns(p, t, ids, env);
      && Sound(r.1) && r.1.nodes == t.nodes && r.1.links == t.links && r.1.udc == t.udc && r.1.faults >= t.faults
      && (forall i :: i in r.1.luns ==> i in t.luns)
      && (p.dead ==> r == (p, t))
      && (!r.0.dead && r.1.faults == t.faults ==> forall i :: i in r.1.luns ==> i !in ids)
    decreases |ids|
  {
    if ids != [] {
      var r := Rmdir(p, t, Lun(ids[0]), env);
      RmdirKeeps(p, t, Lun(ids[0]), env);
      RmdirLunsKeeps(r.0, r.1, ids[1..], env);
    }
  }

  lemma RmdirAllKeeps(p: Proc, t: Tree, ns: seq<Node>, env: Env)
    requires Sound(t)
    ensures var r := RmdirAll(p, t, ns, env);
      Sound(r.1) && r.1.faults >= t.faults && r.1.udc == t.udc && (p.dead ==> r == (p, t))
    decreases |ns|
  {
    if ns != [] {
      var r := Rmdir(p, t, ns[0], env);
      RmdirKeeps(p, t, ns[0], env);
      RmdirAllKeeps(r.0, r.1, ns[1..], env);
    }
  }

  /** The five removals, once links and luns are gone, remove everything there is. */
  lemma RmdirAllCompletes(p: Proc, t: Tree, env: Env)
    requires Sound(t) && t.links == [] && t.luns == [] && t.udc == ""
    ensures var r := RmdirAll(p, t, Doomed, env);
      !r.0.dead && r.1.faults == t.faults ==> r.1 == Absent(t.faults)
  {
    RmdirAllUnrolled(p, t, env);
    var r1 := Rmdir(p, t, Function, env);
    var r2 := Rmdir(r1.0, r1.1, ConfigStrings, env);
    var r3 := Rmdir(r2.0, r2.1, Config, env);
    var r4 := Rmdir(r3.0, r3.1, Strings, env);
    RmdirKeeps(p, t, Function, env);
    RmdirKeeps(r1.0, r1.1, ConfigStrings, env);
    RmdirKeeps(r2.0, r2.1, Config, env);
    RmdirKeeps(r3.0, r3.1, Strings, env);
    RmdirKeeps(r4.0, r4.1, Root, env);
    hide Rmdir, RmdirAll, Nested, Owned;
    var r := Rmdir(r4.0, r4.1, Root, env);
    if !r.0.dead && r.1.faults == t.faults {
      NothingLeft(r.1);
    }
  }

  lemma NothingLeft(t: Tree)
    requires Sound(t) && Root !in t.nodes && t.luns == []
    ensures t == Absent(t.faults)
  {
    assert t.nodes == {};
    assert t.attrs == map[];
  }

  lemma RmdirAllUnrolled(p: Proc, t: Tree, env: Env)
    ensures var r1 := Rmdir(p, t, Function, env);
      var r2 := Rmdir(r1.0, r1.1, ConfigStrings, env);
      var r3 := Rmdir(r2.0, r2.1, Config, env);
      var r4 := Rmdir(r3.0, r3.1, Strings, env);
      RmdirAll(p, t, Doomed, env) == Rmdir(r4.0, r4.1, Root, env)
  {
    hide Rmdir;
    var r1 := Rmdir(p, t, Function, env);
    var r2 := Rmdir(r1.0, r1.1, ConfigStrings, env);
    var r3 := Rmdir(r2.0, r2.1, Config, env);
    var r4 := Rmdir(r3.0, r3.1, Strings, env);
    assert Doomed[1..] == [ConfigStrings, Config, Strings, Root];
    assert [ConfigStrings, Config, Strings, Root][1..] == [Config, Strings, Root];
    assert [Config, Strings, Root][1..] == [Strings, Root];
    assert [Strings, Root][1..] == [Root];
    assert RmdirAll(r4.0, r4.1, [Root], env) == Rmdir(r4.0, r4.1, Root, env);
    assert RmdirAll(r3.0, r3.1, [Strings, Root], env) == RmdirAll(r4.0, r4.1, [Root], env);
    assert RmdirAll(r2.0, r2.1, [Config, Strings, Root], env) == RmdirAll(r3.0, r3.1, [Strings, Root], env);
  }

  lemma RemoveTreeMeaning(p: Proc, t: Tree, env: Env)
    requires Sound(t)
    ensures var r := RemoveConfigfsTree(p, t, env);
      && Sound(r.1) && r.1.faults >= t.faults && r.1.udc == t.udc && (p.dead ==> r == (p, t))
      && (t.udc == "" && !r.0.dead && r.1.faults == t.faults ==> r.1 == Absent(t.faults))
  {
    var a := UnlinkAll(p, t, t.links, env);
    UnlinkAllKeeps(p, t, t.links, env);
    var b := RmdirLuns(a.0, a.1, a.1.luns, env);
    RmdirLunsKeeps(a.0, a.1, a.1.luns, env);
    RmdirAllKeeps(b.0, b.1, Doomed, env);
    var r := RemoveConfigfsTree(p, t, env);
    assert r == RmdirAll(b.0, b.1, Doomed, env);
    if t.udc == "" && !r.0.dead && r.1.faults == t.faults {
      assert !b.0.dead && !a.0.dead;
      SomeLeft(a.1.links);
      SomeLeft(b.1.luns);
      RmdirAllCompletes(b.0, b.1, env);
    }
  }

  lemma SomeLeft<T>(s: seq<T>)
    ensures s == [] || exists x :: x in s
  {
    if s != [] { assert s[0] in s; }
  }

  lemma ClearUdcMeaning(p: Proc, t: Tree, env: Env)
    requires Sound(t)
    ensures var r := ClearUdc(p, t, env);
      && Sound(r.1) && r.1 == t.(udc := r.1.udc, faults := r.1.faults) && r.1.faults >= t.faults
      && (r.1.udc == t.udc || r.1.udc == "") && (p.dead ==> r == (p, t))
      && (!r.0.dead && r.1.faults == t.faults ==> r.1.udc == "")
  {
  }

  /** Restart convergence: from any tree a crash can leave - any part of the structure, any number
      of luns and links, bound or not - a teardown that meets no fault removes everything; and
      whatever it meets, it leaves such a tree again. */
  lemma TeardownRemovesAll(p: Proc, t: Tree, env: Env)
    requires Sound(t)
    ensures var r := TeardownExisting(p, t, env);
      && Sound(r.1) && r.1.faults >= t.faults && (p.dead ==> r == (p, t)) && (r.1.udc == t.udc || r.1.udc == "")
      && (!r.0.dead && r.1.faults == t.faults ==> r.1 == Absent(t.faults))
  {
    hide ClearUdc, RemoveConfigfsTree, Sound;
    if Root in t.nodes {
      TeardownOfTree(p, t, env);
    } else {
      TeardownOfNothing(p, t, env);
    }
  }

  lemma TeardownOfTree(p: Proc, t: Tree, env: Env)
    requires Sound(t) && Root in t.nodes
    ensures var r := TeardownExisting(p, t, env);
      && Sound(r.1) && r.1.faults >= t.faults && (p.dead ==> r == (p, t)) && (r.1.udc == t.udc || r.1.udc == "")
      && (!r.0.dead && r.1.faults == t.faults ==> r.1 == Absent(t.faults))
  {
    hide ClearUdc, RemoveConfigfsTree, Sound;
    var q := Ask(p, env).p;
    var u := ClearUdc(q, t, env);
    ClearUdcMeaning(q, t, env);
    RemoveTreeMeaning(u.0, u.1, env);
    FaultKeepsSound(t);
  }

  lemma FaultKeepsSound(t: Tree)
    requires Sound(t)
    ensures Sound(t.(faults := t.faults + 1))
  {
  }

  lemma TeardownOfNothing(p: Proc, t: Tree, env: Env)
    requires Sound(t) && Root !in t.nodes
    ensures t == Absent(t.faults) && var r := TeardownExisting(p, t, env); r.1 == t && (p.dead ==> r.0 == p)
  {
    NothingLeft(t);
  }

  // ------------------------------------------------------------ what a boot builds

  /** The tree of a configured gadget with the given luns. */
  ghost function Built(luns: seq<LUN>, faults: nat): Tree {
    var c := Configured(faults);
    c.(luns := Upto(|luns|), attrs := BuiltAttrs(c.attrs, luns))
  }

  function Upto(n: nat): seq<nat> { seq(n, i => i) }

  ghost function BuiltAttrs(attrs: map<(Node, string), string>, luns: seq<LUN>): map<(Node, string), string> {
    if luns == [] then attrs
    else LunAttrs(BuiltAttrs(attrs, luns[..|luns| - 1]), |luns| - 1, luns[|luns| - 1])
  }

  ghost function LunAttrs(attrs: map<(Node, string), string>, i: nat, l: LUN): map<(Node, string), string> {
    attrs[(Lun(i), "file") := l.device][(Lun(i), "inquiry_string") := l.inquiry]
         [(Lun(i), "removable") := "1"][(Lun(i), "ro") := "0"][(Lun(i), "nofua") := Flag(l.nofua)]
  }

  ghost function Configured(faults: nat): Tree {
    Tree({Root, Strings, Config, ConfigStrings, Function}, [], [],
         With(With(map[], Root, Descriptors), Strings, EnglishStrings)
           [(Config, "MaxPower") := "250"][(ConfigStrings, "configuration") := "TeslaUSB"]
           [(Function, "stall") := "1"],
         "", faults)
  }

  ghost function With(attrs: map<(Node, string), string>, n: Node, items: seq<(string, string)>)
    : map<(Node, string), string>
    decreases |items|
  {
    if items == [] then attrs else With(attrs[(n, items[0].0) := items[0].1], n, items[1..])
  }

  ghost function PutLun(t: Tree, i: nat, l: LUN): Tree {
    t.(luns := if i in t.luns then t.luns else t.luns + [i], attrs := LunAttrs(t.attrs, i, l))
  }

  lemma WriteAllWrites(c: Point, n: Node, items: seq<(string, string)>, env: Env)
    ensures var r := WriteAll(c, n, items, env);
      && (r.ok ==> c.ok && r.t == c.t.(attrs := With(c.t.attrs, n, items)))
      && (!c.ok ==> r == c)
    decreases |items|
  {
    if items != [] {
      WriteAllWrites(Write(c, n, items[0].0, items[0].1, env), n, items[1..], env);
    }
  }

  /** A directory and its parents. */
  ghost function Chain(n: Node): set<Node> {
    match n
    case ConfigStrings => {Root, Config, n}
    case Lun(_) => {Root, Function}
    case _ => {Root, n}
  }

  lemma MkdirAllMakes(c: Point, n: Node, env: Env)
    requires !n.Lun?
    ensures var r := MkdirAll(c, n, env);
      r.ok ==> c.ok && r.t == c.t.(nodes := c.t.nodes + Chain(n))
  {
    var r := MkdirAll(c, n, env);
    if r.ok {
      assert r.t.nodes == c.t.nodes + Chain(n);
    }
  }

  lemma WriteWrites(c: Point, n: Node, name: string, value: string, env: Env)
    ensures var r := Write(c, n, name, value, env);
      r.ok ==> c.ok && r.t == c.t.(attrs := c.t.attrs[(n, name) := value])
  {
  }

  /** On nothing, a successful Populate builds the configured gadget, attribute for attribute. */
  lemma PopulateBuilds(p: Proc, faults: nat, env: Env)
    ensures var r := Populate(p, Absent(faults), env);
      r.ok ==> r.t == Configured(faults)
  {
    hide MkdirAll, Write, WriteAll, With;
    var c0 := Point(p, Absent(faults), true);
    var c1 := MkdirAll(c0, Root, env);
    MkdirAllMakes(c0, Root, env);
    var c2 := WriteAll(c1, Root, Descriptors, env);
    WriteAllWrites(c1, Root, Descriptors, env);
    var c3 := MkdirAll(c2, Strings, env);
    MkdirAllMakes(c2, Strings, env);
    var c4 := WriteAll(c3, Strings, EnglishStrings, env);
    WriteAllWrites(c3, Strings, EnglishStrings, env);
    var c5 := MkdirAll(c4, ConfigStrings, env);
    MkdirAllMakes(c4, ConfigStrings, env);
    var c6 := Write(c5, Config, "MaxPower", "250", env);
    WriteWrites(c5, Config, "MaxPower", "250", env);
    var c7 := Write(c6, ConfigStrings, "configuration", "TeslaUSB", env);
    WriteWrites(c6, ConfigStrings, "configuration", "TeslaUSB", env);
    var c8 := MkdirAll(c7, Function, env);
    MkdirAllMakes(c7, Function, env);
    WriteWrites(c8, Function, "stall", "1", env);
    assert {Root, Root} + {Root, Strings} + {Root, Config, ConfigStrings} + {Root, Function}
        == {Root, Strings, Config, ConfigStrings, Function};
  }

  /** r continues c by requests that only add: directories, attributes. */
  ghost predicate Grows(c: Point, r: Point) {
    && Sound(r.t) && r.t.faults == c.t.faults && r.t.udc == c.t.udc && r.t.links == c.t.links
    && c.t.nodes <= r.t.nodes && r.t.nodes <= c.t.nodes + {Root, Strings, Config, ConfigStrings, Function}
    && (r.ok ==> c.ok) && (!c.ok ==> r == c) && (c.p.dead ==> r.p == c.p && r.t == c.t)
    && (forall i :: i in c.t.luns ==> i in r.t.luns)
  }

  predicate ParentIn(t: Tree, n: Node) {
    match n
    case Root => true
    case ConfigStrings => Root in t.nodes && Config in t.nodes
    case Lun(_) => Function in t.nodes
    case _ => Root in t.nodes
  }

  lemma MkdirGrows(c: Point, n: Node, env: Env)
    requires Sound(c.t) && (c.ok ==> ParentIn(c.t, n))
    ensures var r := Mkdir(c, n, env);
      && Grows(c, r) && (r.ok ==> Has(r.t, n)) && r.t.attrs == c.t.attrs
      && (!n.Lun? ==> r.t.luns == c.t.luns)
      && (n.Lun? ==> r.t.luns == c.t.luns || (n.index !in c.t.luns && r.t.luns == c.t.luns + [n.index]))
  {
  }

  lemma MkdirAllGrows(c: Point, n: Node, env: Env)
    requires Sound(c.t)
    ensures var r := MkdirAll(c, n, env);
      && Grows(c, r) && (r.ok ==> Has(r.t, n))
      && (!n.Lun? ==> r.t.luns == c.t.luns && r.t.attrs == c.t.attrs)
  {
    var r := Mkdir(c, Root, env);
    MkdirGrows(c, Root, env);
    match n
    case Root =>
    case ConfigStrings =>
      MkdirGrows(r, Config, env);
      MkdirGrows(Mkdir(r, Config, env), n, env);
    case Lun(_) =>
      MkdirGrows(r, Function, env);
      MkdirGrows(Mkdir(r, Function, env), n, env);
    case _ =>
      MkdirGrows(r, n, env);
  }

  lemma WriteGrows(c: Point, n: Node, name: string, value: string, env: Env)
    requires Sound(c.t)
    ensures var r := Write(c, n, name, value, env);
      Grows(c, r) && r.t == c.t.(attrs := r.t.attrs) && (r.ok ==> !r.p.dead && !c.p.dead && Has(c.t, n))
  {
  }

  lemma WriteAllGrows(c: Point, n: Node, items: seq<(string, string)>, env: Env)
    requires Sound(c.t)
    ensures var r := WriteAll(c, n, items, env);
      Grows(c, r) && r.t == c.t.(attrs := r.t.attrs)
    decreases |items|
  {
    if items != [] {
      var c1 := Write(c, n, items[0].0, items[0].1, env);
      WriteGrows(c, n, items[0].0, items[0].1, env);
      WriteAllGrows(c1, n, items[1..], env);
    }
  }

  /** Populate, from whatever a faulty teardown left, only adds, and leaves a sound tree. */
  lemma PopulateKeeps(p: Proc, t: Tree, env: Env)
    requires Sound(t)
    ensures var r := Populate(p, t, env);
      && Grows(Point(p, t, true), r) && r.t.luns == t.luns
      && (r.ok ==> !p.dead && !r.p.dead && Root in r.t.nodes && Config in r.t.nodes && Function in r.t.nodes)
  {
    var c0 := Point(p, t, true);
    var c1 := MkdirAll(c0, Root, env);
    MkdirAllGrows(c0, Root, env);
    var c2 := WriteAll(c1, Root, Descriptors, env);
    WriteAllGrows(c1, Root, Descriptors, env);
    var c3 := MkdirAll(c2, Strings, env);
    MkdirAllGrows(c2, Strings, env);
    var c4 := WriteAll(c3, Strings, EnglishStrings, env);
    WriteAllGrows(c3, Strings, EnglishStrings, env);
    var c5 := MkdirAll(c4, ConfigStrings, env);
    MkdirAllGrows(c4, ConfigStrings, env);
    var c6 := Write(c5, Config, "MaxPower", "250", env);
    WriteGrows(c5, Config, "MaxPower", "250", env);
    var c7 := Write(c6, ConfigStrings, "configuration", "TeslaUSB", env);
    WriteGrows(c6, ConfigStrings, "configuration", "TeslaUSB", env);
    var c8 := MkdirAll(c7, Function, env);
    MkdirAllGrows(c7, Function, env);
    WriteGrows(c8, Function, "stall", "1", env);
  }

  // ------------------------------------------------------------ memory agrees with configfs

  ghost predicate LunAgrees(t: Tree, i: nat, l: LUN) {
    && i in t.luns
    && Reads(t, i, "file", l.device) && Reads(t, i, "inquiry_string", l.inquiry)
    && Reads(t, i, "removable", "1") && Reads(t, i, "ro", "0") && Reads(t, i, "nofua", Flag(l.nofua))
  }

  predicate Reads(t: Tree, i: nat, name: string, value: string) {
    (Lun(i), name) in t.attrs && t.attrs[(Lun(i), name)] == value
  }

  ghost predicate LunsAgree(g: Gadget, t: Tree) {
    forall i :: 0 <= i < |g.luns| ==> LunAgrees(t, i, g.luns[i])
  }

  /** The trees differ in lun.i at most. */
  ghost predicate OnlyLun(i: nat, t: Tree, t': Tree) {
    && t'.nodes == t.nodes && t'.links == t.links && t'.udc == t.udc && t'.faults == t.faults
    && (forall j :: j != i ==> (j in t'.luns <==> j in t.luns))
    && (forall a :: a in t.attrs && a.0 != Lun(i) ==> a in t'.attrs && t'.attrs[a] == t.attrs[a])
    && (forall a :: a in t'.attrs && a.0 != Lun(i) ==> a in t.attrs)
  }

  lemma WriteLunMeaning(c: Point, i: nat, device: string, inquiry: string, env: Env)
    requires Sound(c.t)
    ensures var r := WriteLun(c, i, device, inquiry, env);
      && Grows(c, r) && r.t == c.t.(attrs := r.t.attrs) && OnlyLun(i, c.t, r.t)
      && (r.ok ==> r.t == PutLun(c.t, i, LUN(device, inquiry, false)))
  {
    var c1 := Write(c, Lun(i), "file", device, env);
    WriteGrows(c, Lun(i), "file", device, env);
    var c2 := Write(c1, Lun(i), "inquiry_string", inquiry, env);
    WriteGrows(c1, Lun(i), "inquiry_string", inquiry, env);
    var c3 := Write(c2, Lun(i), "removable", "1", env);
    WriteGrows(c2, Lun(i), "removable", "1", env);
    var c4 := Write(c3, Lun(i), "ro", "0", env);
    WriteGrows(c3, Lun(i), "ro", "0", env);
    WriteGrows(c4, Lun(i), "nofua", "0", env);
  }

  /** Adding a lun touches lun.len and nothing else, wherever it fails; when it succeeds, the new
      entry of `luns` is what configfs holds - also over the remains of an earlier failed add. */
  lemma AddLunMeaning(p: Proc, t: Tree, g: Gadget, device: string, inquiry: string, env: Env)
    requires Sound(t) && Root in t.nodes && Function in t.nodes
    ensures var r := AddLUN(p, t, g, device, inquiry, env);
      && Sound(r.t) && OnlyLun(|g.luns|, t, r.t) && r.g.active == g.active
      && (r.ok ==> r.g.luns == g.luns + [LUN(device, inquiry, false)]
                   && r.t == PutLun(t, |g.luns|, LUN(device, inquiry, false)))
      && (!r.ok ==> r.g == g)
      && (p.dead ==> r == Call(p, t, g, false))
  {
    var i := |g.luns|;
    var c := Mkdir(Point(p, t, true), Lun(i), env);
    MkdirGrows(Point(p, t, true), Lun(i), env);
    assert MkdirAll(Point(p, t, true), Lun(i), env) == c;
    assert OnlyLun(i, t, c.t);
    WriteLunMeaning(c, i, device, inquiry, env);
  }

  lemma SetNofuaMeaning(p: Proc, t: Tree, g: Gadget, lun: int, enabled: bool, env: Env)
    requires Sound(t) && LunsAgree(g, t)
    ensures var r := SetNofua(p, t, g, lun, enabled, env);
      && Sound(r.t) && LunsAgree(r.g, r.t) && |r.g.luns| == |g.luns| && r.g.active == g.active
      && r.t == t.(attrs := r.t.attrs)
      && (r.ok ==> 0 <= lun < |g.luns| && r.g.luns == g.luns[lun := g.luns[lun].(nofua := enabled)])
      && (!r.ok ==> r.g == g && r.t == t)
  {
    var r := SetNofua(p, t, g, lun, enabled, env);
    WriteGrows(Point(p, t, true), if lun < 0 then Root else Lun(lun), "nofua", Flag(enabled), env);
    if r.ok {
      var t' := t.(attrs := t.attrs[(Lun(lun), "nofua") := Flag(enabled)]);
      forall i | 0 <= i < |g.luns| ensures LunAgrees(t', i, r.g.luns[i]) {
        assert LunAgrees(t, i, g.luns[i]);
        NofuaOnOneLun(t, lun, enabled, i, g.luns[i]);
      }
    }
    hide Sound, LunAgrees, Has;
  }

  lemma NofuaOnOneLun(t: Tree, lun: nat, enabled: bool, i: nat, l: LUN)
    requires LunAgrees(t, i, l)
    ensures LunAgrees(t.(attrs := t.attrs[(Lun(lun), "nofua") := Flag(enabled)]), i,
                      if i == lun then l.(nofua := enabled) else l)
  {
  }

  datatype Edit = Add(device: string, inquiry: string) | Nofua(lun: int, enabled: bool)

  function EditAll(p: Proc, t: Tree, g: Gadget, es: seq<Edit>, env: Env): Call
    decreases |es|
  {
    if es == [] then Call(p, t, g, true) else
      var r := match es[0]
        case Add(d, i) => AddLUN(p, t, g, d, i, env)
        case Nofua(l, b) => SetNofua(p, t, g, l, b, env);
      EditAll(r.p, r.t, r.g, es[1..], env)
  }

  /** After any sequence of AddLUN and SetNofua calls, each failing at any write or none, LUNs[i] is
      what lun.i holds, for every i. */
  lemma {:induction false} EditsAgree(p: Proc, t: Tree, g: Gadget, es: seq<Edit>, env: Env)
    requires Sound(t) && Root in t.nodes && Function in t.nodes && LunsAgree(g, t)
    ensures var r := EditAll(p, t, g, es, env);
      && Sound(r.t) && LunsAgree(r.g, r.t) && r.g.active == g.active
      && r.t == t.(luns := r.t.luns, attrs := r.t.attrs)
    decreases |es|
  {
    if es != [] {
      match es[0]
      case Add(d, i) =>
        var r := AddLUN(p, t, g, d, i, env);
        AddLunMeaning(p, t, g, d, i, env);
        AddedLunAgrees(t, g, r);
        EditsAgree(r.p, r.t, r.g, es[1..], env);
      case Nofua(l, b) =>
        var r := SetNofua(p, t, g, l, b, env);
        SetNofuaMeaning(p, t, g, l, b, env);
        EditsAgree(r.p, r.t, r.g, es[1..], env);
    }
  }

  lemma AddedLunAgrees(t: Tree, g: Gadget, r: Call)
    requires LunsAgree(g, t) && OnlyLun(|g.luns|, t, r.t)
    requires r.g.luns == g.luns || (exists l :: r.g.luns == g.luns + [l] && r.t == PutLun(t, |g.luns|, l))
    ensures LunsAgree(r.g, r.t)
  {
    forall i | 0 <= i < |r.g.luns| ensures LunAgrees(r.t, i, r.g.luns[i]) {
      if i < |g.luns| {
        assert LunAgrees(t, i, g.luns[i]);
        assert r.g.luns[i] == g.luns[i];
      }
    }
  }

  // ------------------------------------------------------------ activation

  predicate Listed(names: seq<string>) { forall n :: n in names ==> n != "" }

  predicate DummyAt(name: string, i: nat) { i + 5 <= |name| && name[i..i + 5] == "dummy" }

  lemma {:induction false} ContainsDummyIff(name: string)
    ensures ContainsDummy(name) <==> exists i: nat :: DummyAt(name, i)
  {
    assert "dummy" <= name <==> DummyAt(name, 0) by { StartsWithDummy(name); }
    if name != "" {
      ContainsDummyIff(name[1..]);
      forall i: nat ensures DummyAt(name, i + 1) <==> DummyAt(name[1..], i) {
        DummyLater(name, i);
      }
      hide DummyAt;
      if i: nat :| DummyAt(name[1..], i) {
        assert DummyAt(name, i + 1);
      }
      if i: nat :| DummyAt(name, i) && i > 0 {
        assert DummyAt(name[1..], i - 1);
      }
    }
  }

  lemma StartsWithDummy(name: string)
    ensures "dummy" <= name <==> DummyAt(name, 0)
  {
  }

  lemma DummyLater(name: string, i: nat)
    requires name != ""
    ensures DummyAt(name, i + 1) <==> DummyAt(name[1..], i)
  {
    if i + 6 <= |name| { assert name[i + 1..i + 6] == name[1..][i..i + 5]; }
  }

  /** The i-th name is the first that is no dummy; or all are, and it is the first of all. */
  predicate Picked(names: seq<string>, i: nat) {
    && i < |names|
    && (forall j :: 0 <= j < i ==> ContainsDummy(names[j]))
    && (ContainsDummy(names[i]) ==> i == 0 && forall j :: 0 <= j < |names| ==> ContainsDummy(names[j]))
  }

  lemma FirstRealIs(names: seq<string>) returns (i: nat)
    requires Listed(names)
    ensures FirstReal(names) == "" ==> forall n :: n in names ==> ContainsDummy(n)
    ensures FirstReal(names) != "" ==> Picked(names, i) && names[i] == FirstReal(names) && !ContainsDummy(names[i])
  {
    i := 0;
    if names != [] {
      assert names[0] in names;
      if ContainsDummy(names[0]) {
        forall n | n in names[1..] ensures n != "" { assert n in names; }
        var k := FirstRealIs(names[1..]);
        i := k + 1;
        assert names == [names[0]] + names[1..];
        if FirstReal(names) != "" {
          forall j | 0 <= j < i ensures ContainsDummy(names[j]) {
            if j > 0 { assert names[j] == names[1..][j - 1]; }
          }
        }
      }
    }
  }

  /** The first controller that is not a dummy - the first of all, if every one is. */
  lemma FindUdcPicks(names: seq<string>)
    requires Listed(names)
    ensures names != [] ==> FindUdc(names) in names && exists i: nat :: Picked(names, i) && names[i] == FindUdc(names)
    ensures (exists n :: n in names && !ContainsDummy(n)) ==> !ContainsDummy(FindUdc(names))
  {
    var i := FirstRealIs(names);
    if names != [] && FirstReal(names) == "" {
      assert Picked(names, 0) by {
        forall j | 0 <= j < |names| ensures ContainsDummy(names[j]) { assert names[j] in names; }
      }
    }
  }

  lemma EnsureLinkMeaning(p: Proc, t: Tree, env: Env)
    requires Sound(t)
    ensures var l := EnsureLink(p, t, env);
      && Sound(l.t) && l.t == t.(links := l.t.links) && (l.ok ==> !l.p.dead)
      && (l.t.links == t.links || l.t.links == t.links + [FunctionLink])
      && (p.dead ==> l == Point(p, t, false))
  {
  }

  /** The link is made where there is none and it can be told; one that cannot be looked at is taken to be there. */
  lemma EnsureLinkIff(p: Proc, t: Tree, env: Env)
    requires !p.dead
    ensures var l := EnsureLink(p, t, env);
      var make := env(p.clock).Done? && FunctionLink !in t.links;
      && (l.ok <==> !env(p.clock).Killed?
                    && (make ==> env(p.clock + 1).Done? && Config in t.nodes && Function in t.nodes))
      && l.t == (if make && l.ok then t.(links := t.links + [FunctionLink]) else t)
      && (l.ok ==> l.p == Proc(p.clock + (if make then 2 else 1), false))
  {
  }

  /** Binding an unbound gadget works if and only if the controllers can be listed, there is one, and the write to
      UDC is carried out with a function linked; reading UDC before may fail. A gadget that is bound where it should
      be, and can be read, is left alone; one that is bound elsewhere is bound anew if and only if it can be read,
      cleared and written to. */
  lemma AttachWorksIff(p: Proc, t: Tree, g: Gadget, names: seq<string>, env: Env)
    requires !p.dead && Sound(t)
    ensures var r := Attach(p, t, g, names, env);
      && (t.udc == "" ==>
            (r.ok <==> names != [] && env(p.clock).Done? && !env(p.clock + 1).Killed? && env(p.clock + 2).Done?
                       && Root in t.nodes && t.links != []))
      && (t.udc != "" && t.udc == FindUdc(names) && names != [] && env(p.clock).Done? && env(p.clock + 1).Done? ==>
            r == Call(Proc(p.clock + 2, false), t, g.(active := true), true))
      && (t.udc != "" && t.udc != FindUdc(names) ==>
            (r.ok <==> names != [] && (forall i :: p.clock <= i < p.clock + 5 ==> env(i).Done?) && t.links != []))
  {
    hide FindUdc;
    assert (forall i :: p.clock <= i < p.clock + 5 ==> env(i).Done?) <==>
      (env(p.clock).Done? && env(p.clock + 1).Done? && env(p.clock + 2).Done? && env(p.clock + 3).Done?
       && env(p.clock + 4).Done?);
  }

  lemma AttachMeaning(p: Proc, t: Tree, g: Gadget, names: seq<string>, env: Env)
    requires Sound(t) && Listed(names)
    ensures var r := Attach(p, t, g, names, env);
      && Sound(r.t) && r.t == t.(udc := r.t.udc, faults := r.t.faults) && r.t.faults >= t.faults
      && r.g.luns == g.luns
      && (r.ok ==> r.t.udc == FindUdc(names) != "" && r.g.active && !r.p.dead && (t.udc == "" ==> r.t.links != []))
      && (!r.ok ==> r.g == g && (r.t.udc == t.udc || r.t.udc == ""))
      && (!r.ok && t.udc == FindUdc(names) ==> r.t.udc == t.udc)
      && (p.dead ==> r == Call(p, t, g, false))
  {
    FindUdcPicks(names);
    var d := Ask(p, env);
    var cur := ReadUdc(d.p, t, env);
    ClearUdcMeaning(cur.0, t, env);
  }

  /** Success means bound to the controller findUDC names; failure leaves the gadget as it was, or
      unbound when another controller had to be cleared first. */
  lemma ActivateMeaning(p: Proc, t: Tree, g: Gadget, names: seq<string>, env: Env)
    requires Sound(t) && Listed(names)
    ensures var r := Activate(p, t, g, names, env);
      && Sound(r.t) && r.t == t.(links := r.t.links, udc := r.t.udc, faults := r.t.faults) && r.t.faults >= t.faults
      && (r.t.links == t.links || r.t.links == t.links + [FunctionLink])
      && r.g.luns == g.luns
      && (r.ok ==> r.t.udc == FindUdc(names) != "" && r.g.active && !r.p.dead && (t.udc == "" ==> r.t.links != []))
      && (!r.ok ==> r.g == g && (r.t.udc == t.udc || r.t.udc == ""))
      && (!r.ok && t.udc == FindUdc(names) ==> r.t.udc == t.udc)
      && (p.dead ==> r == Call(p, t, g, false))
  {
    var l := EnsureLink(p, t, env);
    EnsureLinkMeaning(p, t, env);
    AttachMeaning(l.p, l.t, g, names, env);
  }

  lemma DeactivateMeaning(p: Proc, t: Tree, g: Gadget, env: Env)
    requires Sound(t)
    ensures var r := Deactivate(p, t, g, env);
      && Sound(r.t) && r.g.luns == g.luns
      && (r.ok ==> !r.p.dead && !r.g.active && r.t == t.(udc := ""))
      && (!r.ok ==> r.g == g && r.t == t)
  {
  }

  ghost predicate ActiveAgrees(g: Gadget, t: Tree) { g.active <==> t.udc != "" }

  /** `active` keeps telling whether the gadget is bound, whatever an Activate meets, if and only if
      no controller other than the one findUDC names was bound before: with another one bound, a
      run that clears it and then fails to write leaves `active` set on an unbound gadget. */
  lemma ActiveAgreesIff(p: Proc, t: Tree, g: Gadget, names: seq<string>)
    requires Sound(t) && Config in t.nodes && Function in t.nodes && Listed(names) && names != [] && !p.dead
    requires ActiveAgrees(g, t)
    ensures (forall env :: var r := Activate(p, t, g, names, env); ActiveAgrees(r.g, r.t))
       <==> t.udc == "" || t.udc == FindUdc(names)
  {
    if t.udc == "" || t.udc == FindUdc(names) {
      forall env ensures var r := Activate(p, t, g, names, env); ActiveAgrees(r.g, r.t) {
        ActivateMeaning(p, t, g, names, env);
      }
    } else {
      var bind := p.clock + (if FunctionLink in t.links then 5 else 6);
      var env: Env := n => if n == bind then Refused else Done(0);
      var r := Activate(p, t, g, names, env);
      var l := EnsureLink(p, t, env);
      assert l.ok && l.p == Proc(bind - 4, false);
      var cur := ReadUdc(Ask(l.p, env).p, l.t, env);
      assert cur == (Proc(bind - 2, false), t.udc);
      var cl := ClearUdc(cur.0, l.t, env);
      assert cl.0 == Proc(bind, false) && cl.1.udc == "";
      assert !ActiveAgrees(r.g, r.t);
    }
  }

  // ------------------------------------------------------------ presenting the gadget (boot)

  /** One AddLUN per partition that exists; failures are only logged (`ok`: there were none). */
  function AddAll(p: Proc, t: Tree, g: Gadget, parts: seq<(string, string)>, env: Env): Call
    decreases |parts|
  {
    if parts == [] then Call(p, t, g, true) else
      var exists_ := Ask(p, env);   // os.Stat
      var r := if exists_.ok then AddLUN(exists_.p, t, g, parts[0].0, parts[0].1, env)
               else Call(exists_.p, t, g, true);
      var rest := AddAll(r.p, r.t, r.g, parts[1..], env);
      rest.(ok := r.ok && rest.ok)
  }

  function NofuaAll(p: Proc, t: Tree, g: Gadget, i: nat, env: Env): Call
    requires i <= |g.luns|
    decreases |g.luns| - i
  {
    if i == |g.luns| then Call(p, t, g, true) else
      var r := SetNofua(p, t, g, i, true, env);
      var rest := NofuaAll(r.p, r.t, r.g, i + 1, env);
      rest.(ok := r.ok && rest.ok)
  }

  /** The gadget half of boot, on a new Gadget object. */
  function Present(p: Proc, t: Tree, parts: seq<(string, string)>, names: seq<string>, env: Env): Call {
    var c := Configure(p, t, env);
    PresentFrom(c, parts, names, env)
  }

  function PresentFrom(c: Point, parts: seq<(string, string)>, names: seq<string>, env: Env): Call {
    if !c.ok then Call(c.p, c.t, Gadget([], false), false) else
      var a := AddAll(c.p, c.t, Gadget([], false), parts, env);
      var n := NofuaAll(a.p, a.t, a.g, 0, env);
      Activate(n.p, n.t, n.g, names, env)
  }

  lemma AddAllMeaning(p: Proc, t: Tree, g: Gadget, parts: seq<(string, string)>, env: Env)
    requires Sound(t) && Root in t.nodes && Function in t.nodes && LunsAgree(g, t)
    ensures var r := AddAll(p, t, g, parts, env);
      && Sound(r.t) && LunsAgree(r.g, r.t) && r.g.active == g.active
      && r.t == t.(luns := r.t.luns, attrs := r.t.attrs)
    decreases |parts|
  {
    if parts != [] {
      var e := Ask(p, env);
      if e.ok {
        var r := AddLUN(e.p, t, g, parts[0].0, parts[0].1, env);
        AddLunMeaning(e.p, t, g, parts[0].0, parts[0].1, env);
        AddedLunAgrees(t, g, r);
        AddAllMeaning(r.p, r.t, r.g, parts[1..], env);
      } else {
        AddAllMeaning(e.p, t, g, parts[1..], env);
      }
    }
  }

  lemma NofuaAllMeaning(p: Proc, t: Tree, g: Gadget, i: nat, env: Env)
    requires Sound(t) && LunsAgree(g, t) && i <= |g.luns|
    ensures var r := NofuaAll(p, t, g, i, env);
      && Sound(r.t) && LunsAgree(r.g, r.t) && r.g.active == g.active && |r.g.luns| == |g.luns|
      && r.t == t.(attrs := r.t.attrs)
    decreases |g.luns| - i
  {
    if i < |g.luns| {
      var r := SetNofua(p, t, g, i, true, env);
      SetNofuaMeaning(p, t, g, i, true, env);
      NofuaAllMeaning(r.p, r.t, r.g, i + 1, env);
    }
  }

  lemma PresentFromMeaning(c: Point, parts: seq<(string, string)>, names: seq<string>, env: Env)
    requires Sound(c.t) && Listed(names)
    requires c.ok ==> Root in c.t.nodes && Config in c.t.nodes && Function in c.t.nodes
    ensures var r := PresentFrom(c, parts, names, env);
      && Sound(r.t) && r.t.faults >= c.t.faults
      && (r.ok ==> c.ok && !r.p.dead && r.t.udc == FindUdc(names) != "" && r.g.active && LunsAgree(r.g, r.t)
                   && Config in r.t.nodes && Function in r.t.nodes)
  {
    if c.ok {
      var a := AddAll(c.p, c.t, Gadget([], false), parts, env);
      AddAllMeaning(c.p, c.t, Gadget([], false), parts, env);
      var n := NofuaAll(a.p, a.t, a.g, 0, env);
      NofuaAllMeaning(a.p, a.t, a.g, 0, env);
      ActivateMeaning(n.p, n.t, n.g, names, env);
    }
  }

  /** Whatever an earlier life left behind and whatever the requests meet, presenting the gadget
      leaves a sound tree; when it succeeds the gadget is bound and the object agrees with configfs. */
  lemma PresentMeaning(p: Proc, t: Tree, parts: seq<(string, string)>, names: seq<string>, env: Env)
    requires Sound(t) && Listed(names)
    ensures var r := Present(p, t, parts, names, env);
      && Sound(r.t) && r.t.faults >= t.faults
      && (r.ok ==> !p.dead && !r.p.dead && r.t.udc == FindUdc(names) != "" && r.g.active && LunsAgree(r.g, r.t)
                   && Config in r.t.nodes && Function in r.t.nodes)
  {
    var d := TeardownExisting(p, t, env);
    TeardownRemovesAll(p, t, env);
    PopulateKeeps(d.0, d.1, env);
    PresentFromMeaning(Populate(d.0, d.1, env), parts, names, env);
  }

  /** Restart converges: when the teardown met no fault, a boot on the leavings of any crash is, from
      there on, the boot on an empty configfs - same requests, same answers, same outcome. */
  lemma BootForgetsTheCrash(p: Proc, t: Tree, parts: seq<(string, string)>, names: seq<string>, env: Env)
    requires Sound(t)
    ensures var d := TeardownExisting(p, t, env);
      !d.0.dead && d.1.faults == t.faults ==>
        Present(p, t, parts, names, env) == PresentFrom(Populate(d.0, Absent(t.faults), env), parts, names, env)
  {
    TeardownRemovesAll(p, t, env);
  }

  lemma AddAllBuilds(p: Proc, g: Gadget, parts: seq<(string, string)>, faults: nat, env: Env)
    ensures var r := AddAll(p, Built(g.luns, faults), g, parts, env);
      r.ok ==> r.t == Built(r.g.luns, faults)
    decreases |parts|
  {
    if parts != [] {
      var e := Ask(p, env);
      var t := Built(g.luns, faults);
      if e.ok {
        var r := AddLUN(e.p, t, g, parts[0].0, parts[0].1, env);
        AddLunOnBuilt(e.p, g, parts[0].0, parts[0].1, faults, env);
        if r.ok {
          AddAllBuilds(r.p, r.g, parts[1..], faults, env);
        }
      } else {
        AddAllBuilds(e.p, g, parts[1..], faults, env);
      }
    }
  }

  lemma AddLunOnBuilt(p: Proc, g: Gadget, device: string, inquiry: string, faults: nat, env: Env)
    ensures var r := AddLUN(p, Built(g.luns, faults), g, device, inquiry, env);
      r.ok ==> r.t == Built(r.g.luns, faults)
  {
    var t := Built(g.luns, faults);
    var i := |g.luns|;
    assert i !in Upto(i);
    assert Upto(i) + [i] == Upto(i + 1);
    var c := Mkdir(Point(p, t, true), Lun(i), env);
    assert MkdirAll(Point(p, t, true), Lun(i), env) == c;
    var r := AddLUN(p, t, g, device, inquiry, env);
    if r.ok {
      WriteLunBuilds(c, i, device, inquiry, env);
      assert r.g.luns[..i] == g.luns;
    }
  }

  lemma WriteLunBuilds(c: Point, i: nat, device: string, inquiry: string, env: Env)
    ensures var r := WriteLun(c, i, device, inquiry, env);
      r.ok ==> r.t == PutLun(c.t, i, LUN(device, inquiry, false))
  {
  }

  lemma Swap(m: map<(Node, string), string>, a: (Node, string), u: string, b: (Node, string), v: string)
    requires a != b
    ensures m[a := u][b := v] == m[b := v][a := u]
  {
  }

  lemma LunAttrsApart(m: map<(Node, string), string>, i: nat, v: string, j: nat, l: LUN)
    requires i != j
    ensures LunAttrs(m[(Lun(i), "nofua") := v], j, l) == LunAttrs(m, j, l)[(Lun(i), "nofua") := v]
  {
    var a := (Lun(i), "nofua");
    var m1 := m[(Lun(j), "file") := l.device];
    var m2 := m1[(Lun(j), "inquiry_string") := l.inquiry];
    var m3 := m2[(Lun(j), "removable") := "1"];
    var m4 := m3[(Lun(j), "ro") := "0"];
    Swap(m, a, v, (Lun(j), "file"), l.device);
    Swap(m1, a, v, (Lun(j), "inquiry_string"), l.inquiry);
    Swap(m2, a, v, (Lun(j), "removable"), "1");
    Swap(m3, a, v, (Lun(j), "ro"), "0");
    Swap(m4, a, v, (Lun(j), "nofua"), Flag(l.nofua));
  }

  lemma BuiltNofua(base: map<(Node, string), string>, luns: seq<LUN>, i: nat, enabled: bool)
    requires i < |luns|
    ensures BuiltAttrs(base, luns[i := luns[i].(nofua := enabled)])
      == BuiltAttrs(base, luns)[(Lun(i), "nofua") := Flag(enabled)]
  {
    var n := |luns| - 1;
    var luns' := luns[i := luns[i].(nofua := enabled)];
    if i == n {
      assert luns'[..n] == luns[..n];
    } else {
      BuiltNofua(base, luns[..n], i, enabled);
      assert luns'[..n] == luns[..n][i := luns[..n][i].(nofua := enabled)];
      LunAttrsApart(BuiltAttrs(base, luns[..n]), i, Flag(enabled), n, luns[n]);
    }
  }

  lemma NofuaAllBuilds(p: Proc, g: Gadget, i: nat, faults: nat, env: Env)
    requires i <= |g.luns| && forall j :: 0 <= j < i ==> g.luns[j].nofua
    ensures var r := NofuaAll(p, Built(g.luns, faults), g, i, env);
      r.ok ==> r.t == Built(r.g.luns, faults) && forall l :: l in r.g.luns ==> l.nofua
    decreases |g.luns| - i
  {
    if i < |g.luns| {
      var r := SetNofua(p, Built(g.luns, faults), g, i, true, env);
      if r.ok {
        BuiltNofua(Configured(faults).attrs, g.luns, i, true);
        NofuaAllBuilds(r.p, r.g, i + 1, faults, env);
      }
    }
  }

  ghost predicate AllAdded(c: Point, parts: seq<(string, string)>, env: Env) {
    var a := AddAll(c.p, c.t, Gadget([], false), parts, env);
    a.ok && NofuaAll(a.p, a.t, a.g, 0, env).ok
  }

  lemma PresentFromBuilds(c: Point, parts: seq<(string, string)>, names: seq<string>, faults: nat, env: Env)
    requires c.ok && c.t == Configured(faults) && Sound(c.t) && Listed(names)
    ensures var r := PresentFrom(c, parts, names, env);
      r.ok && AllAdded(c, parts, env) && r.t.faults == faults ==>
        && (forall l :: l in r.g.luns ==> l.nofua)
        && r.t == Built(r.g.luns, faults).(links := [FunctionLink], udc := FindUdc(names))
  {
    assert Upto(0) == [];
    var a := AddAll(c.p, c.t, Gadget([], false), parts, env);
    AddAllMeaning(c.p, c.t, Gadget([], false), parts, env);
    AddAllBuilds(c.p, Gadget([], false), parts, faults, env);
    var n := NofuaAll(a.p, a.t, a.g, 0, env);
    NofuaAllMeaning(a.p, a.t, a.g, 0, env);
    if a.ok {
      NofuaAllBuilds(a.p, a.g, 0, faults, env);
    }
    ActivateMeaning(n.p, n.t, n.g, names, env);
  }

  /** A boot all of whose steps succeed determines the tree to the last attribute, whatever was there
      before: the configured gadget, the luns of the object with nofua on, linked and bound. */
  lemma BootDeterminesTheTree(p: Proc, t: Tree, parts: seq<(string, string)>, names: seq<string>, env: Env)
    requires Sound(t) && Listed(names)
    ensures var c, r := Configure(p, t, env), Present(p, t, parts, names, env);
      r.ok && AllAdded(c, parts, env) && r.t.faults == t.faults ==>
        && (forall l :: l in r.g.luns ==> l.nofua)
        && r.t == Built(r.g.luns, t.faults).(links := [FunctionLink], udc := FindUdc(names))
  {
    var d := TeardownExisting(p, t, env);
    TeardownRemovesAll(p, t, env);
    PopulateKeeps(d.0, d.1, env);
    var c := Populate(d.0, d.1, env);
    var r := PresentFrom(c, parts, names, env);
    PresentFromMeaning(c, parts, names, env);
    if r.ok && r.t.faults == t.faults {
      PopulateBuilds(d.0, t.faults, env);
      PresentFromBuilds(c, parts, names, t.faults, env);
    }
  }
}
