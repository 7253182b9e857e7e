/** Which luns a boot presents: one for each partition that os.Stat found, in the order of the table, each with
    its own device and label. */
module Luns {
  import opened Common
  import opened Outside
  import opened GadgetSpec

  function Label(l: LUN): (string, string) { (l.device, l.inquiry) }

  function Labels(luns: seq<LUN>): seq<(string, string)> {
    if luns == [] then [] else [Label(luns[0])] + Labels(luns[1..])
  }

  lemma LabelsAre(luns: seq<LUN>)
    ensures |Labels(luns)| == |luns|
    ensures forall i :: 0 <= i < |luns| ==> Labels(luns)[i] == (luns[i].device, luns[i].inquiry)
  {
  }

  lemma LabelsFrom(luns: seq<LUN>, labels: seq<(string, string)>)
    requires |labels| == |luns| && forall i :: 0 <= i < |luns| ==> labels[i] == Label(luns[i])
    ensures labels == Labels(luns)
  {
    LabelsAre(luns);
  }

  lemma LabelsMore(luns: seq<LUN>, l: LUN)
    ensures Labels(luns + [l]) == Labels(luns) + [Label(l)]
  {
    LabelsAre(luns);
    LabelsFrom(luns + [l], Labels(luns) + [Label(l)]);
  }

  lemma LabelsNofua(luns: seq<LUN>, i: nat, enabled: bool)
    requires i < |luns|
    ensures Labels(luns[i := luns[i].(nofua := enabled)]) == Labels(luns)
  {
    LabelsAre(luns);
    LabelsFrom(luns[i := luns[i].(nofua := enabled)], Labels(luns));
  }

  /** The luns are those of some of these partitions, in their order. */
  ghost predicate OfParts(luns: seq<LUN>, parts: seq<(string, string)>) {
    exists added: seq<bool> :: |added| == |parts| && Labels(luns) == Chosen(parts, added)
  }

  /** So each lun is backed by the device of a partition and shows the label of that same partition. */
  lemma EachIsAPart(luns: seq<LUN>, parts: seq<(string, string)>)
    requires OfParts(luns, parts)
    ensures |luns| <= |parts| && forall l :: l in luns ==> (l.device, l.inquiry) in parts
  {
    var added: seq<bool> :| |added| == |parts| && Labels(luns) == Chosen(parts, added);
    LabelsAre(luns);
    ChosenAmong(parts, added);
    ChosenIsShort(parts, added);
    forall l | l in luns ensures (l.device, l.inquiry) in parts {
      var i :| 0 <= i < |luns| && luns[i] == l;
      assert Labels(luns)[i] in Chosen(parts, added);
    }
  }

  lemma ChosenIsShort<T>(s: seq<T>, keep: seq<bool>)
    requires |keep| == |s|
    ensures |Chosen(s, keep)| <= |s|
    decreases |s|
  {
    if s != [] { ChosenIsShort(s[1..], keep[1..]); }
  }

  // ------------------------------------------------------------ the two loops of a boot

  /** The requests of the first loop up to the look at partition i: one look each, and six for each lun. */
  function LookAt(clock: nat, added: seq<bool>, i: nat): nat
    requires i <= |added|
  {
    clock + i + 6 * HowMany(added[..i])
  }

  /** Those were added that the look found. */
  ghost predicate Found(clock: nat, added: seq<bool>, env: Env) {
    forall i :: 0 <= i < |added| ==> (added[i] <==> env(LookAt(clock, added, i)).Done?)
  }

  /** Only luns of the gadget's own are in configfs. */
  predicate NoMore(t: Tree, g: Gadget) { forall i :: i in t.luns ==> i < |g.luns| }

  lemma LunTakesSix(p: Proc, t: Tree, g: Gadget, device: string, inquiry: string, env: Env)
    requires Sound(t) && Root in t.nodes && Function in t.nodes && NoMore(t, g)
    ensures var r := AddLUN(p, t, g, device, inquiry, env);
      r.ok ==> r.p == Proc(p.clock + 6, false) && NoMore(r.t, r.g) && !p.dead
  {
    var i := |g.luns|;
    var c0 := Point(p, t, true);
    var c := Mkdir(c0, Lun(i), env);
    assert MkdirAll(c0, Lun(i), env) == c;
    assert c.ok ==> c.p == Proc(p.clock + 1, false) && c.t.luns == t.luns + [i];
    hide Mkdir, MkdirAll, Sound;
    WriteLunTakesFive(c, i, device, inquiry, env);
  }

  lemma WriteLunTakesFive(c: Point, i: nat, device: string, inquiry: string, env: Env)
    ensures var r := WriteLun(c, i, device, inquiry, env);
      r.ok ==> c.ok && r.p == Proc(c.p.clock + 5, false) && r.t.luns == c.t.luns
  {
  }

  /** The first loop: each partition gets a lun or not; and where every step succeeds and no leftover is in the
      way, precisely those get one that were found - and all of them without nofua as yet. */
  lemma {:induction false} AddAllPresents(p: Proc, t: Tree, g: Gadget, parts: seq<(string, string)>, env: Env)
    returns (added: seq<bool>)
    requires Sound(t) && Root in t.nodes && Function in t.nodes
    ensures |added| == |parts|
    ensures var r := AddAll(p, t, g, parts, env);
      && Labels(r.g.luns) == Labels(g.luns) + Chosen(parts, added)
      && (NoMore(t, g) && r.ok && !r.p.dead ==>
            Found(p.clock, added, env))
      && (p.dead ==> r.p.dead)
    decreases |parts|
  {
    hide AddOne, Sound, NoMore, Labels, LookAt, Found, AddAll, Chosen;
    if parts == [] {
      added := [];
      NoPartsAdded(p, t, g, env);
    } else {
      var r := AddOne(p, t, g, parts[0], env);
      AddAllIs(p, t, g, parts, env);
      AddOneMeaning(p, t, g, parts[0], env);
      var rest := AddAllPresents(r.p, r.t, r.g, parts[1..], env);
      added := [Ask(p, env).ok && r.ok] + rest;
      assert added[1..] == rest;
      ChosenFirst(parts, added);
      var all := AddAll(p, t, g, parts, env);
      if NoMore(t, g) && all.ok && !all.p.dead {
        LooksShift(p, r.p.clock, added, env);
      }
    }
  }

  lemma NoPartsAdded(p: Proc, t: Tree, g: Gadget, env: Env)
    ensures AddAll(p, t, g, [], env) == Call(p, t, g, true) && Found(p.clock, [], env)
    ensures Chosen<(string, string)>([], []) == []
  {
  }

  /** The loop body for one partition. */
  function AddOne(p: Proc, t: Tree, g: Gadget, part: (string, string), env: Env): Call {
    var look := Ask(p, env);
    if look.ok then AddLUN(look.p, t, g, part.0, part.1, env) else Call(look.p, t, g, true)
  }

  lemma AddAllIs(p: Proc, t: Tree, g: Gadget, parts: seq<(string, string)>, env: Env)
    requires parts != []
    ensures var r := AddOne(p, t, g, parts[0], env);
      AddAll(p, t, g, parts, env) == AddAll(r.p, r.t, r.g, parts[1..], env).(ok :=
        r.ok && AddAll(r.p, r.t, r.g, parts[1..], env).ok)
  {
    hide AddLUN;
  }

  lemma AddOneMeaning(p: Proc, t: Tree, g: Gadget, part: (string, string), env: Env)
    requires Sound(t) && Root in t.nodes && Function in t.nodes
    ensures var look, r := Ask(p, env), AddOne(p, t, g, part, env);
      && Sound(r.t) && Root in r.t.nodes && Function in r.t.nodes
      && Labels(r.g.luns) == Labels(g.luns) + (if look.ok && r.ok then [part] else [])
      && (p.dead ==> r.p.dead)
      && (NoMore(t, g) && r.ok && !r.p.dead ==>
            NoMore(r.t, r.g) && r.p.clock == p.clock + 1 + 6 * One(look.ok)
            && (look.ok <==> env(p.clock).Done?))
  {
    hide AddLUN, Sound, NoMore, Labels;
    var look := Ask(p, env);
    if look.ok {
      AddLunMeaning(look.p, t, g, part.0, part.1, env);
      if NoMore(t, g) { LunTakesSix(look.p, t, g, part.0, part.1, env); }
      LabelsMore(g.luns, LUN(part.0, part.1, false));
      assert part == (part.0, part.1);
    }
  }

  lemma ChosenFirst<T>(s: seq<T>, keep: seq<bool>)
    requires |keep| == |s| > 0
    ensures Chosen(s, keep) == (if keep[0] then [s[0]] else []) + Chosen(s[1..], keep[1..])
  {
  }

  lemma LooksShift(p: Proc, next: nat, added: seq<bool>, env: Env)
    requires |added| > 0 && next == p.clock + 1 + 6 * One(added[0])
    requires (added[0] <==> env(p.clock).Done?) && Found(next, added[1..], env)
    ensures Found(p.clock, added, env)
  {
    forall i | 0 <= i < |added| ensures added[i] <==> env(LookAt(p.clock, added, i)).Done? {
      if i == 0 {
        assert added[..0] == [];
      } else {
        assert added[..i][1..] == added[1..][..i - 1];
        assert LookAt(p.clock, added, i) == LookAt(next, added[1..], i - 1);
        assert added[1..][i - 1] == added[i];
      }
    }
  }

  /** The second loop changes no device and no label. */
  lemma {:induction false} NofuaAllLabels(p: Proc, t: Tree, g: Gadget, i: nat, env: Env)
    requires i <= |g.luns|
    ensures Labels(NofuaAll(p, t, g, i, env).g.luns) == Labels(g.luns)
    decreases |g.luns| - i
  {
    hide Labels, Write;
    if i < |g.luns| {
      var r := SetNofua(p, t, g, i, true, env);
      LabelsNofua(g.luns, i, true);
      NofuaAllLabels(r.p, r.t, r.g, i + 1, env);
    }
  }

  /** Whatever a boot meets, the luns of its gadget are those of some of the partitions, in their order. */
  lemma PresentOfParts(p: Proc, t: Tree, parts: seq<(string, string)>, names: seq<string>, env: Env)
    requires Sound(t) && Listed(names)
    ensures OfParts(Present(p, t, parts, names, env).g.luns, parts)
  {
    hide AddAll, NofuaAll, Activate, Sound, Labels, TeardownExisting, Populate;
    var d := TeardownExisting(p, t, env);
    TeardownRemovesAll(p, t, env);
    PopulateKeeps(d.0, d.1, env);
    var c := Populate(d.0, d.1, env);
    if c.ok {
      GrownIsSound(Point(d.0, d.1, true), c);
      var added := AddAllPresents(c.p, c.t, Gadget([], false), parts, env);
      var a := AddAll(c.p, c.t, Gadget([], false), parts, env);
      NoLabels();
      NofuaAllLabels(a.p, a.t, a.g, 0, env);
      NoLunsAgree(c.t);
      AddAllMeaning(c.p, c.t, Gadget([], false), parts, env);
      var n := NofuaAll(a.p, a.t, a.g, 0, env);
      NofuaAllMeaning(a.p, a.t, a.g, 0, env);
      ActivateMeaning(n.p, n.t, n.g, names, env);
      assert Labels(n.g.luns) == Chosen(parts, added);
    } else {
      var none := seq(|parts|, i => false);
      ChosenNone(parts, none);
      NoLabels();
    }
  }

  lemma NoLabels()
    ensures Labels([]) == []
  {
  }

  lemma GrownIsSound(c: Point, r: Point)
    requires Grows(c, r)
    ensures Sound(r.t)
  {
  }

  lemma NoLunsAgree(t: Tree)
    ensures LunsAgree(Gadget([], false), t)
  {
  }

  /** A boot all of whose steps succeed presents exactly the partitions it found, with nofua on: lun k belongs to
      the k-th of them. */
  lemma BootPresentsWhatItFound(p: Proc, t: Tree, parts: seq<(string, string)>, names: seq<string>, env: Env)
    returns (found: seq<bool>)
    requires Sound(t) && Listed(names)
    ensures |found| == |parts|
    ensures var c, r := Configure(p, t, env), Present(p, t, parts, names, env);
      r.ok && AllAdded(c, parts, env) && r.t.faults == t.faults ==>
        && Labels(r.g.luns) == Chosen(parts, found) && (forall l :: l in r.g.luns ==> l.nofua)
        && Found(c.p.clock, found, env)
  {
    hide AddAll, NofuaAll, Activate, Sound, Labels, TeardownExisting, Populate, Configured;
    BootDeterminesTheTree(p, t, parts, names, env);
    var d := TeardownExisting(p, t, env);
    TeardownRemovesAll(p, t, env);
    PopulateKeeps(d.0, d.1, env);
    var c := Populate(d.0, d.1, env);
    var g0 := Gadget([], false);
    if c.ok {
      GrownIsSound(Point(d.0, d.1, true), c);
      found := AddAllPresents(c.p, c.t, g0, parts, env);
      var a := AddAll(c.p, c.t, g0, parts, env);
      NoLabels();
      NofuaAllLabels(a.p, a.t, a.g, 0, env);
      NoLunsAgree(c.t);
      AddAllMeaning(c.p, c.t, g0, parts, env);
      var n := NofuaAll(a.p, a.t, a.g, 0, env);
      NofuaAllMeaning(a.p, a.t, a.g, 0, env);
      ActivateMeaning(n.p, n.t, n.g, names, env);
      PresentFromMeaning(c, parts, names, env);
      assert Present(p, t, parts, names, env) == Activate(n.p, n.t, n.g, names, env);
      if Activate(n.p, n.t, n.g, names, env).ok && n.t.faults == t.faults {
        assert d.1.faults == t.faults;
        assert !d.0.dead by { DeadPopulates(d.0, d.1, env); }
        PopulateBuilds(d.0, t.faults, env);
        FreshHasNone(t.faults);
      }
      NofuaAlive(a.p, a.t, a.g, 0, env);
    } else {
      found := seq(|parts|, i => false);
    }
  }

  lemma DeadPopulates(p: Proc, t: Tree, env: Env)
    requires Sound(t)
    ensures Populate(p, t, env).ok ==> !p.dead
  {
    PopulateKeeps(p, t, env);
  }

  lemma FreshHasNone(faults: nat)
    ensures NoMore(Configured(faults), Gadget([], false))
  {
  }

  lemma {:induction false} NofuaAlive(p: Proc, t: Tree, g: Gadget, i: nat, env: Env)
    requires i <= |g.luns|
    ensures p.dead ==> NofuaAll(p, t, g, i, env).p.dead
    decreases |g.luns| - i
  {
    if i < |g.luns| {
      var r := SetNofua(p, t, g, i, true, env);
      NofuaAlive(r.p, r.t, r.g, i + 1, env);
    }
  }
}
