/** What the car sees of a boot that is carried out, attribute by attribute. */
module Drive {
  import opened MachineSpec
  import opened Recovery
  import G = GadgetSpec
  import Luns

  /** What lun.i shows the car. */
  predicate Shows(t: G.Tree, i: nat, device: string, inquiry: string) {
    && i in t.luns && G.Reads(t, i, "file", device) && G.Reads(t, i, "inquiry_string", inquiry)
    && G.Reads(t, i, "removable", "1") && G.Reads(t, i, "ro", "0") && G.Reads(t, i, "nofua", "1")
  }

  /** Two turns after any restart, in a world that cooperates: */
  lemma CarSeesThreePartitions(u: Setup, m: Machine)
    requires AboutToBoot(u, m)
    ensures var t := Run(u, m, 2).t;
      && t.luns == [0, 1, 2]
      && Shows(t, 0, "/dev/mmcblk0p5", "TeslaUSB CAM")
      && Shows(t, 1, "/dev/mmcblk0p6", "TeslaUSB MUSIC")
      && Shows(t, 2, "/dev/mmcblk0p7", "TeslaUSB LIGHTSHOW")
  {
    hide Run, AboutToBoot;
    BootsInTwo(u, m);
    var r := Run(u, m, 2);
    DriveShows(r.t, r.gad.value, m.t.faults, u.names);
  }

  lemma DriveShows(t: G.Tree, g: G.Gadget, faults: nat, names: seq<string>)
    requires WholeDrive(t, g, Partitions, faults, names)
    ensures t.luns == [0, 1, 2] && Shows(t, 0, Cam, "TeslaUSB CAM") && Shows(t, 1, Music, "TeslaUSB MUSIC")
    ensures Shows(t, 2, LightShow, "TeslaUSB LIGHTSHOW")
  {
    hide G.Configured, G.BuiltAttrs, G.FindUdc;
    Luns.LabelsAre(g.luns);
    assert |g.luns| == 3 && t.luns == G.Upto(3) == [0, 1, 2];
    assert forall i :: 0 <= i < 3 ==> g.luns[i] in g.luns && G.LunAgrees(t, i, g.luns[i]);
    assert G.Flag(true) == "1";
    assert g.luns[0] == G.LUN(Cam, "TeslaUSB CAM", true);
    assert g.luns[1] == G.LUN(Music, "TeslaUSB MUSIC", true);
    assert g.luns[2] == G.LUN(LightShow, "TeslaUSB LIGHTSHOW", true);
  }

  predicate Says(t: G.Tree, n: G.Node, name: string, value: string) {
    n in t.nodes && (n, name) in t.attrs && t.attrs[(n, name)] == value
  }

  /** And of the gadget itself: which device it is, what it calls itself, and how it is configured. */
  lemma CarSeesTheGadget(u: Setup, m: Machine)
    requires AboutToBoot(u, m)
    ensures var t := Run(u, m, 2).t;
      && Says(t, G.Root, "idVendor", "0x1d6b") && Says(t, G.Root, "idProduct", "0x0104")
      && Says(t, G.Root, "bcdUSB", "0x0200") && Says(t, G.Root, "bcdDevice", "0x0100")
      && Says(t, G.Strings, "manufacturer", "Tesla") && Says(t, G.Strings, "product", "USB Drive")
      && Says(t, G.Strings, "serialnumber", "000000000001")
      && Says(t, G.Config, "MaxPower", "250") && Says(t, G.ConfigStrings, "configuration", "TeslaUSB")
      && Says(t, G.Function, "stall", "1") && t.links == ["mass_storage.usb0"] && t.udc == G.FindUdc(u.names)
  {
    hide Run, AboutToBoot, G.Configured, G.BuiltAttrs, G.FindUdc;
    BootsInTwo(u, m);
    var r := Run(u, m, 2);
    var c := G.Configured(m.t.faults);
    ConfiguredSays(m.t.faults);
    assert r.t.nodes == c.nodes && r.t.attrs == G.BuiltAttrs(c.attrs, r.gad.value.luns);
    OnlyLunsAdded(c.attrs, r.gad.value.luns);
  }

  lemma {:induction false} OnlyLunsAdded(attrs: map<(G.Node, string), string>, luns: seq<G.LUN>)
    ensures forall a :: a in attrs && !a.0.Lun? ==>
      a in G.BuiltAttrs(attrs, luns) && G.BuiltAttrs(attrs, luns)[a] == attrs[a]
    decreases |luns|
  {
    if luns != [] {
      OnlyLunsAdded(attrs, luns[..|luns| - 1]);
    }
  }

  lemma ConfiguredSays(faults: nat)
    ensures var t := G.Configured(faults);
      && Says(t, G.Root, "idVendor", "0x1d6b") && Says(t, G.Root, "idProduct", "0x0104")
      && Says(t, G.Root, "bcdUSB", "0x0200") && Says(t, G.Root, "bcdDevice", "0x0100")
      && Says(t, G.Strings, "manufacturer", "Tesla") && Says(t, G.Strings, "product", "USB Drive")
      && Says(t, G.Strings, "serialnumber", "000000000001")
      && Says(t, G.Config, "MaxPower", "250") && Says(t, G.ConfigStrings, "configuration", "TeslaUSB")
      && Says(t, G.Function, "stall", "1")
  {
    hide G.With, G.Descriptors, G.EnglishStrings;
    DescriptorsSay(map[]);
    var a := G.With(map[], G.Root, G.Descriptors);
    StringsSay(a);
    WithKeeps(a, G.Strings, G.EnglishStrings);
  }

  lemma WithKeeps(attrs: map<(G.Node, string), string>, n: G.Node, items: seq<(string, string)>)
    ensures forall a :: a in attrs && a.0 != n ==>
      a in G.With(attrs, n, items) && G.With(attrs, n, items)[a] == attrs[a]
    decreases |items|
  {
    if items != [] {
      WithKeeps(attrs[(n, items[0].0) := items[0].1], n, items[1..]);
    }
  }

  predicate Holds(attrs: map<(G.Node, string), string>, n: G.Node, name: string, value: string) {
    (n, name) in attrs && attrs[(n, name)] == value
  }

  lemma DescriptorsSay(attrs: map<(G.Node, string), string>)
    ensures var a := G.With(attrs, G.Root, G.Descriptors);
      && Holds(a, G.Root, "idVendor", "0x1d6b") && Holds(a, G.Root, "idProduct", "0x0104")
      && Holds(a, G.Root, "bcdUSB", "0x0200") && Holds(a, G.Root, "bcdDevice", "0x0100")
  {
    var d := G.Descriptors;
    assert |d[0].0| == 8 && |d[1].0| == 9 && |d[2].0| == 6 && |d[3].0| == 9 && d[1].0[0] == 'i' && d[3].0[0] == 'b';
    WithFour(attrs, G.Root, d[0], d[1], d[2], d[3]);
    assert d == [d[0], d[1], d[2], d[3]];
  }

  lemma StringsSay(attrs: map<(G.Node, string), string>)
    ensures var a := G.With(attrs, G.Strings, G.EnglishStrings);
      && Holds(a, G.Strings, "manufacturer", "Tesla") && Holds(a, G.Strings, "product", "USB Drive")
      && Holds(a, G.Strings, "serialnumber", "000000000001")
  {
    var e := G.EnglishStrings;
    assert e[0].0[0] == 'm' && e[1].0[0] == 'p' && e[2].0[0] == 's';
    WithThree(attrs, G.Strings, e[0], e[1], e[2]);
    assert e == [e[0], e[1], e[2]];
  }

  lemma WithThree(m: map<(G.Node, string), string>, n: G.Node, x: (string, string), y: (string, string),
                  z: (string, string))
    ensures G.With(m, n, [x, y, z]) == m[(n, x.0) := x.1][(n, y.0) := y.1][(n, z.0) := z.1]
  {
    assert [x, y, z][1..] == [y, z] && [y, z][1..] == [z] && [z][1..] == [];
    var m3 := m[(n, x.0) := x.1][(n, y.0) := y.1][(n, z.0) := z.1];
    assert G.With(m3, n, []) == m3;
    assert G.With(m[(n, x.0) := x.1][(n, y.0) := y.1], n, [z]) == m3;
  }

  lemma WithFour(m: map<(G.Node, string), string>, n: G.Node, w: (string, string), x: (string, string),
                 y: (string, string), z: (string, string))
    ensures G.With(m, n, [w, x, y, z]) == m[(n, w.0) := w.1][(n, x.0) := x.1][(n, y.0) := y.1][(n, z.0) := z.1]
  {
    assert [w, x, y, z][1..] == [x, y, z];
    WithThree(m[(n, w.0) := w.1], n, x, y, z);
  }
}
