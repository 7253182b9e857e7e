/** internal/gadget/gadget.go as the source writes it: a Gadget object that appends to `LUNs`,
    toggles `active` and walks configfs step by step. Each method is proved to do exactly what
    GadgetSpec says of it. */
module Gadget {
  import opened Outside
  import opened GadgetSpec

  /** /sys/kernel/config/usb_gadget/teslausb. */
  class Configfs {
    var t: Tree

    constructor (t: Tree)
      ensures this.t == t
    {
      this.t := t;
    }

    method MkdirAll(h: Host, n: Node) returns (ok: bool)
      modifies this, h
      ensures Point(h.p, t, ok) == GadgetSpec.MkdirAll(Point(old(h.p), old(t), true), n, h.env)
    {
      var r := GadgetSpec.MkdirAll(Point(h.p, t, true), n, h.env);
      h.p, t, ok := r.p, r.t, r.ok;
    }

    method Write(h: Host, n: Node, name: string, value: string) returns (ok: bool)
      modifies this, h
      ensures Point(h.p, t, ok) == GadgetSpec.Write(Point(old(h.p), old(t), true), n, name, value, h.env)
    {
      var r := GadgetSpec.Write(Point(h.p, t, true), n, name, value, h.env);
      h.p, t, ok := r.p, r.t, r.ok;
    }

    method Bind(h: Host, u: string) returns (ok: bool)
      modifies this, h
      ensures Point(h.p, t, ok) == GadgetSpec.Bind(Point(old(h.p), old(t), true), u, h.env)
    {
      var r := GadgetSpec.Bind(Point(h.p, t, true), u, h.env);
      h.p, t, ok := r.p, r.t, r.ok;
    }

    method Unbind(h: Host) returns (ok: bool)
      modifies this, h
      ensures Point(h.p, t, ok) == GadgetSpec.Unbind(Point(old(h.p), old(t), true), h.env)
    {
      var r := GadgetSpec.Unbind(Point(h.p, t, true), h.env);
      h.p, t, ok := r.p, r.t, r.ok;
    }

    method Stat(h: Host) returns (there: bool)
      modifies this, h
      ensures (h.p, t, there) == GadgetSpec.Stat(old(h.p), old(t), h.env)
    {
      var r := GadgetSpec.Stat(h.p, t, h.env);
      h.p, t, there := r.0, r.1, r.2;
    }

    method ReadUdc(h: Host) returns (u: string)
      modifies h
      ensures (h.p, u) == GadgetSpec.ReadUdc(old(h.p), t, h.env)
    {
      var r := GadgetSpec.ReadUdc(h.p, t, h.env);
      h.p, u := r.0, r.1;
    }

    method ClearUdc(h: Host)
      modifies this, h
      ensures (h.p, t) == GadgetSpec.ClearUdc(old(h.p), old(t), h.env)
    {
      var read := h.Do();
      if !read {
        if t.udc != "" && !h.p.dead {
          t := t.(faults := t.faults + 1);
        }
        return;
      }
      if Root !in t.nodes || t.udc == "" {
        return;
      }
      var r := Removal(h.p, t, h.env, true, t.(udc := ""));   // the empty write
      h.p, t := r.0, r.1;
    }

    method Unlink(h: Host, l: string)
      modifies this, h
      ensures (h.p, t) == GadgetSpec.Unlink(old(h.p), old(t), l, h.env)
    {
      var r := GadgetSpec.Unlink(h.p, t, l, h.env);
      h.p, t := r.0, r.1;
    }

    method Rmdir(h: Host, n: Node)
      modifies this, h
      ensures (h.p, t) == GadgetSpec.Rmdir(old(h.p), old(t), n, h.env)
    {
      var r := GadgetSpec.Rmdir(h.p, t, n, h.env);
      h.p, t := r.0, r.1;
    }

    method EnsureLink(h: Host) returns (ok: bool)
      modifies this, h
      ensures Point(h.p, t, ok) == GadgetSpec.EnsureLink(old(h.p), old(t), h.env)
    {
      var looked := h.Do();   // Lstat
      if h.p.dead {
        return false;
      }
      if !looked || FunctionLink in t.links {
        return true;
      }
      ok := h.Do();   // Symlink
      ok := ok && Config in t.nodes && Function in t.nodes;
      if ok {
        t := t.(links := t.links + [FunctionLink]);
      }
    }
  }

  class Gadget {
    var LUNs: seq<LUN>
    var active: bool

    constructor ()
      ensures View() == GadgetSpec.Gadget([], false)
    {
      LUNs, active := [], false;
    }

    function View(): GadgetSpec.Gadget
      reads this
    {
      GadgetSpec.Gadget(LUNs, active)
    }

    method RemoveConfigfsTree(h: Host, fs: Configfs)
      modifies h, fs
      ensures (h.p, fs.t) == GadgetSpec.RemoveConfigfsTree(old(h.p), old(fs.t), h.env)
    {
      var links := fs.t.links;
      ghost var goal := GadgetSpec.UnlinkAll(h.p, fs.t, links, h.env);
      for i := 0 to |links|
        invariant GadgetSpec.UnlinkAll(h.p, fs.t, links[i..], h.env) == goal
      {
        fs.Unlink(h, links[i]);
        assert links[i..][1..] == links[i + 1..];
      }
      var luns := fs.t.luns;
      ghost var goal' := GadgetSpec.RmdirLuns(h.p, fs.t, luns, h.env);
      for i := 0 to |luns|
        invariant GadgetSpec.RmdirLuns(h.p, fs.t, luns[i..], h.env) == goal'
      {
        fs.Rmdir(h, Lun(luns[i]));
        assert luns[i..][1..] == luns[i + 1..];
      }
      ghost var goal'' := GadgetSpec.RmdirAll(h.p, fs.t, Doomed, h.env);
      for i := 0 to |Doomed|
        invariant GadgetSpec.RmdirAll(h.p, fs.t, Doomed[i..], h.env) == goal''
      {
        fs.Rmdir(h, Doomed[i]);
        assert Doomed[i..][1..] == Doomed[i + 1..];
      }
    }

    /** findUDC: the first controller that is not a dummy, else the first one; an error when the
        directory cannot be read or is empty. */
    static method FindUdc(h: Host, names: seq<string>) returns (ok: bool, u: string)
      requires Listed(names)
      modifies h
      ensures h.p == Ask(old(h.p), h.env).p && ok == (Ask(old(h.p), h.env).ok && names != [])
      ensures ok ==> u == GadgetSpec.FindUdc(names)
    {
      u := "";
      ok := h.Do();   // ReadDir /sys/class/udc
      if !ok || names == [] {
        return false, "";
      }
      for i := 0 to |names|
        invariant FirstReal(names[i..]) == FirstReal(names)
      {
        assert names[i..][1..] == names[i + 1..];
        if !ContainsDummy(names[i]) {
          assert names[i] in names;
          return true, names[i];
        }
      }
      return true, names[0];
    }

    method TeardownExisting(h: Host, fs: Configfs)
      modifies h, fs
      ensures (h.p, fs.t) == GadgetSpec.TeardownExisting(old(h.p), old(fs.t), h.env)
    {
      var there := fs.Stat(h);
      if !there {
        return;
      }
      fs.ClearUdc(h);
      RemoveConfigfsTree(h, fs);
    }

    method WriteAll(h: Host, fs: Configfs, n: Node, items: seq<(string, string)>) returns (ok: bool)
      modifies h, fs
      ensures Point(h.p, fs.t, ok) == GadgetSpec.WriteAll(Point(old(h.p), old(fs.t), true), n, items, h.env)
    {
      ghost var goal := GadgetSpec.WriteAll(Point(h.p, fs.t, true), n, items, h.env);
      for i := 0 to |items|
        invariant GadgetSpec.WriteAll(Point(h.p, fs.t, true), n, items[i..], h.env) == goal
      {
        ok := fs.Write(h, n, items[i].0, items[i].1);
        assert items[i..][1..] == items[i + 1..];
        if !ok {
          WriteAllWrites(Point(h.p, fs.t, false), n, items[i + 1..], h.env);
          return;
        }
      }
      ok := true;
    }

    method Configure(h: Host, fs: Configfs) returns (ok: bool)
      modifies h, fs
      ensures Point(h.p, fs.t, ok) == GadgetSpec.Configure(old(h.p), old(fs.t), h.env)
    {
      TeardownExisting(h, fs);
      ok := Populate(h, fs);
    }

    method Populate(h: Host, fs: Configfs) returns (ok: bool)
      modifies h, fs
      ensures Point(h.p, fs.t, ok) == GadgetSpec.Populate(old(h.p), old(fs.t), h.env)
    {
      ghost var env := h.env;
      ok := fs.MkdirAll(h, Root);
      if !ok {
        WriteAllWrites(Point(h.p, fs.t, false), Root, Descriptors, env);
        WriteAllWrites(Point(h.p, fs.t, false), Strings, EnglishStrings, env);
        return;
      }
      ok := WriteAll(h, fs, Root, Descriptors);
      if !ok {
        WriteAllWrites(Point(h.p, fs.t, false), Strings, EnglishStrings, env);
        return;
      }
      ok := fs.MkdirAll(h, Strings);
      if !ok {
        WriteAllWrites(Point(h.p, fs.t, false), Strings, EnglishStrings, env);
        return;
      }
      ok := WriteAll(h, fs, Strings, EnglishStrings);
      if !ok { return; }
      ok := fs.MkdirAll(h, ConfigStrings);
      if !ok { return; }
      ok := fs.Write(h, Config, "MaxPower", "250");
      if !ok { return; }
      ok := fs.Write(h, ConfigStrings, "configuration", "TeslaUSB");
      if !ok { return; }
      ok := fs.MkdirAll(h, Function);
      if !ok { return; }
      ok := fs.Write(h, Function, "stall", "1");
    }

    method AddLUN(h: Host, fs: Configfs, device: string, inquiry: string) returns (ok: bool)
      modifies this, h, fs
      ensures Call(h.p, fs.t, View(), ok)
        == GadgetSpec.AddLUN(old(h.p), old(fs.t), old(View()), device, inquiry, h.env)
    {
      var lun := Lun(|LUNs|);
      ok := fs.MkdirAll(h, lun);
      if !ok { return; }
      ok := fs.Write(h, lun, "file", device);
      if !ok { return; }
      ok := fs.Write(h, lun, "inquiry_string", inquiry);
      if !ok { return; }
      ok := fs.Write(h, lun, "removable", "1");
      if !ok { return; }
      ok := fs.Write(h, lun, "ro", "0");
      if !ok { return; }
      ok := fs.Write(h, lun, "nofua", "0");
      if !ok { return; }
      LUNs := LUNs + [LUN(device, inquiry, false)];
    }

    method SetNofua(h: Host, fs: Configfs, lun: int, enabled: bool) returns (ok: bool)
      modifies this, h, fs
      ensures Call(h.p, fs.t, View(), ok)
        == GadgetSpec.SetNofua(old(h.p), old(fs.t), old(View()), lun, enabled, h.env)
    {
      if lun < 0 || lun >= |LUNs| {
        return false;
      }
      ok := fs.Write(h, Lun(lun), "nofua", Flag(enabled));
      if !ok { return; }
      LUNs := LUNs[lun := LUNs[lun].(nofua := enabled)];
    }

    method Activate(h: Host, fs: Configfs, names: seq<string>) returns (ok: bool)
      requires Listed(names)
      modifies this, h, fs
      ensures Call(h.p, fs.t, View(), ok)
        == GadgetSpec.Activate(old(h.p), old(fs.t), old(View()), names, h.env)
    {
      ok := fs.EnsureLink(h);
      if !ok { return; }
      var udc;
      ok, udc := FindUdc(h, names);
      if !ok { return; }
      var cur := fs.ReadUdc(h);
      if cur != "" {
        if cur == udc {
          active := true;
          return true;
        }
        fs.ClearUdc(h);
      }
      ok := fs.Bind(h, udc);
      if !ok { return; }
      active := true;
    }

    method Deactivate(h: Host, fs: Configfs) returns (ok: bool)
      modifies this, h, fs
      ensures Call(h.p, fs.t, View(), ok) == GadgetSpec.Deactivate(old(h.p), old(fs.t), old(View()), h.env)
    {
      ok := fs.Unbind(h);
      if !ok { return; }
      active := false;
    }
  }
}
