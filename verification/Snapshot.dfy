/** internal/snapshot/snapshot.go as the source writes it: a Snapshot object whose fields follow
    the kernel. Each method is proved to do exactly what SnapshotSpec says of it. */
module Snapshot {
  import opened Common
  import opened Outside
  import opened SnapshotSpec
  import Fsutil

  /** The kernel side: device-mapper, zram-control and the mount table. */
  class Devices {
    var k: Kernel

    constructor (k: Kernel)
      ensures this.k == k
    {
      this.k := k;
    }

    method RemoveSnap(h: Host) returns (ok: bool)
      modifies this, h
      ensures (h.p, k, ok) == SnapshotSpec.RemoveSnap(old(h.p), old(k), h.env)
    {
      var r := SnapshotSpec.RemoveSnap(h.p, k, h.env);
      h.p, k, ok := r.0, r.1, r.2;
    }

    method RemoveOrigin(h: Host) returns (ok: bool)
      modifies this, h
      ensures (h.p, k, ok) == SnapshotSpec.RemoveOrigin(old(h.p), old(k), h.env)
    {
      var r := SnapshotSpec.RemoveOrigin(h.p, k, h.env);
      h.p, k, ok := r.0, r.1, r.2;
    }

    method HotRemove(h: Host, z: nat) returns (ok: bool)
      modifies this, h
      ensures (h.p, k, ok) == SnapshotSpec.HotRemove(old(h.p), old(k), z, h.env)
    {
      var r := SnapshotSpec.HotRemove(h.p, k, z, h.env);
      h.p, k, ok := r.0, r.1, r.2;
    }

    method Umount(h: Host) returns (ok: bool)
      modifies this, h
      ensures var u := Fsutil.Umount(old(h.p), At(old(k)), h.env);
        h.p == u.p && k == WithMounts(old(k), u.at) && ok == u.ok
    {
      var u := Fsutil.Umount(h.p, At(k), h.env);
      h.p, k, ok := u.p, WithMounts(k, u.at), u.ok;
    }

    method LazyUmount(h: Host) returns (ok: bool)
      modifies this, h
      ensures var u := Fsutil.LazyUmount(old(h.p), At(old(k)), h.env);
        h.p == u.p && k == WithMounts(old(k), u.at) && ok == u.ok
    {
      var u := Fsutil.LazyUmount(h.p, At(k), h.env);
      h.p, k, ok := u.p, WithMounts(k, u.at), u.ok;
    }

    method IsMounted(h: Host) returns (mounted: bool)
      modifies this, h
      ensures var u := Fsutil.IsMounted(old(h.p), At(old(k)), h.env);
        h.p == u.p && k == WithMounts(old(k), u.at) && mounted == u.ok
    {
      var u := Fsutil.IsMounted(h.p, At(k), h.env);
      h.p, k, mounted := u.p, WithMounts(k, u.at), u.ok;
    }

    /** One creation request, made on behalf of the snapshot `s`. */
    method HotAdd(h: Host, s: Snapshot) returns (ok: bool)
      modifies this, h, s
      ensures Point(h.p, k, s.View(), ok) == SnapshotSpec.HotAdd(Point(old(h.p), old(k), old(s.View()), true), h.env)
    {
      var r := SnapshotSpec.HotAdd(Point(h.p, k, s.View(), true), h.env);
      h.p, k, s.zramDevice, ok := r.p, r.k, r.s.zram, r.ok;
    }

    method MakeOrigin(h: Host, s: Snapshot) returns (ok: bool)
      modifies this, h
      ensures Point(h.p, k, s.View(), ok)
        == SnapshotSpec.MakeOrigin(Point(old(h.p), old(k), old(s.View()), true), h.env)
    {
      var r := SnapshotSpec.MakeOrigin(Point(h.p, k, s.View(), true), h.env);
      h.p, k, ok := r.p, r.k, r.ok;
    }

    method MakeSnap(h: Host, s: Snapshot) returns (ok: bool)
      modifies this, h
      ensures Point(h.p, k, s.View(), ok) == SnapshotSpec.MakeSnap(Point(old(h.p), old(k), old(s.View()), true), h.env)
    {
      var r := SnapshotSpec.MakeSnap(Point(h.p, k, s.View(), true), h.env);
      h.p, k, ok := r.p, r.k, r.ok;
    }

    method MountSnap(h: Host, s: Snapshot) returns (ok: bool)
      modifies this, h
      ensures Point(h.p, k, s.View(), ok) == SnapshotSpec.MountSnap(Point(old(h.p), old(k), old(s.View()), true), h.env)
    {
      var r := SnapshotSpec.MountSnap(Point(h.p, k, s.View(), true), h.env);
      h.p, k, ok := r.p, r.k, r.ok;
    }
  }

  /** fsutil.Unmount("/mnt/snap"). */
  method Unmount(h: Host, d: Devices) returns (ok: bool)
    modifies h, d
    ensures (h.p, d.k, ok) == SnapshotSpec.Unmount(old(h.p), old(d.k), h.env)
  {
    var mounted := d.IsMounted(h);
    if !mounted {
      return true;
    }
    ok := d.Umount(h);
    if ok {
      return;
    }
    ok := d.LazyUmount(h);
  }

  method Cleanup(h: Host, d: Devices)
    modifies h, d
    ensures (h.p, d.k) == SnapshotSpec.Cleanup(old(h.p), old(d.k), h.env)
  {
    var _ := d.RemoveSnap(h);
    var _ := d.RemoveOrigin(h);
  }

  /** Create: the snapshot, or null after undoing whatever was built. */
  method Create(h: Host, d: Devices) returns (s: Snapshot?)
    modifies h, d
    ensures var c := SnapshotSpec.Create(old(h.p), old(d.k), h.env);
      && h.p == c.p && d.k == c.k && (s != null <==> c.ok)
      && (s != null ==> fresh(s) && s.View() == c.s)
  {
    s := new Snapshot();
    Cleanup(h, d);
    var ok := s.Build(h, d);
    if !ok {
      var _ := s.Release(h, d);
      s := null;
    }
  }

  class Snapshot {
    var zramDevice: Option<nat>
    var mountpoint: bool

    constructor ()
      ensures View() == Snap(None, false)
    {
      zramDevice, mountpoint := None, false;
    }

    function View(): Snap
      reads this
    {
      Snap(zramDevice, mountpoint)
    }

    /** The steps of CreateWithCOWSize between its Cleanup and its rollback. */
    method Build(h: Host, d: Devices) returns (ok: bool)
      requires View() == Snap(None, false)
      modifies this, h, d
      ensures Point(h.p, d.k, View(), ok) == SnapshotSpec.Build(old(h.p), old(d.k), h.env)
    {
      ok := d.HotAdd(h, this);
      if !ok { return; }
      ok := h.Do();   // disksize
      if !ok { return; }
      ok := h.Do();   // blockdev --getsz
      if !ok { return; }
      ok := d.MakeOrigin(h, this);
      if !ok { return; }
      ok := d.MakeSnap(h, this);
    }

    method Mount(h: Host, d: Devices) returns (ok: bool)
      modifies this, h, d
      ensures Point(h.p, d.k, View(), ok) == SnapshotSpec.Mount(old(h.p), old(d.k), old(View()), h.env)
    {
      mountpoint := true;
      ok := h.Do();   // mkdir -p
      if !ok { return; }
      ok := d.MountSnap(h, this);
    }

    method Release(h: Host, d: Devices) returns (ok: bool)
      modifies this, h, d
      ensures Point(h.p, d.k, View(), ok) == SnapshotSpec.Release(old(h.p), old(d.k), old(View()), h.env)
    {
      ok := true;
      if mountpoint {
        var unmounted := d.Umount(h);
        if !unmounted {
          ok := d.LazyUmount(h);
        }
        mountpoint := false;
      }
      var snapGone := d.RemoveSnap(h);
      ok := ok && snapGone;
      var originGone := d.RemoveOrigin(h);
      ok := ok && originGone;
      if zramDevice.Some? {
        var reset := h.Do();
        ok := ok && reset;
        var _ := d.HotRemove(h, zramDevice.value);
        zramDevice := None;
      }
    }
  }
}
