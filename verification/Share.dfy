/** internal/archive/cifs.go and nfs.go: connecting to the archive and disconnecting from it. The rsync,
    rclone and noop backends hold no connection. */
module ShareSpec {
  import opened Common
  import opened Outside
  import opened LedgerSpec

  /** mounts: how often the share is mounted; temp: the credentials files on disk; creds: the one the
      backend object remembers; faults: umounts refused although the share was mounted; kept: credentials
      files left behind by a live process - by a failed Connect, or by a refused removal. */
  datatype Share = Share(mounts: nat, temp: set<nat>, creds: Option<nat>, faults: nat, kept: nat)

  datatype Linked = Linked(p: Proc, s: Share, ok: bool)

  function MountShare(p: Proc, s: Share, env: Env): Linked {
    var a := Ask(p, env);
    if a.ok then Linked(a.p, s.(mounts := s.mounts + 1), true) else Linked(a.p, s, false)
  }

  /** os.CreateTemp: a name not yet in use. */
  function CreateTemp(p: Proc, s: Share, env: Env): Linked {
    var a := Ask(p, env);
    if a.ok && a.value !in s.temp
    then Linked(a.p, s.(temp := s.temp + {a.value}, creds := Some(a.value)), true)
    else Linked(a.p, s, false)
  }

  /** A credentials file a live process leaves behind. */
  function Keep(p: Proc, s: Share): Share {
    if p.dead then s else s.(kept := s.kept + 1)
  }

  function Connect(b: Backend, p: Proc, s: Share, env: Env): Linked {
    if !b.Cifs? && !b.Nfs? then Linked(p, s, true) else
      var dir := Ask(p, env);
      if !dir.ok then Linked(dir.p, s, false)
      else if b.Nfs? then MountShare(dir.p, s, env)
      else
        var c := CreateTemp(dir.p, s, env);
        if !c.ok then c else
          var w := Ask(c.p, env);
          var m := if w.ok then MountShare(w.p, c.s, env) else Linked(w.p, c.s, false);
          if m.ok then m else m.(s := Keep(m.p, m.s))
  }

  function Fault(p: Proc, s: Share): Share {
    if p.dead then s else s.(faults := s.faults + 1)
  }

  function UmountShare(p: Proc, s: Share, env: Env): Linked {
    var a := Ask(p, env);
    if s.mounts == 0 then Linked(a.p, s, false)
    else if a.ok then Linked(a.p, s.(mounts := s.mounts - 1), true)
    else Linked(a.p, Fault(a.p, s), false)
  }

  function RemoveTemp(p: Proc, s: Share, env: Env): Linked {
    if s.creds.None? then Linked(p, s, true) else
      var a := Ask(p, env);
      if a.p.dead then Linked(a.p, s, false)
      else if a.ok then Linked(a.p, s.(temp := s.temp - {s.creds.value}, creds := None), true)
      else Linked(a.p, Keep(a.p, s).(creds := None), true)
  }

  function Disconnect(b: Backend, p: Proc, s: Share, env: Env): Linked {
    if !b.Cifs? && !b.Nfs? then Linked(p, s, true) else
      var u := UmountShare(p, s, env);
      if b.Nfs? then u else
        var r := RemoveTemp(u.p, u.s, env);
        r.(ok := u.ok && r.ok)
  }

  // ------------------------------------------------------------ mounts

  predicate Mounts(b: Backend) { b.Cifs? || b.Nfs? }

  /** Connect either mounts the share once or leaves its mounts as they were. */
  lemma ConnectMeaning(b: Backend, p: Proc, s: Share, env: Env)
    ensures var c := Connect(b, p, s, env);
      && c.s.faults == s.faults && s.temp <= c.s.temp && (p.dead ==> c.p == p && c.s == s)
      && c.s.mounts == (if c.ok && Mounts(b) then s.mounts + 1 else s.mounts)
      && (c.ok && !p.dead ==> !c.p.dead)
  {
  }

  /** How many requests a Connect makes that works. */
  function Cost(b: Backend): nat { match b case Cifs => 4 case Nfs => 2 case _ => 0 }

  /** Connect works if and only if each of its requests is carried out, and the file it makes is a new one. */
  lemma ConnectWorksIff(b: Backend, p: Proc, s: Share, env: Env)
    requires !p.dead
    ensures var c := Connect(b, p, s, env);
      && (c.ok <==> (forall i :: p.clock <= i < p.clock + Cost(b) ==> env(i).Done?)
                    && (b.Cifs? ==> env(p.clock + 1).Done? && env(p.clock + 1).value !in s.temp))
      && (c.ok ==> c.p == Proc(p.clock + Cost(b), false))
  {
  }

  /** Disconnect undoes Connect: without faults, mounts and credentials files are back to what they were. */
  lemma DisconnectUndoesConnect(b: Backend, p: Proc, s: Share, q: Proc, env: Env)
    requires !p.dead && Connect(b, p, s, env).ok
    ensures var c := Connect(b, p, s, env);
      var d := Disconnect(b, q, c.s, env);
      !d.p.dead && d.s.faults == c.s.faults && d.s.kept == c.s.kept ==>
        d.ok && d.s == s.(creds := if b.Cifs? then None else s.creds)
  {
    var c := Connect(b, p, s, env);
    if b.Cifs? {
      assert (s.temp + {c.s.creds.value}) - {c.s.creds.value} == s.temp;
    }
  }

  /** Disconnect never adds, and a mount it leaves is paid for by a fault or the process's death. */
  lemma DisconnectMeaning(b: Backend, p: Proc, s: Share, env: Env)
    ensures var d := Disconnect(b, p, s, env);
      && d.s.mounts <= s.mounts && d.s.faults >= s.faults && d.s.temp <= s.temp
      && (p.dead ==> d.p == p && d.s == s)
      && (Mounts(b) && s.mounts > 0 ==> d.s.mounts + 1 <= s.mounts + (d.s.faults - s.faults) + One(d.p.dead))
  {
  }

  /** Connect stacks its mount on one that an earlier life left, and Disconnect takes off only one: the older
      one stays. */
  lemma LeftMountsStay(b: Backend, p: Proc, s: Share, q: Proc, env: Env)
    ensures var c := Connect(b, p, s, env);
      s.mounts <= c.s.mounts && (c.ok ==> s.mounts <= Disconnect(b, q, c.s, env).s.mounts)
  {
  }

  /** A connection leaves the share mounted if and only if its first request to disconnect is not carried out
      - as when a shutdown has cancelled the context of that umount: no command need fail. */
  lemma DisconnectLeavesIff(b: Backend, p: Proc, s: Share, q: Proc, env: Env)
    requires Connect(b, p, s, env).ok && Mounts(b)
    ensures var d := Disconnect(b, q, Connect(b, p, s, env).s, env);
      d.s.mounts == s.mounts + One(!Ask(q, env).ok)
  {
  }

  // ------------------------------------------------------------ credentials files

  lemma FreshName(t: set<nat>) returns (z: nat)
    ensures z !in t && forall x :: x in t ==> x < z
  {
    z := 0;
    if t != {} {
      var x :| x in t;
      var w := FreshName(t - {x});
      z := if x < w then w else x + 1;
      assert forall y :: y in t ==> y == x || y in t - {x};
    }
  }

  /** A failed Connect leaves the temporary directory as it was, whatever it met, if and only if the backend
      is not CIFS: with CIFS the request after the one that makes the file may be refused. */
  lemma FailedConnectLeavesNoFileIff(b: Backend, p: Proc, s: Share)
    requires !p.dead
    ensures (forall env :: var c := Connect(b, p, s, env); !c.ok ==> c.s.temp == s.temp) <==> !b.Cifs?
  {
    if b.Cifs? {
      var z := FreshName(s.temp);
      var env: Env := n => if n == p.clock + 2 then Refused else Done(z);
      var c := Connect(b, p, s, env);
      assert c.s.temp == s.temp + {z} && !c.ok;
    }
  }

  /** And it is there for good: a file that was there before a Connect survives it, and survives the
      Disconnect that follows a successful Connect - which removes another file. */
  lemma LeftFilesStay(b: Backend, p: Proc, s: Share, q: Proc, env: Env, z: nat)
    requires z in s.temp
    ensures var c := Connect(b, p, s, env);
      z in c.s.temp && (c.ok ==> z in Disconnect(b, q, c.s, env).s.temp)
  {
  }

  /** A Connect that works makes one file with CIFS and none otherwise; one that fails accounts for what it
      leaves - in `kept`, or by the process's death. */
  lemma ConnectFiles(b: Backend, p: Proc, s: Share, env: Env)
    requires !p.dead
    ensures var c := Connect(b, p, s, env);
      && s.kept <= c.s.kept
      && (!b.Cifs? ==> c.s.temp == s.temp && c.s.creds == s.creds)
      && (b.Cifs? && c.ok ==> c.s.kept == s.kept && c.s.creds.Some? && c.s.creds.value !in s.temp
                              && c.s.temp == s.temp + {c.s.creds.value})
      && (!c.ok ==> |c.s.temp| <= |s.temp| + (c.s.kept - s.kept) + One(c.p.dead))
  {
  }

  /** A Disconnect removes the file its Connect made, unless the removal is refused or the process dies. */
  lemma DisconnectFiles(b: Backend, p: Proc, s: Share, env: Env)
    requires b.Cifs? ==> s.creds.Some? && s.creds.value in s.temp
    ensures var d := Disconnect(b, p, s, env);
      && s.kept <= d.s.kept
      && (!b.Cifs? ==> d.s.temp == s.temp)
      && (b.Cifs? ==> |d.s.temp| + 1 <= |s.temp| + (d.s.kept - s.kept) + One(d.p.dead))
  {
    if b.Cifs? {
      assert |s.temp - {s.creds.value}| == |s.temp| - 1;
    }
  }
}

/** The backend object as the source writes it: `credentialsFile` set by Connect, cleared by Disconnect. */
module Archiver {
  import opened Common
  import opened Outside
  import opened LedgerSpec
  import ShareSpec

  class Archiver {
    const backend: Backend
    var mounts: nat
    var temp: set<nat>
    var credentialsFile: Option<nat>
    ghost var faults: nat
    ghost var kept: nat

    constructor (backend: Backend, ghost s: ShareSpec.Share, mounts: nat, temp: set<nat>)
      requires s.mounts == mounts && s.temp == temp && s.creds.None?
      ensures this.backend == backend && View() == s
    {
      this.backend, this.mounts, this.temp, credentialsFile := backend, mounts, temp, None;
      faults, kept := s.faults, s.kept;
    }

    ghost function View(): ShareSpec.Share
      reads this
    {
      ShareSpec.Share(mounts, temp, credentialsFile, faults, kept)
    }

    /** mount.cifs, mount.nfs. */
    method MountShare(h: Host) returns (ok: bool)
      modifies this, h
      ensures ShareSpec.Linked(h.p, View(), ok) == ShareSpec.MountShare(old(h.p), old(View()), h.env)
    {
      ok := h.Do();
      if ok { mounts := mounts + 1; }
    }

    method UmountShare(h: Host) returns (ok: bool)
      modifies this, h
      ensures ShareSpec.Linked(h.p, View(), ok) == ShareSpec.UmountShare(old(h.p), old(View()), h.env)
    {
      ok := h.Do();
      if mounts == 0 {
        ok := false;
      } else if ok {
        mounts := mounts - 1;
      } else {
        faults := if h.p.dead then faults else faults + 1;
      }
    }

    method Connect(h: Host) returns (ok: bool)
      modifies this, h
      ensures ShareSpec.Linked(h.p, View(), ok) == ShareSpec.Connect(backend, old(h.p), old(View()), h.env)
    {
      if !backend.Cifs? && !backend.Nfs? {
        return true;
      }
      ok := h.Do();   // mkdir of the mountpoint
      if !ok { return; }
      if backend.Cifs? {
        var name;
        ok, name := h.Request();   // os.CreateTemp
        if !ok || name in temp {
          return false;
        }
        temp, credentialsFile := temp + {name}, Some(name);
        ok := h.Do();   // WriteString
        if ok {
          ok := MountShare(h);
        }
        if !ok && !h.p.dead {
          kept := kept + 1;
        }
        return;
      }
      ok := MountShare(h);
    }

    method Disconnect(h: Host) returns (ok: bool)
      modifies this, h
      ensures ShareSpec.Linked(h.p, View(), ok) == ShareSpec.Disconnect(backend, old(h.p), old(View()), h.env)
    {
      if !backend.Cifs? && !backend.Nfs? {
        return true;
      }
      ok := UmountShare(h);
      if backend.Cifs? && credentialsFile.Some? {
        var removed := h.Do();
        if h.p.dead {
          return false;
        }
        if removed {
          temp := temp - {credentialsFile.value};
        } else {
          kept := kept + 1;
        }
        credentialsFile := None;
      }
    }
  }
}
