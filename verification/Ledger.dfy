/** internal/state/archive.go and the ArchiveFiles loops as the source writes them: requests that change
    two tables in place, loops that append, copy, and return at the first error. */
module Ledger {
  import opened Outside
  import opened LedgerSpec

  /** The SQLite store. */
  class DB {
    var l: LedgerSpec.Ledger

    constructor (l: LedgerSpec.Ledger)
      ensures this.l == l
    {
      this.l := l;
    }

    method MarkArchived(h: Host, path: string, sid: nat) returns (ok: bool)
      modifies this, h
      ensures After(h.p, l, ok) == LedgerSpec.MarkArchived(old(h.p), old(l), path, sid, h.env)
    {
      var r := LedgerSpec.MarkArchived(h.p, l, path, sid, h.env);
      h.p, l, ok := r.p, r.l, r.ok;
    }

    method IsArchived(h: Host, path: string) returns (archived: bool)
      modifies this, h
      ensures After(h.p, l, archived) == LedgerSpec.IsArchived(old(h.p), old(l), path, h.env)
    {
      var r := LedgerSpec.IsArchived(h.p, l, path, h.env);
      h.p, l, archived := r.p, r.l, r.ok;
    }

    method ListUnarchived(h: Host, allFiles: seq<string>) returns (unarchived: seq<string>)
      modifies this, h
      ensures Listed(h.p, l, unarchived) == LedgerSpec.ListUnarchived(old(h.p), old(l), allFiles, h.env)
    {
      unarchived := [];
      ghost var goal := LedgerSpec.ListUnarchived(h.p, l, allFiles, h.env);
      for i := 0 to |allFiles|
        invariant var rest := LedgerSpec.ListUnarchived(h.p, l, allFiles[i..], h.env);
          goal == rest.(files := unarchived + rest.files)
      {
        assert allFiles[i..][1..] == allFiles[i + 1..];
        var archived := IsArchived(h, allFiles[i]);
        if !archived {
          unarchived := unarchived + [allFiles[i]];
        }
      }
      assert allFiles[|allFiles|..] == [];
    }

    method CreateSession(h: Host) returns (ok: bool, id: nat)
      modifies this, h
      ensures After(h.p, l, ok) == LedgerSpec.CreateSession(old(h.p), old(l), h.env)
      ensures ok ==> id == l.db.lastSession
    {
      var r := LedgerSpec.CreateSession(h.p, l, h.env);
      h.p, l, ok, id := r.p, r.l, r.ok, r.l.db.lastSession;
    }

    method CompleteSession(h: Host, id: nat, filesArchived: int)
      modifies this, h
      ensures var r := LedgerSpec.CompleteSession(old(h.p), old(l), id, filesArchived, h.env);
        h.p == r.p && l == r.l
    {
      var r := LedgerSpec.CompleteSession(h.p, l, id, filesArchived, h.env);
      h.p, l := r.p, r.l;
    }

    method FailSession(h: Host, id: nat)
      modifies this, h
      ensures var r := LedgerSpec.FailSession(old(h.p), LedgerSpec.CountFailure(old(h.p), old(l)), id, h.env);
        h.p == r.p && l == r.l
    {
      var r := LedgerSpec.FailSession(h.p, LedgerSpec.CountFailure(h.p, l), id, h.env);
      h.p, l := r.p, r.l;
    }

    /** Issuing one copy command. */
    method Transfer(h: Host, f: string) returns (ok: bool)
      modifies this, h
      ensures After(h.p, l, ok) == LedgerSpec.Transfer(old(h.p), old(l), f, h.env)
    {
      var r := LedgerSpec.Transfer(h.p, l, f, h.env);
      h.p, l, ok := r.p, r.l, r.ok;
    }

    /** CIFSBackend.ArchiveFiles and NFSBackend.ArchiveFiles: mkdir, then rsync onto the mounted share.
        The progress callback is the one runArchive passes: it sets `archived` and marks the file. */
    method ArchiveFilesToShare(h: Host, b: Backend, files: seq<string>, sid: nat) returns (ok: bool, archived: int)
      requires b.Cifs? || b.Nfs?
      modifies this, h
      ensures Sent(h.p, l, archived, ok) == LedgerSpec.ArchiveFiles(b, old(h.p), old(l), files, 0, 0, sid, h.env)
    {
      archived := 0;
      ghost var goal := LedgerSpec.ArchiveFiles(b, h.p, l, files, 0, 0, sid, h.env);
      for i := 0 to |files|
        invariant LedgerSpec.ArchiveFiles(b, h.p, l, files, i, archived, sid, h.env) == goal
      {
        archived := i;
        var _ := MarkArchived(h, files[i], sid);
        ok := h.Do();   // MkdirAll
        if !ok { return; }
        ok := Transfer(h, files[i]);
        if !ok { return; }
      }
      ok := true;
    }

    /** RsyncBackend.ArchiveFiles. */
    method ArchiveFilesByRsync(h: Host, files: seq<string>, sid: nat) returns (ok: bool, archived: int)
      modifies this, h
      ensures Sent(h.p, l, archived, ok) == LedgerSpec.ArchiveFiles(Rsync, old(h.p), old(l), files, 0, 0, sid, h.env)
    {
      archived := 0;
      ghost var goal := LedgerSpec.ArchiveFiles(Rsync, h.p, l, files, 0, 0, sid, h.env);
      for i := 0 to |files|
        invariant LedgerSpec.ArchiveFiles(Rsync, h.p, l, files, i, archived, sid, h.env) == goal
      {
        archived := i;
        var _ := MarkArchived(h, files[i], sid);
        ok := Transfer(h, files[i]);
        if !ok { return; }
      }
      ok := true;
    }

    /** RcloneBackend.ArchiveFiles: copy, then remove the source. */
    method ArchiveFilesByRclone(h: Host, files: seq<string>, sid: nat) returns (ok: bool, archived: int)
      modifies this, h
      ensures Sent(h.p, l, archived, ok) == LedgerSpec.ArchiveFiles(Rclone, old(h.p), old(l), files, 0, 0, sid, h.env)
    {
      archived := 0;
      ghost var goal := LedgerSpec.ArchiveFiles(Rclone, h.p, l, files, 0, 0, sid, h.env);
      for i := 0 to |files|
        invariant LedgerSpec.ArchiveFiles(Rclone, h.p, l, files, i, archived, sid, h.env) == goal
      {
        archived := i;
        var _ := MarkArchived(h, files[i], sid);
        ok := Transfer(h, files[i]);
        if !ok { return; }
        ok := h.Do();   // rm -f
        if !ok { return; }
      }
      ok := true;
    }

    /** The configured backend's ArchiveFiles; the noop backend does nothing. */
    method ArchiveFiles(h: Host, b: Backend, files: seq<string>, sid: nat) returns (ok: bool, archived: int)
      modifies this, h
      ensures Sent(h.p, l, archived, ok) == LedgerSpec.ArchiveFiles(b, old(h.p), old(l), files, 0, 0, sid, h.env)
    {
      match b
      case Noop => return true, 0;
      case Rsync => ok, archived := ArchiveFilesByRsync(h, files, sid);
      case Rclone => ok, archived := ArchiveFilesByRclone(h, files, sid);
      case _ => ok, archived := ArchiveFilesToShare(h, b, files, sid);
    }
  }
}
