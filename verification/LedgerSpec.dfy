/** internal/state (the two tables of the ledger), the ArchiveFiles loops of internal/archive, and the
    session runArchive wraps around them, with the history that the laws about them count. */
module LedgerSpec {
  import opened Common
  import opened Outside

  datatype Status = Running | Completed | Failed

  datatype Session = Session(status: Status, files: int)

  datatype Row = Row(id: nat, session: nat)

  /** archive_sessions and archived_files. Ids are handed out by AUTOINCREMENT and never reused;
      `files` is keyed by its UNIQUE column. SQLite does not enforce the session reference here. */
  datatype Db = Db(sessions: map<nat, Session>, lastSession: nat, files: map<string, Row>, lastFile: nat)

  /** What happened so far: copy commands issued per path, ledger requests that failed per path, paths
      whose copy succeeded, terminal updates tried per session, sessions whose transfer failed, and
      terminal updates that failed. */
  datatype History = History(attempts: multiset<string>, markFails: multiset<string>, lookupFails: multiset<string>,
                             delivered: set<string>, terminals: multiset<nat>, failedSessions: nat, statusFails: nat)

  datatype Ledger = Ledger(db: Db, h: History)

  const Empty := Ledger(Db(map[], 0, map[], 0),
                        History(multiset{}, multiset{}, multiset{}, {}, multiset{}, 0, 0))

  datatype After = After(p: Proc, l: Ledger, ok: bool)

  // ------------------------------------------------------------ internal/state/archive.go

  /** INSERT OR REPLACE: a new row either way. */
  function MarkArchived(p: Proc, l: Ledger, path: string, sid: nat, env: Env): After {
    var a := Ask(p, env);
    if a.ok then
      var db := l.db.(files := l.db.files[path := Row(l.db.lastFile + 1, sid)], lastFile := l.db.lastFile + 1);
      After(a.p, l.(db := db), true)
    else if a.p.dead then After(a.p, l, false)
    else After(a.p, l.(h := l.h.(markFails := l.h.markFails + multiset{path})), false)
  }

  /** A failed query reads as "not archived". */
  function IsArchived(p: Proc, l: Ledger, path: string, env: Env): After {
    var a := Ask(p, env);
    if a.ok then After(a.p, l, path in l.db.files)
    else if a.p.dead then After(a.p, l, false)
    else After(a.p, l.(h := l.h.(lookupFails := l.h.lookupFails + multiset{path})), false)
  }

  datatype Listed = Listed(p: Proc, l: Ledger, files: seq<string>)

  function ListUnarchived(p: Proc, l: Ledger, all: seq<string>, env: Env): Listed
    decreases |all|
  {
    if all == [] then Listed(p, l, [])
    else
      var a := IsArchived(p, l, all[0], env);
      var rest := ListUnarchived(a.p, a.l, all[1..], env);
      if a.ok then rest else rest.(files := [all[0]] + rest.files)
  }

  function CreateSession(p: Proc, l: Ledger, env: Env): After {
    var a := Ask(p, env);
    if !a.ok then After(a.p, l, false)
    else
      var id := l.db.lastSession + 1;
      After(a.p, l.(db := l.db.(sessions := l.db.sessions[id := Session(Running, 0)], lastSession := id)), true)
  }

  /** CompleteSession and FailSession: one UPDATE of the session's row. */
  function Finish(p: Proc, l: Ledger, sid: nat, status: Status, files: Option<int>, env: Env): After {
    var a := Ask(p, env);
    var h := if p.dead then l.h else l.h.(terminals := l.h.terminals + multiset{sid});
    if a.ok && sid in l.db.sessions then
      var s := Session(status, if files.Some? then files.value else l.db.sessions[sid].files);
      After(a.p, Ledger(l.db.(sessions := l.db.sessions[sid := s]), h), true)
    else if a.ok || a.p.dead then After(a.p, l.(h := h), a.ok)
    else After(a.p, l.(h := h.(statusFails := h.statusFails + 1)), false)
  }

  function CompleteSession(p: Proc, l: Ledger, sid: nat, files: int, env: Env): After {
    Finish(p, l, sid, Completed, Some(files), env)
  }

  function FailSession(p: Proc, l: Ledger, sid: nat, env: Env): After {
    Finish(p, l, sid, Failed, None, env)
  }

  // ------------------------------------------------------------ internal/archive/*.go

  datatype Backend = Cifs | Nfs | Rsync | Rclone | Noop

  /** The copy command itself. */
  function Transfer(p: Proc, l: Ledger, f: string, env: Env): After {
    var a := Ask(p, env);
    var h := if p.dead then l.h else l.h.(attempts := l.h.attempts + multiset{f});
    After(a.p, l.(h := if a.ok then h.(delivered := h.delivered + {f}) else h), a.ok)
  }

  /** One file: CIFS and NFS make the directory first, rclone removes the source afterwards. */
  function CopyFile(b: Backend, p: Proc, l: Ledger, f: string, env: Env): After {
    match b
    case Noop => After(p, l, true)
    case Rsync => Transfer(p, l, f, env)
    case Rclone =>
      var t := Transfer(p, l, f, env);
      if !t.ok then t else
        var rm := Ask(t.p, env);
        After(rm.p, t.l, rm.ok)
    case _ =>
      var dir := Ask(p, env);
      if !dir.ok then After(dir.p, l, false) else Transfer(dir.p, l, f, env)
  }

  /** One turn of the loop: the progress callback, then the copy. */
  function SendOne(b: Backend, p: Proc, l: Ledger, f: string, sid: nat, env: Env): After {
    var m := MarkArchived(p, l, f, sid, env);
    CopyFile(b, m.p, m.l, f, env)
  }

  /** current: the index last passed to the progress callback. */
  datatype Sent = Sent(p: Proc, l: Ledger, current: int, ok: bool)

  /** ArchiveFiles from index i on: for each file first the progress callback - which marks it - and
      then the copy; the first failing copy ends it. The noop backend does neither. */
  function ArchiveFiles(b: Backend, p: Proc, l: Ledger, files: seq<string>, i: nat,
                        current: int, sid: nat, env: Env): Sent
    requires i <= |files|
    decreases |files| - i
  {
    if b.Noop? || i == |files| then Sent(p, l, current, true)
    else
      var c := SendOne(b, p, l, files[i], sid, env);
      if !c.ok then Sent(c.p, c.l, i, false)
      else ArchiveFiles(b, c.p, c.l, files, i + 1, i, sid, env)
  }

  /** runArchive once the new files are known: transfer and terminal update. */
  function Carry(b: Backend, u: Listed, sid: nat, env: Env): After {
    if u.files == [] then CompleteSession(u.p, u.l, sid, 0, env).(ok := true)
    else
      var a := ArchiveFiles(b, u.p, u.l, u.files, 0, 0, sid, env);
      if !a.ok then FailSession(a.p, CountFailure(a.p, a.l), sid, env).(ok := false)
      else CompleteSession(a.p, a.l, sid, a.current, env).(ok := true)
  }

  /** The ledger part of runArchive: from CreateSession to the terminal update. `all` is the scan. */
  function RunSession(b: Backend, p: Proc, l: Ledger, all: seq<string>, env: Env): After {
    var c := CreateSession(p, l, env);
    if !c.ok then c else
      var u := ListUnarchived(c.p, c.l, all, env);
      Carry(b, u, c.l.db.lastSession, env)
  }

  function CountFailure(p: Proc, l: Ledger): Ledger {
    if p.dead then l else l.(h := l.h.(failedSessions := l.h.failedSessions + 1))
  }

  /** How many requests sending a file takes besides its mark: for CIFS and NFS the directory and the copy, for
      rsync the copy, for rclone the copy and the removal of the source. */
  function Steps(b: Backend): nat { match b case Rsync => 1 case Noop => 0 case _ => 2 }

  /** A file is sent if and only if the process survives the mark - which may fail - and each of those requests is
      carried out. The copy is the last of them, but for rclone, where it is the first: only that counts as an
      attempt, and only if what comes before it was carried out. */
  lemma SendWorksIff(b: Backend, p: Proc, l: Ledger, f: string, sid: nat, env: Env)
    requires !p.dead && !b.Noop?
    ensures var r := SendOne(b, p, l, f, sid, env);
      var copy := p.clock + (if b.Cifs? || b.Nfs? then 2 else 1);
      var tried := !env(p.clock).Killed? && (b.Cifs? || b.Nfs? ==> env(p.clock + 1).Done?);
      && (r.ok <==> !env(p.clock).Killed? && forall i :: p.clock + 1 <= i < p.clock + 1 + Steps(b) ==> env(i).Done?)
      && r.l.h.attempts == l.h.attempts + (if tried then multiset{f} else multiset{})
      && r.l.h.delivered == l.h.delivered + (if tried && env(copy).Done? then {f} else {})
      && r.l.db.files == (if env(p.clock).Done? then l.db.files[f := Row(l.db.lastFile + 1, sid)] else l.db.files)
  {
    var m := MarkArchived(p, l, f, sid, env);
    assert m.p == Proc(p.clock + 1, env(p.clock).Killed?);
    assert m.l.h.attempts == l.h.attempts && m.l.h.delivered == l.h.delivered;
    assert m.l.db.files == if env(p.clock).Done? then l.db.files[f := Row(l.db.lastFile + 1, sid)] else l.db.files;
    hide MarkArchived;
    CopyWorksIff(b, m.p, m.l, f, env);
    hide CopyFile;
  }

  lemma CopyWorksIff(b: Backend, p: Proc, l: Ledger, f: string, env: Env)
    requires !b.Noop?
    ensures var r := CopyFile(b, p, l, f, env);
      var tried := !p.dead && (b.Cifs? || b.Nfs? ==> env(p.clock).Done?);
      var copy := p.clock + (if b.Cifs? || b.Nfs? then 1 else 0);
      && (r.ok <==> !p.dead && forall i :: p.clock <= i < p.clock + Steps(b) ==> env(i).Done?)
      && r.l.h.attempts == l.h.attempts + (if tried then multiset{f} else multiset{})
      && r.l.h.delivered == l.h.delivered + (if tried && env(copy).Done? then {f} else {})
      && r.l.db.files == l.db.files
  {
    CopyIs(p, l, f, env);
    CopyIs(Ask(p, env).p, l, f, env);
    hide Transfer;
    assert Steps(b) == 2 ==> ((forall i :: p.clock <= i < p.clock + Steps(b) ==> env(i).Done?) <==>
                              (env(p.clock).Done? && env(p.clock + 1).Done?));
  }

  lemma CopyIs(p: Proc, l: Ledger, f: string, env: Env)
    ensures var r := Transfer(p, l, f, env);
      && r.p == Ask(p, env).p && (r.ok <==> !p.dead && env(p.clock).Done?) && r.l.db == l.db
      && r.l.h.attempts == l.h.attempts + (if p.dead then multiset{} else multiset{f})
      && r.l.h.delivered == l.h.delivered + (if r.ok then {f} else {})
  {
  }

  // ------------------------------------------------------------ the invariant

  function Marked(l: Ledger, q: string): nat { if q in l.db.files then 1 else 0 }

  /** At most one copy attempt per path, plus one for every ledger request about it that failed. */
  ghost predicate AtMostOnce(l: Ledger) {
    forall q: string :: Counted(l, q)
  }

  predicate Counted(l: Ledger, q: string) {
    l.h.attempts[q] <= Marked(l, q) + l.h.markFails[q] + l.h.lookupFails[q]
  }

  /** Not yet copied, as far as the ledger can tell: a copy now keeps the count. */
  predicate Room(l: Ledger, q: string) {
    l.h.attempts[q] <= l.h.markFails[q] + l.h.lookupFails[q]
  }

  /** ... and for the paths still to be copied, one attempt less. */
  ghost predicate Ahead(l: Ledger, files: seq<string>, i: nat) {
    forall k :: i <= k < |files| ==> Room(l, files[k])
  }

  /** Marked but never delivered. */
  ghost function Lag(l: Ledger): set<string> { l.db.files.Keys - l.h.delivered }

  ghost function Open(l: Ledger): set<nat> {
    set s | s in l.db.sessions && l.db.sessions[s].status == Running
  }

  /** The tables are consistent, ids are what AUTOINCREMENT hands out, and no session is closed twice. */
  ghost predicate Tables(l: Ledger) {
    && (forall s :: s in l.db.sessions <==> 1 <= s <= l.db.lastSession)
    && (forall q :: q in l.db.files ==> l.db.files[q].session in l.db.sessions && l.db.files[q].id <= l.db.lastFile)
    && (forall s :: l.h.terminals[s] <= 1 && (s in l.h.terminals ==> s in l.db.sessions))
    && (forall s :: s in l.db.sessions && l.db.sessions[s].status != Running ==> s in l.h.terminals)
  }

  /** x and y: how many lagging paths and open sessions may be put down to crashes (or to the session
      in progress). */
  ghost predicate Sound(l: Ledger, x: nat, y: nat) {
    && AtMostOnce(l) && Tables(l)
    && |Lag(l)| <= l.h.failedSessions + x
    && |Open(l)| <= l.h.statusFails + y
  }

  // ------------------------------------------------------------ each request keeps it

  lemma LookupKeeps(p: Proc, l: Ledger, q: string, env: Env)
    requires AtMostOnce(l)
    ensures var r := IsArchived(p, l, q, env);
      && AtMostOnce(r.l) && r.l.db == l.db && r.l.h == l.h.(lookupFails := r.l.h.lookupFails)
      && (forall z :: r.l.h.lookupFails[z] >= l.h.lookupFails[z])
      && (!r.ok && !r.p.dead ==> Room(r.l, q))
      && (p.dead ==> r == After(p, l, false))
  {
    var r := IsArchived(p, l, q, env);
    assert Counted(l, q);
    forall z ensures Counted(r.l, z) { assert Counted(l, z); }
  }

  lemma MarkTables(p: Proc, l: Ledger, q: string, sid: nat, env: Env)
    requires Tables(l) && sid in l.db.sessions
    ensures Tables(MarkArchived(p, l, q, sid, env).l)
  {
    var r := MarkArchived(p, l, q, sid, env);
    if Ask(p, env).ok {
      forall z | z in r.l.db.files
        ensures r.l.db.files[z].session in r.l.db.sessions && r.l.db.files[z].id <= r.l.db.lastFile
      {
        if z != q { assert z in l.db.files; }
      }
    }
  }

  lemma MarkCounts(p: Proc, l: Ledger, q: string, sid: nat, env: Env)
    requires AtMostOnce(l)
    ensures var r := MarkArchived(p, l, q, sid, env);
      && AtMostOnce(r.l) && r.l.h == l.h.(markFails := r.l.h.markFails)
      && r.l.db.sessions == l.db.sessions && r.l.db.lastSession == l.db.lastSession
      && (forall z :: r.l.h.markFails[z] >= l.h.markFails[z])
      && (p.dead ==> r == After(p, l, false))
      && (!r.p.dead && Room(l, q) ==> r.l.h.attempts[q] < Marked(r.l, q) + r.l.h.markFails[q] + r.l.h.lookupFails[q])
      && (r.l.h.markFails == l.h.markFails && !r.p.dead ==> r.l.db.files.Keys == l.db.files.Keys + {q})
  {
    var r := MarkArchived(p, l, q, sid, env);
    forall z ensures Counted(r.l, z) { assert Counted(l, z); }
  }

  lemma MarkLag(p: Proc, l: Ledger, q: string, sid: nat, env: Env)
    ensures var r := MarkArchived(p, l, q, sid, env);
      Lag(l) <= Lag(r.l) <= Lag(l) + {q} && |Lag(r.l)| <= |Lag(l)| + 1 && Open(r.l) == Open(l)
  {
    var r := MarkArchived(p, l, q, sid, env);
    CardSubset(Lag(r.l), Lag(l) + {q});
  }

  lemma TransferKeeps(p: Proc, l: Ledger, f: string, env: Env)
    requires AtMostOnce(l)
    requires p.dead || l.h.attempts[f] < Marked(l, f) + l.h.markFails[f] + l.h.lookupFails[f]
    ensures var r := Transfer(p, l, f, env);
      && AtMostOnce(r.l) && r.l.db == l.db
      && r.l.h == l.h.(attempts := r.l.h.attempts, delivered := r.l.h.delivered)
      && (forall z :: z != f ==> r.l.h.attempts[z] == l.h.attempts[z])
      && l.h.delivered <= r.l.h.delivered <= l.h.delivered + {f}
      && (r.ok ==> !r.p.dead && f in r.l.h.delivered)
      && (p.dead ==> r == After(p, l, false))
  {
    var r := Transfer(p, l, f, env);
    forall z ensures Counted(r.l, z) { assert Counted(l, z); }
  }

  lemma CopyMeaning(b: Backend, p: Proc, l: Ledger, f: string, env: Env)
    requires AtMostOnce(l) && !b.Noop?
    requires p.dead || l.h.attempts[f] < Marked(l, f) + l.h.markFails[f] + l.h.lookupFails[f]
    ensures var r := CopyFile(b, p, l, f, env);
      && AtMostOnce(r.l) && r.l.db == l.db
      && r.l.h == l.h.(attempts := r.l.h.attempts, delivered := r.l.h.delivered)
      && (forall z :: z != f ==> r.l.h.attempts[z] == l.h.attempts[z])
      && l.h.delivered <= r.l.h.delivered <= l.h.delivered + {f}
      && (r.ok ==> !r.p.dead && f in r.l.h.delivered)
      && (p.dead ==> r == After(p, l, false))
  {
    TransferKeeps(p, l, f, env);
    if b.Cifs? || b.Nfs? {
      TransferKeeps(Ask(p, env).p, l, f, env);
    }
  }

  ghost predicate Sendable(b: Backend, l: Ledger, files: seq<string>, i: nat, sid: nat) {
    && i <= |files| && Distinct(files) && !b.Noop?
    && AtMostOnce(l) && Tables(l) && sid in l.db.sessions && Ahead(l, files, i)
  }

  lemma SendOneKeeps(b: Backend, p: Proc, l: Ledger, files: seq<string>, i: nat, sid: nat, env: Env)
    requires Sendable(b, l, files, i, sid) && i < |files|
    ensures var r := SendOne(b, p, l, files[i], sid, env);
      && Sendable(b, r.l, files, i + 1, sid)
      && r.l.db.sessions == l.db.sessions && r.l.db.lastSession == l.db.lastSession
      && r.l.h == l.h.(attempts := r.l.h.attempts, markFails := r.l.h.markFails, delivered := r.l.h.delivered)
      && (forall z :: r.l.h.markFails[z] >= l.h.markFails[z])
      && (r.ok ==> !r.p.dead)
  {
    var f := files[i];
    var m := MarkArchived(p, l, f, sid, env);
    MarkTables(p, l, f, sid, env);
    MarkCounts(p, l, f, sid, env);
    CopyMeaning(b, m.p, m.l, f, env);
  }

  lemma SendOneMoves(b: Backend, p: Proc, l: Ledger, f: string, sid: nat, env: Env)
    requires AtMostOnce(l) && !b.Noop? && Room(l, f)
    ensures var r := SendOne(b, p, l, f, sid, env);
      && Open(r.l) == Open(l) && |Lag(r.l)| <= |Lag(l)| + (if r.ok then 0 else 1)
      && l.h.delivered <= r.l.h.delivered && (r.ok ==> f in r.l.h.delivered)
      && (!r.p.dead && r.l.h.markFails == l.h.markFails ==> r.l.db.files.Keys == l.db.files.Keys + {f})
  {
    var m := MarkArchived(p, l, f, sid, env);
    MarkCounts(p, l, f, sid, env);
    MarkLag(p, l, f, sid, env);
    var r := CopyFile(b, m.p, m.l, f, env);
    CopyMeaning(b, m.p, m.l, f, env);
    if r.ok {
      CardSubset(Lag(r.l), Lag(l));
    } else {
      CardSubset(Lag(r.l), Lag(m.l));
    }
  }

  /** The loop all four backends share keeps the tables and the at-most-once count. */
  lemma {:induction false} ArchiveKeeps(b: Backend, p: Proc, l: Ledger, files: seq<string>, i: nat,
                                        current: int, sid: nat, env: Env)
    requires Sendable(b, l, files, i, sid)
    ensures var a := ArchiveFiles(b, p, l, files, i, current, sid, env);
      && AtMostOnce(a.l) && Tables(a.l) && a.l.db.sessions == l.db.sessions && a.l.db.lastSession == l.db.lastSession
      && a.l.h == l.h.(attempts := a.l.h.attempts, markFails := a.l.h.markFails, delivered := a.l.h.delivered)
      && (forall z :: a.l.h.markFails[z] >= l.h.markFails[z])
      && (a.ok && i < |files| ==> !a.p.dead)
      && (a.ok ==> a.current == if i < |files| then |files| - 1 else current)
      && (!a.ok ==> i <= a.current < |files|)
    decreases |files| - i
  {
    if i < |files| {
      var c := SendOne(b, p, l, files[i], sid, env);
      SendOneKeeps(b, p, l, files, i, sid, env);
      if c.ok {
        ArchiveKeeps(b, c.p, c.l, files, i + 1, i, sid, env);
      }
    }
  }

  /** At most one file ends up marked without having been delivered, and none if all copies succeed. */
  lemma {:induction false} ArchiveLags(b: Backend, p: Proc, l: Ledger, files: seq<string>, i: nat,
                                       current: int, sid: nat, env: Env)
    requires Sendable(b, l, files, i, sid)
    ensures var a := ArchiveFiles(b, p, l, files, i, current, sid, env);
      Open(a.l) == Open(l) && |Lag(a.l)| <= |Lag(l)| + (if a.ok then 0 else 1)
    decreases |files| - i
  {
    if i < |files| {
      var c := SendOne(b, p, l, files[i], sid, env);
      SendOneKeeps(b, p, l, files, i, sid, env);
      SendOneMoves(b, p, l, files[i], sid, env);
      if c.ok {
        ArchiveLags(b, c.p, c.l, files, i + 1, i, sid, env);
      }
    }
  }

  lemma SendOneReaches(b: Backend, p: Proc, l: Ledger, f: string, sid: nat, env: Env)
    requires !b.Noop?
    ensures var r := SendOne(b, p, l, f, sid, env);
      && l.h.delivered <= r.l.h.delivered && (r.ok ==> f in r.l.h.delivered)
      && (forall z :: r.l.h.markFails[z] >= l.h.markFails[z])
      && (!r.p.dead && r.l.h.markFails == l.h.markFails ==> r.l.db.files.Keys == l.db.files.Keys + {f})
  {
    var m := MarkArchived(p, l, f, sid, env);
    if !m.ok && !m.p.dead {
      assert m.l.h.markFails[f] == l.h.markFails[f] + 1;
    }
  }

  /** Every row is as it was, or names the session that wrote it. */
  ghost predicate RowsBy(before: Ledger, after: Ledger, sid: nat) {
    forall q :: q in after.db.files ==>
      (q in before.db.files && after.db.files[q] == before.db.files[q]) || after.db.files[q].session == sid
  }

  lemma {:induction false} ArchiveRows(b: Backend, p: Proc, l: Ledger, files: seq<string>, i: nat,
                                       current: int, sid: nat, env: Env)
    requires i <= |files|
    ensures RowsBy(l, ArchiveFiles(b, p, l, files, i, current, sid, env).l, sid)
    decreases |files| - i
  {
    if i < |files| && !b.Noop? {
      var c := SendOne(b, p, l, files[i], sid, env);
      OneRow(b, p, l, files[i], sid, env);
      hide SendOne;
      if c.ok {
        ArchiveRows(b, c.p, c.l, files, i + 1, i, sid, env);
      }
    }
  }

  lemma OneRow(b: Backend, p: Proc, l: Ledger, f: string, sid: nat, env: Env)
    ensures RowsBy(l, SendOne(b, p, l, f, sid, env).l, sid)
  {
  }

  /** The rows a session writes name that session: the one it created. */
  lemma RowsNameTheirSession(b: Backend, p: Proc, l: Ledger, all: seq<string>, env: Env)
    ensures RowsBy(l, RunSession(b, p, l, all, env).l, l.db.lastSession + 1)
  {
    hide ListUnarchived, ArchiveFiles, Finish;
    var c := CreateSession(p, l, env);
    CreateMeaning(p, l, env);
    if c.ok {
      hide Carry;
      var u := ListUnarchived(c.p, c.l, all, env);
      ListExact(c.p, c.l, all, env);
      CarryIsArchive(b, u, c.l.db.lastSession, env);
      ArchiveRows(b, u.p, u.l, u.files, 0, 0, c.l.db.lastSession, env);
    }
  }

  /** Exactly how far it got: if it ends well, every file is delivered; if it fails at index
      `current`, every file before `current` is. */
  lemma {:induction false} ArchiveDelivers(b: Backend, p: Proc, l: Ledger, files: seq<string>, i: nat,
                                           current: int, sid: nat, env: Env)
    requires i <= |files| && !b.Noop?
    ensures var a := ArchiveFiles(b, p, l, files, i, current, sid, env);
      && (!a.ok ==> i <= a.current < |files|)
      && l.h.delivered <= a.l.h.delivered
      && DeliveredPart(a.l, files, i, if a.ok then |files| else a.current)
    decreases |files| - i
  {
    if i < |files| {
      var c := SendOne(b, p, l, files[i], sid, env);
      SendOneReaches(b, p, l, files[i], sid, env);
      if c.ok {
        ArchiveDelivers(b, c.p, c.l, files, i + 1, i, sid, env);
        var a := ArchiveFiles(b, c.p, c.l, files, i + 1, i, sid, env);
        assert files[i] in a.l.h.delivered;
        DeliveredFirst(a.l, files, i, if a.ok then |files| else a.current);
      }
    }
  }

  predicate DeliveredPart(l: Ledger, files: seq<string>, from: nat, to: int)
    requires to <= |files|
  {
    forall k :: from <= k < to ==> files[k] in l.h.delivered
  }

  lemma DeliveredFirst(l: Ledger, files: seq<string>, from: nat, to: int)
    requires from < |files| && to <= |files| && files[from] in l.h.delivered && DeliveredPart(l, files, from + 1, to)
    ensures DeliveredPart(l, files, from, to)
  {
  }

  predicate Among(files: seq<string>, from: nat, to: int, q: string)
    requires to <= |files|
  {
    exists k :: from <= k < to && files[k] == q
  }

  /** The paths marked between the two states are files[from..to]. */
  ghost predicate MarkedPart(before: Ledger, after: Ledger, files: seq<string>, from: nat, to: int)
    requires to <= |files|
  {
    forall q :: q in after.db.files <==> q in before.db.files || Among(files, from, to, q)
  }

  lemma MarkedFirst(before: Ledger, mid: Ledger, after: Ledger, files: seq<string>, from: nat, to: int)
    requires from < to <= |files|
    requires mid.db.files.Keys == before.db.files.Keys + {files[from]} && MarkedPart(mid, after, files, from + 1, to)
    ensures MarkedPart(before, after, files, from, to)
  {
    forall q ensures q in after.db.files <==> q in before.db.files || Among(files, from, to, q) {
      assert Among(files, from, to, q) <==> q == files[from] || Among(files, from + 1, to, q);
      assert q in mid.db.files <==> q in mid.db.files.Keys;
    }
  }

  /** ... and if no ledger write failed, the files marked are precisely those up to and including it. */
  lemma {:induction false} ArchiveMarks(b: Backend, p: Proc, l: Ledger, files: seq<string>, i: nat,
                                        current: int, sid: nat, env: Env)
    requires i <= |files| && !b.Noop?
    ensures var a := ArchiveFiles(b, p, l, files, i, current, sid, env);
      && (!a.ok ==> i <= a.current < |files|)
      && (forall z :: a.l.h.markFails[z] >= l.h.markFails[z])
      && (!a.p.dead && a.l.h.markFails == l.h.markFails ==>
            MarkedPart(l, a.l, files, i, if a.ok then |files| else a.current + 1))
    decreases |files| - i
  {
    if i < |files| {
      var c := SendOne(b, p, l, files[i], sid, env);
      SendOneReaches(b, p, l, files[i], sid, env);
      var a := ArchiveFiles(b, p, l, files, i, current, sid, env);
      if c.ok {
        ArchiveMarks(b, c.p, c.l, files, i + 1, i, sid, env);
        MarkFailsSqueeze(l, c.l, a.l);
      }
      if !a.p.dead && a.l.h.markFails == l.h.markFails {
        MarkedFirst(l, c.l, a.l, files, i, if a.ok then |files| else a.current + 1);
      }
    }
  }

  lemma MarkFailsSqueeze(l: Ledger, m: Ledger, n: Ledger)
    requires forall z :: l.h.markFails[z] <= m.h.markFails[z] <= n.h.markFails[z]
    ensures n.h.markFails == l.h.markFails ==> m.h.markFails == l.h.markFails
  {
  }

  // ------------------------------------------------------------ the filter

  /** What ListUnarchived should return: the paths not in the table, in order. */
  function Unarchived(db: Db, all: seq<string>): seq<string> {
    if all == [] then []
    else (if all[0] in db.files then [] else [all[0]]) + Unarchived(db, all[1..])
  }

  /** Lookups change nothing but their own failure count; without failures the result is exact; and a
      path is listed only if a copy of it now keeps the count. */
  lemma {:induction false} ListMeaning(p: Proc, l: Ledger, all: seq<string>, env: Env)
    requires AtMostOnce(l) && Distinct(all)
    ensures var u := ListUnarchived(p, l, all, env);
      && AtMostOnce(u.l) && u.l.db == l.db && u.l.h == l.h.(lookupFails := u.l.h.lookupFails)
      && (forall z :: u.l.h.lookupFails[z] >= l.h.lookupFails[z])
      && Distinct(u.files) && (forall f :: f in u.files ==> f in all)
      && (!u.p.dead ==> Ahead(u.l, u.files, 0))
      && (p.dead ==> u.p == p && u.l == l)
    decreases |all|
  {
    if all != [] {
      var a := IsArchived(p, l, all[0], env);
      LookupKeeps(p, l, all[0], env);
      ListMeaning(a.p, a.l, all[1..], env);
      var rest := ListUnarchived(a.p, a.l, all[1..], env);
      ListedFirst(all, rest.files);
      if !a.ok && !rest.p.dead {
        AheadFirst(a.l, rest.l, all[0], rest.files);
      }
    }
  }

  lemma ListedFirst(all: seq<string>, rest: seq<string>)
    requires all != [] && Distinct(all) && Distinct(rest) && forall f :: f in rest ==> f in all[1..]
    ensures Distinct([all[0]] + rest) && forall f :: f in rest ==> f in all
  {
    forall f | f in rest ensures f in all && f != all[0] { assert f in all[1..]; }
    var s := [all[0]] + rest;
    forall i, j | 0 <= i < j < |s| ensures s[i] != s[j] {
      assert s[j] == rest[j - 1] && s[j] in rest;
      if i > 0 { assert s[i] == rest[i - 1]; }
    }
  }

  lemma AheadFirst(l: Ledger, l': Ledger, f: string, rest: seq<string>)
    requires Room(l, f) && Ahead(l', rest, 0)
    requires l'.h == l.h.(lookupFails := l'.h.lookupFails) && l'.h.lookupFails[f] >= l.h.lookupFails[f]
    ensures Ahead(l', [f] + rest, 0)
  {
    forall k | 0 <= k < |[f] + rest| ensures Room(l', ([f] + rest)[k]) {
      if k > 0 { assert ([f] + rest)[k] == rest[k - 1]; }
    }
  }

  lemma {:induction false} ListExact(p: Proc, l: Ledger, all: seq<string>, env: Env)
    ensures var u := ListUnarchived(p, l, all, env);
      && u.l.db == l.db && (forall z :: u.l.h.lookupFails[z] >= l.h.lookupFails[z])
      && (!u.p.dead && u.l.h.lookupFails == l.h.lookupFails ==> u.files == Unarchived(l.db, all))
    decreases |all|
  {
    if all != [] {
      var a := IsArchived(p, l, all[0], env);
      ListExact(a.p, a.l, all[1..], env);
      var u := ListUnarchived(p, l, all, env);
      if !u.p.dead && u.l.h.lookupFails == l.h.lookupFails {
        DeadStaysDead(a.p, a.l, all[1..], env);
        assert u.l.h.lookupFails[all[0]] >= a.l.h.lookupFails[all[0]];
        assert forall z :: a.l.h.lookupFails[z] >= l.h.lookupFails[z];
        assert a.l.h.lookupFails == l.h.lookupFails;
      }
    }
  }

  lemma DeadStaysDead(p: Proc, l: Ledger, all: seq<string>, env: Env)
    ensures p.dead ==> ListUnarchived(p, l, all, env).p == p
    decreases |all|
  {
    if all != [] {
      var a := IsArchived(p, l, all[0], env);
      DeadStaysDead(a.p, a.l, all[1..], env);
    }
  }

  // ------------------------------------------------------------ the session

  /** A new session row, and nothing else. */
  lemma CreateMeaning(p: Proc, l: Ledger, env: Env)
    ensures var r := CreateSession(p, l, env);
      && (!r.ok ==> r.l == l)
      && (r.ok ==> !r.p.dead && r.l.h == l.h && r.l.db.files == l.db.files && r.l.db.lastFile == l.db.lastFile
                   && r.l.db.lastSession == l.db.lastSession + 1
                   && r.l.db.sessions == l.db.sessions[l.db.lastSession + 1 := Session(Running, 0)])
  {
  }

  lemma CreateTables(p: Proc, l: Ledger, env: Env)
    requires Tables(l)
    ensures var r := CreateSession(p, l, env);
      Tables(r.l) && (r.ok ==> r.l.db.lastSession !in l.h.terminals && r.l.db.lastSession in r.l.db.sessions)
  {
    CreateMeaning(p, l, env);
    hide CreateSession;
    var r := CreateSession(p, l, env);
    if r.ok {
      var sid := r.l.db.lastSession;
      assert sid !in l.db.sessions;
      forall q | q in r.l.db.files
        ensures r.l.db.files[q].session in r.l.db.sessions && r.l.db.files[q].id <= r.l.db.lastFile
      {
        assert q in l.db.files;
      }
    }
  }

  lemma CreateKeeps(p: Proc, l: Ledger, env: Env)
    requires AtMostOnce(l) && Tables(l)
    ensures var r := CreateSession(p, l, env);
      && AtMostOnce(r.l) && Tables(r.l) && r.l.h == l.h && r.l.db.files == l.db.files
      && (r.ok ==> !r.p.dead && r.l.db.lastSession == l.db.lastSession + 1
                   && r.l.db.lastSession !in l.h.terminals && r.l.db.lastSession in r.l.db.sessions
                   && r.l.db.sessions[r.l.db.lastSession] == Session(Running, 0)
                   && |Open(r.l)| <= |Open(l)| + 1)
      && (!r.ok ==> r.l == l)
  {
    CreateTables(p, l, env);
    CreateMeaning(p, l, env);
    hide CreateSession, Tables;
    var r := CreateSession(p, l, env);
    forall q ensures Counted(r.l, q) { assert Counted(l, q); }
    if r.ok {
      assert Open(r.l) <= Open(l) + {r.l.db.lastSession};
      CardSubset(Open(r.l), Open(l) + {r.l.db.lastSession});
    }
  }

  /** The terminal update of a session that has had none: it closes the session, or counts as a failed
      update, or dies with the process. */
  lemma FinishKeeps(p: Proc, l: Ledger, sid: nat, status: Status, files: Option<int>, env: Env)
    requires AtMostOnce(l) && Tables(l) && sid in l.db.sessions && sid !in l.h.terminals && status != Running
    ensures var r := Finish(p, l, sid, status, files, env);
      && AtMostOnce(r.l) && Tables(r.l) && Lag(r.l) == Lag(l) && r.l.db.files == l.db.files
      && r.l.db.lastSession == l.db.lastSession
      && r.l.h == l.h.(terminals := r.l.h.terminals, statusFails := r.l.h.statusFails)
      && (!p.dead ==> r.l.h.terminals[sid] == 1)
      && r.l.h.statusFails >= l.h.statusFails
      && |Open(r.l)| <= |Open(l)|
      && (sid in Open(l) && !r.p.dead ==> |Open(r.l)| + 1 <= |Open(l)| + (r.l.h.statusFails - l.h.statusFails))
      && (p.dead ==> r == After(p, l, false))
  {
    FinishTables(p, l, sid, status, files, env);
    FinishMeaning(p, l, sid, status, files, env);
    hide Finish, Tables;
    var r := Finish(p, l, sid, status, files, env);
    forall q ensures Counted(r.l, q) { assert Counted(l, q); }
    if r.l.db.sessions == l.db.sessions {
      assert Open(r.l) == Open(l);
    } else {
      assert Open(r.l) == Open(l) - {sid};
    }
  }

  lemma FinishMeaning(p: Proc, l: Ledger, sid: nat, status: Status, files: Option<int>, env: Env)
    requires sid in l.db.sessions && sid !in l.h.terminals && status != Running
    ensures var r := Finish(p, l, sid, status, files, env);
      && r.l.db == l.db.(sessions := r.l.db.sessions)
      && r.l.h == l.h.(terminals := r.l.h.terminals, statusFails := r.l.h.statusFails)
      && (!p.dead ==> r.l.h.terminals[sid] == 1)
      && (p.dead ==> r == After(p, l, false))
      && (r.l.db.sessions == l.db.sessions
          || (exists s: Session :: s.status == status && r.l.db.sessions == l.db.sessions[sid := s]))
      && (r.l.h.statusFails == l.h.statusFails || r.l.h.statusFails == l.h.statusFails + 1)
      && (r.l.db.sessions == l.db.sessions && sid in Open(l) && !r.p.dead ==> r.l.h.statusFails > l.h.statusFails)
  {
  }

  lemma FinishTables(p: Proc, l: Ledger, sid: nat, status: Status, files: Option<int>, env: Env)
    requires Tables(l) && sid in l.db.sessions && sid !in l.h.terminals && status != Running
    ensures Tables(Finish(p, l, sid, status, files, env).l)
  {
    var r := Finish(p, l, sid, status, files, env);
    assert r.l.db.sessions.Keys == l.db.sessions.Keys;
  }

  /** A session in progress: created, not yet closed. */
  ghost predicate InProgress(l: Ledger, sid: nat, crashes: nat) {
    && AtMostOnce(l) && Tables(l) && sid in Open(l) && sid !in l.h.terminals
    && |Lag(l)| <= l.h.failedSessions + crashes
    && |Open(l)| <= l.h.statusFails + crashes + 1
  }

  lemma SendKeeps(b: Backend, p: Proc, l: Ledger, files: seq<string>, sid: nat, crashes: nat, env: Env)
    requires InProgress(l, sid, crashes) && Distinct(files) && Ahead(l, files, 0) && files != [] && !p.dead
    ensures var a := ArchiveFiles(b, p, l, files, 0, 0, sid, env);
      && InProgress(a.l, sid, crashes + if a.ok then 0 else 1)
      && a.l.h.failedSessions == l.h.failedSessions && a.l.h.statusFails == l.h.statusFails
      && |Open(a.l)| <= a.l.h.statusFails + crashes + 1
      && (a.ok ==> !a.p.dead)
  {
    if !b.Noop? {
      ArchiveKeeps(b, p, l, files, 0, 0, sid, env);
      ArchiveLags(b, p, l, files, 0, 0, sid, env);
    }
  }

  lemma CloseKeeps(p: Proc, l: Ledger, sid: nat, status: Status, files: Option<int>, crashes: nat, env: Env)
    requires InProgress(l, sid, crashes) && status != Running
    ensures var r := Finish(p, l, sid, status, files, env);
      var c := crashes + if r.p.dead then 1 else 0;
      Sound(r.l, c, c) && r.l.db.lastSession == l.db.lastSession && (!p.dead ==> r.l.h.terminals[sid] == 1)
  {
    FinishKeeps(p, l, sid, status, files, env);
  }

  lemma CarryKeeps(b: Backend, u: Listed, sid: nat, crashes: nat, env: Env)
    requires InProgress(u.l, sid, crashes) && Distinct(u.files) && (!u.p.dead ==> Ahead(u.l, u.files, 0))
    ensures var r := Carry(b, u, sid, env);
      var c := crashes + if r.p.dead then 1 else 0;
      && Sound(r.l, c, c) && r.l.db.lastSession == u.l.db.lastSession
      && (!r.p.dead ==> r.l.h.terminals[sid] == 1)
  {
    hide ArchiveFiles, AtMostOnce, Tables, Lag, Open, Ahead, Distinct;
    if u.files == [] {
      CloseKeeps(u.p, u.l, sid, Completed, Some(0), crashes, env);
    } else if u.p.dead {
      DeadCarries(b, u, sid, env);
    } else {
      var a := ArchiveFiles(b, u.p, u.l, u.files, 0, 0, sid, env);
      SendKeeps(b, u.p, u.l, u.files, sid, crashes, env);
      ArchiveSessions(b, u.p, u.l, u.files, 0, 0, sid, env);
      if a.ok {
        CloseKeeps(a.p, a.l, sid, Completed, Some(a.current), crashes, env);
      } else if !a.p.dead {
        var l := CountFailure(a.p, a.l);
        CountingKeeps(a.p, a.l, sid, crashes);
        CloseKeeps(a.p, l, sid, Failed, None, crashes, env);
      } else {
        DeadFinishes(a.p, a.l, sid, env);
      }
    }
  }

  lemma DeadCarries(b: Backend, u: Listed, sid: nat, env: Env)
    requires u.p.dead
    ensures var r := Carry(b, u, sid, env); r.p == u.p && r.l == u.l
  {
  }

  lemma DeadFinishes(p: Proc, l: Ledger, sid: nat, env: Env)
    requires p.dead
    ensures var r := FailSession(p, CountFailure(p, l), sid, env); r.p == p && r.l == l
  {
  }

  lemma ArchiveSessions(b: Backend, p: Proc, l: Ledger, files: seq<string>, i: nat, current: int, sid: nat, env: Env)
    requires i <= |files|
    ensures ArchiveFiles(b, p, l, files, i, current, sid, env).l.db.lastSession == l.db.lastSession
    decreases |files| - i
  {
    if i < |files| && !b.Noop? {
      var c := SendOne(b, p, l, files[i], sid, env);
      if c.ok { ArchiveSessions(b, c.p, c.l, files, i + 1, i, sid, env); }
    }
  }

  /** A failed transfer pays for the path it leaves behind. */
  lemma CountingKeeps(p: Proc, l: Ledger, sid: nat, crashes: nat)
    requires InProgress(l, sid, crashes + 1) && |Open(l)| <= l.h.statusFails + crashes + 1 && !p.dead
    ensures InProgress(CountFailure(p, l), sid, crashes)
  {
    var l' := CountFailure(p, l);
    forall q ensures Counted(l', q) { assert Counted(l, q); }
    assert Open(l') == Open(l) && Lag(l') == Lag(l);
  }

  /** Every session, whatever fails and wherever the process dies, keeps the laws of the ledger:
      - copy attempts per path: at most one, plus one per failed ledger request about that path;
      - paths marked but not delivered: at most one per failed session, plus one per crash;
      - sessions left running: at most one per failed status update, plus one per crash;
      - every row names an existing session, ids only grow, no session is closed twice - and a session
        the process survives has had exactly one terminal update. */
  lemma SessionKeeps(b: Backend, p: Proc, l: Ledger, all: seq<string>, crashes: nat, env: Env)
    requires Sound(l, crashes, crashes) && Distinct(all) && !p.dead
    ensures var r := RunSession(b, p, l, all, env);
      var c := crashes + Died(p, r.p);
      && Sound(r.l, c, c) && l.db.lastSession <= r.l.db.lastSession <= l.db.lastSession + 1
      && (!r.p.dead && r.l.db.lastSession > l.db.lastSession ==> r.l.h.terminals[r.l.db.lastSession] == 1)
  {
    var c := CreateSession(p, l, env);
    CreateKeeps(p, l, env);
    if c.ok {
      var u := ListUnarchived(c.p, c.l, all, env);
      ListMeaning(c.p, c.l, all, env);
      assert Open(u.l) == Open(c.l) && Lag(u.l) == Lag(c.l) == Lag(l);
      assert InProgress(u.l, c.l.db.lastSession, crashes);
      CarryKeeps(b, u, c.l.db.lastSession, crashes, env);
    }
  }

  /** What a session the process survives leaves in its row and in the ledger, exactly. With the new
      files f[0..n]: if it transferred all of them, all are delivered and the row says completed with
      n - 1 (the last index, not the number; 0 if there was nothing to do). If it failed, the row says
      failed, and for some index i every f[k] with k < i is delivered, while - ledger writes working -
      the paths newly marked are precisely f[0..i], f[i] included. */
  lemma SessionRecords(b: Backend, p: Proc, l: Ledger, all: seq<string>, env: Env)
    requires AtMostOnce(l) && Tables(l) && Distinct(all) && !p.dead && !b.Noop?
    ensures var r := RunSession(b, p, l, all, env);
      var c := CreateSession(p, l, env);
      var u := ListUnarchived(c.p, c.l, all, env);
      c.ok && !r.p.dead ==>
        var sid, n := c.l.db.lastSession, |u.files|;
        var a := ArchiveFiles(b, u.p, u.l, u.files, 0, 0, sid, env);
        && r.ok == a.ok && (a.ok ==> n == 0 || a.current == n - 1) && (!a.ok ==> 0 <= a.current < n)
        && DeliveredPart(r.l, u.files, 0, if a.ok then n else a.current)
        && (r.l.h.markFails == l.h.markFails ==> MarkedPart(l, r.l, u.files, 0, if a.ok then n else a.current + 1))
        && sid in r.l.db.sessions
        && (r.l.h.statusFails == l.h.statusFails ==>
              r.l.db.sessions[sid]
                == if a.ok then Session(Completed, if n == 0 then 0 else n - 1) else Session(Failed, 0))
  {
    var r := RunSession(b, p, l, all, env);
    var c := CreateSession(p, l, env);
    CreateKeeps(p, l, env);
    if c.ok && !r.p.dead {
      var u := ListUnarchived(c.p, c.l, all, env);
      ListMeaning(c.p, c.l, all, env);
      DeadStaysDead(c.p, c.l, all, env);
      CarryStaysDead(b, u, c.l.db.lastSession, env);
      CarryReaches(b, u, c.l.db.lastSession, env);
      CarryRow(b, u, c.l.db.lastSession, env);
      MarkedPartFrom(l, u.l, r.l, u.files);
    }
  }

  lemma CarryStaysDead(b: Backend, u: Listed, sid: nat, env: Env)
    ensures u.p.dead ==> Carry(b, u, sid, env).p.dead
  {
  }

  lemma MarkedPartFrom(l: Ledger, m: Ledger, r: Ledger, files: seq<string>)
    requires l.db.files == m.db.files
    ensures forall to: int :: to <= |files| ==> (MarkedPart(l, r, files, 0, to) <==> MarkedPart(m, r, files, 0, to))
  {
  }

  /** A terminal update touches the sessions and its own counts only. */
  lemma FinishFrame(p: Proc, l: Ledger, sid: nat, status: Status, files: Option<int>, env: Env)
    ensures var r := Finish(p, l, sid, status, files, env);
      && r.l.h == l.h.(terminals := r.l.h.terminals, statusFails := r.l.h.statusFails)
      && r.l.db.files == l.db.files && (p.dead ==> r.p.dead)
  {
  }

  lemma NothingToSend(b: Backend, p: Proc, l: Ledger, sid: nat, env: Env)
    ensures ArchiveFiles(b, p, l, [], 0, 0, sid, env) == Sent(p, l, 0, true)
  {
  }

  lemma CarryIsArchive(b: Backend, u: Listed, sid: nat, env: Env)
    ensures var r, a := Carry(b, u, sid, env), ArchiveFiles(b, u.p, u.l, u.files, 0, 0, sid, env);
      && r.l.h == a.l.h.(terminals := r.l.h.terminals, statusFails := r.l.h.statusFails,
                         failedSessions := r.l.h.failedSessions)
      && r.l.db.files == a.l.db.files && (!r.p.dead ==> r.ok == a.ok && !a.p.dead)
  {
    hide Finish, ArchiveFiles;
    var a := ArchiveFiles(b, u.p, u.l, u.files, 0, 0, sid, env);
    NothingToSend(b, u.p, u.l, sid, env);
    FinishFrame(u.p, u.l, sid, Completed, Some(0), env);
    FinishFrame(a.p, a.l, sid, Completed, Some(a.current), env);
    FinishFrame(a.p, CountFailure(a.p, a.l), sid, Failed, None, env);
  }

  lemma CarryReaches(b: Backend, u: Listed, sid: nat, env: Env)
    requires AtMostOnce(u.l) && Tables(u.l) && Distinct(u.files) && !b.Noop? && Ahead(u.l, u.files, 0)
    requires sid in u.l.db.sessions
    ensures var r := Carry(b, u, sid, env);
      var n := |u.files|;
      var a := ArchiveFiles(b, u.p, u.l, u.files, 0, 0, sid, env);
      !r.p.dead ==>
        && r.ok == a.ok && (a.ok ==> n == 0 || a.current == n - 1) && (!a.ok ==> 0 <= a.current < n)
        && DeliveredPart(r.l, u.files, 0, if a.ok then n else a.current)
        && (r.l.h.markFails == u.l.h.markFails ==> MarkedPart(u.l, r.l, u.files, 0, if a.ok then n else a.current + 1))
  {
    CarryIsArchive(b, u, sid, env);
    ArchiveKeeps(b, u.p, u.l, u.files, 0, 0, sid, env);
    ArchiveDelivers(b, u.p, u.l, u.files, 0, 0, sid, env);
    ArchiveMarks(b, u.p, u.l, u.files, 0, 0, sid, env);
  }

  lemma CarryRow(b: Backend, u: Listed, sid: nat, env: Env)
    requires AtMostOnce(u.l) && Tables(u.l) && Distinct(u.files) && !b.Noop? && Ahead(u.l, u.files, 0)
    requires sid in u.l.db.sessions && u.l.db.sessions[sid] == Session(Running, 0)
    ensures var r := Carry(b, u, sid, env);
      var n := |u.files|;
      var a := ArchiveFiles(b, u.p, u.l, u.files, 0, 0, sid, env);
      !r.p.dead ==>
        && sid in r.l.db.sessions
        && (r.l.h.statusFails == u.l.h.statusFails ==>
              r.l.db.sessions[sid]
                == if a.ok then Session(Completed, if n == 0 then 0 else n - 1) else Session(Failed, 0))
  {
    CarryIsArchive(b, u, sid, env);
    ArchiveKeeps(b, u.p, u.l, u.files, 0, 0, sid, env);
  }
}
