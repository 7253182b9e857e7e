/** The ledger over whole runs: any number of sessions, with restarts where the process dies. */
module LedgerRuns {
  import opened Common
  import opened Outside
  import opened LedgerSpec

  /** A session, and the restart that follows if the process died in it. */
  function Session1(b: Backend, p: Proc, l: Ledger, all: seq<string>, env: Env): (Proc, Ledger, nat) {
    var r := RunSession(b, p, l, all, env);
    (Proc(r.p.clock, false), r.l, if r.p.dead then 1 else 0)
  }

  /** One session per scan; the last component counts the crashes. */
  function Sessions(b: Backend, p: Proc, l: Ledger, scans: seq<seq<string>>, crashes: nat, env: Env)
    : (Proc, Ledger, nat)
    decreases |scans|
  {
    if scans == [] then (p, l, crashes)
    else
      var r := Session1(b, p, l, scans[0], env);
      Sessions(b, r.0, r.1, scans[1..], crashes + r.2, env)
  }

  lemma Session1Keeps(b: Backend, p: Proc, l: Ledger, all: seq<string>, crashes: nat, env: Env)
    requires Sound(l, crashes, crashes) && Distinct(all) && !p.dead
    ensures var r := Session1(b, p, l, all, env);
      Sound(r.1, crashes + r.2, crashes + r.2) && l.db.lastSession <= r.1.db.lastSession && !r.0.dead
  {
    SessionKeeps(b, p, l, all, crashes, env);
  }

  lemma {:induction false} SessionsKeep(b: Backend, p: Proc, l: Ledger, scans: seq<seq<string>>, crashes: nat, env: Env)
    requires Sound(l, crashes, crashes) && !p.dead && forall s :: s in scans ==> Distinct(s)
    ensures var r := Sessions(b, p, l, scans, crashes, env);
      Sound(r.1, r.2, r.2) && l.db.lastSession <= r.1.db.lastSession
    decreases |scans|
  {
    hide Session1, Sound;
    if scans != [] {
      var r := Session1(b, p, l, scans[0], env);
      Session1Keeps(b, p, l, scans[0], crashes, env);
      SessionsKeep(b, r.0, r.1, scans[1..], crashes + r.2, env);
    }
  }

  /** Over all sessions, failures and crashes, for every backend: no path is copied more than once,
      plus once for every failed ledger write and every failed lookup of that very path; and the
      paths marked without having been delivered number at most the failed sessions and crashes. */
  lemma TransferAtMostOnce(b: Backend, scans: seq<seq<string>>, q: string, env: Env)
    requires forall s :: s in scans ==> Distinct(s)
    ensures var r := Sessions(b, Proc(0, false), Empty, scans, 0, env);
      && r.1.h.attempts[q] <= 1 + r.1.h.markFails[q] + r.1.h.lookupFails[q]
      && |Lag(r.1)| <= r.1.h.failedSessions + r.2
      && |Open(r.1)| <= r.1.h.statusFails + r.2
  {
    assert Lag(Empty) == {} && Open(Empty) == {};
    assert forall z :: Counted(Empty, z);
    SessionsKeep(b, Proc(0, false), Empty, scans, 0, env);
    var r := Sessions(b, Proc(0, false), Empty, scans, 0, env);
    assert Counted(r.1, q);
  }

  // ------------------------------------------------------------ convergence

  /** The ledger worked: no lookup, no mark failed. */
  predicate Worked(before: Ledger, after: Ledger) {
    after.h.markFails == before.h.markFails && after.h.lookupFails == before.h.lookupFails
  }

  lemma UnarchivedShrinks(db: Db, db': Db, all: seq<string>)
    requires db.files.Keys <= db'.files.Keys
    ensures |Unarchived(db', all)| <= |Unarchived(db, all)|
    ensures (exists f :: f in Unarchived(db, all) && f in db'.files) ==> |Unarchived(db', all)| < |Unarchived(db, all)|
  {
    if all != [] {
      UnarchivedShrinks(db, db', all[1..]);
    }
  }

  /** A session that is created, survives and finds something new makes the list of new files strictly
      shorter - even if every copy fails, since a file is marked before it is copied. */
  lemma SessionShrinks(b: Backend, p: Proc, l: Ledger, all: seq<string>, env: Env)
    requires AtMostOnce(l) && Tables(l) && Distinct(all) && !p.dead && !b.Noop?
    ensures var r := RunSession(b, p, l, all, env);
      CreateSession(p, l, env).ok && !r.p.dead && Worked(l, r.l) ==>
        && (Unarchived(l.db, all) != [] ==> |Unarchived(r.l.db, all)| < |Unarchived(l.db, all)|)
        && (Unarchived(l.db, all) == [] ==> Unarchived(r.l.db, all) == [])
  {
    hide RunSession, Carry, ArchiveFiles, ListUnarchived, CreateSession, AtMostOnce, Tables, MarkedPart,
      DeliveredPart, Unarchived;
    var r := RunSession(b, p, l, all, env);
    var c := CreateSession(p, l, env);
    if c.ok && !r.p.dead && Worked(l, r.l) {
      CreateKeeps(p, l, env);
      var u := ListUnarchived(c.p, c.l, all, env);
      var sid := c.l.db.lastSession;
      SessionIsCarry(b, p, l, all, env);
      CarryStaysDead(b, u, sid, env);
      LookupsAfter(b, u, sid, env);
      ListExact(c.p, c.l, all, env);
      SessionRecords(b, p, l, all, env);
      var a := ArchiveFiles(b, u.p, u.l, u.files, 0, 0, sid, env);
      MarkedGrows(l, r.l, u.files, if a.ok then |u.files| else a.current + 1);
      UnarchivedShrinks(l.db, r.l.db, all);
      EmptyStaysEmpty(l.db, r.l.db, all);
    }
  }

  lemma SessionIsCarry(b: Backend, p: Proc, l: Ledger, all: seq<string>, env: Env)
    ensures var c := CreateSession(p, l, env);
      c.ok ==> c.l.h == l.h && c.l.db.files == l.db.files
               && RunSession(b, p, l, all, env) == Carry(b, ListUnarchived(c.p, c.l, all, env), c.l.db.lastSession, env)
    ensures Unarchived(CreateSession(p, l, env).l.db, all) == Unarchived(l.db, all)
  {
    SameFilesSameList(CreateSession(p, l, env).l.db, l.db, all);
  }

  lemma SameFilesSameList(db: Db, db': Db, all: seq<string>)
    requires db.files == db'.files
    ensures Unarchived(db, all) == Unarchived(db', all)
  {
  }

  lemma EmptyStaysEmpty(db: Db, db': Db, all: seq<string>)
    requires |Unarchived(db', all)| <= |Unarchived(db, all)|
    ensures Unarchived(db, all) == [] ==> Unarchived(db', all) == []
  {
  }

  lemma LookupsAfter(b: Backend, u: Listed, sid: nat, env: Env)
    ensures Carry(b, u, sid, env).l.h.lookupFails == u.l.h.lookupFails
  {
    hide Carry;
    CarryIsArchive(b, u, sid, env);
    ArchiveLookups(b, u.p, u.l, u.files, 0, 0, sid, env);
  }

  lemma SendOneLookups(b: Backend, p: Proc, l: Ledger, f: string, sid: nat, env: Env)
    ensures SendOne(b, p, l, f, sid, env).l.h.lookupFails == l.h.lookupFails
  {
  }

  lemma {:induction false} ArchiveLookups(b: Backend, p: Proc, l: Ledger, files: seq<string>, i: nat,
                                          current: int, sid: nat, env: Env)
    requires i <= |files|
    ensures ArchiveFiles(b, p, l, files, i, current, sid, env).l.h.lookupFails == l.h.lookupFails
    decreases |files| - i
  {
    hide SendOne;
    if i < |files| && !b.Noop? {
      var c := SendOne(b, p, l, files[i], sid, env);
      SendOneLookups(b, p, l, files[i], sid, env);
      if c.ok {
        ArchiveLookups(b, c.p, c.l, files, i + 1, i, sid, env);
      }
    }
  }

  lemma MarkedGrows(l: Ledger, r: Ledger, files: seq<string>, to: int)
    requires 0 <= to <= |files| && MarkedPart(l, r, files, 0, to) && (files != [] ==> to > 0)
    ensures l.db.files.Keys <= r.db.files.Keys
    ensures files != [] ==> files[0] in files && files[0] in r.db.files
  {
    if files != [] {
      assert Among(files, 0, to, files[0]);
    }
  }

  /** n sessions in a row over the same files, all created and none cut short. */
  function Repeat(b: Backend, p: Proc, l: Ledger, all: seq<string>, n: nat, env: Env): After
    decreases n
  {
    if n == 0 then After(p, l, true)
    else
      var r := RunSession(b, p, l, all, env);
      var rest := Repeat(b, r.p, r.l, all, n - 1, env);
      rest.(ok := CreateSession(p, l, env).ok && !r.p.dead && Worked(l, r.l) && rest.ok)
  }

  /** Convergence: with a fixed set of files and a working ledger, n sessions leave at most |new| - n
      files to do; so after as many sessions as there were new files there is nothing left to do, and
      it stays that way - whether or not anything was ever copied. */
  lemma {:induction false} Converges(b: Backend, p: Proc, l: Ledger, all: seq<string>, n: nat, crashes: nat, env: Env)
    requires Sound(l, crashes, crashes) && Distinct(all) && !p.dead && !b.Noop?
    ensures var r := Repeat(b, p, l, all, n, env);
      r.ok ==> |Unarchived(r.l.db, all)| <= if n <= |Unarchived(l.db, all)| then |Unarchived(l.db, all)| - n else 0
    decreases n
  {
    hide RunSession, Sound, CreateSession, Unarchived, Worked;
    if n > 0 && !RunSession(b, p, l, all, env).p.dead {
      var r := RunSession(b, p, l, all, env);
      SessionStep(b, p, l, all, crashes, env);
      Converges(b, r.p, r.l, all, n - 1, crashes + Died(p, r.p), env);
    }
  }

  lemma SessionStep(b: Backend, p: Proc, l: Ledger, all: seq<string>, crashes: nat, env: Env)
    requires Sound(l, crashes, crashes) && Distinct(all) && !p.dead && !b.Noop?
    ensures var r := RunSession(b, p, l, all, env);
      var u, u' := |Unarchived(l.db, all)|, |Unarchived(r.l.db, all)|;
      && Sound(r.l, crashes + Died(p, r.p), crashes + Died(p, r.p))
      && (CreateSession(p, l, env).ok && !r.p.dead && Worked(l, r.l) ==> u' <= if u > 0 then u - 1 else 0)
  {
    SessionShrinks(b, p, l, all, env);
    SessionKeeps(b, p, l, all, crashes, env);
  }

  // ------------------------------------------------------------ why the scan must not repeat a path

  /** Every request succeeds. */
  const AllWell: Env := n => Done(0)

  lemma {:induction false} AllListed(p: Proc, l: Ledger, all: seq<string>)
    requires !p.dead && l.db.files == map[]
    ensures var u := ListUnarchived(p, l, all, AllWell);
      u.files == all && u.l == l && !u.p.dead
    decreases |all|
  {
    if all != [] {
      AllListed(IsArchived(p, l, all[0], AllWell).p, l, all[1..]);
    }
  }

  lemma OneSent(p: Proc, l: Ledger, f: string, sid: nat)
    requires !p.dead
    ensures var c := SendOne(Rsync, p, l, f, sid, AllWell);
      && c.ok && !c.p.dead && c.l.h.attempts == l.h.attempts + multiset{f}
      && c.l.h.markFails == l.h.markFails && c.l.h.lookupFails == l.h.lookupFails
  {
  }

  lemma {:induction false} AllSent(p: Proc, l: Ledger, files: seq<string>, i: nat, current: int, sid: nat)
    requires !p.dead && i <= |files|
    ensures var a := ArchiveFiles(Rsync, p, l, files, i, current, sid, AllWell);
      && a.ok && !a.p.dead && a.l.h.attempts == l.h.attempts + multiset(files[i..])
      && a.l.h.markFails == l.h.markFails && a.l.h.lookupFails == l.h.lookupFails
    decreases |files| - i
  {
    hide SendOne;
    if i < |files| {
      var c := SendOne(Rsync, p, l, files[i], sid, AllWell);
      OneSent(p, l, files[i], sid);
      AllSent(c.p, c.l, files, i + 1, i, sid);
      assert files[i..] == [files[i]] + files[i + 1..];
    }
  }

  /** Sending each path at most once needs a scan that lists each path at most once, and no more: a
      first session keeps the count whatever happens to it if and only if the scan has no repetition. */
  lemma AtMostOnceIffDistinct(all: seq<string>)
    ensures (forall env :: AtMostOnce(RunSession(Rsync, Proc(0, false), Empty, all, env).l)) <==> Distinct(all)
  {
    var p := Proc(0, false);
    if Distinct(all) {
      forall env ensures AtMostOnce(RunSession(Rsync, p, Empty, all, env).l) {
        assert Lag(Empty) == {} && Open(Empty) == {};
        assert forall z :: Counted(Empty, z);
        SessionKeeps(Rsync, p, Empty, all, 0, env);
      }
    } else {
      var i, j :| 0 <= i < j < |all| && all[i] == all[j];
      SentTwice(all, i, j);
    }
  }

  lemma SessionSendsAll(all: seq<string>)
    ensures var h := RunSession(Rsync, Proc(0, false), Empty, all, AllWell).l.h;
      h.attempts == multiset(all) && h.markFails == multiset{} && h.lookupFails == multiset{}
  {
    var c := CreateSession(Proc(0, false), Empty, AllWell);
    assert c.ok && c.l.h == Empty.h && c.l.db.files == map[] && !c.p.dead;
    hide RunSession, Carry, ArchiveFiles, ListUnarchived, CreateSession;
    SessionIsCarry(Rsync, Proc(0, false), Empty, all, AllWell);
    var u := ListUnarchived(c.p, c.l, all, AllWell);
    AllListed(c.p, c.l, all);
    CarryIsArchive(Rsync, u, c.l.db.lastSession, AllWell);
    AllSent(u.p, u.l, all, 0, 0, c.l.db.lastSession);
    assert all[0..] == all;
  }

  lemma TwiceCounted(all: seq<string>, i: nat, j: nat)
    requires i < j < |all| && all[i] == all[j]
    ensures multiset(all)[all[i]] >= 2
  {
    assert all == all[..j] + [all[j]] + all[j + 1..];
    assert all[i] in all[..j];
    assert multiset(all[..j])[all[i]] >= 1;
  }

  lemma SentTwice(all: seq<string>, i: nat, j: nat)
    requires i < j < |all| && all[i] == all[j]
    ensures !AtMostOnce(RunSession(Rsync, Proc(0, false), Empty, all, AllWell).l)
  {
    hide RunSession;
    SessionSendsAll(all);
    TwiceCounted(all, i, j);
    assert !Counted(RunSession(Rsync, Proc(0, false), Empty, all, AllWell).l, all[i]);
  }
}
