/** Paths marked as archived and never delivered: how a session loses one, that it is lost for good, and when
    a session loses none. A path is marked before it is copied (cmd/teslausb/main.go), and what is marked is
    not listed again. */
module Losses {
  import opened Common
  import opened Outside
  import opened LedgerSpec
  import opened MachineSpec
  import LedgerRuns
  import MachineLaws
  import Scan

  // ------------------------------------------------------------ lost for good

  /** l2 comes after l1, and if no lookup of q failed in between, q is as lost as it was: marked, undelivered,
      and not even tried. */
  ghost predicate StillLost(l1: Ledger, l2: Ledger, q: string) {
    && l2.h.lookupFails[q] >= l1.h.lookupFails[q]
    && (q in Lag(l1) && l2.h.lookupFails[q] == l1.h.lookupFails[q] ==>
          q in Lag(l2) && l2.h.attempts[q] == l1.h.attempts[q])
  }

  /** A marked path is not listed unless its lookup fails. */
  lemma {:induction false} ListSkips(p: Proc, l: Ledger, all: seq<string>, q: string, env: Env)
    requires q in l.db.files
    ensures var u := ListUnarchived(p, l, all, env);
      && u.l.db == l.db && u.l.h == l.h.(lookupFails := u.l.h.lookupFails)
      && u.l.h.lookupFails[q] >= l.h.lookupFails[q]
      && (!u.p.dead && u.l.h.lookupFails[q] == l.h.lookupFails[q] ==> q !in u.files)
    decreases |all|
  {
    if all != [] {
      var a := IsArchived(p, l, all[0], env);
      ListSkips(a.p, a.l, all[1..], q, env);
      DeadStaysDead(a.p, a.l, all[1..], env);
    }
  }

  predicate SameOf(l: Ledger, r: Ledger, q: string) {
    && (q in r.db.files <==> q in l.db.files) && (q in r.h.delivered <==> q in l.h.delivered)
    && r.h.attempts[q] == l.h.attempts[q] && r.h.lookupFails[q] == l.h.lookupFails[q]
  }

  lemma TransferElse(p: Proc, l: Ledger, f: string, q: string, env: Env)
    requires f != q || p.dead
    ensures var r := LedgerSpec.Transfer(p, l, f, env); SameOf(l, r.l, q) && (p.dead ==> r.p == p && !r.ok)
  {
  }

  lemma SendOneElse(b: Backend, p: Proc, l: Ledger, f: string, sid: nat, q: string, env: Env)
    requires f != q || p.dead
    ensures var r := SendOne(b, p, l, f, sid, env); SameOf(l, r.l, q) && (p.dead ==> r.p == p && (r.ok ==> b.Noop?))
  {
    var m := MarkArchived(p, l, f, sid, env);
    assert SameOf(l, m.l, q) && (p.dead ==> m.p == p);
    hide MarkArchived, LedgerSpec.Transfer;
    TransferElse(m.p, m.l, f, q, env);
    TransferElse(Ask(m.p, env).p, m.l, f, q, env);
  }

  lemma {:induction false} ArchiveElse(b: Backend, p: Proc, l: Ledger, files: seq<string>, i: nat, current: int,
                                       sid: nat, q: string, env: Env)
    requires i <= |files| && (q !in files || p.dead)
    ensures SameOf(l, ArchiveFiles(b, p, l, files, i, current, sid, env).l, q)
    decreases |files| - i
  {
    hide SendOne;
    if i < |files| && !b.Noop? {
      var c := SendOne(b, p, l, files[i], sid, env);
      SendOneElse(b, p, l, files[i], sid, q, env);
      if c.ok {
        ArchiveElse(b, c.p, c.l, files, i + 1, i, sid, q, env);
      }
    }
  }

  lemma SessionStaysLost(b: Backend, p: Proc, l: Ledger, all: seq<string>, q: string, env: Env)
    ensures StillLost(l, RunSession(b, p, l, all, env).l, q)
  {
    hide ListUnarchived, ArchiveFiles, Finish;
    var c := CreateSession(p, l, env);
    CreateMeaning(p, l, env);
    if c.ok {
      hide Carry;
      var u := ListUnarchived(c.p, c.l, all, env);
      var sid := c.l.db.lastSession;
      var r := Carry(b, u, sid, env);
      CarryIsArchive(b, u, sid, env);
      if q in l.db.files {
        ListSkips(c.p, c.l, all, q, env);
      } else {
        LookupsGrow(c.p, c.l, all, q, env);
      }
      CarryLookups(b, u, sid, env);
      if q in Lag(l) && r.l.h.lookupFails[q] == l.h.lookupFails[q] {
        ArchiveElse(b, u.p, u.l, u.files, 0, 0, sid, q, env);
      }
    }
  }

  lemma LookupsGrow(p: Proc, l: Ledger, all: seq<string>, q: string, env: Env)
    ensures ListUnarchived(p, l, all, env).l.h.lookupFails[q] >= l.h.lookupFails[q]
  {
    ListExact(p, l, all, env);
  }

  lemma CarryLookups(b: Backend, u: Listed, sid: nat, env: Env)
    ensures Carry(b, u, sid, env).l.h.lookupFails == u.l.h.lookupFails
  {
    LedgerRuns.LookupsAfter(b, u, sid, env);
  }

  lemma StepStaysLost(u: Setup, m: Machine, q: string)
    ensures StillLost(m.l, Step(u, m).l, q)
  {
    hide Step, RunSession, Dirs;
    var now, at := MachineLaws.EffectsAreLogged(u, m);
    if Step(u, m).l != m.l {
      SessionStaysLost(u.backend, Proc(now, false), m.l, Scan.ScanAll(Dirs(u, now)), q, u.env);
    }
  }

  /** Whatever happens, and across restarts: a path that is marked and undelivered is never sent again, and
      never delivered, for as long as no lookup of it fails. */
  lemma {:induction false} LostForGood(u: Setup, m: Machine, q: string, n: nat)
    ensures StillLost(m.l, Run(u, m, n).l, q)
    decreases n
  {
    hide Step, StillLost;
    if n > 0 {
      LostForGood(u, m, q, n - 1);
      StepStaysLost(u, Run(u, m, n - 1), q);
      StillLostJoins(m.l, Run(u, m, n - 1).l, Run(u, m, n).l, q);
    } else {
      assert StillLost(m.l, m.l, q) by { NothingChanged(m.l, q); }
    }
  }

  lemma NothingChanged(l: Ledger, q: string)
    ensures StillLost(l, l, q)
  {
  }

  lemma StillLostJoins(l1: Ledger, l2: Ledger, l3: Ledger, q: string)
    requires StillLost(l1, l2, q) && StillLost(l2, l3, q)
    ensures StillLost(l1, l3, q)
  {
  }

  /** A failed lookup, and only that, brings it back: the path is taken for new and sent once more. */
  lemma FailedLookupRetries(b: Backend, p: Proc, l: Ledger, q: string)
    requires !p.dead && !b.Noop? && q in Lag(l)
    ensures exists env :: var r := RunSession(b, p, l, [q], env).l;
      q in r.h.delivered && r.h.attempts[q] == l.h.attempts[q] + 1 && r.h.markFails == l.h.markFails
  {
    var env: Env := n => if n == p.clock + 1 then Refused else Done(0);
    var c := CreateSession(p, l, env);
    var sid := c.l.db.lastSession;
    var u := Listed(Proc(p.clock + 2, false), c.l.(h := l.h.(lookupFails := l.h.lookupFails + multiset{q})), [q]);
    assert ListUnarchived(c.p, c.l, [q], env) == u by {
      assert [q][1..] == [];
      assert ListUnarchived(u.p, u.l, [q][1..], env) == Listed(u.p, u.l, []);
      assert [q] + [] == [q];
    }
    hide ListUnarchived, Finish;
    var o := SendOne(b, u.p, u.l, q, sid, env);
    assert o.ok && q in o.l.h.delivered;
    assert o.l.h.attempts[q] == l.h.attempts[q] + 1;
    assert ArchiveFiles(b, u.p, u.l, [q], 0, 0, sid, env) == Sent(o.p, o.l, 0, true);
    CarryIsArchive(b, u, sid, env);
    assert RunSession(b, p, l, [q], env) == Carry(b, u, sid, env);
    hide RunSession, Carry, ArchiveFiles, SendOne, CreateSession;
    assert RunSession(b, p, l, [q], env).l.h.attempts[q] == l.h.attempts[q] + 1;
  }

  // ------------------------------------------------------------ how a path is lost

  /** Requests per file. */
  function Cost(b: Backend): nat { if b.Rsync? then 2 else 3 }

  ghost predicate Calm(env: Env, from: nat, to: nat) { forall n :: from <= n < to ==> env(n) == Done(0) }

  lemma {:induction false} CalmList(clock: nat, l: Ledger, all: seq<string>, env: Env)
    requires Calm(env, clock, clock + |all|)
    ensures ListUnarchived(Proc(clock, false), l, all, env)
      == Listed(Proc(clock + |all|, false), l, Unarchived(l.db, all))
    decreases |all|
  {
    if all != [] {
      CalmList(clock + 1, l, all[1..], env);
    }
  }

  lemma CalmSend(b: Backend, clock: nat, l: Ledger, f: string, sid: nat, env: Env)
    requires !b.Noop? && Calm(env, clock, clock + Cost(b))
    ensures var r := SendOne(b, Proc(clock, false), l, f, sid, env);
      && r.ok && r.p == Proc(clock + Cost(b), false) && r.l.h.delivered == l.h.delivered + {f}
      && r.l.h.markFails == l.h.markFails && r.l.h.lookupFails == l.h.lookupFails
  {
  }

  lemma RefusedSend(b: Backend, clock: nat, l: Ledger, f: string, sid: nat, env: Env)
    requires !b.Noop? && env(clock) == Done(0) && env(clock + 1) == Refused
    ensures var r := SendOne(b, Proc(clock, false), l, f, sid, env);
      && !r.ok && r.p == Proc(clock + 2, false) && f in r.l.db.files && r.l.h.delivered == l.h.delivered
      && r.l.h.markFails == l.h.markFails && r.l.h.lookupFails == l.h.lookupFails
  {
  }

  /** Everything is carried out but the second request about files[j]. */
  ghost predicate OnlyCopyRefused(b: Backend, env: Env, start: nat, j: nat) {
    var bad := start + Cost(b) * j + 1;
    env(bad) == Refused && (forall n :: n != bad ==> env(n) == Done(0))
  }

  lemma {:induction false} LoopLoses(b: Backend, start: nat, l: Ledger, files: seq<string>, i: nat, j: nat,
                                     current: int, sid: nat, env: Env)
    requires !b.Noop? && i <= j < |files| && Distinct(files) && files[j] !in l.h.delivered
    requires OnlyCopyRefused(b, env, start, j)
    ensures var a := ArchiveFiles(b, Proc(start + Cost(b) * i, false), l, files, i, current, sid, env);
      && !a.ok && !a.p.dead && files[j] in Lag(a.l)
      && a.p.clock == start + Cost(b) * j + 2
      && a.l.h.markFails == l.h.markFails && a.l.h.lookupFails == l.h.lookupFails
    decreases j - i
  {
    hide SendOne;
    var clock := start + Cost(b) * i;
    if i == j {
      RefusedSend(b, clock, l, files[i], sid, env);
    } else {
      assert clock + Cost(b) == start + Cost(b) * (i + 1) <= start + Cost(b) * j by { Steps(Cost(b), i, j); }
      CalmSend(b, clock, l, files[i], sid, env);
      var c := SendOne(b, Proc(clock, false), l, files[i], sid, env);
      LoopLoses(b, start, c.l, files, i + 1, j, i, sid, env);
    }
  }

  lemma Steps(c: nat, i: nat, j: nat)
    requires i < j
    ensures c * i + c == c * (i + 1) <= c * j
  {
  }

  lemma UnarchivedIs(db: Db, all: seq<string>)
    ensures forall f :: f in Unarchived(db, all) <==> f in all && f !in db.files
    ensures Distinct(all) ==> Distinct(Unarchived(db, all))
  {
    if all != [] {
      UnarchivedIs(db, all[1..]);
      assert all == [all[0]] + all[1..];
      if Distinct(all) && all[0] !in db.files {
        ListedFirst(all, Unarchived(db, all[1..]));
      }
    }
  }

  /** One refused copy is enough: any path that a scan lists and the ledger does not have may be lost, by any
      backend, in a session in which every other request is carried out. */
  lemma SessionLoses(b: Backend, p: Proc, l: Ledger, all: seq<string>, f: string) returns (env: Env)
    requires !p.dead && !b.Noop? && Distinct(all) && f in all && f !in l.db.files && f !in l.h.delivered
    ensures var r := RunSession(b, p, l, all, env);
      && f in Lag(r.l) && !r.p.dead
      && r.l.h.markFails == l.h.markFails && r.l.h.lookupFails == l.h.lookupFails
  {
    UnarchivedIs(l.db, all);
    var j :| 0 <= j < |Unarchived(l.db, all)| && Unarchived(l.db, all)[j] == f;
    var bad := p.clock + 1 + |all| + Cost(b) * j + 1;
    env := n => if n == bad then Refused else Done(0);
    LosesAt(b, p, l, all, j, env);
  }

  lemma LosesAt(b: Backend, p: Proc, l: Ledger, all: seq<string>, j: nat, env: Env)
    requires !p.dead && !b.Noop? && Distinct(Unarchived(l.db, all)) && j < |Unarchived(l.db, all)|
    requires Unarchived(l.db, all)[j] !in l.h.delivered && OnlyCopyRefused(b, env, p.clock + 1 + |all|, j)
    ensures var r := RunSession(b, p, l, all, env);
      && Unarchived(l.db, all)[j] in Lag(r.l) && !r.p.dead
      && r.l.h.markFails == l.h.markFails && r.l.h.lookupFails == l.h.lookupFails
  {
    hide ListUnarchived, ArchiveFiles, Finish, Unarchived, Distinct;
    assert Calm(env, p.clock, p.clock + 1 + |all|);
    var c := CreateSession(p, l, env);
    assert c.ok && c.p == Proc(p.clock + 1, false) && c.l.h == l.h && c.l.db.files == l.db.files;
    CalmList(p.clock + 1, c.l, all, env);
    LedgerRuns.SameFilesSameList(c.l.db, l.db, all);
    var u := ListUnarchived(c.p, c.l, all, env);
    var sid := c.l.db.lastSession;
    var a := ArchiveFiles(b, u.p, u.l, u.files, 0, 0, sid, env);
    LoopLoses(b, p.clock + 1 + |all|, u.l, u.files, 0, j, 0, sid, env);
    assert u.p == Proc(p.clock + 1 + |all| + Cost(b) * 0, false);
    assert !env(a.p.clock).Killed?;
    Alive(CountFailure(a.p, a.l), a.p, sid, env);
    CarryIsArchive(b, u, sid, env);
  }

  lemma Alive(l: Ledger, p: Proc, sid: nat, env: Env)
    requires !p.dead && !env(p.clock).Killed?
    ensures !FailSession(p, l, sid, env).p.dead
  {
  }

  // ------------------------------------------------------------ when none is

  /** r has at most these more marks than l, and no fewer deliveries. */
  predicate MarkedAmong(l: Ledger, r: Ledger, files: seq<string>) {
    (forall q :: q in r.db.files ==> q in l.db.files || q in files) && l.h.delivered <= r.h.delivered
  }

  lemma SendOneMarks(b: Backend, p: Proc, l: Ledger, files: seq<string>, f: string, sid: nat, env: Env)
    requires f in files
    ensures MarkedAmong(l, SendOne(b, p, l, f, sid, env).l, files)
  {
  }

  lemma {:induction false} MarksOnlyThese(b: Backend, p: Proc, l: Ledger, files: seq<string>, i: nat, current: int,
                                          sid: nat, env: Env)
    requires i <= |files|
    ensures var a := ArchiveFiles(b, p, l, files, i, current, sid, env);
      MarkedAmong(l, a.l, files) && (b.Noop? ==> a.l == l)
    decreases |files| - i
  {
    hide SendOne;
    if i < |files| && !b.Noop? {
      var c := SendOne(b, p, l, files[i], sid, env);
      SendOneMarks(b, p, l, files, files[i], sid, env);
      if c.ok {
        MarksOnlyThese(b, c.p, c.l, files, i + 1, i, sid, env);
      }
    }
  }

  lemma ListsOnlyThese(p: Proc, l: Ledger, all: seq<string>, env: Env)
    ensures var u := ListUnarchived(p, l, all, env);
      u.l.db == l.db && u.l.h.delivered == l.h.delivered && forall f :: f in u.files ==> f in all
    decreases |all|
  {
    if all != [] {
      var a := IsArchived(p, l, all[0], env);
      ListsOnlyThese(a.p, a.l, all[1..], env);
      assert all == [all[0]] + all[1..];
    }
  }

  /** A session loses no path, whatever it meets, if and only if it has nothing to lose: the backend does not
      mark, or every path its scan lists is marked or delivered already. */
  lemma LosesNothingIff(b: Backend, p: Proc, l: Ledger, all: seq<string>)
    requires !p.dead && Distinct(all)
    ensures (forall env :: Lag(RunSession(b, p, l, all, env).l) <= Lag(l))
       <==> b.Noop? || (forall f :: f in all ==> f in l.db.files || f in l.h.delivered)
  {
    hide RunSession;
    if !b.Noop? && exists f :: f in all && f !in l.db.files && f !in l.h.delivered {
      var f :| f in all && f !in l.db.files && f !in l.h.delivered;
      var env := SessionLoses(b, p, l, all, f);
      assert f !in Lag(l);
    } else {
      forall env ensures Lag(RunSession(b, p, l, all, env).l) <= Lag(l) {
        SessionAdds(b, p, l, all, env);
      }
    }
  }

  lemma SessionAdds(b: Backend, p: Proc, l: Ledger, all: seq<string>, env: Env)
    ensures var r := RunSession(b, p, l, all, env);
      && (forall q :: q in r.l.db.files ==> q in l.db.files || (!b.Noop? && q in all))
      && l.h.delivered <= r.l.h.delivered
  {
    hide ListUnarchived, ArchiveFiles, Finish;
    var c := CreateSession(p, l, env);
    CreateMeaning(p, l, env);
    if c.ok {
      hide Carry;
      var u := ListUnarchived(c.p, c.l, all, env);
      ListsOnlyThese(c.p, c.l, all, env);
      CarryIsArchive(b, u, c.l.db.lastSession, env);
      MarksOnlyThese(b, u.p, u.l, u.files, 0, 0, c.l.db.lastSession, env);
    }
  }
}
