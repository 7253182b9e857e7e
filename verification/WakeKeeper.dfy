/** internal/tesla/ble.go: Start, Stop and the background loop as interleaved steps. The mutex guards
    `cancel` and the writes of `done`; the loop reads `done` without it - once, when it first runs,
    because that is when the argument of `defer close(b.done)` is evaluated. */
module WakeKeeper {
  import opened Common

  /** Where a calling goroutine stands. */
  datatype Caller =
    | Outside
    | StartLocked | CancelSet | DoneSet | Spawned
    | StopLocked | Taken(ctx: nat, ch: Option<nat>) | Waiting(ch: Option<nat>)

  /** Where a background goroutine stands: spawned but not yet run, running with the channel its
      deferred close captured, or gone. */
  datatype Loop = Fresh | Running(ch: Option<nat>) | Gone

  /** The i-th Start to get that far makes context i, loop i and, in this order, the i-th channel.
      closes[c]: how often channel c has been closed. */
  datatype State = State(callers: seq<Caller>, locked: bool, cancel: Option<nat>, done: Option<nat>,
                         loops: seq<Loop>, cancelled: set<nat>, parentDone: bool, closes: seq<nat>)

  function Init(n: nat): State {
    State(seq(n, _ => Outside), false, None, None, [], {}, false, [])
  }

  datatype Label =
    | EnterStart(who: nat) | EnterStop(who: nat) | Advance(who: nat)
    | Begin(loop: nat) | Turn(loop: nat) | Exit(loop: nat)
    | CancelParent

  function At(s: State, who: nat, c: Caller): State
    requires who < |s.callers|
  {
    s.(callers := s.callers[who := c])
  }

  predicate Cancelled(s: State, i: nat) { s.parentDone || i in s.cancelled }

  /** One statement of one goroutine; None when it cannot be taken in this state. */
  function Step(s: State, l: Label): Option<State> {
    match l
    case EnterStart(who) =>
      if who < |s.callers| && s.callers[who].Outside? && !s.locked
      then Some(At(s, who, StartLocked).(locked := true)) else None
    case EnterStop(who) =>
      if who < |s.callers| && s.callers[who].Outside? && !s.locked
      then Some(At(s, who, StopLocked).(locked := true)) else None
    case Advance(who) => if who < |s.callers| then AdvanceCaller(s, who) else None
    case Begin(i) =>
      if i < |s.loops| && s.loops[i].Fresh? then Some(s.(loops := s.loops[i := Running(s.done)])) else None
    case Turn(i) =>   // a nudge, at once or after a tick
      if i < |s.loops| && s.loops[i].Running? then Some(s) else None
    case Exit(i) =>
      if i < |s.loops| && s.loops[i].Running? && Cancelled(s, i) then Some(Close(s, i, s.loops[i].ch)) else None
    case CancelParent => Some(s.(parentDone := true))
  }

  /** The deferred close of loop i; a nil or unmade channel is never passed (see Safe). */
  function Close(s: State, i: nat, ch: Option<nat>): State
    requires i < |s.loops|
  {
    s.(loops := s.loops[i := Gone],
       closes := if ch.Some? && ch.value < |s.closes| then s.closes[ch.value := s.closes[ch.value] + 1] else s.closes)
  }

  function AdvanceCaller(s: State, who: nat): Option<State>
    requires who < |s.callers|
  {
    match s.callers[who]
    case Outside => None
    case StartLocked =>
      if s.cancel.Some? then Some(At(s, who, Outside).(locked := false))   // already running
      else Some(At(s, who, CancelSet).(cancel := Some(|s.loops|)))
    case CancelSet => Some(At(s, who, DoneSet).(done := Some(|s.closes|), closes := s.closes + [0]))
    case DoneSet => Some(At(s, who, Spawned).(loops := s.loops + [Fresh]))
    case Spawned => Some(At(s, who, Outside).(locked := false))
    case StopLocked =>
      var t := s.(cancel := None, locked := false);
      if s.cancel.Some? then Some(At(t, who, Taken(s.cancel.value, s.done))) else Some(At(t, who, Outside))
    case Taken(c, ch) => Some(At(s, who, Waiting(ch)).(cancelled := s.cancelled + {c}))
    case Waiting(ch) => if Closed(s, ch) then Some(At(s, who, Outside)) else None
  }

  /** `<-done` returns: the channel is not nil and has been closed. */
  predicate Closed(s: State, ch: Option<nat>) {
    ch.Some? && ch.value < |s.closes| && s.closes[ch.value] > 0
  }

  function Run(s: State, trace: seq<Label>): Option<State>
    decreases |trace|
  {
    if trace == [] then Some(s)
    else
      var t := Step(s, trace[0]);
      if t.None? then None else Run(t.value, trace[1..])
  }

  // ------------------------------------------------------------ what must hold

  predicate Live(s: State, i: nat) { i < |s.loops| && !s.loops[i].Gone? }

  /** At most one loop is live; no channel is closed twice; a loop that is gone closed its own channel,
      and no loop ever holds another one. */
  ghost predicate Safe(s: State) {
    && |s.loops| <= |s.closes|
    && (forall i, j :: Live(s, i) && Live(s, j) ==> i == j)
    && (forall c :: 0 <= c < |s.closes| ==> s.closes[c] <= 1)
    && (forall i :: 0 <= i < |s.loops| && s.loops[i].Gone? ==> s.closes[i] == 1)
    && (forall i :: 0 <= i < |s.loops| && s.loops[i].Running? ==> s.loops[i].ch == Some(i))
  }

  ghost predicate AllGone(s: State) { forall i :: 0 <= i < |s.loops| ==> s.loops[i].Gone? }

  ghost predicate LoopOk(s: State, i: nat)
    requires i < |s.loops| <= |s.closes|
  {
    match s.loops[i]
    case Fresh => s.closes[i] == 0
    case Running(ch) => ch == Some(i) && s.closes[i] == 0
    case Gone => s.closes[i] == 1
  }

  ghost predicate LoopsOk(s: State)
    requires |s.loops| <= |s.closes|
  {
    && (forall i :: 0 <= i < |s.loops| - 1 ==> s.loops[i].Gone?)
    && (forall i :: 0 <= i < |s.loops| ==> LoopOk(s, i))
  }

  /** The inductive invariant for one caller. */
  ghost predicate Inv(s: State) {
    && |s.callers| == 1 && |s.loops| <= |s.closes|
    && var n, c := |s.loops|, s.callers[0];
    && LoopsOk(s)
    && (s.locked <==> c.StartLocked? || c.CancelSet? || c.DoneSet? || c.Spawned? || c.StopLocked?)
    && (n > 0 && Live(s, n - 1) && !c.DoneSet? ==> s.done == Some(n - 1))
    && match c
       case CancelSet => |s.closes| == n && s.cancel == Some(n) && AllGone(s)
       case DoneSet => |s.closes| == n + 1 && s.cancel == Some(n) && s.done == Some(n) && s.closes[n] == 0 && AllGone(s)
       case Taken(ctx, ch) => |s.closes| == n > 0 && s.cancel.None? && ctx == n - 1 && ch == Some(n - 1)
       case Waiting(ch) => |s.closes| == n > 0 && s.cancel.None? && n - 1 in s.cancelled && ch == Some(n - 1)
       case _ => |s.closes| == n && (s.cancel.Some? ==> n > 0 && s.cancel == Some(n - 1) && s.done == Some(n - 1))
                 && (s.cancel.None? ==> AllGone(s))
  }

  /** Channels and loops may be added, a loop only when all before it are gone. */
  lemma LoopsExtend(s: State, t: State)
    requires |s.loops| <= |s.closes| && LoopsOk(s) && s.loops <= t.loops && s.closes <= t.closes
    requires |t.loops| <= |t.closes|
    requires t.loops == s.loops || (AllGone(s) && t.loops == s.loops + [Fresh] && t.closes[|s.loops|] == 0)
    ensures LoopsOk(t)
    ensures AllGone(s) && t.loops == s.loops ==> AllGone(t)
  {
    forall i | 0 <= i < |t.loops| ensures LoopOk(t, i) && (i < |t.loops| - 1 ==> t.loops[i].Gone?) {
      if i < |s.loops| { assert LoopOk(s, i) && t.loops[i] == s.loops[i]; }
    }
  }

  /** Only a statement of the caller moves the caller, the lock, `cancel` and `done`. */
  lemma InvAdvance(s: State)
    requires Inv(s) && AdvanceCaller(s, 0).Some?
    ensures Inv(AdvanceCaller(s, 0).value)
  {
    match s.callers[0]
    case StartLocked => InvLockedStart(s);
    case CancelSet => InvChannel(s);
    case DoneSet => InvSpawn(s);
    case _ => InvOther(s);
  }

  lemma InvLockedStart(s: State)
    requires Inv(s) && s.callers[0] == StartLocked
    ensures Inv(AdvanceCaller(s, 0).value)
  {
    var t := AdvanceCaller(s, 0).value;
    LoopsExtend(s, t);
    hide LoopsOk, AllGone;
  }

  lemma InvChannel(s: State)
    requires Inv(s) && s.callers[0] == CancelSet
    ensures Inv(AdvanceCaller(s, 0).value)
  {
    var t := AdvanceCaller(s, 0).value;
    LoopsExtend(s, t);
    assert |s.loops| > 0 ==> !Live(s, |s.loops| - 1);
    hide LoopsOk, AllGone;
  }

  lemma InvSpawn(s: State)
    requires Inv(s) && s.callers[0] == DoneSet
    ensures Inv(AdvanceCaller(s, 0).value)
  {
    var t := AdvanceCaller(s, 0).value;
    LoopsExtend(s, t);
    hide LoopsOk, AllGone;
  }

  lemma InvOther(s: State)
    requires Inv(s) && AdvanceCaller(s, 0).Some?
    requires s.callers[0].Spawned? || s.callers[0].StopLocked? || s.callers[0].Taken? || s.callers[0].Waiting?
    ensures Inv(AdvanceCaller(s, 0).value)
  {
    var t := AdvanceCaller(s, 0).value;
    LoopsExtend(s, t);
    if s.callers[0].Waiting? {
      ReturnedIsGone(s);
    }
    hide LoopsOk, AllGone;
  }

  lemma ReturnedIsGone(s: State)
    requires 0 < |s.loops| <= |s.closes| && LoopsOk(s) && s.closes[|s.loops| - 1] > 0
    ensures AllGone(s)
  {
    assert LoopOk(s, |s.loops| - 1);
  }

  lemma InvLoop(s: State, i: nat, t: State)
    requires Inv(s) && i < |s.loops| == |t.loops| && !s.loops[i].Gone?
    requires t == s.(loops := s.loops[i := t.loops[i]], closes := t.closes)
    requires |t.closes| == |s.closes| && (forall c :: 0 <= c < |s.closes| && c != i ==> t.closes[c] == s.closes[c])
    requires LoopOk(t, i)
    ensures Inv(t)
  {
    assert i == |s.loops| - 1;
    forall k | 0 <= k < |t.loops| ensures LoopOk(t, k) {
      if k != i { assert LoopOk(s, k); }
    }
  }

  lemma InvEnter(s: State, l: Label)
    requires Inv(s) && Step(s, l).Some? && (l.EnterStart? || l.EnterStop? || l.CancelParent?)
    ensures Inv(Step(s, l).value)
  {
    LoopsExtend(s, Step(s, l).value);
    hide LoopsOk, AllGone;
  }

  lemma InvStep(s: State, l: Label)
    requires Inv(s) && Step(s, l).Some?
    ensures Inv(Step(s, l).value)
  {
    var t := Step(s, l).value;
    match l
    case Advance(who) => InvAdvance(s);
    case Begin(i) => assert LoopOk(s, i); InvLoop(s, i, t);
    case Turn(i) =>
    case Exit(i) => assert LoopOk(s, i); InvLoop(s, i, t);
    case _ => InvEnter(s, l);
  }

  lemma InvIsSafe(s: State)
    requires Inv(s)
    ensures Safe(s)
  {
    forall i | 0 <= i < |s.loops|
      ensures s.closes[i] <= 1 && (s.loops[i].Gone? ==> s.closes[i] == 1)
      ensures s.loops[i].Running? ==> s.loops[i].ch == Some(i)
    {
      assert LoopOk(s, i);
    }
  }

  lemma {:induction false} InvRun(s: State, trace: seq<Label>)
    requires Inv(s) && Run(s, trace).Some?
    ensures Inv(Run(s, trace).value)
    decreases |trace|
  {
    if trace != [] {
      InvStep(s, trace[0]);
      InvRun(Step(s, trace[0]).value, trace[1..]);
    }
  }

  // ------------------------------------------------------------ the theorems

  /** Under every interleaving of one calling goroutine with the loops it starts: at most one loop is
      live, every channel is closed at most once and exactly once by the time its loop is gone, a
      Stop that waits waits for a channel that is closed already or that a live, cancelled loop will
      close, and once Stop has returned (until a Start gets going) no loop is live. */
  lemma OneCallerIsSafe(trace: seq<Label>)
    requires Run(Init(1), trace).Some?
    ensures var s := Run(Init(1), trace).value;
      && Safe(s) && |s.callers| == 1
      && (s.callers[0].Waiting? ==> var ch := s.callers[0].ch;
            ch.Some? && (Closed(s, ch) || (Live(s, ch.value) && Cancelled(s, ch.value))))
      && (s.callers[0].Outside? && s.cancel.None? ==> AllGone(s))
  {
    assert Inv(Init(1));
    InvRun(Init(1), trace);
    var s := Run(Init(1), trace).value;
    InvIsSafe(s);
    if s.callers[0].Waiting? {
      assert LoopOk(s, |s.loops| - 1);
    }
  }

  /** ... and that Stop can always be made to return: the loop it waits for needs no more than to run. */
  lemma StopCanReturn(s: State) returns (more: seq<Label>)
    requires Inv(s) && s.callers[0].Waiting?
    ensures |more| <= 3 && Run(s, more).Some? && Run(s, more).value.callers == [Outside]
  {
    var i := |s.loops| - 1;
    assert LoopOk(s, i);
    if s.loops[i].Fresh? {
      var t := Step(s, Begin(i)).value;
      InvStep(s, Begin(i));
      ExitAndReturn(t);
      RunConcat(s, [Begin(i)], [Exit(i), Advance(0)]);
      RunOne(s, Begin(i));
      more := [Begin(i)] + [Exit(i), Advance(0)];
    } else if s.loops[i].Running? {
      ExitAndReturn(s);
      more := [Exit(i), Advance(0)];
    } else {
      RunOne(s, Advance(0));
      more := [Advance(0)];
    }
  }

  /** Inside a Stop, or back from it with the keeper stopped. */
  predicate Stops(s: State) {
    |s.callers| == 1 && match s.callers[0]
      case StopLocked => true
      case Taken(_, _) => s.cancel.None?
      case Waiting(_) => s.cancel.None?
      case Outside => s.cancel.None?
      case _ => false
  }

  lemma StopsOn(s: State, l: Label)
    requires Stops(s) && !l.EnterStart? && Step(s, l).Some?
    ensures Stops(Step(s, l).value)
  {
    assert s.callers == [s.callers[0]];
    match l
    case EnterStart(_) =>
    case EnterStop(who) => assert At(s, who, StopLocked).callers[0] == StopLocked;
    case Advance(who) => StopsAdvance(s);
    case Begin(_) =>
    case Turn(_) =>
    case Exit(_) =>
    case CancelParent =>
  }

  lemma StopsAdvance(s: State)
    requires Stops(s) && AdvanceCaller(s, 0).Some?
    ensures Stops(AdvanceCaller(s, 0).value)
  {
    match s.callers[0]
    case _ =>
  }

  /** And when a Stop has returned - whatever ran in between, as long as no Start came after it - no loop is live. */
  lemma {:induction false} StopLeavesNoLoop(s: State, trace: seq<Label>)
    requires Inv(s) && Stops(s) && (forall l :: l in trace ==> !l.EnterStart?) && Run(s, trace).Some?
    ensures var r := Run(s, trace).value; |r.callers| == 1 && (r.callers[0].Outside? ==> AllGone(r) && r.cancel.None?)
    decreases |trace|
  {
    hide Stops;
    if trace != [] {
      assert trace[0] in trace;
      InvStep(s, trace[0]);
      StopsOn(s, trace[0]);
      forall l | l in trace[1..] ensures l in trace { }
      hide Step, Inv;
      StopLeavesNoLoop(Step(s, trace[0]).value, trace[1..]);
    } else {
      StopsMeans(s);
    }
  }

  lemma StopsMeans(s: State)
    requires Inv(s) && Stops(s)
    ensures |s.callers| == 1 && (s.callers[0].Outside? ==> AllGone(s) && s.cancel.None?)
  {
    hide LoopsOk, AllGone;
  }

  /** Every Stop is of this kind, from its first statement on. */
  lemma EnteredStops(s: State)
    requires Inv(s) && Step(s, EnterStop(0)).Some?
    ensures Inv(Step(s, EnterStop(0)).value) && Stops(Step(s, EnterStop(0)).value)
  {
    InvStep(s, EnterStop(0));
  }

  lemma ExitAndReturn(s: State)
    requires Inv(s) && s.callers[0].Waiting? && s.loops[|s.loops| - 1].Running?
    ensures var r := Run(s, [Exit(|s.loops| - 1), Advance(0)]);
      r.Some? && r.value.callers == [Outside]
  {
    var i := |s.loops| - 1;
    assert LoopOk(s, i);
    var t := Step(s, Exit(i)).value;
    assert t.closes[i] == 1 && t.callers == s.callers;
    RunTwo(s, Exit(i), Advance(0));
  }

  lemma RunOne(s: State, a: Label)
    ensures Run(s, [a]) == Step(s, a)
  {
    assert [a][1..] == [];
  }

  lemma RunTwo(s: State, a: Label, b: Label)
    requires Step(s, a).Some?
    ensures Run(s, [a, b]) == Step(Step(s, a).value, b)
  {
    assert [a, b][1..] == [b];
    RunOne(Step(s, a).value, b);
  }

  lemma RunThree(s: State, a: Label, b: Label, c: Label)
    requires Step(s, a).Some? && Step(Step(s, a).value, b).Some?
    ensures Run(s, [a, b, c]) == Step(Step(Step(s, a).value, b).value, c)
  {
    assert [a, b, c][1..] == [b, c];
    RunTwo(Step(s, a).value, b, c);
  }

  // ------------------------------------------------------------ two callers

  lemma RunConcat(s: State, a: seq<Label>, b: seq<Label>)
    requires Run(s, a).Some?
    ensures Run(s, a + b) == Run(Run(s, a).value, b)
    decreases |a|
  {
    if a == [] {
      assert a + b == b;
    } else {
      assert (a + b)[1..] == a[1..] + b;
      RunConcat(Step(s, a[0]).value, a[1..], b);
    }
  }

  const Started := State([Outside, Outside], false, Some(0), Some(0), [Fresh], {}, false, [0])
  const Stopping := State([Waiting(Some(0)), Outside], false, None, Some(0), [Fresh], {0}, false, [0])
  const Restarted := State([Waiting(Some(0)), Outside], false, Some(1), Some(1), [Fresh, Fresh], {0}, false, [0, 0])
  const Broken := State([Waiting(Some(0)), Outside], false, Some(1), Some(1), [Gone, Fresh], {0}, false, [0, 1])

  lemma StartsInFive(s: State, who: nat)
    requires who < |s.callers| && s.callers[who].Outside? && !s.locked && s.cancel.None?
    ensures Run(s, [EnterStart(who), Advance(who), Advance(who), Advance(who), Advance(who)])
      == Some(s.(cancel := Some(|s.loops|), done := Some(|s.closes|), loops := s.loops + [Fresh],
                 closes := s.closes + [0]))
  {
    var trace := [EnterStart(who), Advance(who), Advance(who), Advance(who), Advance(who)];
    var s2 := s.(callers := s.callers[who := CancelSet], locked := true, cancel := Some(|s.loops|));
    assert s.callers[who := StartLocked][who := CancelSet] == s2.callers;
    RunTwo(s, EnterStart(who), Advance(who));
    var s5 := s.(cancel := Some(|s.loops|), done := Some(|s.closes|), loops := s.loops + [Fresh],
                 closes := s.closes + [0]);
    assert s2.callers[who := DoneSet][who := Spawned][who := Outside] == s.callers;
    RunThree(s2, Advance(who), Advance(who), Advance(who));
    assert trace == [EnterStart(who), Advance(who)] + [Advance(who), Advance(who), Advance(who)];
    RunConcat(s, [EnterStart(who), Advance(who)], [Advance(who), Advance(who), Advance(who)]);
  }

  /** One caller starts the keeper ... */
  lemma ReachStarted() returns (trace: seq<Label>)
    ensures Run(Init(2), trace) == Some(Started)
  {
    trace := [EnterStart(0), Advance(0), Advance(0), Advance(0), Advance(0)];
    StartsInFive(Init(2), 0);
    assert Init(2).callers == [Outside, Outside];
    assert Init(2).loops + [Fresh] == [Fresh] && Init(2).closes + [0] == [0];
  }

  /** ... stops it, and waits before loop 0 has run at all; ... */
  lemma ReachStopping() returns (trace: seq<Label>)
    ensures Run(Started, trace) == Some(Stopping)
  {
    trace := [EnterStop(0), Advance(0), Advance(0)];
    RunThree(Started, EnterStop(0), Advance(0), Advance(0));
    var t1 := Step(Started, EnterStop(0)).value;
    var t2 := Step(t1, Advance(0)).value;
    assert t2.callers == [Taken(0, Some(0)), Outside];
    assert t2.callers[0 := Waiting(Some(0))] == Stopping.callers && t2.cancelled + {0} == {0};
  }

  /** ... another one starts it meanwhile, ... */
  lemma ReachRestarted() returns (trace: seq<Label>)
    ensures Run(Stopping, trace) == Some(Restarted)
  {
    trace := [EnterStart(1), Advance(1), Advance(1), Advance(1), Advance(1)];
    StartsInFive(Stopping, 1);
    assert Stopping.loops + [Fresh] == [Fresh, Fresh] && Stopping.closes + [0] == [0, 0];
  }

  /** ... and only now does loop 0 run: it closes the channel of loop 1. */
  lemma ReachBroken() returns (trace: seq<Label>)
    ensures Run(Restarted, trace) == Some(Broken)
  {
    trace := [Begin(0), Exit(0)];
    var t := Restarted.(loops := [Running(Some(1)), Fresh]);
    assert Restarted.loops[0 := Running(Some(1))] == t.loops;
    assert t.loops[0 := Gone] == Broken.loops && t.closes[1 := 1] == Broken.closes;
    RunTwo(Restarted, Begin(0), Exit(0));
  }

  lemma Chain(s: State, a: seq<Label>, t: State, b: seq<Label>, u: State, c: seq<Label>, v: State,
              d: seq<Label>, w: State)
    requires Run(s, a) == Some(t) && Run(t, b) == Some(u) && Run(u, c) == Some(v) && Run(v, d) == Some(w)
    ensures Run(s, a + (b + (c + d))) == Some(w)
  {
    RunConcat(u, c, d);
    RunConcat(t, b, c + d);
    RunConcat(s, a, b + (c + d));
  }

  /** With two calling goroutines the protocol is broken: loop 0, first run after the second Start,
      captures and closes the second channel. The first Stop then waits for a channel that no loop
      holds, and the second loop, once it runs and is cancelled, closes its channel a second time. */
  lemma TwoCallersAreNotSafe()
    ensures exists trace ::
              var r := Run(Init(2), trace);
              && r.Some? && |r.value.callers| == 2 && r.value.callers[0] == Waiting(Some(0))
              && !Closed(r.value, Some(0)) && !Live(r.value, 0)
              && (var q := Run(r.value, [Begin(1), CancelParent, Exit(1)]);
                  q.Some? && q.value.closes == [0, 2])
  {
    var a := ReachStarted();
    var b := ReachStopping();
    var c := ReachRestarted();
    var d := ReachBroken();
    Chain(Init(2), a, Started, b, Stopping, c, Restarted, d, Broken);
    SecondClose();
    hide Run, Step;
    assert !Live(Broken, 0);
  }

  lemma SecondClose()
    ensures var q := Run(Broken, [Begin(1), CancelParent, Exit(1)]);
      q.Some? && q.value.closes == [0, 2]
  {
    RunThree(Broken, Begin(1), CancelParent, Exit(1));
    var t1 := Step(Broken, Begin(1)).value;
    assert t1.loops == [Gone, Running(Some(1))];
    var t2 := Step(t1, CancelParent).value;
    assert t2.closes[1 := 2] == [0, 2];
  }

  // ------------------------------------------------------------ any number of callers

  /** s with k further goroutines that never call. */
  function Pad(s: State, k: nat): State { s.(callers := s.callers + seq(k, _ => Outside)) }

  lemma PadAt(s: State, k: nat, who: nat, c: Caller)
    requires who < |s.callers|
    ensures Pad(s, k).callers[who] == s.callers[who] && At(Pad(s, k), who, c) == Pad(At(s, who, c), k)
  {
    assert (s.callers + seq(k, _ => Outside))[who := c] == s.callers[who := c] + seq(k, _ => Outside);
  }

  lemma PadAdvance(s: State, k: nat, who: nat)
    requires who < |s.callers| && AdvanceCaller(s, who).Some?
    ensures AdvanceCaller(Pad(s, k), who) == Some(Pad(AdvanceCaller(s, who).value, k))
  {
    var t := AdvanceCaller(s, who).value;
    PadAt(s, k, who, t.callers[who]);
    assert t.callers == s.callers[who := t.callers[who]];
    assert Pad(t, k).callers == Pad(s, k).callers[who := t.callers[who]];
    hide Pad;
  }

  /** Goroutines that do not call make no difference. */
  lemma PadStep(s: State, k: nat, l: Label)
    requires Step(s, l).Some?
    ensures Step(Pad(s, k), l) == Some(Pad(Step(s, l).value, k)) && |Step(s, l).value.callers| == |s.callers|
  {
    hide AdvanceCaller;
    match l
    case EnterStart(who) => PadAt(s, k, who, StartLocked);
    case EnterStop(who) => PadAt(s, k, who, StopLocked);
    case Advance(who) => PadAdvance(s, k, who); SameCallers(s, who);
    case _ =>
  }

  lemma SameCallers(s: State, who: nat)
    requires who < |s.callers| && AdvanceCaller(s, who).Some?
    ensures |AdvanceCaller(s, who).value.callers| == |s.callers|
  {
  }

  lemma {:induction false} PadRun(s: State, k: nat, trace: seq<Label>)
    requires Run(s, trace).Some?
    ensures Run(Pad(s, k), trace) == Some(Pad(Run(s, trace).value, k))
    decreases |trace|
  {
    hide Step, Pad;
    if trace != [] {
      PadStep(s, k, trace[0]);
      PadRun(Step(s, trace[0]).value, k, trace[1..]);
    }
  }

  /** The trace of two callers, to the second close. */
  lemma ReachTwice() returns (trace: seq<Label>)
    ensures Run(Init(2), trace).Some? && Run(Init(2), trace).value.closes == [0, 2]
  {
    var a := ReachStarted();
    var b := ReachStopping();
    var c := ReachRestarted();
    var d := ReachBroken();
    Chain(Init(2), a, Started, b, Stopping, c, Restarted, d, Broken);
    SecondClose();
    RunConcat(Init(2), a + (b + (c + d)), [Begin(1), CancelParent, Exit(1)]);
    trace := a + (b + (c + d)) + [Begin(1), CancelParent, Exit(1)];
  }

  /** Nothing but a cancelled parent, when nobody calls. */
  lemma {:induction false} NobodyCalls(s: State, trace: seq<Label>)
    requires s.callers == [] && s.loops == [] && s.closes == [] && Run(s, trace).Some?
    ensures var r := Run(s, trace).value; r.callers == [] && r.loops == [] && r.closes == []
    decreases |trace|
  {
    if trace != [] {
      NobodyCalls(Step(s, trace[0]).value, trace[1..]);
    }
  }

  /** The wake keeper is safe under every interleaving of n calling goroutines with its loops if and only if
      there is at most one. */
  lemma SafeIffOneCaller(n: nat)
    ensures (forall trace :: Run(Init(n), trace).Some? ==> Safe(Run(Init(n), trace).value)) <==> n <= 1
  {
    hide Run, Step, Safe;
    if n >= 2 {
      var trace := ReachTwice();
      assert Init(n) == Pad(Init(2), n - 2) by { InitPads(n); }
      PadRun(Init(2), n - 2, trace);
      ClosedTwice(Run(Init(n), trace).value);
    } else {
      forall trace | Run(Init(n), trace).Some? ensures Safe(Run(Init(n), trace).value) {
        if n == 1 {
          OneCallerIsSafe(trace);
        } else {
          NobodyCalls(Init(0), trace);
          EmptyIsSafe(Run(Init(0), trace).value);
        }
      }
    }
  }

  lemma InitPads(n: nat)
    requires n >= 2
    ensures Init(n) == Pad(Init(2), n - 2)
  {
    assert Init(n).callers == Init(2).callers + seq(n - 2, _ => Outside);
  }

  lemma ClosedTwice(s: State)
    requires s.closes == [0, 2]
    ensures !Safe(s)
  {
    assert s.closes[1] == 2;
  }

  lemma EmptyIsSafe(s: State)
    requires s.loops == [] && s.closes == []
    ensures Safe(s)
  {
  }
}
