/** The order in which the control loop of cmd/teslausb/main.go may do things, as an automaton over its
    log - stated without the loop - and what acceptance by it means, event by event. */
module Discipline {
  import opened Common
  import opened MachineSpec

  /** Where a turn stands: at rest, or inside runArchive (snapshot mounted, car kept awake, connected,
      disconnected again, wake stopped), or connected for a media sync. */
  datatype Phase = Resting | Mounted | Awake | Carrying | Spent | Asleep | Fetching

  /** owed: a deactivation that no activation attempt has followed yet.
      sure: the last thing done to the gadget was a successful activation.
      booted: this life of the process has got through its boot. */
  datatype Watch = Watch(phase: Phase, owed: bool, sure: bool, booted: bool)

  datatype Verdict = Broken | Fine(w: Watch)

  const Start := Watch(Resting, false, false, false)

  function If(c: bool, w: Watch): Verdict { if c then Fine(w) else Broken }

  function Next(w: Watch, e: Event): Verdict {
    match e
    case Restarted => Fine(Watch(Resting, w.owed, false, false))
    case Booted(ok) => If(w.phase == Resting, Watch(Resting, w.owed && !ok, ok, ok))
    case Waiting(bound) => If(w.phase == Resting && w.booted && !w.owed && (w.sure ==> bound), w)
    case Deactivated =>   // a shutdown may do it twice
      If(w.phase == Resting || w.phase == Fetching, w.(owed := true, sure := false))
    case ActivateTried(ok) => If(w.phase == Resting || w.phase == Fetching, w.(owed := false, sure := ok))
    case FsckBegins(bound) => If(w.phase == Resting && w.booted && w.owed && !bound, w)
    case SnapMounted => If(w.phase == Resting && w.booted && !w.owed, w.(phase := Mounted))
    case WakeStarted => If(w.phase == Mounted, w.(phase := Awake))
    case Connected =>
      if w.phase == Awake then Fine(w.(phase := Carrying))
      else If(w.phase == Resting && w.booted && !w.owed, w.(phase := Fetching))
    case SessionBegins(bound, _) => If(w.phase == Carrying && w.booted && !w.owed && (w.sure ==> bound), w)
    case SyncBegins(bound) => If(w.phase == Fetching && w.booted && w.owed && !bound, w)
    case Disconnected =>
      if w.phase == Carrying then Fine(w.(phase := Spent)) else If(w.phase == Fetching && !w.owed, w.(phase := Resting))
    case WakeStopped => If(w.phase == Awake || w.phase == Spent, w.(phase := Asleep))
    case SnapUnmounted => If(w.phase == Asleep, w.(phase := Resting))
  }

  function Observe(log: seq<Event>): Verdict {
    if log == [] then Fine(Start)
    else
      var v := Observe(log[..|log| - 1]);
      if v.Broken? then Broken else Next(v.w, log[|log| - 1])
  }

  lemma ObserveMore(log: seq<Event>, e: Event)
    ensures Observe(log + [e]) == var v := Observe(log); if v.Broken? then Broken else Next(v.w, e)
  {
    assert (log + [e])[..|log|] == log;
  }

  // ------------------------------------------------------------ what acceptance means

  predicate Accepted(log: seq<Event>) { Observe(log).Fine? }

  lemma {:induction false} PrefixAccepted(log: seq<Event>, i: nat)
    requires Accepted(log) && i <= |log|
    ensures Accepted(log[..i])
    decreases |log|
  {
    if i < |log| {
      PrefixAccepted(log[..|log| - 1], i);
      assert log[..|log| - 1][..i] == log[..i];
    } else {
      assert log[..i] == log;
    }
  }

  /** The state of the watch before event i, and that it allowed it. */
  lemma Allowed(log: seq<Event>, i: nat) returns (w: Watch)
    requires Accepted(log) && i < |log|
    ensures Observe(log[..i]) == Fine(w) && Next(w, log[i]).Fine? && Observe(log[..i + 1]) == Next(w, log[i])
  {
    PrefixAccepted(log, i + 1);
    PrefixAccepted(log, i);
    assert log[..i + 1][..i] == log[..i];
    w := Observe(log[..i]).w;
  }

  /** Fsck and the media syncs have the partitions to themselves. */
  lemma ExclusiveAccess(log: seq<Event>, i: nat)
    requires Accepted(log) && i < |log|
    ensures log[i].FsckBegins? || log[i].SyncBegins? ==> !log[i].bound
  {
    var w := Allowed(log, i);
  }

  /** The moments at which the car should have its drive. */
  predicate Uses(e: Event) { e.Waiting? || e.SessionBegins? }

  /** A session began between these two logs. */
  predicate SessionIn(before: seq<Event>, after: seq<Event>) {
    before <= after && exists e :: e in after[|before|..] && e.SessionBegins?
  }

  predicate Reactivation(e: Event) { e.ActivateTried? || e == Booted(true) }

  predicate Between(log: seq<Event>, i: int, j: int, e: Event -> bool) {
    exists k :: 0 <= i < k < j <= |log| && e(log[k])
  }

  lemma BetweenMore(log: seq<Event>, i: nat, j: nat, e: Event -> bool)
    requires i < j - 1 < |log|
    ensures Between(log, i, j, e) <==> Between(log, i, j - 1, e) || e(log[j - 1])
  {
    if e(log[j - 1]) {
      assert Between(log, i, j, e);
    }
    if Between(log, i, j - 1, e) {
      var k :| 0 <= i < k < j - 1 && e(log[k]);
      assert Between(log, i, j, e);
    }
  }

  /** A deactivation stays owed until an activation is tried. */
  lemma {:induction false} OwedSince(log: seq<Event>, i: nat, j: nat)
    requires Accepted(log) && i < j <= |log| && log[i] == Deactivated
    requires !Between(log, i, j, Reactivation)
    ensures Observe(log[..j]).Fine? && Observe(log[..j]).w.owed
    decreases j
  {
    var w := Allowed(log, j - 1);
    assert log[..j - 1 + 1] == log[..j];
    if i < j - 1 {
      BetweenMore(log, i, j, Reactivation);
      OwedSince(log, i, j - 1);
    }
  }

  /** Every successful deactivation is followed by an activation attempt before anything is archived and
      before the machine next waits for WiFi - also across restarts. */
  lemma DeactivationIsMadeUpFor(log: seq<Event>, i: nat, j: nat)
    requires Accepted(log) && i < j < |log| && log[i] == Deactivated && Uses(log[j])
    ensures Between(log, i, j, Reactivation)
  {
    if !Between(log, i, j, Reactivation) {
      OwedSince(log, i, j);
      var w := Allowed(log, j);
    }
  }

  predicate Activation(e: Event) { e == ActivateTried(true) || e == Booted(true) }

  predicate EndsLife(e: Event) { e.Restarted? || e == Booted(false) }

  /** Some activation failed before moment j, and none has succeeded since. */
  ghost predicate Unrepaired(log: seq<Event>, j: nat) {
    exists i :: 0 <= i < j <= |log| && log[i] == ActivateTried(false) && !Between(log, i, j, Activation)
  }

  /** This life of the process got through its boot before moment j. */
  ghost predicate BootedBefore(log: seq<Event>, j: nat) {
    exists i :: 0 <= i < j <= |log| && log[i] == Booted(true) && !Between(log, i, j, EndsLife)
  }

  lemma {:induction false} BootIsBehind(log: seq<Event>, j: nat)
    requires Accepted(log) && j <= |log| && Observe(log[..j]).Fine?
    ensures Observe(log[..j]).w.booted ==> BootedBefore(log, j)
    decreases j
  {
    if j > 0 && Observe(log[..j]).w.booted {
      var w := Allowed(log, j - 1);
      assert log[..j - 1 + 1] == log[..j];
      if log[j - 1] == Booted(true) {
        assert !Between(log, j - 1, j, EndsLife);
      } else {
        BootIsBehind(log, j - 1);
        var i :| 0 <= i < j - 1 && log[i] == Booted(true) && !Between(log, i, j - 1, EndsLife);
        BetweenMore(log, i, j, EndsLife);
      }
    }
  }

  /** Booted, nothing owed, and yet not sure. */
  predicate Doubtful(w: Watch) { w.booted && !w.owed && !w.sure }

  lemma DoubtComesFromFailure(w: Watch, e: Event)
    requires Next(w, e).Fine? && Doubtful(Next(w, e).w)
    ensures e == ActivateTried(false) || (Doubtful(w) && !Activation(e))
  {
  }

  lemma {:induction false} FailureIsBehind(log: seq<Event>, j: nat)
    requires Accepted(log) && j <= |log| && Observe(log[..j]).Fine?
    ensures Doubtful(Observe(log[..j]).w) ==> Unrepaired(log, j)
    decreases j
  {
    hide Next;
    if j > 0 && Doubtful(Observe(log[..j]).w) {
      var w := Allowed(log, j - 1);
      assert log[..j - 1 + 1] == log[..j];
      DoubtComesFromFailure(w, log[j - 1]);
      if log[j - 1] == ActivateTried(false) {
        assert !Between(log, j - 1, j, Activation);
      } else {
        FailureIsBehind(log, j - 1);
        var i :| 0 <= i < j - 1 && log[i] == ActivateTried(false) && !Between(log, i, j - 1, Activation);
        BetweenMore(log, i, j, Activation);
      }
    }
  }

  /** At the start of every cycle and at the start of every session, this life of the process has booted, and
      the car has its drive - unless an activation failed and none has succeeded since. */
  lemma BoundUnlessActivationFailed(log: seq<Event>, j: nat)
    requires Accepted(log) && j < |log| && Uses(log[j])
    ensures BootedBefore(log, j)
    ensures log[j].bound || Unrepaired(log, j)
  {
    var w := Allowed(log, j);
    BootIsBehind(log, j);
    FailureIsBehind(log, j);
  }

  lemma NoFailureSinceBoot(log: seq<Event>, i: nat, j: nat)
    requires i < j <= |log| && log[i] == Booted(true)
    requires forall k :: i < k < j ==> log[k] != ActivateTried(false)
    ensures !Unrepaired(log, j)
  {
    forall k | 0 <= k < j && log[k] == ActivateTried(false) ensures Between(log, k, j, Activation) {
      assert k < i && Activation(log[i]);
    }
  }

  // ------------------------------------------------------------ brackets

  function Count(log: seq<Event>, e: Event -> bool): nat {
    if log == [] then 0 else Count(log[..|log| - 1], e) + if e(log[|log| - 1]) then 1 else 0
  }

  /** The three things opened and closed around a transfer. */
  datatype Bracket = Connection | SnapMount | Wake

  predicate Opens(b: Bracket, e: Event) {
    match b
    case Connection => e.Connected?
    case SnapMount => e.SnapMounted?
    case Wake => e.WakeStarted?
  }

  predicate Closes(b: Bracket, e: Event) {
    match b
    case Connection => e.Disconnected?
    case SnapMount => e.SnapUnmounted?
    case Wake => e.WakeStopped?
  }

  predicate Inside(b: Bracket, ph: Phase) {
    match b
    case Connection => ph == Carrying || ph == Fetching
    case SnapMount => ph != Resting && ph != Fetching
    case Wake => ph == Awake || ph == Carrying || ph == Spent
  }

  predicate Restartless(log: seq<Event>) { forall e :: e in log ==> !e.Restarted? }

  lemma OneEvent(b: Bracket, w: Watch, e: Event)
    requires Next(w, e).Fine? && !e.Restarted?
    ensures One(Inside(b, Next(w, e).w.phase)) + One(Closes(b, e)) == One(Inside(b, w.phase)) + One(Opens(b, e))
  {
  }

  /** As long as the process lives, every bracket is balanced up to the one that is open. */
  lemma {:induction false} OpenBrackets(b: Bracket, log: seq<Event>, tail: seq<Event>)
    requires Accepted(log + tail) && Accepted(log) && Observe(log).w.phase == Resting && Restartless(tail)
    ensures Count(tail, e => Opens(b, e))
      == Count(tail, e => Closes(b, e)) + One(Inside(b, Observe(log + tail).w.phase))
    decreases |tail|
  {
    hide Next, Opens, Closes;
    if tail == [] {
      assert log + tail == log;
    } else {
      var front, e := tail[..|tail| - 1], tail[|tail| - 1];
      assert log + tail == (log + front) + [e];
      ObserveMore(log + front, e);
      assert e in tail;
      forall x | x in front ensures !x.Restarted? { assert x in tail; }
      OpenBrackets(b, log, front);
      OneEvent(b, Observe(log + front).w, e);
    }
  }

  /** From one wait to the next, within one life of the process: every successful connect has had its one
      disconnect, every snapshot mount its one unmount, every wake start its one stop. */
  lemma BracketsClose(log: seq<Event>, i: nat, j: nat, b: Bracket)
    requires Accepted(log) && i < j < |log| && log[i].Waiting? && log[j].Waiting? && Restartless(log[i..j])
    ensures Count(log[i..j], e => Opens(b, e)) == Count(log[i..j], e => Closes(b, e))
  {
    var w := Allowed(log, i);
    var w' := Allowed(log, j);
    PrefixAccepted(log, j);
    assert log[..i] + log[i..j] == log[..j];
    OpenBrackets(b, log[..i], log[i..j]);
  }

  /** Innermost first: the snapshot is unmounted right after the wake was stopped, the wake is stopped
      only with no connection open, and a media sync hands the drive back before it disconnects. */
  lemma InnermostFirst(log: seq<Event>, i: nat)
    requires Accepted(log) && i < |log|
    ensures log[i].SnapUnmounted? ==> i > 0 && log[i - 1].WakeStopped?
    ensures log[i].WakeStopped? ==> i > 0 && (log[i - 1].WakeStarted? || log[i - 1].Disconnected?)
    ensures i > 0 && log[i].Disconnected? ==> !log[i - 1].SyncBegins? && !log[i - 1].Deactivated?
  {
    var w := Allowed(log, i);
    if i > 0 {
      var v := Allowed(log, i - 1);
      assert log[..i - 1 + 1] == log[..i];
      hide Observe;
    }
  }
}
