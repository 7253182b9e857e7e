/** internal/fswatch/fswatch.go: the idle detector. It keeps three scalars - phase, last counter,
    start of the quiet run - and must agree with a statement about the whole stream of samples. */
module IdleDetector {
  import opened Common

  /** What one turn of the select sees. Time stamps come from Go's monotonic clock. */
  datatype Tick = Sample(now: int, bytes: int) | ReadError | Cancelled

  datatype Phase = Undetermined | Writing | Idle

  /** How WaitForIdle ends, and at which tick; Waiting: it has not returned yet. */
  datatype Outcome = NoProcess | NoFirstReading | WentIdle(at: nat) | ReadFailed(at: nat) | Stopped(at: nat) | Waiting

  datatype Watcher = Watcher(writeThreshold: int, timeout: int)

  // ------------------------------------------------------------ the declarative meaning

  predicate Sampled(ticks: seq<Tick>, n: nat) {
    n <= |ticks| && forall k :: 0 <= k < n ==> ticks[k].Sample?
  }

  predicate Monotone(ticks: seq<Tick>) {
    forall j, k :: 0 <= j <= k < |ticks| && ticks[j].Sample? && ticks[k].Sample? ==> ticks[j].now <= ticks[k].now
  }

  /** The counter just before tick i. */
  function Before(first: int, ticks: seq<Tick>, i: nat): int
    requires Sampled(ticks, i)
  {
    if i == 0 then first else ticks[i - 1].bytes
  }

  predicate Quiet(w: Watcher, first: int, ticks: seq<Tick>, i: nat)
    requires Sampled(ticks, i + 1)
  {
    ticks[i].bytes - Before(first, ticks, i) < w.writeThreshold
  }

  predicate QuietRun(w: Watcher, first: int, ticks: seq<Tick>, j: nat, i: nat)
    requires j <= i && Sampled(ticks, i + 1)
  {
    forall k :: j <= k <= i ==> Quiet(w, first, ticks, k)
  }

  /** Idle at tick i: since some earlier tick nothing but quiet ticks, for at least the timeout. */
  predicate IdleAt(w: Watcher, first: int, ticks: seq<Tick>, i: nat)
    requires Sampled(ticks, i + 1)
  {
    exists j :: 0 <= j < i && QuietRun(w, first, ticks, j, i) && ticks[i].now - ticks[j].now >= w.timeout
  }

  /** The first n ticks were all readable, and idle at none of them. */
  predicate Undecided(w: Watcher, first: int, ticks: seq<Tick>, n: nat) {
    Sampled(ticks, n) && forall k :: 0 <= k < n ==> !IdleAt(w, first, ticks, k)
  }

  // ------------------------------------------------------------ the detector

  /** It returns nil at exactly the first tick that is idle in the above sense, unless the context
      ends or a reading fails before. */
  method WaitForIdle(w: Watcher, pidFound: bool, first: Option<int>, ticks: seq<Tick>) returns (r: Outcome)
    requires Monotone(ticks)
    ensures !pidFound <==> r.NoProcess?
    ensures pidFound && first.None? <==> r.NoFirstReading?
    ensures pidFound && first.Some? ==> r.WentIdle? || r.ReadFailed? || r.Stopped? || r.Waiting?
    ensures r.WentIdle? ==> r.at < |ticks| && ticks[r.at].Sample? && Undecided(w, first.value, ticks, r.at)
                            && IdleAt(w, first.value, ticks, r.at)
    ensures r.ReadFailed? ==> r.at < |ticks| && ticks[r.at].ReadError? && Undecided(w, first.value, ticks, r.at)
    ensures r.Stopped? ==> r.at < |ticks| && ticks[r.at].Cancelled? && Undecided(w, first.value, ticks, r.at)
    ensures r.Waiting? ==> Undecided(w, first.value, ticks, |ticks|)
  {
    if !pidFound {
      return NoProcess;
    }
    var state := Undetermined;
    var idleSince := 0;
    if first.None? {
      return NoFirstReading;
    }
    var lastBytes := first.value;
    ghost var start := 0;   // first tick of the current quiet run
    for i := 0 to |ticks|
      invariant Undecided(w, first.value, ticks, i)
      invariant lastBytes == Before(first.value, ticks, i)
      invariant state == Undetermined <==> i == 0
      invariant state == Writing ==> !Quiet(w, first.value, ticks, i - 1)
      invariant state == Idle ==> start < i && idleSince == ticks[start].now
                                  && QuietRun(w, first.value, ticks, start, i - 1)
                                  && (start > 0 ==> !Quiet(w, first.value, ticks, start - 1))
    {
      match ticks[i]
      case Cancelled => return Stopped(i);
      case ReadError => return ReadFailed(i);
      case Sample(now, current) =>
        var delta := current - lastBytes;
        lastBytes := current;
        assert Quiet(w, first.value, ticks, i) <==> delta < w.writeThreshold;
        match state
        case Undetermined =>
          if delta >= w.writeThreshold {
            state := Writing;
          } else {
            state, idleSince, start := Idle, now, i;
          }
        case Writing =>
          if delta < w.writeThreshold {
            state, idleSince, start := Idle, now, i;
          }
        case Idle =>
          if delta >= w.writeThreshold {
            state := Writing;
          } else if now - idleSince >= w.timeout {
            assert QuietRun(w, first.value, ticks, start, i);
            return WentIdle(i);
          } else {
            NotYetIdle(w, first.value, ticks, start, i);
          }
    }
    return Waiting;
  }

  /** The run's first tick is the best witness: if it has not lasted long enough, nothing has. */
  lemma NotYetIdle(w: Watcher, first: int, ticks: seq<Tick>, start: nat, i: nat)
    requires start < i && Sampled(ticks, i + 1) && Monotone(ticks)
    requires start > 0 ==> !Quiet(w, first, ticks, start - 1)
    requires ticks[i].now - ticks[start].now < w.timeout
    ensures !IdleAt(w, first, ticks, i)
  {
    forall j | 0 <= j < i && QuietRun(w, first, ticks, j, i)
      ensures ticks[i].now - ticks[j].now < w.timeout
    {
      assert j >= start;
    }
  }

  /** The bytes written over a quiet run telescope: at most threshold - 1 per tick. */
  lemma {:induction false} QuietBytes(w: Watcher, first: int, ticks: seq<Tick>, j: nat, i: nat)
    requires j <= i && Sampled(ticks, i + 1) && QuietRun(w, first, ticks, j, i)
    ensures ticks[i].bytes - Before(first, ticks, j) <= (i - j + 1) * (w.writeThreshold - 1)
    decreases i - j
  {
    assert Quiet(w, first, ticks, i);
    if j < i {
      QuietBytes(w, first, ticks, j, i - 1);
    }
  }

  /** So when WaitForIdle returns nil, some run of at least two ticks and at least the timeout ended
      there during which the car wrote no more than that. */
  lemma IdleMeansFewBytes(w: Watcher, first: int, ticks: seq<Tick>, i: nat)
    requires Sampled(ticks, i + 1) && IdleAt(w, first, ticks, i)
    ensures exists j ::
              && 0 <= j < i && QuietRun(w, first, ticks, j, i) && ticks[i].now - ticks[j].now >= w.timeout
              && ticks[i].bytes - Before(first, ticks, j) <= (i - j + 1) * (w.writeThreshold - 1)
  {
    var j :| 0 <= j < i && QuietRun(w, first, ticks, j, i) && ticks[i].now - ticks[j].now >= w.timeout;
    QuietBytes(w, first, ticks, j, i);
  }
}
