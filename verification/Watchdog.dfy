/** internal/wifi/wifi.go: the watchdog loop and its counter. */
module Watchdog {

  /** What one tick learns: connected at all, to the home network, home SSID visible, and whether the
      reconnect (tried only when needed) succeeds. */
  datatype Seen = Seen(connected: bool, home: bool, visible: bool, reconnects: bool)

  /** A tick that counts as a failure: in range, not home, and the reconnect fails. */
  predicate Fails(o: Seen) {
    !(o.connected && o.home) && o.visible && !o.reconnects
  }

  /** watchdogTick: the new counter, and whether reboot was called. */
  function Tick(o: Seen, consecutiveFailures: int, maxFailures: int): (int, bool) {
    if o.connected && o.home then (0, false)
    else if !o.visible then (0, false)
    else if o.reconnects then (0, false)
    else (consecutiveFailures + 1, consecutiveFailures + 1 >= maxFailures)
  }

  // ------------------------------------------------------------ the trace specification

  /** n is the length of the failing run the trace ends with. */
  predicate TrailingRun(obs: seq<Seen>, n: nat) {
    && n <= |obs|
    && (forall k :: |obs| - n <= k < |obs| ==> Fails(obs[k]))
    && (n < |obs| ==> !Fails(obs[|obs| - n - 1]))
  }

  /** How many failing ticks the trace starts with. */
  function Leading(obs: seq<Seen>): (n: nat)
    ensures n <= |obs| && (forall k :: 0 <= k < n ==> Fails(obs[k])) && (n < |obs| ==> !Fails(obs[n]))
  {
    if obs == [] || !Fails(obs[0]) then 0 else 1 + Leading(obs[1..])
  }

  /** The lengths of the maximal failing runs, in order. */
  function Runs(obs: seq<Seen>): seq<nat>
    decreases |obs|
  {
    if obs == [] then []
    else if !Fails(obs[0]) then Runs(obs[1..])
    else [Leading(obs)] + Runs(obs[Leading(obs)..])
  }

  function Max(a: int, b: int): int { if a < b then b else a }

  /** A run of length n reboots once per tick from the max(1, maxFailures)-th on. */
  function RunReboots(n: nat, maxFailures: int): nat {
    Max(0, n - Max(1, maxFailures) + 1)
  }

  function Reboots(runs: seq<nat>, maxFailures: int): nat {
    if runs == [] then 0 else RunReboots(runs[0], maxFailures) + Reboots(runs[1..], maxFailures)
  }

  /** One more tick: the total moves exactly when the run it extends has reached the limit. */
  lemma {:induction false} OneMoreTick(obs: seq<Seen>, o: Seen, n: nat, maxFailures: int)
    requires TrailingRun(obs, n)
    ensures Reboots(Runs(obs + [o]), maxFailures)
      == Reboots(Runs(obs), maxFailures) + if Fails(o) && n + 1 >= maxFailures then 1 else 0
    decreases |obs|
  {
    var more := obs + [o];
    if obs == [] {
      assert Runs(more[1..]) == [];
      assert Fails(o) ==> Leading(more) == 1;
      assert Runs(more) == if Fails(o) then [1] else [];
    } else if !Fails(obs[0]) {
      assert more[1..] == obs[1..] + [o];
      OneMoreTick(obs[1..], o, n, maxFailures);
    } else {
      var l := Leading(obs);
      LeadingOfMore(obs, o);
      if l == |obs| {
        assert n == |obs|;
        assert Runs(obs[l..]) == [];
        assert Runs(obs) == [l];
        assert more[|more|..] == [];
        assert !Fails(o) ==> more[l..] == [o] && Runs([o]) == Runs([o][1..]);
        assert Runs(more) == if Fails(o) then [l + 1] else [l];
      } else {
        assert more[l..] == obs[l..] + [o];
        OneMoreTick(obs[l..], o, n, maxFailures);
        assert Runs(more) == [l] + Runs(obs[l..] + [o]);
      }
    }
  }

  lemma {:induction false} LeadingOfMore(obs: seq<Seen>, o: Seen)
    ensures Leading(obs + [o]) == if Leading(obs) == |obs| && Fails(o) then |obs| + 1 else Leading(obs)
  {
    var more := obs + [o];
    if obs == [] {
      assert more[1..] == [];
    } else if Fails(obs[0]) {
      assert more[1..] == obs[1..] + [o];
      LeadingOfMore(obs[1..], o);
    }
  }

  // ------------------------------------------------------------ the loop

  /** runWatchdogLoop over the ticks that come before the context ends. */
  method RunWatchdogLoop(homeSSID: string, maxFailures: int, obs: seq<Seen>)
    returns (consecutiveFailures: int, reboots: nat)
    ensures homeSSID == "" ==> consecutiveFailures == 0 && reboots == 0
    ensures homeSSID != "" ==> consecutiveFailures >= 0 && TrailingRun(obs, consecutiveFailures)
    ensures homeSSID != "" ==> reboots == Reboots(Runs(obs), maxFailures)
  {
    consecutiveFailures, reboots := 0, 0;
    if homeSSID == "" {
      return;
    }
    for i := 0 to |obs|
      invariant consecutiveFailures >= 0 && TrailingRun(obs[..i], consecutiveFailures)
      invariant reboots == Reboots(Runs(obs[..i]), maxFailures)
    {
      OneMoreTick(obs[..i], obs[i], consecutiveFailures, maxFailures);
      assert obs[..i + 1] == obs[..i] + [obs[i]];
      var t := Tick(obs[i], consecutiveFailures, maxFailures);
      consecutiveFailures := t.0;
      if t.1 {
        reboots := reboots + 1;
      }
    }
    assert obs[..|obs|] == obs;
  }
}
