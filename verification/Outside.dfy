/** Everything the daemon cannot control - external commands, sysfs writes, SQL statements, the
    moment at which the process dies - is one stream of answers. The n-th request the program
    makes gets the n-th answer, so a statement about every `Env` covers every mix of failures
    and every point at which a crash can strike. */
module Outside {

  /** Done: the request was carried out (`value` is what it returned, where it returns anything).
      Refused: it reported an error and changed nothing.
      Killed: the process died before the request took effect. */
  datatype Answer = Done(value: nat) | Refused | Killed

  type Env = nat -> Answer

  /** How far the stream has been read, and whether the process has died meanwhile. A dead
      process makes no further requests: from then on nothing it "does" has any effect. */
  datatype Proc = Proc(clock: nat, dead: bool)

  datatype Reply = Reply(p: Proc, ok: bool, value: nat)

  function Ask(p: Proc, env: Env): Reply {
    if p.dead then Reply(p, false, 0)
    else match env(p.clock)
      case Done(v) => Reply(Proc(p.clock + 1, false), true, v)
      case Refused => Reply(Proc(p.clock + 1, false), false, 0)
      case Killed => Reply(Proc(p.clock + 1, true), false, 0)
  }

  /** Whether the process died on the way from p to q. */
  function Died(p: Proc, q: Proc): nat { if q.dead && !p.dead then 1 else 0 }

  /** The running process as an object: every imperative operation draws its answers here. */
  class Host {
    const env: Env
    var p: Proc

    constructor (env: Env)
      ensures this.env == env && p == Proc(0, false)
    {
      this.env := env;
      p := Proc(0, false);
    }

    method Request() returns (ok: bool, value: nat)
      modifies this
      ensures Reply(p, ok, value) == Ask(old(p), env)
    {
      var r := Ask(p, env);
      p, ok, value := r.p, r.ok, r.value;
    }

    /** A request whose answer carries nothing but success. */
    method Do() returns (ok: bool)
      modifies this
      ensures var r := Ask(old(p), env); p == r.p && ok == r.ok
    {
      var r := Ask(p, env);
      p, ok := r.p, r.ok;
    }
  }
}
