/** cmd/teslausb/main.go: the control loop, as a function from one state to the next. One step is one
    turn of the loop in Run; a process that dies in it - killed, or shut down - leaves its kernel objects,
    configfs, mounts and tables behind and is restarted at StateBooting. */
module MachineSpec {
  import opened Common
  import opened Outside
  import S = SnapshotSpec
  import G = GadgetSpec
  import L = LedgerSpec
  import H = ShareSpec
  import MS = MediaSync
  import Scan

  datatype State = StateBooting | StateGadgetUp | StateWaitingForWifi | StatePreArchive | StateSnapshot
                 | StateFsck | StateReconnect | StateArchiving | StateMediaSync | StateCleanup

  /** What does not change: the answers of the outside world, the configuration, the listing of
      /sys/class/udc, and what a clip directory of the mounted snapshot lists at a given time. */
  datatype Setup = Setup(env: Env, backend: L.Backend, freeSpaceReserve: nat, names: seq<string>,
                         savedClips: bool, sentryClips: bool, recentClips: bool, trackModeClips: bool,
                         syncMusic: bool, syncLightShow: bool, syncBoombox: bool,
                         listing: (nat, string) -> Option<seq<string>>)

  const Cam := "/dev/mmcblk0p5"
  const Music := "/dev/mmcblk0p6"
  const LightShow := "/dev/mmcblk0p7"

  const Partitions: seq<(string, string)> :=
    [(Cam, "TeslaUSB CAM"), (Music, "TeslaUSB MUSIC"), (LightShow, "TeslaUSB LIGHTSHOW")]

  function Targets(u: Setup): seq<MS.Target> {
    [MS.Target(u.syncMusic, Music, "Music", ""),
     MS.Target(u.syncLightShow, LightShow, "LightShow", ""),
     MS.Target(u.syncBoombox, LightShow, "Boombox", "Boombox")]
  }

  /** The clip directories as a scan at time `now` finds them. */
  function Dirs(u: Setup, now: nat): seq<Scan.Dir> {
    [Scan.Dir("TeslaCam/SavedClips", u.savedClips, u.listing(now, "TeslaCam/SavedClips")),
     Scan.Dir("TeslaCam/SentryClips", u.sentryClips, u.listing(now, "TeslaCam/SentryClips")),
     Scan.Dir("TeslaCam/RecentClips", u.recentClips, u.listing(now, "TeslaCam/RecentClips")),
     Scan.Dir("TeslaTrackMode", u.trackModeClips, u.listing(now, "TeslaTrackMode"))]
  }

  /** What the loop did, in order. `bound`: whether the car could reach the partitions at that moment. The
      events that begin something are logged before its first request, so that what a crash cuts short is
      in the log all the same. `now`: when a session began, which is when it scans. */
  datatype Event =
    | Restarted | Booted(ok: bool) | Waiting(bound: bool)
    | Deactivated | ActivateTried(ok: bool) | FsckBegins(bound: bool)
    | SnapMounted | SnapUnmounted | WakeStarted | WakeStopped
    | Connected | Disconnected | SessionBegins(bound: bool, now: nat) | SyncBegins(bound: bool)

  /** state, snap, gad: the StateMachine object, which dies with the process (as does share.creds).
      k, t, media, share, l: what outlives it.
      restarts: how often the process ended; holdEnds: how often it did while it made, held or released a
      snapshot; archiveCrashes, mediaCrashes: how often it died inside runArchive and inside runMediaSync - a
      shutdown between two turns is neither.
      calm: k.faults when the last boot began.  log: what happened. */
  datatype Machine = Machine(state: State, snap: Option<S.Snap>, gad: Option<G.Gadget>, p: Proc,
                             k: S.Kernel, t: G.Tree, media: MS.Media, share: H.Share, l: L.Ledger,
                             restarts: nat, holdEnds: nat, archiveCrashes: nat, mediaCrashes: nat, calm: nat,
                             log: seq<Event>)

  const Init := Machine(StateBooting, None, None, Proc(0, false), S.Kernel(None, false, {}, 0, 0), G.Absent(0),
                        MS.Media(map[], 0, [], [], []), H.Share(0, {}, None, 0, 0), L.Empty, 0, 0, 0, 0, 0, [])

  predicate Bound(m: Machine) { m.t.udc != "" }

  function Say(m: Machine, e: Event): Machine { if m.p.dead then m else m.(log := m.log + [e]) }

  /** A nil dereference. */
  function Panic(m: Machine): Machine { m.(p := m.p.(dead := true)) }

  // ------------------------------------------------------------ the gadget

  /** sm.gad.Deactivate(). */
  function Deactivate(u: Setup, m: Machine): (Machine, bool) {
    if m.gad.None? then (Panic(m), false) else
      var r := G.Deactivate(m.p, m.t, m.gad.value, u.env);
      var m1 := m.(p := r.p, t := r.t, gad := Some(r.g));
      (if r.ok then Say(m1, Deactivated) else m1, r.ok)
  }

  /** sm.gad.Activate(). */
  function Activate(u: Setup, m: Machine): Machine {
    if m.gad.None? then Panic(m) else
      var r := G.Activate(m.p, m.t, m.gad.value, u.names, u.env);
      Say(m.(p := r.p, t := r.t, gad := Some(r.g)), ActivateTried(r.ok))
  }

  // ------------------------------------------------------------ one function per method

  function Boot(u: Setup, m: Machine): (Machine, bool) {
    var un := S.Unmount(m.p, m.k, u.env);
    var c := S.Cleanup(un.0, un.1, u.env);
    var g := G.Present(c.0, m.t, Partitions, u.names, u.env);
    (Say(m.(p := g.p, k := c.1, t := g.t, gad := Some(g.g), calm := m.k.faults), Booted(g.ok)), g.ok)
  }

  function CreateSnapshot(u: Setup, m: Machine): (Machine, bool) {
    var d := Deactivate(u, m);
    if !d.1 then d else
      var c := S.Create(d.0.p, d.0.k, u.env);
      var m1 := d.0.(p := c.p, k := c.k);
      if c.ok then (m1.(snap := Some(c.s)), true) else (Activate(u, m1), false)
  }

  function RunFsck(u: Setup, m: Machine): Machine {
    var m1 := Say(m, FsckBegins(Bound(m)));
    m1.(p := Ask(m1.p, u.env).p)
  }

  function ReactivateGadget(u: Setup, m: Machine): Machine {
    if m.gad.None? then m else Activate(u, m)
  }

  /** From the free-space check to the terminal update of the session. */
  function Transfer(u: Setup, m: Machine): Machine {
    var d := if u.freeSpaceReserve > 0 then Ask(m.p, u.env) else Reply(m.p, false, 0);
    if d.ok && d.value < u.freeSpaceReserve then m.(p := d.p)
    else if d.p.dead then m.(p := d.p)
    else
      var m1 := Say(m.(p := d.p), SessionBegins(Bound(m), d.p.clock));
      var r := L.RunSession(u.backend, d.p, m.l, Scan.ScanAll(Dirs(u, d.p.clock)), u.env);
      m1.(p := r.p, l := r.l)
  }

  /** The media partitions, between Deactivate and Activate. */
  function Sync(u: Setup, m: Machine): Machine {
    var d := Deactivate(u, m);
    if !d.1 then d.0 else
      var m1 := Say(d.0, SyncBegins(Bound(d.0)));
      var s := MS.SyncAll(m1.p, m1.media, MS.OrderOf(Targets(u)), Targets(u), u.env);
      Activate(u, m1.(p := s.0, media := s.1))
  }

  function Reachable(u: Setup, p: Proc): Reply {
    if u.backend.Noop? then Reply(p, !p.dead, 0) else Ask(p, u.env)
  }

  /** Connect, do one or the other, Disconnect. */
  function WithConnection(u: Setup, m: Machine, media: bool): Machine {
    var r := Reachable(u, m.p);
    if !r.ok then m.(p := r.p) else
      var c := H.Connect(u.backend, r.p, m.share, u.env);
      if !c.ok then m.(p := c.p, share := c.s) else
        var m1 := Say(m.(p := c.p, share := c.s), Connected);
        Hangup(u, if media then Sync(u, m1) else Transfer(u, m1))
  }

  function Hangup(u: Setup, m: Machine): Machine {
    var d := H.Disconnect(u.backend, m.p, m.share, u.env);
    Say(m.(p := d.p, share := d.s), Disconnected)
  }

  function WakeStart(u: Setup, m: Machine): Machine {
    Say(m.(p := Ask(m.p, u.env).p), WakeStarted)
  }

  function WakeStop(u: Setup, m: Machine): Machine {
    Say(m.(p := Ask(m.p, u.env).p), WakeStopped)
  }

  function SnapUnmount(u: Setup, m: Machine): Machine {
    var un := S.Unmount(m.p, m.k, u.env);
    Say(m.(p := un.0, k := un.1), SnapUnmounted)
  }

  function RunArchive(u: Setup, m: Machine): Machine {
    if m.snap.None? then m else
      var mt := S.Mount(m.p, m.k, m.snap.value, u.env);
      var m1 := m.(p := mt.p, k := mt.k, snap := Some(mt.s));
      if !mt.ok then m1 else
        var m2 := WithConnection(u, WakeStart(u, Say(m1, SnapMounted)), false);
        SnapUnmount(u, WakeStop(u, m2))
  }

  function RunMediaSync(u: Setup, m: Machine): Machine {
    if MS.OrderOf(Targets(u)) == [] then m else WithConnection(u, m, true)
  }

  function CleanupSnapshot(u: Setup, m: Machine): Machine {
    if m.snap.None? then m else
      var r := S.Release(m.p, m.k, m.snap.value, u.env);
      m.(p := r.p, k := r.k, snap := None)
  }

  // ------------------------------------------------------------ the loop

  function Goto(m: Machine, next: State): Machine { if m.p.dead then m else m.(state := next) }

  function WaitForWifi(u: Setup, m: Machine): Machine {
    var w := Say(m, Waiting(Bound(m)));
    var a := Ask(m.p, u.env);
    if a.ok then w.(p := a.p, state := StatePreArchive) else w.(p := a.p)
  }

  /** The switch. */
  function Arm(u: Setup, m: Machine): Machine {
    match m.state
    case StateBooting => var b := Boot(u, m); if b.1 then Goto(b.0, StateGadgetUp) else b.0
    case StateGadgetUp => Goto(m, StateWaitingForWifi)
    case StateWaitingForWifi => WaitForWifi(u, m)
    case StatePreArchive => Goto(m.(p := Ask(m.p, u.env).p), StateSnapshot)
    case StateSnapshot => var c := CreateSnapshot(u, m); Goto(c.0, if c.1 then StateFsck else StateCleanup)
    case StateFsck => Goto(RunFsck(u, m), StateReconnect)
    case StateReconnect => Goto(ReactivateGadget(u, m), StateArchiving)
    case StateArchiving => Goto(RunArchive(u, m), StateMediaSync)
    case StateMediaSync => Goto(RunMediaSync(u, m), StateCleanup)
    case StateCleanup => Goto(CleanupSnapshot(u, m), StateWaitingForWifi)
  }

  /** ctx is done: deactivate the gadget and end. */
  function Shutdown(u: Setup, m: Machine): Machine {
    var d := if m.gad.None? then m else Deactivate(u, m).0;
    d.(p := d.p.(dead := true))
  }

  /** Whether a process that ends here has a snapshot it will not release. */
  predicate HoldsDevice(m: Machine, busy: bool) {
    m.snap.Some? || (busy && (m.state.StateSnapshot? || m.state.StateCleanup?))
  }

  /** busy: the process died in the arm of its state, not before it. */
  function Restart(m: Machine, busy: bool): Machine {
    m.(state := StateBooting, snap := None, gad := None, p := Proc(m.p.clock, false),
       share := m.share.(creds := None), restarts := m.restarts + 1,
       holdEnds := m.holdEnds + One(HoldsDevice(m, busy)),
       archiveCrashes := m.archiveCrashes + One(busy && m.state.StateArchiving?),
       mediaCrashes := m.mediaCrashes + One(busy && m.state.StateMediaSync?),
       log := m.log + [Restarted])
  }

  /** One turn of the loop, and the restart if the process does not survive it. */
  function Turn(u: Setup, m: Machine): Machine {
    var ctx := Ask(m.p, u.env);   // refused: the context is done
    var m1 := m.(p := ctx.p);
    if ctx.p.dead then m1 else if !ctx.ok then Shutdown(u, m1) else Arm(u, m1)
  }

  function Step(u: Setup, m: Machine): Machine {
    var r := Turn(u, m);
    if r.p.dead then Restart(r, Ask(m.p, u.env).ok) else r
  }

  function Run(u: Setup, m: Machine, n: nat): Machine {
    if n == 0 then m else Step(u, Run(u, m, n - 1))
  }
}
