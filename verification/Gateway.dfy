/**
 The velocity gateway of limx_websocket_cmd_bridge.py as a state machine. The ROS thread, the socket thread
 and the control thread interleave freely; each region under a lock is one step, and so is each reading of the
 clock and each write to the socket. What the environment decides comes in with the step.
 */
module Gateway {
  import opened Options

  datatype Velocity = Velocity(x: real, y: real, yaw: real)

  const ZERO := Velocity(0.0, 0.0, 0.0)

  datatype Params = Params(legacy: bool, startPaused: bool, configuredAccid: bool, commandTimeout: real,
                           threshold: real, zeroHold: real, zeroRepeat: nat,
                           maxLinear: real, maxLateral: real, maxAngular: real)

  /** What _validate_parameters lets through, as far as it matters here. */
  predicate ParamsOk(c: Params) {
    && c.commandTimeout > 0.0 && c.threshold >= 0.0 && c.zeroHold >= 0.0 && c.zeroRepeat >= 1
    && c.maxLinear > 0.0 && c.maxLateral > 0.0 && c.maxAngular > 0.0
  }

  function Abs(r: real): real { if r < 0.0 then -r else r }

  function Magnitude(v: Velocity): real {
    var m := if Abs(v.x) < Abs(v.y) then Abs(v.y) else Abs(v.x);
    if m < Abs(v.yaw) then Abs(v.yaw) else m
  }

  function Clamp(value: real, limit: real): real {
    var m := if value < limit then value else limit;
    if m < -limit then -limit else m
  }

  function Bounded(c: Params, v: Velocity): Velocity {
    Velocity(Clamp(v.x, c.maxLinear), Clamp(v.y, c.maxLateral), Clamp(v.yaw, c.maxAngular))
  }

  /** A limit keeps what is within it, and otherwise takes the nearest end, on the same side of zero. */
  lemma ClampMeans(value: real, limit: real)
    requires 0.0 < limit
    ensures Abs(value) <= limit ==> Clamp(value, limit) == value
    ensures Abs(value) > limit ==> Abs(Clamp(value, limit)) == limit && (Clamp(value, limit) > 0.0 <==> value > 0.0)
    ensures forall other: real | Abs(other) <= limit :: Abs(Clamp(value, limit) - value) <= Abs(other - value)
  {
  }

  /** Each axis has its own limit. */
  lemma BoundedByAxis(c: Params, v: Velocity)
    requires ParamsOk(c)
    ensures Within(v, c.maxLinear, c.maxLateral, c.maxAngular) ==> Bounded(c, v) == v
    ensures Abs(v.x) <= c.maxLinear ==> Bounded(c, v).x == v.x
    ensures Abs(v.y) <= c.maxLateral ==> Bounded(c, v).y == v.y
    ensures Abs(v.yaw) <= c.maxAngular ==> Bounded(c, v).yaw == v.yaw
    ensures Abs(v.x) > c.maxLinear ==> Bounded(c, v).x == if v.x > 0.0 then c.maxLinear else -c.maxLinear
    ensures Abs(v.y) > c.maxLateral ==> Bounded(c, v).y == if v.y > 0.0 then c.maxLateral else -c.maxLateral
    ensures Abs(v.yaw) > c.maxAngular ==> Bounded(c, v).yaw == if v.yaw > 0.0 then c.maxAngular else -c.maxAngular
  {
    ClampMeans(v.x, c.maxLinear);
    ClampMeans(v.y, c.maxLateral);
    ClampMeans(v.yaw, c.maxAngular);
  }

  predicate Within(v: Velocity, x: real, y: real, yaw: real) { Abs(v.x) <= x && Abs(v.y) <= y && Abs(v.yaw) <= yaw }

  lemma BoundedIsWithin(c: Params, v: Velocity)
    requires ParamsOk(c)
    ensures Within(Bounded(c, v), c.maxLinear, c.maxLateral, c.maxAngular)
  {
  }

  /** round(value, 4): to the nearest multiple of 1/10000, a tie to the even one. */
  function Round4(value: real): real {
    var scaled := value * 10000.0;
    var low := scaled.Floor;
    var rest := scaled - low as real;
    (if rest < 0.5 || (rest == 0.5 && low % 2 == 0) then low else low + 1) as real / 10000.0
  }

  function Rounded(v: Velocity): Velocity { Velocity(Round4(v.x), Round4(v.y), Round4(v.yaw)) }

  lemma Round4Close(value: real)
    ensures Abs(Round4(value) - value) <= 0.00005
    ensures value == 0.0 ==> Round4(value) == 0.0
  {
  }

  // ---------- the history ----------

  /**
   One entry per step that matters: connections opening and closing, a Twist callback beginning (and on which
   connection), regions that set or clear the pause, store or drop a command, snapshots, the choice of a connection
   for a velocity, and writes. A stored Twist points back to its arrival; Reset is the second region of _on_open.
   Walk mode: the robot accepts a mode request, a message of a zero sequence goes out, the mode is entered or lost,
   the control thread sees that it is on before a velocity, or finds nothing to send. `ok` says that a message did
   not fail; Failure is a refused mode, a Twist too old, or a message that was not sent at all. A zero sequence is
   recorded as complete, a velocity acknowledged, and walk mode rested at the end of a cycle with nothing to send.
   */
  datatype Event =
    | Opened(app: nat) | Closed
    | PauseSet | Resumed
    | Arrived(clock: real, on: Option<nat>) | Stored(cmd: Velocity, time: real, arrived: int) | Refused | Reset
    | Snapped(now: real) | Chosen(app: nat)
    | Written(sent: Velocity, via: nat, ok: bool)
    | ModeAccepted | Zeroed(via: nat, ok: bool) | WalkEntered | WalkLost | WalkSeen | Idled | Failure
    | Recorded | Acknowledged | Rested

  /** Whether output is paused after a history: the last pause or resume decides. */
  function PausedAfter(start: bool, log: seq<Event>): bool
    decreases |log|
  {
    if log == [] then start
    else match log[|log| - 1]
      case PauseSet => true
      case Resumed => false
      case _ => PausedAfter(start, log[..|log| - 1])
  }

  /** The Twist in force after a history, with its time: none after a reset or a refused Twist. */
  function CommandAfter(log: seq<Event>): Option<(Velocity, real)>
    decreases |log|
  {
    if log == [] then None
    else match log[|log| - 1]
      case Stored(cmd, time, _) => Some((cmd, time))
      case Refused => None
      case Reset => None
      case _ => CommandAfter(log[..|log| - 1])
  }

  /** Whether walk mode is on after a history: the last entry, loss or reset decides. */
  function WalkAfter(log: seq<Event>): bool
    decreases |log|
  {
    if log == [] then false
    else match log[|log| - 1]
      case WalkEntered => true
      case WalkLost => false
      case Rested => false
      case Reset => false
      case _ => WalkAfter(log[..|log| - 1])
  }

  /** Whether a zero sequence is owed after a history: at the start and after every stop, until one is complete. */
  function ForceAfter(log: seq<Event>): bool
    decreases |log|
  {
    if log == [] then true
    else match log[|log| - 1]
      case PauseSet => true
      case Refused => true
      case Reset => true
      case WalkLost => true
      case Recorded => false
      case Acknowledged => false
      case _ => ForceAfter(log[..|log| - 1])
  }

  predicate Moves(e: Event) { e.Written? && e.sent != ZERO }

  /** Neither a non-zero write nor a snapshot strictly between. */
  predicate Undisturbed(log: seq<Event>, from: int, to: int)
    requires 0 <= from && to <= |log|
  {
    forall k | from < k < to :: !Moves(log[k]) && !log[k].Snapped?
  }

  /** A snapshot at `at` allows `cmd`: unpaused, with a bounded Twist in force that is recent by its clock. */
  ghost predicate Allows(c: Params, log: seq<Event>, at: int, cmd: Velocity) {
    && 0 <= at < |log| && log[at].Snapped?
    && !PausedAfter(c.startPaused, log[..at])
    && CommandAfter(log[..at]).Some?
    && CommandAfter(log[..at]).value.0 == cmd
    && Within(cmd, c.maxLinear, c.maxLateral, c.maxAngular)
    && log[at].now - CommandAfter(log[..at]).value.1 <= c.commandTimeout
    && Magnitude(cmd) > c.threshold
  }

  /**
   The non-zero write at k was decided by the snapshot at `at`, the last one before it, with no other such write
   since.
   */
  ghost predicate Backs(c: Params, log: seq<Event>, at: int, k: int) {
    && 0 <= at < k < |log| && Moves(log[k])
    && Undisturbed(log, at, k)
    && exists cmd :: Allows(c, log, at, cmd) && log[k].sent == Rounded(cmd)
  }

  ghost predicate WritesBacked(c: Params, log: seq<Event>) {
    forall k | 0 <= k < |log| && Moves(log[k]) :: exists at :: Backs(c, log, at, k)
  }

  // ---------- the machine ----------

  /** What _desired_command returns. */
  datatype Decision = Decision(desired: bool, cmd: Velocity, timedOut: bool)

  /** Where a lost connection, noticed by the control thread, returns to. */
  datatype Return = ToCommandFailure | ToZeroFailure(entering: bool)

  datatype Control =
    | Top
    | FirstClock(now: real)
    | FirstSnapped(d: Decision)
    | TimedOut(live: bool)
    | Decided(desired: bool, live: bool)
    | WalkRetry
    | ModeRequest
    | ModeFailed
    | Zeros(entering: bool, left: nat)
    | ZeroFailed(entering: bool)
    | ZeroRecord(entering: bool)
    | WalkOff
    | WalkOn
    | SecondStart
    | SecondClock(now: real)
    | Armed(cmd: Velocity, at: int)
    | Sending(cmd: Velocity, at: int)
    | OnWire(cmd: Velocity, at: int, via: nat)
    | Answered(cmd: Velocity)
    | LostTransport(via: nat, back: Return)
    | LostState(changed: bool, back: Return)
    | LostLatch(back: Return)
    | CommandFailed
    | CommandFailedLatch
    | ZeroCheck
    | ZeroCount
    | ZeroDone
    | Stopped

  datatype Ros = RosIdle | PauseArrived(data: bool, now: real) | TwistArrived(v: Velocity, now: real, at: int)
               | BadTwist(now: real) | BadTwistLatch | ShuttingDown | ShutDown

  datatype Socket = SocketIdle | Opening | Dropped(changed: bool) | SocketLatch

  /** The fields under the state lock. */
  datatype Shared = Shared(paused: bool, cmd: Velocity, cmdTime: Option<real>, zeroSince: real,
                           walkReady: bool, forceZero: bool)

  /** The fields under the transport lock; `used` says that the current app's on_open has been called. */
  datatype Link = Link(app: nat, connected: bool, accid: bool, used: bool)

  function Live(link: Link): Option<nat> { if link.connected then Some(link.app) else None }

  datatype State = State(shared: Shared, link: Link, clock: real, control: Control, ros: Ros, socket: Socket,
                         controlStop: bool, transportStop: bool, log: seq<Event>)

  function Init(c: Params, clock: real): State {
    State(Shared(c.startPaused, ZERO, None, clock, false, true), Link(0, false, c.configuredAccid, false), clock,
          Top, RosIdle, SocketIdle, false, false, [])
  }

  function Noted(s: State, e: Event): State { s.(log := s.log + [e]) }

  // The regions under the state lock.

  function Latched(sh: Shared, now: real): Shared { sh.(paused := true, zeroSince := now, forceZero := true) }

  function NotReady(sh: Shared): Shared { sh.(walkReady := false, forceZero := true) }

  function PauseMessage(sh: Shared, data: bool, now: real): Shared {
    if data then Latched(sh, now) else sh.(paused := false)
  }

  function TwistMessage(c: Params, sh: Shared, v: Velocity, now: real): Shared {
    var bounded := Bounded(c, v);
    var zeroSince := if Magnitude(bounded) > c.threshold then 0.0 else if sh.zeroSince == 0.0 then now
        else sh.zeroSince;
    sh.(cmd := bounded, cmdTime := Some(now), zeroSince := zeroSince)
  }

  function BadTwistMessage(sh: Shared, now: real): Shared {
    sh.(cmd := ZERO, cmdTime := None, zeroSince := now, forceZero := true)
  }

  function OpenReset(sh: Shared): Shared { NotReady(sh).(cmdTime := None) }

  function Desired(c: Params, sh: Shared, now: real): Decision {
    if sh.paused || sh.cmdTime.None? then Decision(false, ZERO, false)
    else if now - sh.cmdTime.value > c.commandTimeout then Decision(false, ZERO, true)
    else if Magnitude(sh.cmd) > c.threshold then Decision(true, sh.cmd, false)
    else if sh.zeroSince > 0.0 && now - sh.zeroSince >= c.zeroHold then Decision(false, ZERO, false)
    else Decision(sh.walkReady, ZERO, false)
  }

  /** _latch_pause. */
  function Latch(s: State): State { Noted(s.(shared := Latched(s.shared, s.clock)), PauseSet) }

  // The ROS thread.

  datatype RosInput = Pause(data: bool) | Twist(v: Velocity) | NonFinite | Continue | Shutdown

  function RosStep(c: Params, s: State, input: RosInput): State {
    match s.ros
    case RosIdle => (
      match input
      case Pause(data) => s.(ros := PauseArrived(data, s.clock))
      case Twist(v) => Noted(s.(ros := TwistArrived(v, s.clock, |s.log|)), Arrived(s.clock, Live(s.link)))
      case NonFinite => s.(ros := BadTwist(s.clock))
      case Continue => s
      case Shutdown =>
        Noted(s.(shared := s.shared.(paused := true, forceZero := true), ros := ShuttingDown), PauseSet))
    case PauseArrived(data, now) =>
      Noted(s.(shared := PauseMessage(s.shared, data, now), ros := RosIdle), if data then PauseSet else Resumed)
    case TwistArrived(v, now, at) =>
      Noted(s.(shared := TwistMessage(c, s.shared, v, now), ros := RosIdle), Stored(Bounded(c, v), now, at))
    case BadTwist(now) => Noted(s.(shared := BadTwistMessage(s.shared, now), ros := BadTwistLatch), Refused)
    case BadTwistLatch => Latch(s.(ros := RosIdle))
    case ShuttingDown => s.(controlStop := true, ros := ShutDown)
    // The last zero sequence goes out only once the control thread has ended.
    case ShutDown =>
      if s.control == Stopped && s.link.connected && s.link.accid
      then Noted(s.(transportStop := true), Zeroed(s.link.app, true))
      else s.(transportStop := true)
  }

  // The socket thread.

  datatype SocketInput = NewApp | Open | Drop | Learn | Conflict | Reject | Proceed

  /** The transport region of _mark_disconnected. */
  function Disconnected(s: State): State {
    if s.link.connected then Noted(s.(link := s.link.(connected := false)), Closed) else s
  }

  /** A new app is made once the old one is disconnected, and each calls on_open once. */
  function SocketStep(c: Params, s: State, input: SocketInput): State {
    match s.socket
    case SocketIdle => (
      match input
      case NewApp => if s.link.connected then s else s.(link := s.link.(app := s.link.app + 1, used := false))
      case Open =>
        if s.link.app == 0 || s.link.used then s
        else Noted(s.(link := Link(s.link.app, true, c.configuredAccid, true), socket := Opening), Opened(s.link.app))
      case Drop => Disconnected(s).(socket := Dropped(s.link.connected))
      case Learn => s.(link := s.link.(accid := true))
      case Conflict => s.(socket := SocketLatch)
      case Reject => Noted(s.(shared := NotReady(s.shared), socket := SocketLatch), WalkLost)
      case Proceed => s)
    case Opening => Noted(s.(shared := OpenReset(s.shared), socket := SocketIdle), Reset)
    case Dropped(changed) =>
      Noted(s.(shared := NotReady(s.shared), socket := if changed && !s.transportStop then SocketLatch else SocketIdle),
            WalkLost)
    case SocketLatch => Latch(s.(socket := SocketIdle))
  }

  // The control thread.

  /** What the environment decides in a step: an outcome, a socket error, which connection it concerns. */
  datatype Luck = Luck(yes: bool, raised: bool, via: nat)

  function To(s: State, control: Control): State { s.(control := control) }

  function ControlStep(c: Params, s: State, luck: Luck): State {
    match s.control
    case Top => To(s, if s.controlStop then Stopped else FirstClock(s.clock))
    case FirstClock(now) => Noted(To(s, FirstSnapped(Desired(c, s.shared, now))), Snapped(now))
    case FirstSnapped(d) => if d.timedOut then Noted(To(s, AfterFirst(s, d)), Failure) else To(s, AfterFirst(s, d))
    case TimedOut(live) => Latch(To(s, Decided(false, live)))
    case Decided(desired, live) =>
      if live && !desired then Noted(To(s, ZeroCheck), Idled) else To(s, AfterDecision(s, live))
    case WalkRetry => To(s, if luck.yes then ModeRequest else SecondStart)
    case ModeRequest =>
      if luck.yes then Noted(To(s, Zeros(true, c.zeroRepeat)), ModeAccepted) else Noted(To(s, ModeFailed), Failure)
    case ModeFailed => Latch(To(s, WalkOff))
    case Zeros(entering, left) => ZeroStep(c, s, luck, entering, left)
    case ZeroFailed(entering) => Latch(To(s, if entering then WalkOff else ZeroDone))
    case ZeroRecord(entering) =>
      Noted(To(s, if entering then WalkOn else ZeroDone).(shared := s.shared.(forceZero := false)), Recorded)
    case WalkOff => Noted(To(s, SecondStart).(shared := NotReady(s.shared)), WalkLost)
    case WalkOn => Noted(To(s, SecondStart).(shared := s.shared.(walkReady := true)), WalkEntered)
    case SecondStart => To(s, SecondClock(s.clock))
    case SecondClock(now) =>
      var d := Desired(c, s.shared, now);
      Noted(To(s, if d.desired then Armed(d.cmd, |s.log|) else Top), Snapped(now))
    case Armed(cmd, at) => if s.shared.walkReady then Noted(To(s, Sending(cmd, at)), WalkSeen) else To(s, Top)
    case Sending(cmd, at) =>
      if s.link.connected && s.link.accid then Noted(To(s, OnWire(cmd, at, s.link.app)), Chosen(s.link.app))
      else Noted(To(s, CommandFailed), Failure)
    case OnWire(cmd, at, via) => WireStep(c, s, luck, cmd, via)
    case Answered(cmd) => Noted(To(s, Top).(shared := s.shared.(forceZero := false)), Acknowledged)
    case LostTransport(via, back) =>
      if via != s.link.app then To(s, Resume(back))
      else To(Disconnected(s), LostState(s.link.connected, back))
    case LostState(changed, back) =>
      Noted(To(s, if changed && !s.transportStop then LostLatch(back) else Resume(back)).(shared := NotReady(s.shared)),
            WalkLost)
    case LostLatch(back) => Latch(To(s, Resume(back)))
    case CommandFailed => Noted(To(s, CommandFailedLatch).(shared := NotReady(s.shared)), WalkLost)
    case CommandFailedLatch => Latch(To(s, Top))
    case ZeroCheck => To(s, if s.shared.forceZero || luck.yes then ZeroCount else ZeroDone)
    case ZeroCount => To(s, Zeros(false, if s.shared.forceZero then c.zeroRepeat else 1))
    case ZeroDone => Noted(To(s, Top).(shared := s.shared.(walkReady := false)), Rested)
    case Stopped => s
  }

  function AfterFirst(s: State, d: Decision): Control {
    var live := s.link.connected && s.link.accid;
    if d.timedOut then TimedOut(live) else Decided(d.desired, live)
  }

  function AfterDecision(s: State, live: bool): Control {
    if !live then Top else if s.shared.walkReady then SecondStart else WalkRetry
  }

  /** One message of a zero sequence; a failure ends the sequence. */
  function ZeroStep(c: Params, s: State, luck: Luck, entering: bool, left: nat): State {
    if left == 0 then To(s, ZeroRecord(entering))
    else if luck.raised && c.legacy then Noted(To(s, LostTransport(luck.via, ToZeroFailure(entering))), Failure)
    else if luck.raised then Noted(To(s, ZeroFailed(entering)), Failure)
    else if luck.yes then Noted(To(s, Zeros(entering, left - 1)), Zeroed(luck.via, true))
    else if c.legacy then Noted(To(s, ZeroFailed(entering)), Failure)
    else Noted(To(s, ZeroFailed(entering)), Zeroed(luck.via, false))
  }

  /** The velocity goes out on the connection read before, unless the socket raises. */
  function WireStep(c: Params, s: State, luck: Luck, cmd: Velocity, via: nat): State {
    if luck.raised then Noted(To(s, if c.legacy then LostTransport(via, ToCommandFailure) else CommandFailed), Failure)
    else
      var ok := c.legacy || luck.yes;
      Noted(To(s, if ok then Answered(cmd) else CommandFailed), Written(Rounded(cmd), via, ok))
  }

  function Resume(back: Return): Control {
    match back
    case ToCommandFailure => CommandFailed
    case ToZeroFailure(entering) => ZeroFailed(entering)
  }

  type Duration = d: real | 0.0 <= d

  datatype Action = Tick(dt: Duration) | RosAct(ros: RosInput) | SocketAct(socket: SocketInput) | ControlAct(luck: Luck)

  function Next(c: Params, s: State, a: Action): State {
    match a
    case Tick(dt) => s.(clock := s.clock + dt)
    case RosAct(input) => RosStep(c, s, input)
    case SocketAct(input) => SocketStep(c, s, input)
    case ControlAct(luck) => ControlStep(c, s, luck)
  }

  function Run(c: Params, s: State, actions: seq<Action>): State
    decreases |actions|
  {
    if actions == [] then s else Next(c, Run(c, s, actions[..|actions| - 1]), actions[|actions| - 1])
  }

  // ---------- what every run keeps ----------

  /** A command on its way out of the control thread: zero, or allowed by its own snapshot, nothing sent since. */
  ghost predicate Pending(c: Params, log: seq<Event>, cmd: Velocity, at: int) {
    0 <= at < |log| && Undisturbed(log, at, |log|) && (cmd == ZERO || Allows(c, log, at, cmd))
  }

  ghost predicate ControlOk(c: Params, log: seq<Event>, control: Control) {
    match control
    case Armed(cmd, at) => Pending(c, log, cmd, at)
    case Sending(cmd, at) => Pending(c, log, cmd, at)
    case OnWire(cmd, at, _) => Pending(c, log, cmd, at)
    case _ => true
  }

  function InForce(sh: Shared): Option<(Velocity, real)> {
    if sh.cmdTime.Some? then Some((sh.cmd, sh.cmdTime.value)) else None
  }

  /** The shared fields are what the history says. */
  ghost predicate SharedOk(c: Params, sh: Shared, log: seq<Event>) {
    && sh.paused == PausedAfter(c.startPaused, log)
    && InForce(sh) == CommandAfter(log) && sh.walkReady == WalkAfter(log)
    && sh.forceZero == ForceAfter(log)
    && (sh.cmdTime.Some? ==> Within(sh.cmd, c.maxLinear, c.maxLateral, c.maxAngular))
  }

  ghost predicate Inv(c: Params, s: State) {
    SharedOk(c, s.shared, s.log) && WritesBacked(c, s.log) && ControlOk(c, s.log, s.control)
  }

  lemma AllowsAppended(c: Params, log: seq<Event>, e: Event, at: int, cmd: Velocity)
    requires 0 <= at < |log|
    ensures Allows(c, log + [e], at, cmd) <==> Allows(c, log, at, cmd)
  {
    assert (log + [e])[..at] == log[..at];
  }

  lemma BacksAppended(c: Params, log: seq<Event>, e: Event, at: int, k: int)
    requires Backs(c, log, at, k)
    ensures Backs(c, log + [e], at, k)
  {
    var cmd :| Allows(c, log, at, cmd) && log[k].sent == Rounded(cmd);
    AllowsAppended(c, log, e, at, cmd);
    assert forall j | at < j < k :: (log + [e])[j] == log[j];
  }

  lemma WritesBackedAppended(c: Params, log: seq<Event>, e: Event)
    requires WritesBacked(c, log)
    requires !Moves(e) || exists at :: Backs(c, log + [e], at, |log|)
    ensures WritesBacked(c, log + [e])
  {
    hide Backs;
    forall k | 0 <= k < |log + [e]| && Moves((log + [e])[k])
      ensures exists at :: Backs(c, log + [e], at, k)
    {
      if k < |log| {
        var at :| Backs(c, log, at, k);
        BacksAppended(c, log, e, at, k);
      }
    }
  }

  lemma PendingAppended(c: Params, log: seq<Event>, e: Event, control: Control)
    requires ControlOk(c, log, control) && !Moves(e) && !e.Snapped?
    ensures ControlOk(c, log + [e], control)
  {
    hide Allows;
    match control {
      case Armed(cmd, at) => AllowsAppended(c, log, e, at, cmd);
      case Sending(cmd, at) => AllowsAppended(c, log, e, at, cmd);
      case OnWire(cmd, at, _) => AllowsAppended(c, log, e, at, cmd);
      case _ =>
    }
  }

  /** How one entry changes the four summaries. */
  lemma OneMore(start: bool, log: seq<Event>, e: Event)
    ensures PausedAfter(start, log + [e]) == (e.PauseSet? || (!e.Resumed? && PausedAfter(start, log)))
    ensures CommandAfter(log + [e])
         == if e.Stored? then Some((e.cmd, e.time)) else if e.Refused? || e.Reset? then None else CommandAfter(log)
    ensures WalkFollows(WalkAfter(log), e, WalkAfter(log + [e]))
    ensures ForceFollows(ForceAfter(log), e, ForceAfter(log + [e]))
  {
    assert (log + [e])[..|log|] == log;
  }

  /** A region that leaves the pause, the command in force, walk mode and the zero sequence owed alone. */
  predicate SameSummary(a: Shared, b: Shared) {
    && a.paused == b.paused && a.cmd == b.cmd && a.cmdTime == b.cmdTime && a.walkReady == b.walkReady
    && a.forceZero == b.forceZero
  }

  /** The walk mode after one more entry. */
  predicate WalkFollows(before: bool, e: Event, after: bool) {
    after == (e.WalkEntered? || (!e.WalkLost? && !e.Rested? && !e.Reset? && before))
  }

  /** The zero sequence owed after one more entry. */
  predicate ForceFollows(before: bool, e: Event, after: bool) {
    after == (e.PauseSet? || e.Refused? || e.Reset? || e.WalkLost?
              || (!e.Recorded? && !e.Acknowledged? && before))
  }

  predicate CarriesNothing(control: Control) { !control.Armed? && !control.Sending? && !control.OnWire? }

  /** A control step that brings no new command into the sending phase. */
  predicate NothingNew(from: Control, to: Control) {
    || from == to || CarriesNothing(to)
    || (from.Armed? && to.Sending? && to.cmd == from.cmd && to.at == from.at)
    || (from.Sending? && to.OnWire? && to.cmd == from.cmd && to.at == from.at)
  }

  /** A step that notes nothing. */
  lemma QuietKeeps(c: Params, s: State, s': State)
    requires Inv(c, s) && s'.log == s.log && SameSummary(s.shared, s'.shared) && NothingNew(s.control, s'.control)
    ensures Inv(c, s')
  {
    hide PausedAfter, CommandAfter, WalkAfter, ForceAfter, Within, WritesBacked, Pending;
  }

  /** A step that notes one entry other than a non-zero write, and changes the shared fields to match. */
  lemma NoteKeeps(c: Params, s: State, e: Event, s': State)
    requires Inv(c, s) && !Moves(e) && s'.log == s.log + [e]
    requires s'.shared.paused == (e.PauseSet? || (!e.Resumed? && s.shared.paused))
    requires InForce(s'.shared)
          == if e.Stored? then Some((e.cmd, e.time)) else if e.Refused? || e.Reset? then None else InForce(s.shared)
    requires e.Stored? ==> Within(e.cmd, c.maxLinear, c.maxLateral, c.maxAngular)
    requires WalkFollows(s.shared.walkReady, e, s'.shared.walkReady)
    requires ForceFollows(s.shared.forceZero, e, s'.shared.forceZero)
    requires (s'.control == s.control && !e.Snapped?) || ControlOk(c, s.log + [e], s'.control)
    ensures Inv(c, s')
  {
    hide PausedAfter, CommandAfter, WalkAfter, ForceAfter, Within, WritesBacked, ControlOk;
    OneMore(c.startPaused, s.log, e);
    WritesBackedAppended(c, s.log, e);
    if !e.Snapped? {
      PendingAppended(c, s.log, e, s.control);
    }
  }

  /** An entry that is neither about a connection opening nor about the command in force, nor a velocity. */
  predicate Aside(e: Event) {
    || e == PauseSet || e.Closed? || e.Snapped? || e.Zeroed? || e.ModeAccepted? || e.WalkEntered? || e.WalkLost?
    || e.WalkSeen? || e.Idled? || e.Failure? || e.Recorded? || e.Acknowledged? || e.Rested?
  }

  /** Such an entry, with nothing on its way out afterwards. */
  lemma PlainKeeps(c: Params, s: State, e: Event, s': State)
    requires Inv(c, s) && Aside(e) && s'.log == s.log + [e]
    requires WalkFollows(s.shared.walkReady, e, s'.shared.walkReady)
    requires ForceFollows(s.shared.forceZero, e, s'.shared.forceZero)
    requires s'.shared.cmd == s.shared.cmd && s'.shared.cmdTime == s.shared.cmdTime
    requires s'.shared.paused == (e.PauseSet? || s.shared.paused)
    requires (s'.control == s.control && !e.Snapped?) || CarriesNothing(s'.control)
    ensures Inv(c, s')
  {
    hide Inv;
    NoteKeeps(c, s, e, s');
  }

  lemma RosKeepsInv(c: Params, s: State, input: RosInput)
    requires ParamsOk(c) && Inv(c, s)
    ensures Inv(c, RosStep(c, s, input))
  {
    hide Inv, Within, ControlOk, Bounded, Magnitude;
    var s' := RosStep(c, s, input);
    match s.ros {
      case RosIdle =>
        match input {
          case Shutdown => PlainKeeps(c, s, PauseSet, s');
          case Twist(_) => NoteKeeps(c, s, Arrived(s.clock, Live(s.link)), s');
          case _ => QuietKeeps(c, s, s');
        }
      case PauseArrived(data, now) => NoteKeeps(c, s, if data then PauseSet else Resumed, s');
      case TwistArrived(v, now, at) =>
        BoundedIsWithin(c, v);
        NoteKeeps(c, s, Stored(Bounded(c, v), now, at), s');
      case BadTwist(now) => NoteKeeps(c, s, Refused, s');
      case BadTwistLatch => PlainKeeps(c, s, PauseSet, s');
      case ShuttingDown => QuietKeeps(c, s, s');
      case ShutDown =>
        if s.control == Stopped && s.link.connected && s.link.accid {
          PlainKeeps(c, s, Zeroed(s.link.app, true), s');
        } else {
          QuietKeeps(c, s, s');
        }
    }
  }

  lemma SocketKeepsInv(c: Params, s: State, input: SocketInput)
    requires ParamsOk(c) && Inv(c, s)
    ensures Inv(c, SocketStep(c, s, input))
  {
    hide Inv, Within, ControlOk;
    var s' := SocketStep(c, s, input);
    match s.socket {
      case Opening => NoteKeeps(c, s, Reset, s');
      case SocketLatch => PlainKeeps(c, s, PauseSet, s');
      case Dropped(_) => PlainKeeps(c, s, WalkLost, s');
      case SocketIdle =>
        if s'.log == s.log {
          QuietKeeps(c, s, s');
        } else if s'.log[|s.log|].Opened? {
          NoteKeeps(c, s, Opened(s.link.app), s');
        } else {
          PlainKeeps(c, s, s'.log[|s.log|], s');
        }
    }
  }

  /** The snapshot that arms a command is its backing. */
  lemma SnapshotArms(c: Params, s: State, now: real)
    requires ParamsOk(c) && Inv(c, s) && Desired(c, s.shared, now).desired
    ensures Pending(c, s.log + [Snapped(now)], Desired(c, s.shared, now).cmd, |s.log|)
  {
    var log := s.log + [Snapped(now)];
    assert log[..|s.log|] == s.log;
  }

  lemma SnapshotKeepsInv(c: Params, s: State, luck: Luck)
    requires ParamsOk(c) && Inv(c, s) && s.control.SecondClock?
    ensures Inv(c, ControlStep(c, s, luck))
  {
    var now := s.control.now;
    if Desired(c, s.shared, now).desired {
      SnapshotArms(c, s, now);
    }
    hide Inv, Pending, Desired;
    NoteKeeps(c, s, Snapped(now), ControlStep(c, s, luck));
  }

  /** The command on the wire becomes a write backed by its snapshot. */
  lemma WireWrites(c: Params, log: seq<Event>, cmd: Velocity, at: int, via: nat, ok: bool)
    requires Pending(c, log, cmd, at)
    ensures var e := Written(Rounded(cmd), via, ok); !Moves(e) || Backs(c, log + [e], at, |log|)
  {
    var e := Written(Rounded(cmd), via, ok);
    Round4Close(0.0);
    if Moves(e) {
      AllowsAppended(c, log, e, at, cmd);
      hide Allows, Rounded;
      assert Allows(c, log + [e], at, cmd) && (log + [e])[|log|].sent == Rounded(cmd);
    }
  }

  lemma WireKeepsInv(c: Params, s: State, luck: Luck)
    requires Inv(c, s) && s.control.OnWire?
    ensures Inv(c, ControlStep(c, s, luck))
  {
    hide PausedAfter, CommandAfter, WalkAfter, ForceAfter, Within, WritesBacked, Pending, Backs, Rounded;
    var s' := ControlStep(c, s, luck);
    if luck.raised {
      PlainKeeps(c, s, Failure, s');
    } else {
      var ok := c.legacy || luck.yes;
      var e := Written(Rounded(s.control.cmd), s.control.via, ok);
      WireWrites(c, s.log, s.control.cmd, s.control.at, s.control.via, ok);
      OneMore(c.startPaused, s.log, e);
      WritesBackedAppended(c, s.log, e);
    }
  }

  lemma ZerosKeepInv(c: Params, s: State, luck: Luck)
    requires Inv(c, s) && s.control.Zeros?
    ensures Inv(c, ControlStep(c, s, luck))
  {
    hide Inv;
    var s' := ControlStep(c, s, luck);
    if |s'.log| == |s.log| {
      QuietKeeps(c, s, s');
    } else {
      PlainKeeps(c, s, s'.log[|s.log|], s');
    }
  }

  predicate Latches(control: Control) {
    control.TimedOut? || control.ModeFailed? || control.ZeroFailed? || control.LostLatch? || control.CommandFailedLatch?
  }

  lemma LatchesKeepInv(c: Params, s: State, luck: Luck)
    requires Inv(c, s) && Latches(s.control)
    ensures Inv(c, ControlStep(c, s, luck))
  {
    hide Inv, Desired;
    PlainKeeps(c, s, PauseSet, ControlStep(c, s, luck));
  }

  /** The steps towards the second snapshot. */
  predicate Deciding(control: Control) {
    || control.Top? || control.FirstSnapped? || control.Decided? || control.WalkRetry? || control.ModeRequest?
    || control.ZeroRecord? || control.WalkOff? || control.WalkOn? || control.SecondStart?
  }

  /** The steps of sending, of noticing a lost connection, and around a zero sequence. */
  predicate Sends(control: Control) {
    || control.Answered? || control.LostState? || control.CommandFailed?
    || control.ZeroCheck? || control.ZeroCount? || control.ZeroDone? || control.Stopped?
  }

  /** A step of the control thread that leaves all but walk mode alone, and notes nothing or an entry aside. */
  predicate Bystands(s: State, s': State) {
    && s'.link == s.link && s'.ros == s.ros && s'.shared.paused == s.shared.paused
    && s'.shared.cmd == s.shared.cmd && s'.shared.cmdTime == s.shared.cmdTime
    && (s'.control == s.control || CarriesNothing(s'.control))
    && if s'.log == s.log then
         s'.shared.walkReady == s.shared.walkReady && s'.shared.forceZero == s.shared.forceZero
       else
         && |s'.log| == |s.log| + 1 && s'.log == s.log + [s'.log[|s.log|]]
         && var e := s'.log[|s.log|];
            && Aside(e) && !e.PauseSet? && !e.Snapped? && !e.Closed?
            && WalkFollows(s.shared.walkReady, e, s'.shared.walkReady)
            && ForceFollows(s.shared.forceZero, e, s'.shared.forceZero)
  }

  lemma BystandsWith(s: State, s': State, e: Event)
    requires s'.link == s.link && s'.ros == s.ros && s'.shared.paused == s.shared.paused
    requires s'.shared.cmd == s.shared.cmd && s'.shared.cmdTime == s.shared.cmdTime && CarriesNothing(s'.control)
    requires s'.log == s.log + [e] && Aside(e) && !e.PauseSet? && !e.Snapped? && !e.Closed?
    requires WalkFollows(s.shared.walkReady, e, s'.shared.walkReady)
    requires ForceFollows(s.shared.forceZero, e, s'.shared.forceZero)
    ensures Bystands(s, s')
  {
  }

  lemma BystandsQuietly(s: State, s': State)
    requires s'.link == s.link && s'.ros == s.ros && SameSummary(s.shared, s'.shared) && s'.log == s.log
    requires s'.control == s.control || CarriesNothing(s'.control)
    ensures Bystands(s, s')
  {
  }

  lemma LosingBystands(c: Params, s: State, luck: Luck)
    requires s.control.WalkOff? || s.control.LostState? || s.control.CommandFailed? || s.control.ZeroDone?
    ensures Bystands(s, ControlStep(c, s, luck))
  {
    hide Desired, WireStep, ZeroStep, Bystands, Latched, AfterFirst, AfterDecision;
    BystandsWith(s, ControlStep(c, s, luck), if s.control.ZeroDone? then Rested else WalkLost);
  }

  lemma EnteringBystands(c: Params, s: State, luck: Luck)
    requires s.control.FirstSnapped? || s.control.Decided? || s.control.ModeRequest? || s.control.WalkOn?
    ensures Bystands(s, ControlStep(c, s, luck))
  {
    hide Desired, WireStep, ZeroStep, Bystands, Latched, Resume;
    var s' := ControlStep(c, s, luck);
    match s.control {
      case FirstSnapped(d) =>
        if d.timedOut {
          BystandsWith(s, s', Failure);
        } else {
          BystandsQuietly(s, s');
        }
      case Decided(desired, live) =>
        if live && !desired {
          BystandsWith(s, s', Idled);
        } else {
          BystandsQuietly(s, s');
        }
      case ModeRequest =>
        if luck.yes {
          BystandsWith(s, s', ModeAccepted);
        } else {
          BystandsWith(s, s', Failure);
        }
      case WalkOn => BystandsWith(s, s', WalkEntered);
    }
  }

  lemma Bystanding(c: Params, s: State, luck: Luck)
    requires Deciding(s.control) || Sends(s.control)
    ensures Bystands(s, ControlStep(c, s, luck))
  {
    hide Desired, WireStep, ZeroStep, Bystands, Latched, AfterDecision, Resume;
    match s.control {
      case WalkOff => LosingBystands(c, s, luck);
      case LostState(_, _) => LosingBystands(c, s, luck);
      case CommandFailed => LosingBystands(c, s, luck);
      case ZeroDone => LosingBystands(c, s, luck);
      case FirstSnapped(_) => EnteringBystands(c, s, luck);
      case ZeroRecord(_) => BystandsWith(s, ControlStep(c, s, luck), Recorded);
      case Answered(_) => BystandsWith(s, ControlStep(c, s, luck), Acknowledged);
      case Decided(_, _) => EnteringBystands(c, s, luck);
      case ModeRequest => EnteringBystands(c, s, luck);
      case WalkOn => EnteringBystands(c, s, luck);
      case _ => BystandsQuietly(s, ControlStep(c, s, luck));
    }
  }

  lemma BystandingKeepsInv(c: Params, s: State, s': State)
    requires Inv(c, s) && Bystands(s, s')
    ensures Inv(c, s')
  {
    hide Inv;
    if s'.log == s.log {
      QuietKeeps(c, s, s');
    } else {
      PlainKeeps(c, s, s'.log[|s.log|], s');
    }
  }

  /** The check of walk mode, the choice of a connection, and the loss of one. */
  lemma TransportKeepsInv(c: Params, s: State, luck: Luck)
    requires Inv(c, s) && (s.control.Armed? || s.control.Sending? || s.control.LostTransport?)
    ensures Inv(c, ControlStep(c, s, luck))
  {
    hide PausedAfter, CommandAfter, WalkAfter, ForceAfter, Within, WritesBacked, Pending;
    var s' := ControlStep(c, s, luck);
    if s'.log == s.log {
      QuietKeeps(c, s, s');
    } else if s.control.Armed? {
      PendingAppended(c, s.log, WalkSeen, s.control);
      NoteKeeps(c, s, WalkSeen, s');
    } else if s.control.Sending? && s.link.connected && s.link.accid {
      PendingAppended(c, s.log, Chosen(s.link.app), s.control);
      NoteKeeps(c, s, Chosen(s.link.app), s');
    } else {
      PlainKeeps(c, s, s'.log[|s.log|], s');
    }
  }

  lemma ControlKeepsInv(c: Params, s: State, luck: Luck)
    requires ParamsOk(c) && Inv(c, s)
    ensures Inv(c, ControlStep(c, s, luck))
  {
    hide Inv, Desired, WireStep, ZeroStep, AfterFirst, AfterDecision, Resume, Bystands;
    match s.control {
      case FirstClock(now) => PlainKeeps(c, s, Snapped(now), ControlStep(c, s, luck));
      case Zeros(_, _) => ZerosKeepInv(c, s, luck);
      case SecondClock(now) => SnapshotKeepsInv(c, s, luck);
      case OnWire(_, _, _) => WireKeepsInv(c, s, luck);
      case _ =>
        if Latches(s.control) {
          LatchesKeepInv(c, s, luck);
        } else if Deciding(s.control) || Sends(s.control) {
          Bystanding(c, s, luck);
          BystandingKeepsInv(c, s, ControlStep(c, s, luck));
        } else if s.control.Armed? || s.control.Sending? || s.control.LostTransport? {
          TransportKeepsInv(c, s, luck);
        }
    }
  }

  lemma {:induction false} RunKeepsInv(c: Params, clock: real, actions: seq<Action>)
    requires ParamsOk(c)
    ensures Inv(c, Run(c, Init(c, clock), actions))
    decreases |actions|
  {
    hide Inv;
    if actions == [] {
      InitInv(c, clock);
    } else {
      var s := Run(c, Init(c, clock), actions[..|actions| - 1]);
      RunKeepsInv(c, clock, actions[..|actions| - 1]);
      match actions[|actions| - 1] {
        case Tick(dt) => TickKeepsInv(c, s, dt);
        case RosAct(input) => RosKeepsInv(c, s, input);
        case SocketAct(input) => SocketKeepsInv(c, s, input);
        case ControlAct(luck) => ControlKeepsInv(c, s, luck);
      }
    }
  }

  lemma InitInv(c: Params, clock: real)
    ensures Inv(c, Init(c, clock))
  {
  }

  lemma TickKeepsInv(c: Params, s: State, dt: Duration)
    requires Inv(c, s)
    ensures Inv(c, Next(c, s, Tick(dt)))
  {
  }

  // ---------- the guarantees ----------

  /** Some Twist in force was stored at m, and nothing replaced or dropped it since. */
  ghost predicate InForceSince(log: seq<Event>, m: int) {
    && 0 <= m < |log| && log[m].Stored?
    && forall k | m < k < |log| :: !log[k].Stored? && !log[k].Refused? && !log[k].Reset?
  }

  lemma {:induction false} CommandWasStored(log: seq<Event>) returns (m: int)
    requires CommandAfter(log).Some?
    ensures InForceSince(log, m) && CommandAfter(log).value == (log[m].cmd, log[m].time)
    decreases |log|
  {
    var n := |log| - 1;
    if log[n].Stored? {
      m := n;
    } else {
      m := CommandWasStored(log[..n]);
    }
  }

  lemma {:induction false} UnpausedMeansResumed(start: bool, log: seq<Event>, i: int) returns (r: int)
    requires -1 <= i < |log| && (if i < 0 then start else log[i].PauseSet?)
    requires !PausedAfter(start, log)
    ensures i < r < |log| && log[r].Resumed?
    decreases |log|
  {
    var n := |log| - 1;
    if n >= 0 && log[n].Resumed? {
      r := n;
    } else {
      r := UnpausedMeansResumed(start, log[..n], i);
    }
  }

  lemma RoundedWithin(v: Velocity, x: real, y: real, yaw: real)
    requires Within(v, x, y, yaw)
    ensures Within(Rounded(v), x + 0.00005, y + 0.00005, yaw + 0.00005)
  {
    hide Round4;
    Round4Close(v.x);
    Round4Close(v.y);
    Round4Close(v.yaw);
  }

  ghost predicate Reachable(c: Params, s: State) {
    exists clock, actions :: s == Run(c, Init(c, clock), actions)
  }

  lemma ReachableInv(c: Params, s: State)
    requires ParamsOk(c) && Reachable(c, s)
    ensures Inv(c, s)
  {
    var clock, actions :| s == Run(c, Init(c, clock), actions);
    RunKeepsInv(c, clock, actions);
  }

  /**
   Every non-zero write of every run: its own snapshot, taken after any earlier non-zero write, found output
   unpaused and a Twist in force at most command_timeout old, stored after the last completed reset; what was
   sent is that Twist, clamped and rounded.
   */
  lemma EveryMoveIsBacked(c: Params, s: State, k: int) returns (at: int, m: int)
    requires ParamsOk(c) && Reachable(c, s) && 0 <= k < |s.log| && Moves(s.log[k])
    ensures Backs(c, s.log, at, k)
    ensures 0 <= m < at < k && InForceSince(s.log[..at], m)
    ensures s.log[at].now - s.log[m].time <= c.commandTimeout
    ensures s.log[k].sent == Rounded(s.log[m].cmd)
    ensures Within(s.log[m].cmd, c.maxLinear, c.maxLateral, c.maxAngular)
    ensures Within(s.log[k].sent, c.maxLinear + 0.00005, c.maxLateral + 0.00005, c.maxAngular + 0.00005)
  {
    ReachableInv(c, s);
    at :| Backs(c, s.log, at, k);
    var cmd :| Allows(c, s.log, at, cmd) && s.log[k].sent == Rounded(cmd);
    m := CommandWasStored(s.log[..at]);
    RoundedWithin(cmd, c.maxLinear, c.maxLateral, c.maxAngular);
  }

  /** Of two non-zero writes after a pause, the later one follows a resume. */
  lemma AtMostOneMoveAfterPause(c: Params, s: State, i: int, j: int, k: int) returns (r: int)
    requires ParamsOk(c) && Reachable(c, s)
    requires 0 <= i < j < k < |s.log| && s.log[i].PauseSet? && Moves(s.log[j]) && Moves(s.log[k])
    ensures i < r < k && s.log[r].Resumed?
  {
    var at, m := EveryMoveIsBacked(c, s, k);
    hide PausedAfter, Allows;
    assert j < at by { assert Undisturbed(s.log, at, k) && s.log[at].Snapped?; }
    BackedIsUnpaused(c, s.log, at, k);
    r := UnpausedMeansResumed(c.startPaused, s.log[..at], i);
  }

  lemma BackedIsUnpaused(c: Params, log: seq<Event>, at: int, k: int)
    requires Backs(c, log, at, k)
    ensures !PausedAfter(c.startPaused, log[..at])
  {
  }

  /** The one write that a pause can still be followed by was already past its snapshot when the pause was set. */
  lemma OnlyTheWriteInFlight(c: Params, s: State, i: int, k: int) returns (at: int)
    requires ParamsOk(c) && Reachable(c, s)
    requires 0 <= i < k < |s.log| && s.log[i].PauseSet? && Moves(s.log[k])
    requires forall r | i < r < k :: !s.log[r].Resumed?
    ensures Backs(c, s.log, at, k) && at < i
  {
    var m: int;
    at, m := EveryMoveIsBacked(c, s, k);
    hide PausedAfter, Allows;
    BackedIsUnpaused(c, s.log, at, k);
    if at > i {
      var r := UnpausedMeansResumed(c.startPaused, s.log[..at], i);
    }
  }

  /** A gateway that starts paused moves nothing before the first resume. */
  lemma NothingBeforeFirstResume(c: Params, s: State, k: int) returns (r: int)
    requires ParamsOk(c) && c.startPaused && Reachable(c, s) && 0 <= k < |s.log| && Moves(s.log[k])
    ensures 0 <= r < k && s.log[r].Resumed?
  {
    var at, m := EveryMoveIsBacked(c, s, k);
    BackedIsUnpaused(c, s.log, at, k);
    r := UnpausedMeansResumed(c.startPaused, s.log[..at], -1);
  }

  // ---------- the regions as methods ----------

  /** The regions under the state lock, in whatever order the threads get it. */
  datatype Region =
    | PauseRegion(data: bool, now: real) | TwistRegion(v: Velocity, now: real, arrived: int) | BadTwistRegion(now: real)
    | LatchRegion(now: real) | OpenRegion | ForgetRegion | EnterRegion

  function Entries(c: Params, r: Region): seq<Event> {
    match r
    case PauseRegion(data, _) => [if data then PauseSet else Resumed]
    case TwistRegion(v, now, arrived) => [Stored(Bounded(c, v), now, arrived)]
    case BadTwistRegion(_) => [Refused]
    case LatchRegion(_) => [PauseSet]
    case OpenRegion => [Reset]
    case ForgetRegion => [WalkLost]
    case EnterRegion => [WalkEntered]
  }

  function History(c: Params, regions: seq<Region>): seq<Event>
    decreases |regions|
  {
    if regions == [] then []
    else History(c, regions[..|regions| - 1]) + Entries(c, regions[|regions| - 1])
  }

  lemma NoHistory(c: Params, regions: seq<Region>)
    ensures History(c, regions[..0]) == [] && regions[..|regions|] == regions
  {
  }

  lemma NextHistory(c: Params, regions: seq<Region>, i: nat)
    requires i < |regions|
    ensures History(c, regions[..i + 1]) == History(c, regions[..i]) + Entries(c, regions[i])
  {
    assert regions[..i + 1][..i] == regions[..i];
  }

  lemma SharedSays(c: Params, sh: Shared, log: seq<Event>)
    requires SharedOk(c, sh, log)
    ensures sh.paused == PausedAfter(c.startPaused, log) && InForce(sh) == CommandAfter(log)
    ensures sh.walkReady == WalkAfter(log) && sh.forceZero == ForceAfter(log)
  {
  }

  /** Nothing is handed out at any clock. */
  ghost predicate Silent(c: Params, sh: Shared) {
    forall t :: !Desired(c, sh, t).desired && Desired(c, sh, t).cmd == ZERO
  }

  /** The stored command is handed out, as it is, at every clock up to command_timeout after `now`. */
  ghost predicate HandsOut(c: Params, sh: Shared, now: real) {
    forall t | t - now <= c.commandTimeout :: Desired(c, sh, t) == Decision(true, sh.cmd, false)
  }

  lemma RecentIsHandedOut(c: Params, sh: Shared, now: real)
    requires !sh.paused && sh.cmdTime == Some(now) && Magnitude(sh.cmd) > c.threshold
    ensures HandsOut(c, sh, now)
  {
  }

  lemma StoreKeeps(c: Params, sh: Shared, v: Velocity, now: real, arrived: int, log: seq<Event>)
    requires ParamsOk(c) && SharedOk(c, sh, log)
    ensures var after := TwistMessage(c, sh, v, now);
            && SharedOk(c, after, log + [Stored(Bounded(c, v), now, arrived)])
            && Within(after.cmd, c.maxLinear, c.maxLateral, c.maxAngular)
            && (!sh.paused && Magnitude(after.cmd) > c.threshold ==> HandsOut(c, after, now))
  {
    BoundedIsWithin(c, v);
    OneMore(c.startPaused, log, Stored(Bounded(c, v), now, arrived));
    hide PausedAfter, CommandAfter, WalkAfter, ForceAfter, Within, Magnitude, Bounded, HandsOut;
    if !sh.paused && Magnitude(Bounded(c, v)) > c.threshold {
      RecentIsHandedOut(c, TwistMessage(c, sh, v, now), now);
    }
  }

  /** The fields under the state lock, kept in step with the history of their regions. */
  class VelocityGateway {
    const params: Params
    var paused: bool
    var lastCmd: Velocity
    var lastCmdTime: Option<real>
    var zeroSince: real
    var walkModeReady: bool
    var forceZero: bool
    ghost var log: seq<Event>

    function View(): Shared
      reads this
    {
      Shared(paused, lastCmd, lastCmdTime, zeroSince, walkModeReady, forceZero)
    }

    /** Paused and command are what the pauses, resumes, Twists and resets so far say. */
    ghost predicate Valid()
      reads this
    {
      ParamsOk(params) && SharedOk(params, View(), log)
    }

    constructor (params: Params, now: real)
      requires ParamsOk(params)
      ensures Valid() && this.params == params && log == [] && Silent(params, View())
      ensures View() == Init(params, now).shared
    {
      this.params := params;
      paused, lastCmd, lastCmdTime := params.startPaused, ZERO, None;
      zeroSince, walkModeReady, forceZero, log := now, false, true, [];
    }

    method PauseCallback(data: bool, now: real) returns (changed: bool)
      requires Valid()
      modifies this
      ensures Valid() && log == old(log) + Entries(params, PauseRegion(data, now))
      ensures View() == PauseMessage(old(View()), data, now) && (changed <==> old(paused) != data)
      ensures data ==> Silent(params, View())
      // a resume brings back the stored Twist, while it is recent
      ensures !data ==> InForce(View()) == old(InForce(View()))
    {
      OneMore(params.startPaused, log, if data then PauseSet else Resumed);
      hide PausedAfter, CommandAfter, WalkAfter, ForceAfter, Within;
      changed := paused != data;
      paused := data;
      if paused {
        zeroSince := now;
        forceZero := true;
      }
      log := log + [if data then PauseSet else Resumed];
    }

    /** A finite Twist is clamped and stored in one region. */
    method StoreTwist(v: Velocity, now: real, ghost arrived: int)
      requires Valid()
      modifies this
      ensures Valid() && log == old(log) + Entries(params, TwistRegion(v, now, arrived))
      ensures View() == TwistMessage(params, old(View()), v, now)
      ensures paused == old(paused) && Within(lastCmd, params.maxLinear, params.maxLateral, params.maxAngular)
      ensures !paused && Magnitude(lastCmd) > params.threshold ==> HandsOut(params, View(), now)
    {
      StoreKeeps(params, View(), v, now, arrived, log);
      hide SharedOk, Within, Magnitude, Bounded, HandsOut, Desired;
      var bounded := Bounded(params, v);
      lastCmd, lastCmdTime := bounded, Some(now);
      if Magnitude(bounded) > params.threshold {
        zeroSince := 0.0;
      } else if zeroSince == 0.0 {
        zeroSince := now;
      }
      log := log + [Stored(bounded, now, arrived)];
    }

    method RefuseTwist(now: real)
      requires Valid()
      modifies this
      ensures Valid() && log == old(log) + Entries(params, BadTwistRegion(now))
      ensures View() == BadTwistMessage(old(View()), now) && Silent(params, View())
    {
      OneMore(params.startPaused, log, Refused);
      hide PausedAfter, CommandAfter, WalkAfter, ForceAfter, Within;
      lastCmd, lastCmdTime := ZERO, None;
      zeroSince, forceZero := now, true;
      log := log + [Refused];
    }

    /**
     A finite Twist is stored clamped and handed out while recent, if output is not paused; one that is not finite
     leaves no command, and output paused until a resume message and a new Twist.
     */
    method CmdCallback(v: Velocity, finite: bool, now: real, later: real, ghost arrived: int)
      requires Valid()
      modifies this
      ensures Valid()
      ensures finite ==> log == old(log) + Entries(params, TwistRegion(v, now, arrived)) && paused == old(paused)
      ensures finite ==> Within(lastCmd, params.maxLinear, params.maxLateral, params.maxAngular)
      ensures finite && !paused && Magnitude(lastCmd) > params.threshold ==> HandsOut(params, View(), now)
      ensures !finite ==> log == old(log) + [Refused, PauseSet] && paused && lastCmdTime.None? && Silent(params, View())
    {
      hide SharedOk, Desired, Within, Magnitude;
      if !finite {
        RefuseTwist(now);
        var _ := LatchPause(later);
        return;
      }
      StoreTwist(v, now, arrived);
    }

    /** What is handed out moves the robot only if a snapshot of this moment allows it by the history. */
    method DesiredCommand(now: real) returns (desired: bool, command: Velocity, timedOut: bool)
      requires Valid()
      ensures Decision(desired, command, timedOut) == Desired(params, View(), now)
      ensures command != ZERO ==> desired && Allows(params, log + [Snapped(now)], |log|, command)
      ensures forall cmd :: Allows(params, log + [Snapped(now)], |log|, cmd) ==> desired && command == cmd
      // a robot that walks is also told to stand still, until the Twists have been zero for zeroHold
      ensures desired && command == ZERO ==>
                && walkModeReady && !paused && CommandAfter(log).Some?
                && (zeroSince <= 0.0 || now - zeroSince < params.zeroHold)
      ensures timedOut ==> !desired && !paused && CommandAfter(log).Some?
    {
      assert (log + [Snapped(now)])[..|log|] == log;
      if paused {
        return false, ZERO, false;
      }
      if lastCmdTime.None? {
        return false, ZERO, false;
      }
      if now - lastCmdTime.value > params.commandTimeout {
        return false, ZERO, true;
      }
      if Magnitude(lastCmd) > params.threshold {
        return true, lastCmd, false;
      }
      if zeroSince > 0.0 && now - zeroSince >= params.zeroHold {
        return false, ZERO, false;
      }
      return walkModeReady, ZERO, false;
    }

    /** The second region of _on_open: whatever was stored is forgotten, paused or not. */
    method ResetOnOpen()
      requires Valid()
      modifies this
      ensures Valid() && log == old(log) + Entries(params, OpenRegion)
      ensures View() == OpenReset(old(View())) && Silent(params, View()) && paused == old(paused)
    {
      OneMore(params.startPaused, log, Reset);
      hide PausedAfter, CommandAfter, WalkAfter, ForceAfter, Within;
      lastCmdTime, walkModeReady, forceZero := None, false, true;
      log := log + [Reset];
    }

    /** The safety latch: nothing is handed out until a resume message. */
    method LatchPause(now: real) returns (changed: bool)
      requires Valid()
      modifies this
      ensures Valid() && log == old(log) + Entries(params, LatchRegion(now))
      ensures View() == Latched(old(View()), now) && Silent(params, View()) && (changed <==> !old(paused))
    {
      OneMore(params.startPaused, log, PauseSet);
      hide PausedAfter, CommandAfter, WalkAfter, ForceAfter, Within;
      changed := !paused;
      paused, zeroSince, forceZero := true, now, true;
      log := log + [PauseSet];
    }

    /** The state region of _mark_disconnected and of a failed command; the latch is a region of its own. */
    method ForgetWalkMode()
      requires Valid()
      modifies this
      ensures Valid() && log == old(log) + Entries(params, ForgetRegion) && View() == NotReady(old(View()))
      ensures InForce(View()) == old(InForce(View())) && paused == old(paused)
    {
      OneMore(params.startPaused, log, WalkLost);
      hide PausedAfter, CommandAfter, WalkAfter, ForceAfter, Within;
      walkModeReady, forceZero, log := false, true, log + [WalkLost];
    }

    /** The last region of _try_enter_walk_mode. */
    method EnterWalkMode()
      requires Valid()
      modifies this
      ensures Valid() && log == old(log) + Entries(params, EnterRegion)
      ensures View() == old(View()).(walkReady := true)
    {
      OneMore(params.startPaused, log, WalkEntered);
      hide PausedAfter, CommandAfter, WalkAfter, ForceAfter, Within;
      walkModeReady, log := true, log + [WalkEntered];
    }

    method Do(r: Region)
      requires Valid()
      modifies this
      ensures Valid() && log == old(log) + Entries(params, r)
    {
      hide SharedOk;
      match r {
        case PauseRegion(data, now) => var _ := PauseCallback(data, now);
        case TwistRegion(v, now, arrived) => StoreTwist(v, now, arrived);
        case BadTwistRegion(now) => RefuseTwist(now);
        case LatchRegion(now) => var _ := LatchPause(now);
        case OpenRegion => ResetOnOpen();
        case ForgetRegion => ForgetWalkMode();
        case EnterRegion => EnterWalkMode();
      }
    }

    /** Whatever regions ran, in whatever order: the fields are what their history says. */
    method Run(regions: seq<Region>)
      requires Valid()
      modifies this
      ensures Valid() && log == old(log) + History(params, regions)
      ensures paused == PausedAfter(params.startPaused, old(log) + History(params, regions))
      ensures InForce(View()) == CommandAfter(old(log) + History(params, regions))
      ensures walkModeReady == WalkAfter(old(log) + History(params, regions))
      ensures forceZero == ForceAfter(old(log) + History(params, regions))
    {
      hide SharedOk, History, Entries, PausedAfter, CommandAfter, WalkAfter, ForceAfter;
      NoHistory(params, regions);
      for i := 0 to |regions|
        invariant Valid() && log == old(log) + History(params, regions[..i])
      {
        NextHistory(params, regions, i);
        Do(regions[i]);
      }
      SharedSays(params, View(), log);
    }
  }

  // ---------- how fresh a written Twist is ----------

  /** The callback that began at `from` has held its Twist up to here: nothing was stored since. */
  ghost predicate Held(log: seq<Event>, from: int, to: int, time: real) {
    && 0 <= from < to <= |log| && log[from].Arrived? && log[from].clock == time
    && forall k | from < k < to :: !log[k].Stored?
  }

  ghost predicate SamplesOk(s: State) {
    && (s.ros.TwistArrived? ==> Held(s.log, s.ros.at, |s.log|, s.ros.now))
    && forall m | 0 <= m < |s.log| && s.log[m].Stored? :: Held(s.log, s.log[m].arrived, m, s.log[m].time)
  }

  /** Another thread's step, or one without a Twist: it stores nothing. */
  lemma SamplesKept(s: State, s': State)
    requires SamplesOk(s) && s.log <= s'.log && forall k | |s.log| <= k < |s'.log| :: !s'.log[k].Stored?
    requires s'.ros == s.ros || !s'.ros.TwistArrived?
    ensures SamplesOk(s')
  {
  }

  /** At most one entry noted, and it is not a Twist. */
  predicate StoresNothing(s: State, s': State) {
    && s'.ros == s.ros && s.log <= s'.log && |s'.log| <= |s.log| + 1
    && (|s'.log| == |s.log| + 1 ==> !s'.log[|s.log|].Stored?)
  }

  lemma SocketStoresNothing(c: Params, s: State, input: SocketInput)
    ensures StoresNothing(s, SocketStep(c, s, input))
  {
  }

  lemma LatchingStoresNothing(c: Params, s: State, luck: Luck)
    requires Latches(s.control)
    ensures StoresNothing(s, ControlStep(c, s, luck))
  {
    hide Desired, Rounded, AfterFirst, AfterDecision, Resume, WireStep, ZeroStep;
  }

  lemma BystandingStoresNothing(s: State, s': State)
    requires Bystands(s, s')
    ensures StoresNothing(s, s')
  {
  }

  lemma ControlStoresNothing(c: Params, s: State, luck: Luck)
    ensures StoresNothing(s, ControlStep(c, s, luck))
  {
    hide Desired, Rounded, AfterFirst, AfterDecision, Resume, Bystands;
    if Deciding(s.control) || Sends(s.control) {
      Bystanding(c, s, luck);
      BystandingStoresNothing(s, ControlStep(c, s, luck));
    } else if Latches(s.control) {
      LatchingStoresNothing(c, s, luck);
    } else {
      assert s.control.FirstClock? || s.control.SecondClock? || s.control.Zeros? || s.control.OnWire?
             || s.control.Armed? || s.control.Sending? || s.control.LostTransport?;
    }
  }

  lemma RosKeepsSamples(c: Params, s: State, input: RosInput)
    requires SamplesOk(s)
    ensures SamplesOk(RosStep(c, s, input))
  {
    hide Bounded, TwistMessage, PauseMessage, BadTwistMessage;
    if !s.ros.TwistArrived? && !(s.ros.RosIdle? && input.Twist?) {
      SamplesKept(s, RosStep(c, s, input));
    }
  }

  lemma {:induction false} RunKeepsSamples(c: Params, clock: real, actions: seq<Action>)
    ensures SamplesOk(Run(c, Init(c, clock), actions))
    decreases |actions|
  {
    hide SamplesOk, RosStep, SocketStep, ControlStep;
    if actions == [] {
      NoSamples(c, clock);
    } else {
      var s := Run(c, Init(c, clock), actions[..|actions| - 1]);
      RunKeepsSamples(c, clock, actions[..|actions| - 1]);
      match actions[|actions| - 1] {
        case Tick(dt) => SamplesKept(s, Next(c, s, Tick(dt)));
        case RosAct(input) => RosKeepsSamples(c, s, input);
        case SocketAct(input) =>
          SocketStoresNothing(c, s, input);
          SamplesKept(s, SocketStep(c, s, input));
        case ControlAct(luck) =>
          ControlStoresNothing(c, s, luck);
          SamplesKept(s, ControlStep(c, s, luck));
      }
    }
  }

  lemma NoSamples(c: Params, clock: real)
    ensures SamplesOk(Init(c, clock))
  {
  }

  predicate NoReset(log: seq<Event>, from: int, to: int)
    requires 0 <= from && to <= |log|
  {
    forall r | from < r < to :: !log[r].Reset?
  }

  /**
   The way of a written Twist: its callback began at a, stored it at m, the last snapshot at `at` took it, k wrote
   it.
   */
  ghost predicate Way(c: Params, log: seq<Event>, a: int, m: int, at: int, k: int) {
    && 0 <= a < m < at < k < |log| && Backs(c, log, at, k)
    && InForceSince(log[..at], m) && log[k].sent == Rounded(log[m].cmd)
    && log[m].arrived == a && Held(log, a, m, log[m].time)
    && log[at].now - log[a].clock <= c.commandTimeout
  }

  lemma EveryMoveHasWay(c: Params, s: State, k: int) returns (a: int, m: int, at: int)
    requires ParamsOk(c) && Reachable(c, s) && 0 <= k < |s.log| && Moves(s.log[k])
    ensures Way(c, s.log, a, m, at, k)
  {
    at, m := EveryMoveIsBacked(c, s, k);
    var clock, actions :| s == Run(c, Init(c, clock), actions);
    RunKeepsSamples(c, clock, actions);
    a := s.log[m].arrived;
    hide Backs;
    assert s.log[m].Stored? && Held(s.log, a, m, s.log[m].time);
  }

  // ---------- the connection a Twist came in on ----------

  /** The live connection after a history: the one opened last, unless it closed. */
  function LiveAfter(log: seq<Event>): Option<nat>
    decreases |log|
  {
    if log == [] then None
    else match log[|log| - 1]
      case Opened(app) => Some(app)
      case Closed => None
      case _ => LiveAfter(log[..|log| - 1])
  }

  /** Every connection opens once. */
  ghost predicate OpensOnce(log: seq<Event>, link: Link) {
    && (forall i | 0 <= i < |log| && log[i].Opened? :: log[i].app < link.app || (log[i].app == link.app && link.used))
    && forall i, j | 0 <= i < j < |log| && log[i].Opened? && log[j].Opened? :: log[i].app != log[j].app
  }

  /** A callback notes the connection of the moment, a velocity is sent on the live one. */
  ghost predicate Placed(log: seq<Event>) {
    && (forall i | 0 <= i < |log| && log[i].Arrived? :: log[i].on == LiveAfter(log[..i]))
    && forall i | 0 <= i < |log| && log[i].Chosen? :: LiveAfter(log[..i]) == Some(log[i].app)
  }

  /** The connection chosen at p, with no snapshot since. */
  ghost predicate ChosenAt(log: seq<Event>, p: int, to: int, via: nat)
    requires to <= |log|
  {
    0 <= p < to && log[p] == Chosen(via) && forall i | p < i < to :: !log[i].Snapped?
  }

  ghost predicate WritesChosen(log: seq<Event>) {
    forall k | 0 <= k < |log| && Moves(log[k]) :: exists p :: ChosenAt(log, p, k, log[k].via)
  }

  ghost predicate WireChosen(log: seq<Event>, control: Control) {
    control.OnWire? ==> exists p :: ChosenAt(log, p, |log|, control.via)
  }

  ghost predicate LinkOk(s: State) {
    && Live(s.link) == LiveAfter(s.log) && OpensOnce(s.log, s.link) && Placed(s.log)
    && WritesChosen(s.log) && WireChosen(s.log, s.control)
  }

  /** What an entry says about the connection agrees with the state it was made in. */
  predicate Truthful(s: State, e: Event) {
    && (e.Opened? ==> s.link.app == e.app && !s.link.used)
    && (e.Arrived? ==> e.on == Live(s.link))
    && (e.Chosen? ==> Some(e.app) == Live(s.link))
    && (Moves(e) ==> s.control.OnWire? && e.via == s.control.via)
  }

  predicate SameLink(a: Link, b: Link) { a.app <= b.app && (a.app == b.app && a.used ==> b.used) }

  lemma LiveStep(log: seq<Event>, e: Event)
    ensures LiveAfter(log + [e]) == if e.Opened? then Some(e.app) else if e.Closed? then None else LiveAfter(log)
  {
    assert (log + [e])[..|log|] == log;
  }

  lemma PlacedStep(s: State, e: Event)
    requires Placed(s.log) && Live(s.link) == LiveAfter(s.log) && Truthful(s, e)
    ensures Placed(s.log + [e])
  {
    var log := s.log + [e];
    assert log[..|s.log|] == s.log;
    forall i | 0 <= i < |s.log|
      ensures log[..i] == s.log[..i] && log[i] == s.log[i]
    {
    }
  }

  lemma ChosenStep(log: seq<Event>, e: Event, p: int, to: int, via: nat)
    requires to <= |log| && ChosenAt(log, p, to, via)
    ensures ChosenAt(log + [e], p, to, via)
    ensures to == |log| && !e.Snapped? ==> ChosenAt(log + [e], p, to + 1, via)
  {
  }

  lemma WritesChosenStep(s: State, e: Event)
    requires WritesChosen(s.log) && WireChosen(s.log, s.control) && Truthful(s, e)
    ensures WritesChosen(s.log + [e])
  {
    hide ChosenAt;
    var log := s.log + [e];
    forall k | 0 <= k < |log| && Moves(log[k])
      ensures exists p :: ChosenAt(log, p, k, log[k].via)
    {
      if k < |s.log| {
        var p :| ChosenAt(s.log, p, k, s.log[k].via);
        ChosenStep(s.log, e, p, k, s.log[k].via);
      } else {
        var p :| ChosenAt(s.log, p, |s.log|, s.control.via);
        ChosenStep(s.log, e, p, |s.log|, s.control.via);
      }
    }
  }

  lemma WireChosenStep(log: seq<Event>, e: Event, control: Control)
    requires WireChosen(log, control) && !e.Snapped?
    ensures WireChosen(log + [e], control)
  {
    if control.OnWire? {
      var p :| ChosenAt(log, p, |log|, control.via);
      ChosenStep(log, e, p, |log|, control.via);
      assert ChosenAt(log + [e], p, |log + [e]|, control.via);
    }
  }

  lemma JustChosen(log: seq<Event>, app: nat)
    ensures ChosenAt(log + [Chosen(app)], |log|, |log| + 1, app)
  {
  }

  /** A step that notes nothing. */
  lemma QuietKeepsLink(s: State, s': State)
    requires LinkOk(s) && s'.log == s.log && Live(s'.link) == Live(s.link) && SameLink(s.link, s'.link)
    requires s'.control.OnWire? ==> s'.control == s.control
    ensures LinkOk(s')
  {
    hide LiveAfter, Placed, WritesChosen, ChosenAt;
  }

  /** A step that notes one entry. */
  lemma NoteKeepsLink(s: State, e: Event, s': State)
    requires LinkOk(s) && s'.log == s.log + [e] && Truthful(s, e) && SameLink(s.link, s'.link)
    requires Live(s'.link) == if e.Opened? then Some(e.app) else if e.Closed? then None else Live(s.link)
    requires e.Opened? ==> s'.link.app == e.app && s'.link.used
    requires s'.control.OnWire? ==> (s'.control == s.control && !e.Snapped?) || e == Chosen(s'.control.via)
    ensures LinkOk(s')
  {
    LiveStep(s.log, e);
    PlacedStep(s, e);
    WritesChosenStep(s, e);
    if s'.control.OnWire? {
      if e == Chosen(s'.control.via) {
        JustChosen(s.log, e.app);
        assert ChosenAt(s'.log, |s.log|, |s'.log|, s'.control.via);
      } else {
        WireChosenStep(s.log, e, s.control);
      }
    }
    hide LiveAfter, Placed, WritesChosen, ChosenAt;
  }

  /** What a step may do to the link: nothing, or what the one entry it notes says. */
  predicate LinkStep(s: State, s': State) {
    && SameLink(s.link, s'.link)
    && if s'.log == s.log then Live(s'.link) == Live(s.link) && (s'.control.OnWire? ==> s'.control == s.control)
       else
         && |s'.log| == |s.log| + 1 && s'.log == s.log + [s'.log[|s.log|]]
         && var e := s'.log[|s.log|];
            && Truthful(s, e)
            && Live(s'.link) == (if e.Opened? then Some(e.app) else if e.Closed? then None else Live(s.link))
            && (e.Opened? ==> s'.link.app == e.app && s'.link.used)
            && (s'.control.OnWire? ==> (s'.control == s.control && !e.Snapped?) || e == Chosen(s'.control.via))
  }

  lemma LinkStepKeeps(s: State, s': State)
    requires LinkOk(s) && LinkStep(s, s')
    ensures LinkOk(s')
  {
    hide LinkOk;
    if s'.log == s.log {
      QuietKeepsLink(s, s');
    } else {
      NoteKeepsLink(s, s'.log[|s.log|], s');
    }
  }

  /** A step that leaves the link alone and carries nothing new to the wire. */
  ghost predicate LeavesLink(s: State, s': State) {
    && s'.link == s.link && (s'.control.OnWire? ==> s'.control == s.control)
    && (s'.log == s.log || (exists e :: s'.log == s.log + [e] && Plain(s, e) && (e.Snapped? ==> !s'.control.OnWire?)))
  }

  predicate Plain(s: State, e: Event) {
    !e.Opened? && !e.Closed? && !e.Chosen? && !Moves(e) && (e.Arrived? ==> e.on == Live(s.link))
  }

  lemma LeavingIsLinkStep(s: State, s': State)
    requires LeavesLink(s, s')
    ensures LinkStep(s, s')
  {
  }

  lemma LeavesQuietly(s: State, s': State)
    requires s'.link == s.link && s'.log == s.log && (s'.control.OnWire? ==> s'.control == s.control)
    ensures LeavesLink(s, s')
  {
  }

  lemma LeavesWith(s: State, s': State, e: Event)
    requires s'.link == s.link && s'.log == s.log + [e] && Plain(s, e)
    requires s'.control.OnWire? ==> s'.control == s.control && !e.Snapped?
    ensures LeavesLink(s, s')
  {
  }

  lemma RosLeavesLink(c: Params, s: State, input: RosInput)
    ensures LeavesLink(s, RosStep(c, s, input))
  {
    hide Bounded, TwistMessage, PauseMessage, BadTwistMessage, LeavesLink;
    var s' := RosStep(c, s, input);
    match s.ros {
      case RosIdle =>
        match input {
          case Shutdown => LeavesWith(s, s', PauseSet);
          case Twist(_) => LeavesWith(s, s', Arrived(s.clock, Live(s.link)));
          case _ => LeavesQuietly(s, s');
        }
      case PauseArrived(data, now) => LeavesWith(s, s', if data then PauseSet else Resumed);
      case TwistArrived(v, now, at) => LeavesWith(s, s', Stored(Bounded(c, v), now, at));
      case BadTwist(now) => LeavesWith(s, s', Refused);
      case BadTwistLatch => LeavesWith(s, s', PauseSet);
      case ShuttingDown => LeavesQuietly(s, s');
      case ShutDown =>
        if s.control == Stopped && s.link.connected && s.link.accid {
          LeavesWith(s, s', Zeroed(s.link.app, true));
        } else {
          LeavesQuietly(s, s');
        }
    }
  }

  lemma SocketLinkStep(c: Params, s: State, input: SocketInput)
    ensures LinkStep(s, SocketStep(c, s, input))
  {
    hide OpenReset, NotReady, Latched;
  }

  lemma BystandingLeavesLink(s: State, s': State)
    requires Bystands(s, s')
    ensures LeavesLink(s, s')
  {
    hide LeavesLink;
    if s'.log == s.log {
      LeavesQuietly(s, s');
    } else {
      LeavesWith(s, s', s'.log[|s.log|]);
    }
  }

  lemma LatchingLeavesLink(c: Params, s: State, luck: Luck)
    requires Latches(s.control)
    ensures LeavesLink(s, ControlStep(c, s, luck))
  {
    hide Desired, Rounded, WireStep, ZeroStep, LeavesLink, AfterFirst, AfterDecision;
    LeavesWith(s, ControlStep(c, s, luck), PauseSet);
  }

  lemma ArmedLeavesLink(c: Params, s: State, luck: Luck)
    requires s.control.Armed?
    ensures LeavesLink(s, ControlStep(c, s, luck))
  {
    hide LeavesLink;
    if s.shared.walkReady {
      LeavesWith(s, ControlStep(c, s, luck), WalkSeen);
    } else {
      LeavesQuietly(s, ControlStep(c, s, luck));
    }
  }

  lemma SnapshotLeavesLink(c: Params, s: State, luck: Luck)
    requires s.control.FirstClock? || s.control.SecondClock?
    ensures LeavesLink(s, ControlStep(c, s, luck))
  {
    hide Desired, Rounded, WireStep, ZeroStep, LeavesLink, AfterFirst, AfterDecision, Resume;
    LeavesWith(s, ControlStep(c, s, luck), Snapped(s.control.now));
  }

  lemma ZerosLeaveLink(c: Params, s: State, luck: Luck)
    requires s.control.Zeros?
    ensures LeavesLink(s, ControlStep(c, s, luck))
  {
    hide Desired, Rounded, WireStep, LeavesLink, AfterFirst, AfterDecision, Resume;
    var s' := ControlStep(c, s, luck);
    if s'.log == s.log {
      LeavesQuietly(s, s');
    } else {
      LeavesWith(s, s', s'.log[|s.log|]);
    }
  }

  lemma TransportLinkStep(c: Params, s: State, luck: Luck)
    requires s.control.Sending? || s.control.LostTransport? || s.control.OnWire?
    ensures LinkStep(s, ControlStep(c, s, luck))
  {
    hide Desired, Rounded, ZeroStep, AfterFirst, AfterDecision;
  }

  lemma ControlKeepsLink(c: Params, s: State, luck: Luck)
    requires LinkOk(s)
    ensures LinkOk(ControlStep(c, s, luck))
  {
    hide LinkOk, LinkStep, LeavesLink, ControlStep, Bystands;
    var s' := ControlStep(c, s, luck);
    match s.control {
      case FirstClock(_) => SnapshotLeavesLink(c, s, luck);
      case SecondClock(_) => SnapshotLeavesLink(c, s, luck);
      case Zeros(_, _) => ZerosLeaveLink(c, s, luck);
      case Sending(_, _) => TransportLinkStep(c, s, luck);
      case LostTransport(_, _) => TransportLinkStep(c, s, luck);
      case OnWire(_, _, _) => TransportLinkStep(c, s, luck);
      case _ =>
        if Latches(s.control) {
          LatchingLeavesLink(c, s, luck);
        } else if s.control.Armed? {
          ArmedLeavesLink(c, s, luck);
        } else {
          Bystanding(c, s, luck);
          BystandingLeavesLink(s, s');
        }
    }
    if LeavesLink(s, s') {
      LeavingIsLinkStep(s, s');
    }
    LinkStepKeeps(s, s');
  }

  lemma RosKeepsLink(c: Params, s: State, input: RosInput)
    requires LinkOk(s)
    ensures LinkOk(RosStep(c, s, input))
  {
    hide LinkOk, LinkStep, LeavesLink, RosStep;
    RosLeavesLink(c, s, input);
    LeavingIsLinkStep(s, RosStep(c, s, input));
    LinkStepKeeps(s, RosStep(c, s, input));
  }

  lemma SocketKeepsLink(c: Params, s: State, input: SocketInput)
    requires LinkOk(s)
    ensures LinkOk(SocketStep(c, s, input))
  {
    hide LinkOk, LinkStep, SocketStep;
    SocketLinkStep(c, s, input);
    LinkStepKeeps(s, SocketStep(c, s, input));
  }

  lemma NoLinks(c: Params, clock: real)
    ensures LinkOk(Init(c, clock))
  {
  }

  lemma {:induction false} RunKeepsLink(c: Params, clock: real, actions: seq<Action>)
    ensures LinkOk(Run(c, Init(c, clock), actions))
    decreases |actions|
  {
    hide LinkOk, RosStep, SocketStep, ControlStep;
    if actions == [] {
      NoLinks(c, clock);
    } else {
      var s := Run(c, Init(c, clock), actions[..|actions| - 1]);
      RunKeepsLink(c, clock, actions[..|actions| - 1]);
      match actions[|actions| - 1] {
        case Tick(dt) => QuietKeepsLink(s, Next(c, s, Tick(dt)));
        case RosAct(input) => RosKeepsLink(c, s, input);
        case SocketAct(input) => SocketKeepsLink(c, s, input);
        case ControlAct(luck) => ControlKeepsLink(c, s, luck);
      }
    }
  }

  /** The opening of the connection that is live. */
  lemma {:induction false} LiveWasOpened(log: seq<Event>) returns (o: int)
    requires LiveAfter(log).Some?
    ensures 0 <= o < |log| && log[o] == Opened(LiveAfter(log).value)
    ensures forall i | o < i < |log| :: !log[i].Opened? && !log[i].Closed?
    decreases |log|
  {
    var n := |log| - 1;
    if log[n].Opened? {
      o := n;
    } else {
      o := LiveWasOpened(log[..n]);
    }
  }

  lemma {:induction false} StaysLive(log: seq<Event>, o: int, a: int)
    requires 0 <= o < a <= |log| && log[o].Opened? && forall i | o < i < a :: !log[i].Opened? && !log[i].Closed?
    ensures LiveAfter(log[..a]) == Some(log[o].app)
    decreases a
  {
    assert log[..a][..a - 1] == log[..a - 1];
    if o < a - 1 {
      StaysLive(log, o, a - 1);
    }
  }

  /** A write at k goes out on the connection chosen at p, which opened at o and stayed live up to p. */
  ghost predicate Route(log: seq<Event>, o: int, p: int, k: int) {
    && 0 <= o < p < k < |log| && Moves(log[k])
    && log[o] == Opened(log[k].via) && log[p] == Chosen(log[k].via)
    && (forall i | o < i < p :: !log[i].Opened? && !log[i].Closed?)
    && forall i | 0 <= i < |log| && log[i] == Opened(log[k].via) :: i == o
  }

  lemma ReachableLink(c: Params, s: State)
    requires Reachable(c, s)
    ensures LinkOk(s)
  {
    var clock, actions :| s == Run(c, Init(c, clock), actions);
    RunKeepsLink(c, clock, actions);
  }

  lemma RouteOf(s: State, k: int) returns (o: int, p: int)
    requires LinkOk(s) && 0 <= k < |s.log| && Moves(s.log[k])
    ensures Route(s.log, o, p, k) && ChosenAt(s.log, p, k, s.log[k].via)
  {
    p :| ChosenAt(s.log, p, k, s.log[k].via);
    assert s.log[p].Chosen?;
    o := LiveWasOpened(s.log[..p]);
    assert forall i | 0 <= i < p :: s.log[..p][i] == s.log[i];
    hide LiveAfter;
  }

  /** Every non-zero write has its way, and its route: the choice comes after the snapshot. */
  lemma EveryMoveHasRoute(c: Params, s: State, k: int) returns (o: int, a: int, m: int, at: int, p: int)
    requires ParamsOk(c) && Reachable(c, s) && 0 <= k < |s.log| && Moves(s.log[k])
    ensures Way(c, s.log, a, m, at, k) && Route(s.log, o, p, k) && at < p
    ensures 0 <= a < m < at && s.log[a].Arrived? && s.log[a].on == LiveAfter(s.log[..a])
  {
    hide Way, Route, LiveAfter, Reachable, LinkOk;
    a, m, at := EveryMoveHasWay(c, s, k);
    WayKinds(c, s.log, a, m, at, k);
    ReachableLink(c, s);
    o, p := RouteOf(s, k);
    ArrivedWhere(s, a);
  }

  lemma ArrivedWhere(s: State, a: int)
    requires LinkOk(s) && 0 <= a < |s.log| && s.log[a].Arrived?
    ensures s.log[a].on == LiveAfter(s.log[..a])
  {
  }

  /** The promise made where a connection opens: the Twist arrived on the connection it is written to. */
  predicate ArrivedOn(log: seq<Event>, a: int, k: int)
    requires 0 <= a < |log| && log[a].Arrived? && 0 <= k < |log| && log[k].Written?
  {
    log[a].on == Some(log[k].via)
  }

  /** At the snapshot the connection was open and its reset outstanding, and the Twist was stored before it opened. */
  predicate ResetOutstanding(log: seq<Event>, o: int, m: int, at: int)
    requires 0 <= o && at <= |log|
  {
    m < o < at && NoReset(log, o, at)
  }

  /**
   When the promise is kept, for every non-zero write of every run: exactly when its connection did not open while
   the callback held the Twist, was not waiting for its reset when the snapshot was taken, and did not open between
   the snapshot and the choice of the connection. Everywhere else the code does clear what is stale.
   */
  lemma FreshUnlessOpenedInWindow(c: Params, s: State, k: int) returns (o: int, a: int, m: int, at: int, p: int)
    requires ParamsOk(c) && Reachable(c, s) && 0 <= k < |s.log| && Moves(s.log[k])
    ensures Way(c, s.log, a, m, at, k) && Route(s.log, o, p, k) && at < p && s.log[a].Arrived?
    ensures ArrivedOn(s.log, a, k) <==> !(a < o < m) && !ResetOutstanding(s.log, o, m, at) && !(at < o < p)
  {
    o, a, m, at, p := EveryMoveHasRoute(c, s, k);
    StoredToSnapshot(c, s.log, a, m, at, k);
    WayKinds(c, s.log, a, m, at, k);
    hide Way, LiveAfter;
    if ArrivedOn(s.log, a, k) {
      var o' := LiveWasOpened(s.log[..a]);
      assert s.log[..a][o'] == s.log[o'];
    }
    if o < a {
      StaysLive(s.log, o, a);
    }
  }

  lemma WayKinds(c: Params, log: seq<Event>, a: int, m: int, at: int, k: int)
    requires Way(c, log, a, m, at, k)
    ensures 0 <= a < m < at < k < |log| && log[a].Arrived? && log[m].Stored? && log[at].Snapped? && log[k].Written?
  {
    StoredToSnapshot(c, log, a, m, at, k);
  }

  lemma StoredToSnapshot(c: Params, log: seq<Event>, a: int, m: int, at: int, k: int)
    requires Way(c, log, a, m, at, k)
    ensures NoReset(log, m, at) && log[m].Stored? && log[at].Snapped?
  {
    assert forall r | 0 <= r < at :: log[r] == log[..at][r];
  }

  /** The damage of one moment: it falls between the snapshot and the write of at most one write. */
  lemma OneWriteInFlight(c: Params, log: seq<Event>, r: int, at: int, j: int, at': int, k: int)
    requires Backs(c, log, at, j) && Backs(c, log, at', k) && at < r < j && at' < r < k
    ensures j == k
  {
    assert Undisturbed(log, at, j) && Undisturbed(log, at', k);
  }

  /** And at most one Twist is held by its callback. */
  lemma OneTwistHeld(c: Params, s: State, r: int, m: int, n: int)
    requires Reachable(c, s) && 0 <= r < |s.log|
    requires r < m < |s.log| && r < n < |s.log| && s.log[m].Stored? && s.log[n].Stored?
    requires s.log[m].arrived < r && s.log[n].arrived < r
    ensures m == n
  {
    var clock, actions :| s == Run(c, Init(c, clock), actions);
    RunKeepsSamples(c, clock, actions);
    assert Held(s.log, s.log[m].arrived, m, s.log[m].time) && Held(s.log, s.log[n].arrived, n, s.log[n].time);
  }

  /**
   So of the writes on one connection that break the promise, all but the first were decided before its reset, or
   carry the one Twist that was held while it opened, as long as that is younger than command_timeout.
   */
  lemma StaleWritesPerConnection(c: Params, s: State, j: int, k: int)
    returns (o: int, a: int, m: int, at: int, p: int)
    requires ParamsOk(c) && Reachable(c, s) && 0 <= j < k < |s.log|
    requires Moves(s.log[j]) && Moves(s.log[k]) && s.log[j].via == s.log[k].via
    ensures Way(c, s.log, a, m, at, k) && Route(s.log, o, p, k) && s.log[a].Arrived?
    ensures || ArrivedOn(s.log, a, k) || ResetOutstanding(s.log, o, m, at)
            || (a < o < m && forall n | o < n < |s.log| && s.log[n].Stored? && s.log[n].arrived < o :: n == m)
  {
    var o', a', m', at', p' := EveryMoveHasRoute(c, s, j);
    o, a, m, at, p := FreshUnlessOpenedInWindow(c, s, k);
    assert o' == o;
    StoredToSnapshot(c, s.log, a, m, at, k);
    assert s.log[m].arrived == a && j < at by { assert Undisturbed(s.log, at, k); }
    hide Way;
    if a < o < m {
      forall n | o < n < |s.log| && s.log[n].Stored? && s.log[n].arrived < o
        ensures n == m
      {
        OneTwistHeld(c, s, o, m, n);
      }
    }
  }

  // ---------- walk mode ----------

  /** Entries with which walk mode is decided. */
  predicate Settles(e: Event) { e.WalkEntered? || e.WalkLost? || e.Rested? || e.Reset? }

  /** Entries after which the control thread decides walk mode anew before it sends. */
  predicate Unsettles(e: Event) { e.Zeroed? || e.Idled? || (e.Written? && !e.ok) }

  function Settled(log: seq<Event>): bool
    decreases |log|
  {
    log == []
    || (var e := log[|log| - 1]; Settles(e) || (!Unsettles(e) && Settled(log[..|log| - 1])))
  }

  /** A connection has closed, and walk mode has not been decided since. */
  function Losing(log: seq<Event>): bool
    decreases |log|
  {
    log != []
    && (var e := log[|log| - 1]; e.Closed? || (!Settles(e) && Losing(log[..|log| - 1])))
  }

  /** What stops the robot until a resume message. */
  predicate IsFailure(e: Event) { e.Failure? || (e.Written? && !e.ok) || (e.Zeroed? && !e.ok) }

  /** A failure with no pause since. */
  function Failing(log: seq<Event>): bool
    decreases |log|
  {
    log != []
    && (var e := log[|log| - 1]; IsFailure(e) || (!e.PauseSet? && Failing(log[..|log| - 1])))
  }

  /** A connection closed with no pause since. */
  function Unlatched(log: seq<Event>): bool
    decreases |log|
  {
    log != []
    && (var e := log[|log| - 1]; e.Closed? || (!e.PauseSet? && Unlatched(log[..|log| - 1])))
  }

  lemma LatchStep(log: seq<Event>, e: Event)
    ensures Failing(log + [e]) == (IsFailure(e) || (!e.PauseSet? && Failing(log)))
    ensures Unlatched(log + [e]) == (e.Closed? || (!e.PauseSet? && Unlatched(log)))
  {
    assert (log + [e])[..|log|] == log;
  }

  /** From here the control thread sets the pause before its next snapshot. */
  predicate MustLatch(control: Control) {
    || control.TimedOut? || control.ModeFailed? || control.ZeroFailed? || control.CommandFailed?
    || control.CommandFailedLatch? || control.LostTransport? || control.LostState? || control.LostLatch?
  }

  /** The thread that closed a connection has its pause to set; until then no other is opened. */
  predicate LatchUnderWay(s: State) {
    || (s.control.LostState? && s.control.changed) || s.control.LostLatch?
    || (!s.link.connected && (s.socket.SocketLatch? || (s.socket.Dropped? && s.socket.changed)))
  }

  /** Every snapshot comes after the pause for each failure before it. */
  ghost predicate SnapsLatched(log: seq<Event>) {
    forall at | 0 <= at < |log| && log[at].Snapped? :: !Failing(log[..at])
  }

  /** And every choice of a connection after the pause for each connection closed before it. */
  ghost predicate ChoicesLatched(log: seq<Event>) {
    forall q | 0 <= q < |log| && log[q].Chosen? :: !Unlatched(log[..q])
  }

  ghost predicate LatchOk(s: State) {
    && (Failing(s.log) ==> MustLatch(s.control)) && SnapsLatched(s.log)
    && (!s.transportStop ==> (Unlatched(s.log) ==> LatchUnderWay(s)) && ChoicesLatched(s.log))
  }

  /** The pauses to come agree with one more entry. */
  predicate Latching(s: State, e: Event, s': State) {
    && (IsFailure(e) ==> MustLatch(s'.control))
    && (!e.PauseSet? && MustLatch(s.control) ==> MustLatch(s'.control))
    && (e.Snapped? ==> !MustLatch(s.control)) && (s.transportStop ==> s'.transportStop)
    && (!s'.transportStop && (e.Closed? || (!e.PauseSet? && LatchUnderWay(s))) ==> LatchUnderWay(s'))
    && (e.Chosen? ==> !LatchUnderWay(s))
  }

  lemma PrefixesKept(log: seq<Event>, e: Event)
    ensures forall i | 0 <= i <= |log| :: (log + [e])[..i] == log[..i]
    ensures log[..|log|] == log
  {
  }

  lemma NoteLatches(s: State, e: Event, s': State)
    requires LatchOk(s) && s'.log == s.log + [e] && Latching(s, e, s')
    ensures LatchOk(s')
  {
    LatchStep(s.log, e);
    PrefixesKept(s.log, e);
    hide Failing, Unlatched, MustLatch, LatchUnderWay, IsFailure;
  }

  lemma QuietLatches(s: State, s': State)
    requires LatchOk(s) && s'.log == s.log && (s.transportStop ==> s'.transportStop)
    requires (MustLatch(s.control) ==> MustLatch(s'.control)) && (LatchUnderWay(s) ==> LatchUnderWay(s'))
    ensures LatchOk(s')
  {
    hide Failing, Unlatched, MustLatch, LatchUnderWay;
  }

  /** The accepted mode request that a zero sequence is under way for, and the messages sent so far. */
  datatype Sequence = Sequence(request: int, sent: nat)

  predicate Breaks(e: Event) { e.Written? || e.Snapped? || e.WalkEntered? || e.Idled? || (e.Zeroed? && !e.ok) }

  function Under(log: seq<Event>): Option<Sequence>
    decreases |log|
  {
    if log == [] then None
    else
      var (e, before) := (log[|log| - 1], Under(log[..|log| - 1]));
      if e.ModeAccepted? then Some(Sequence(|log| - 1, 0))
      else if Breaks(e) then None
      else if e.Zeroed? && before.Some? then Some(Sequence(before.value.request, before.value.sent + 1))
      else before
  }

  /** How one entry changes these. */
  lemma SettledStep(log: seq<Event>, e: Event)
    ensures Settled(log + [e]) == (Settles(e) || (!Unsettles(e) && Settled(log)))
    ensures Losing(log + [e]) == (e.Closed? || (!Settles(e) && Losing(log)))
  {
    assert (log + [e])[..|log|] == log;
  }

  /** A cycle with nothing to send: where it began, whether a zero sequence was owed, and what it has sent. */
  datatype Rest = Rest(start: int, owed: bool, sent: nat, failed: bool)

  function Cycle(log: seq<Event>): Option<Rest>
    decreases |log|
  {
    if log == [] then None
    else CycleAfter(Cycle(log[..|log| - 1]), log[|log| - 1], |log| - 1, ForceAfter(log[..|log| - 1]))
  }

  function CycleAfter(before: Option<Rest>, e: Event, n: int, force: bool): Option<Rest> {
    if e.Idled? then Some(Rest(n, force, 0, false))
    else if before.None? || e.Snapped? then None
    else if IsFailure(e) then Some(before.value.(failed := true))
    else if e.Zeroed? then Some(before.value.(sent := before.value.sent + 1))
    else before
  }

  lemma CycleStep(log: seq<Event>, e: Event)
    ensures Cycle(log + [e]) == CycleAfter(Cycle(log), e, |log|, ForceAfter(log))
    ensures ForceFollows(ForceAfter(log), e, ForceAfter(log + [e]))
  {
    assert (log + [e])[..|log|] == log;
    ForceStep(log, e);
    hide CycleAfter, ForceAfter, ForceFollows;
  }

  lemma ForceStep(log: seq<Event>, e: Event)
    ensures ForceFollows(ForceAfter(log), e, ForceAfter(log + [e]))
  {
    assert (log + [e])[..|log|] == log;
  }

  /** A zero sequence that was owed has gone out, or something failed. */
  predicate Paid(c: Params, r: Rest) { r.owed ==> r.failed || r.sent == c.zeroRepeat }

  /** Where the control thread stands in a cycle with nothing to send. */
  ghost predicate CycleOk(c: Params, log: seq<Event>, control: Control) {
    var r := Cycle(log);
    match control
    case ZeroCheck => r.Some? && r.value.sent == 0 && (r.value.owed ==> ForceAfter(log))
    case ZeroCount => r.Some? && r.value.sent == 0 && (r.value.owed ==> ForceAfter(log))
    case Zeros(false, left) =>
      r.Some? && (r.value.owed ==> left <= c.zeroRepeat && r.value.sent == c.zeroRepeat - left)
    case ZeroRecord(false) => r.Some? && Paid(c, r.value)
    case ZeroDone => r.Some? && Paid(c, r.value)
    case ZeroFailed(false) => r.Some? && r.value.failed
    case LostTransport(_, back) => back == ToZeroFailure(false) ==> r.Some? && r.value.failed
    case LostState(_, back) => back == ToZeroFailure(false) ==> r.Some? && r.value.failed
    case LostLatch(back) => back == ToZeroFailure(false) ==> r.Some? && r.value.failed
    case _ => true
  }

  /** Each such cycle ends paid. */
  ghost predicate RestsOk(c: Params, log: seq<Event>) {
    forall e | 0 <= e < |log| && log[e].Rested? :: Cycle(log[..e]).Some? && Paid(c, Cycle(log[..e]).value)
  }

  lemma RestsStep(c: Params, log: seq<Event>, e: Event)
    requires RestsOk(c, log) && (e.Rested? ==> Cycle(log).Some? && Paid(c, Cycle(log).value))
    ensures RestsOk(c, log + [e])
  {
    PrefixesKept(log, e);
    hide Cycle, Paid;
  }

  lemma UnderStep(log: seq<Event>, e: Event)
    ensures Under(log + [e])
         == if e.ModeAccepted? then Some(Sequence(|log|, 0))
            else if Breaks(e) then None
            else if e.Zeroed? && Under(log).Some?
              then Some(Sequence(Under(log).value.request, Under(log).value.sent + 1))
            else Under(log)
  {
    assert (log + [e])[..|log|] == log;
  }

  /** From here the control thread decides walk mode before it looks at it. */
  predicate Deciders(control: Control) {
    || control.ZeroCheck? || control.ZeroCount? || control.Zeros? || control.ZeroFailed? || control.ZeroRecord?
    || control.WalkOff? || control.WalkOn? || control.ZeroDone? || control.CommandFailed? || control.LostTransport?
    || control.LostState? || control.LostLatch? || control.Stopped?
  }

  /** The thread that noticed the loss of a connection has its state region to run. */
  predicate LossUnderWay(s: State) { s.control.LostState? || (s.socket.Dropped? && !s.link.connected) }

  ghost predicate EntryOk(c: Params, log: seq<Event>, control: Control) {
    match control
    case Zeros(true, left) =>
      left <= c.zeroRepeat && Under(log).Some? && Under(log).value.sent == c.zeroRepeat - left
    case ZeroRecord(true) => Under(log).Some? && Under(log).value.sent == c.zeroRepeat
    case WalkOn => Under(log).Some? && Under(log).value.sent == c.zeroRepeat
    case _ => true
  }

  ghost predicate EntriesOk(c: Params, log: seq<Event>) {
    forall e | 0 <= e < |log| && log[e].WalkEntered? ::
      Under(log[..e]).Some? && Under(log[..e]).value.sent == c.zeroRepeat
  }

  predicate Passive(e: Event) { !Moves(e) && !e.Snapped? && !e.WalkEntered? }

  /** At r the control thread saw that walk mode was on; it has not gone round since. */
  ghost predicate Seen(log: seq<Event>, r: int, to: int) {
    && 0 <= r < to <= |log| && log[r].WalkSeen? && WalkAfter(log[..r]) && Settled(log[..r])
    && forall i | r < i < to :: Passive(log[i])
  }

  /** And at q it chose a connection that was up. */
  ghost predicate Walked(log: seq<Event>, r: int, q: int, to: int) {
    Seen(log, r, to) && r < q < to && log[q].Chosen? && !Losing(log[..q])
  }

  ghost predicate CarryOk(log: seq<Event>, control: Control) {
    && (control.Sending? ==> exists r :: Seen(log, r, |log|))
    && (control.OnWire? ==> exists r, q :: Walked(log, r, q, |log|))
  }

  ghost predicate WritesWalk(log: seq<Event>) {
    forall k | 0 <= k < |log| && Moves(log[k]) :: exists r, q :: Walked(log, r, q, k)
  }

  ghost predicate WalkInv(c: Params, s: State) {
    && (!Settled(s.log) ==> Deciders(s.control)) && (Losing(s.log) ==> LossUnderWay(s))
    && EntryOk(c, s.log, s.control) && CycleOk(c, s.log, s.control) && EntriesOk(c, s.log) && RestsOk(c, s.log)
    && CarryOk(s.log, s.control) && WritesWalk(s.log)
    && LatchOk(s)
  }

  lemma SeenStep(log: seq<Event>, e: Event, r: int, to: int)
    requires Seen(log, r, to)
    ensures Seen(log + [e], r, to)
    ensures to == |log| && Passive(e) ==> Seen(log + [e], r, to + 1)
  {
    assert (log + [e])[..r] == log[..r];
    hide Settled, WalkAfter;
  }

  lemma WalkedStep(log: seq<Event>, e: Event, r: int, q: int, to: int)
    requires Walked(log, r, q, to)
    ensures Walked(log + [e], r, q, to)
    ensures to == |log| && Passive(e) ==> Walked(log + [e], r, q, to + 1)
  {
    SeenStep(log, e, r, to);
    assert (log + [e])[..q] == log[..q];
    hide Seen, Losing;
  }

  lemma WritesWalkStep(log: seq<Event>, e: Event, control: Control)
    requires WritesWalk(log) && CarryOk(log, control) && (Moves(e) ==> control.OnWire?)
    ensures WritesWalk(log + [e])
  {
    hide Walked, Seen;
    var log' := log + [e];
    forall k | 0 <= k < |log'| && Moves(log'[k])
      ensures exists r, q :: Walked(log', r, q, k)
    {
      if k < |log| {
        var r, q :| Walked(log, r, q, k);
        WalkedStep(log, e, r, q, k);
      } else {
        var r, q :| Walked(log, r, q, |log|);
        WalkedStep(log, e, r, q, |log|);
      }
    }
  }

  /** What is carried to the wire stays carried, or has just passed the check or the choice. */
  predicate Carries(s: State, e: Event, s': State) {
    && (s'.control.Sending? ==> (s'.control == s.control && Passive(e))
                                || (e.WalkSeen? && WalkAfter(s.log) && Settled(s.log)))
    && (s'.control.OnWire? ==> (s'.control == s.control && Passive(e))
                               || (s.control.Sending? && e.Chosen? && !Losing(s.log)))
    && (Moves(e) ==> s.control.OnWire?)
  }

  lemma CarryStep(s: State, e: Event, s': State)
    requires CarryOk(s.log, s.control) && Carries(s, e, s')
    ensures CarryOk(s.log + [e], s'.control)
  {
    var log' := s.log + [e];
    assert log'[..|s.log|] == s.log;
    hide WalkAfter, Settled, Losing;
    if s'.control.Sending? {
      if s'.control == s.control && Passive(e) {
        var r :| Seen(s.log, r, |s.log|);
        SeenStep(s.log, e, r, |s.log|);
      } else {
        assert Seen(log', |s.log|, |log'|);
      }
    }
    if s'.control.OnWire? {
      if s'.control == s.control && Passive(e) {
        var r, q :| Walked(s.log, r, q, |s.log|);
        WalkedStep(s.log, e, r, q, |s.log|);
      } else {
        var r :| Seen(s.log, r, |s.log|);
        SeenStep(s.log, e, r, |s.log|);
        assert Walked(log', r, |s.log|, |log'|);
      }
    }
  }

  lemma EntriesStep(c: Params, log: seq<Event>, e: Event)
    requires EntriesOk(c, log) && (e.WalkEntered? ==> Under(log).Some? && Under(log).value.sent == c.zeroRepeat)
    ensures EntriesOk(c, log + [e])
  {
    var log' := log + [e];
    hide Under;
    forall i | 0 <= i < |log'| && log'[i].WalkEntered?
      ensures Under(log'[..i]).Some? && Under(log'[..i]).value.sent == c.zeroRepeat
    {
      assert log'[..i] == log[..i];
      assert log[..|log|] == log;
    }
  }

  /** The phases of the threads agree with one more entry. */
  predicate InPhase(s: State, e: Event, s': State) {
    && (Unsettles(e) ==> Deciders(s'.control))
    && (!Settles(e) && Deciders(s.control) ==> Deciders(s'.control))
    && (e.Closed? || (!Settles(e) && LossUnderWay(s)) ==> LossUnderWay(s'))
  }

  lemma NoteKeepsWalk(c: Params, s: State, e: Event, s': State)
    requires WalkInv(c, s) && s'.log == s.log + [e] && InPhase(s, e, s') && Carries(s, e, s') && Latching(s, e, s')
    requires EntryOk(c, s.log + [e], s'.control) && CycleOk(c, s.log + [e], s'.control)
    requires e.Rested? ==> Cycle(s.log).Some? && Paid(c, Cycle(s.log).value)
    requires e.WalkEntered? ==> Under(s.log).Some? && Under(s.log).value.sent == c.zeroRepeat
    ensures WalkInv(c, s')
  {
    SettledStep(s.log, e);
    EntriesStep(c, s.log, e);
    WritesWalkStep(s.log, e, s.control);
    CarryStep(s, e, s');
    NoteLatches(s, e, s');
    RestsStep(c, s.log, e);
    hide CycleOk, RestsOk, Cycle, Paid, LatchOk, Latching, Settled, Losing, Under, WritesWalk, CarryOk, EntriesOk;
    hide EntryOk, Deciders, LossUnderWay;
  }

  lemma QuietKeepsWalk(c: Params, s: State, s': State)
    requires WalkInv(c, s) && s'.log == s.log
    requires (Deciders(s.control) ==> Deciders(s'.control)) && (LossUnderWay(s) ==> LossUnderWay(s'))
    requires (MustLatch(s.control) ==> MustLatch(s'.control)) && (LatchUnderWay(s) ==> LatchUnderWay(s'))
    requires (s.transportStop ==> s'.transportStop) && EntryOk(c, s.log, s'.control) && CycleOk(c, s.log, s'.control)
    requires s'.control.Sending? || s'.control.OnWire? ==> s'.control == s.control
    ensures WalkInv(c, s')
  {
    QuietLatches(s, s');
    hide CycleOk, RestsOk, LatchOk, MustLatch, LatchUnderWay;
    hide Settled, Losing, Under, WritesWalk, EntriesOk, EntryOk, Deciders, LossUnderWay, Seen, Walked;
  }

  /** An entry that no zero sequence minds. */
  lemma CycleKept(c: Params, log: seq<Event>, e: Event, control: Control)
    requires CycleOk(c, log, control) && !Breaks(e) && !e.Zeroed? && !IsFailure(e) && !e.Recorded? && !e.Acknowledged?
    ensures CycleOk(c, log + [e], control)
  {
    CycleStep(log, e);
    hide Cycle, ForceAfter;
  }

  lemma EntryKept(c: Params, log: seq<Event>, e: Event, control: Control)
    requires EntryOk(c, log, control) && !e.ModeAccepted? && !Breaks(e) && !e.Zeroed?
    ensures EntryOk(c, log + [e], control)
  {
    UnderStep(log, e);
    hide Under, Settled, Losing;
  }

  /** A step of another thread that notes one entry. */
  lemma OtherKeepsWalk(c: Params, s: State, e: Event, s': State)
    requires WalkInv(c, s) && s'.log == s.log + [e] && s'.control == s.control
    requires !e.ModeAccepted? && !Breaks(e) && !Unsettles(e) && !e.WalkEntered?
    requires e.Closed? || (!Settles(e) && LossUnderWay(s)) ==> LossUnderWay(s')
    requires !IsFailure(e) && !e.Zeroed? && !e.Recorded? && !e.Acknowledged? && !e.Rested?
    requires !e.Chosen? && (s.transportStop ==> s'.transportStop)
    requires !s'.transportStop && (e.Closed? || (!e.PauseSet? && LatchUnderWay(s))) ==> LatchUnderWay(s')
    ensures WalkInv(c, s')
  {
    EntryKept(c, s.log, e, s.control);
    CycleKept(c, s.log, e, s.control);
    hide CycleOk, Cycle, Paid, WalkInv, LossUnderWay, Deciders, EntryOk, MustLatch, LatchUnderWay;
    NoteKeepsWalk(c, s, e, s');
  }

  lemma RosIdleKeepsWalk(c: Params, s: State, input: RosInput)
    requires WalkInv(c, s) && s.ros.RosIdle?
    ensures WalkInv(c, RosStep(c, s, input))
  {
    hide WalkInv, EntryOk, CycleOk, Deciders, MustLatch;
    match input {
      case Twist(_) => OtherKeepsWalk(c, s, Arrived(s.clock, Live(s.link)), RosStep(c, s, input));
      case Shutdown => OtherKeepsWalk(c, s, PauseSet, RosStep(c, s, input));
      case _ => RosQuiet(c, s, RosStep(c, s, input));
    }
  }

  lemma RosKeepsWalk(c: Params, s: State, input: RosInput)
    requires WalkInv(c, s)
    ensures WalkInv(c, RosStep(c, s, input))
  {
    hide WalkInv, EntryOk, CycleOk, Deciders, MustLatch, Bounded, TwistMessage, PauseMessage, BadTwistMessage;
    var s' := RosStep(c, s, input);
    match s.ros {
      case RosIdle => RosIdleKeepsWalk(c, s, input);
      case PauseArrived(data, _) => OtherKeepsWalk(c, s, if data then PauseSet else Resumed, s');
      case TwistArrived(v, now, at) => OtherKeepsWalk(c, s, Stored(Bounded(c, v), now, at), s');
      case BadTwist(_) => OtherKeepsWalk(c, s, Refused, s');
      case BadTwistLatch => OtherKeepsWalk(c, s, PauseSet, s');
      case ShuttingDown => RosQuiet(c, s, s');
      case ShutDown =>
        if s.control == Stopped && s.link.connected && s.link.accid {
          ShutDownKeepsWalk(c, s, s');
        } else {
          RosQuiet(c, s, s');
        }
    }
  }

  lemma RosQuiet(c: Params, s: State, s': State)
    requires WalkInv(c, s) && s'.log == s.log && s'.control == s.control && s'.socket == s.socket && s'.link == s.link
    requires s.transportStop ==> s'.transportStop
    ensures WalkInv(c, s')
  {
    WalkInvEntry(c, s);
    hide WalkInv, EntryOk, CycleOk, Deciders, MustLatch;
    QuietKeepsWalk(c, s, s');
  }

  lemma WalkInvEntry(c: Params, s: State)
    requires WalkInv(c, s)
    ensures EntryOk(c, s.log, s.control) && CycleOk(c, s.log, s.control) && (Losing(s.log) ==> LossUnderWay(s))
    ensures !Settled(s.log) ==> Deciders(s.control)
  {
    hide Settled, Losing, EntriesOk, EntryOk, CycleOk, RestsOk, CarryOk, WritesWalk, Deciders, LatchOk;
  }

  /** The last zero sequence goes out when the control thread has stopped. */
  lemma ShutDownKeepsWalk(c: Params, s: State, s': State)
    requires WalkInv(c, s) && s.control == s'.control == Stopped && s'.socket == s.socket && s'.link == s.link
    requires s'.transportStop
    requires s'.log == s.log + [Zeroed(s.link.app, true)]
    ensures WalkInv(c, s')
  {
    hide WalkInv;
    NoteKeepsWalk(c, s, Zeroed(s.link.app, true), s');
  }

  lemma SocketIdleKeepsWalk(c: Params, s: State, input: SocketInput)
    requires WalkInv(c, s) && s.socket.SocketIdle?
    ensures WalkInv(c, SocketStep(c, s, input))
  {
    WalkInvEntry(c, s);
    hide WalkInv, EntryOk, CycleOk, Deciders, Latched, NotReady, OpenReset;
    var s' := SocketStep(c, s, input);
    match input {
      case Open =>
        if s'.log == s.log {
          QuietKeepsWalk(c, s, s');
        } else {
          OtherKeepsWalk(c, s, Opened(s.link.app), s');
        }
      case Drop =>
        if s'.log == s.log {
          QuietKeepsWalk(c, s, s');
        } else {
          OtherKeepsWalk(c, s, Closed, s');
        }
      case Reject => OtherKeepsWalk(c, s, WalkLost, s');
      case _ => QuietKeepsWalk(c, s, s');
    }
  }

  lemma SocketKeepsWalk(c: Params, s: State, input: SocketInput)
    requires WalkInv(c, s)
    ensures WalkInv(c, SocketStep(c, s, input))
  {
    hide WalkInv, EntryOk, CycleOk, Deciders, Latched, NotReady, OpenReset, Disconnected;
    var s' := SocketStep(c, s, input);
    match s.socket {
      case SocketIdle => SocketIdleKeepsWalk(c, s, input);
      case Opening => OtherKeepsWalk(c, s, Reset, s');
      case Dropped(_) => OtherKeepsWalk(c, s, WalkLost, s');
      case SocketLatch => OtherKeepsWalk(c, s, PauseSet, s');
    }
  }

  // The steps of the control thread: up to the second snapshot, ...

  lemma DecidingKeepsWalk(c: Params, s: State, luck: Luck)
    requires WalkInv(c, s)
    requires s.control.Top? || s.control.FirstClock? || s.control.FirstSnapped? || s.control.TimedOut?
    ensures WalkInv(c, ControlStep(c, s, luck))
  {
    hide WalkInv, Cycle, ForceAfter, Latched, NotReady, Under, WalkAfter, Settled, Losing, Rounded, Desired, WireStep;
    hide ZeroStep, AfterDecision, Resume;
    var s' := ControlStep(c, s, luck);
    if s'.log == s.log {
      QuietKeepsWalk(c, s, s');
    } else {
      UnderStep(s.log, s'.log[|s.log|]);
      CycleStep(s.log, s'.log[|s.log|]);
      NoteKeepsWalk(c, s, s'.log[|s.log|], s');
    }
  }

  lemma RequestKeepsWalk(c: Params, s: State, luck: Luck)
    requires WalkInv(c, s)
    requires s.control.Decided? || s.control.WalkRetry? || s.control.ModeRequest? || s.control.ModeFailed?
    ensures WalkInv(c, ControlStep(c, s, luck))
  {
    hide WalkInv, Cycle, ForceAfter, Latched, NotReady, Under, WalkAfter, Settled, Losing, Rounded, Desired, WireStep;
    hide ZeroStep, AfterFirst, Resume;
    var s' := ControlStep(c, s, luck);
    if s'.log == s.log {
      QuietKeepsWalk(c, s, s');
    } else {
      UnderStep(s.log, s'.log[|s.log|]);
      CycleStep(s.log, s'.log[|s.log|]);
      NoteKeepsWalk(c, s, s'.log[|s.log|], s');
    }
  }

  lemma SnapshotKeepsWalk(c: Params, s: State, luck: Luck)
    requires WalkInv(c, s) && (s.control.SecondStart? || s.control.SecondClock?)
    ensures WalkInv(c, ControlStep(c, s, luck))
  {
    hide WalkInv, Cycle, ForceAfter, Latched, NotReady, Under, WalkAfter, Settled, Losing, Rounded, Desired, WireStep;
    hide ZeroStep, AfterFirst, AfterDecision, Resume;
    var s' := ControlStep(c, s, luck);
    if s'.log == s.log {
      QuietKeepsWalk(c, s, s');
    } else {
      UnderStep(s.log, s'.log[|s.log|]);
      CycleStep(s.log, s'.log[|s.log|]);
      NoteKeepsWalk(c, s, s'.log[|s.log|], s');
    }
  }

  // ... of a zero sequence, ...

  lemma ZeroGoesOut(c: Params, s: State, luck: Luck)
    requires WalkInv(c, s) && s.control.Zeros? && s.control.left > 0 && !luck.raised && luck.yes
    ensures WalkInv(c, ControlStep(c, s, luck))
  {
    WalkInvEntry(c, s);
    UnderStep(s.log, Zeroed(luck.via, true));
    CycleStep(s.log, Zeroed(luck.via, true));
    hide WalkInv, Cycle, ForceAfter, Latched, NotReady, Under, WalkAfter, Settled, Losing, Rounded, Desired, WireStep;
    hide AfterFirst, AfterDecision, Resume;
    NoteKeepsWalk(c, s, Zeroed(luck.via, true), ControlStep(c, s, luck));
  }

  lemma ZeroIsLost(c: Params, s: State, luck: Luck)
    requires WalkInv(c, s) && s.control.Zeros? && s.control.left > 0 && (luck.raised || !luck.yes)
    ensures WalkInv(c, ControlStep(c, s, luck))
  {
    WalkInvEntry(c, s);
    CycleStep(s.log, Failure);
    CycleStep(s.log, Zeroed(luck.via, false));
    hide WalkInv, Cycle, ForceAfter, Latched, NotReady, Under, WalkAfter, Settled, Losing, Rounded, Desired, WireStep;
    hide AfterFirst, AfterDecision, Resume;
    if luck.raised || c.legacy {
      NoteKeepsWalk(c, s, Failure, ControlStep(c, s, luck));
    } else {
      NoteKeepsWalk(c, s, Zeroed(luck.via, false), ControlStep(c, s, luck));
    }
  }

  lemma ZerosKeepWalk(c: Params, s: State, luck: Luck)
    requires WalkInv(c, s) && s.control.Zeros?
    ensures WalkInv(c, ControlStep(c, s, luck))
  {
    WalkInvEntry(c, s);
    hide WalkInv, Cycle, ForceAfter, Latched, NotReady, Under, WalkAfter, Settled, Losing, Rounded, Desired, WireStep;
    hide AfterFirst, AfterDecision, Resume;
    if s.control.left == 0 {
      QuietKeepsWalk(c, s, ControlStep(c, s, luck));
    } else if !luck.raised && luck.yes {
      ZeroGoesOut(c, s, luck);
    } else {
      ZeroIsLost(c, s, luck);
    }
  }

  lemma ZeroFailureKeepsWalk(c: Params, s: State, luck: Luck)
    requires WalkInv(c, s) && s.control.ZeroFailed?
    ensures WalkInv(c, ControlStep(c, s, luck))
  {
    WalkInvEntry(c, s);
    UnderStep(s.log, PauseSet);
    CycleStep(s.log, PauseSet);
    hide WalkInv, Cycle, ForceAfter, Latched, NotReady, Under, WalkAfter, Settled, Losing, Rounded, Desired, WireStep;
    hide ZeroStep, AfterFirst, AfterDecision, Resume;
    NoteKeepsWalk(c, s, PauseSet, ControlStep(c, s, luck));
  }

  lemma ZeroRecordKeepsWalk(c: Params, s: State, luck: Luck)
    requires WalkInv(c, s) && s.control.ZeroRecord?
    ensures WalkInv(c, ControlStep(c, s, luck))
  {
    WalkInvEntry(c, s);
    UnderStep(s.log, Recorded);
    CycleStep(s.log, Recorded);
    hide WalkInv, Cycle, ForceAfter, Latched, NotReady, Under, WalkAfter, Settled, Losing, Rounded, Desired, WireStep;
    hide ZeroStep, AfterFirst, AfterDecision, Resume;
    NoteKeepsWalk(c, s, Recorded, ControlStep(c, s, luck));
  }

  lemma WalkSetKeepsWalk(c: Params, s: State, luck: Luck)
    requires WalkInv(c, s) && (s.control.WalkOff? || s.control.WalkOn?)
    ensures WalkInv(c, ControlStep(c, s, luck))
  {
    WalkInvEntry(c, s);
    hide WalkInv, Cycle, ForceAfter, Latched, NotReady, Under, WalkAfter, Settled, Losing, Rounded, Desired, WireStep;
    hide ZeroStep, AfterFirst, AfterDecision, Resume;
    if s.control.WalkOff? {
      NoteKeepsWalk(c, s, WalkLost, ControlStep(c, s, luck));
    } else {
      NoteKeepsWalk(c, s, WalkEntered, ControlStep(c, s, luck));
    }
  }

  lemma IdleKeepsWalk(c: Params, s: State, luck: Luck)
    requires WalkInv(c, s) && (s.control.ZeroCheck? || s.control.ZeroCount? || s.control.Stopped?)
    requires s.shared.forceZero == ForceAfter(s.log)
    ensures WalkInv(c, ControlStep(c, s, luck))
  {
    WalkInvEntry(c, s);
    hide WalkInv, Cycle, ForceAfter, Latched, NotReady, Under, WalkAfter, Settled, Losing, Rounded, Desired, WireStep;
    hide ZeroStep, AfterFirst, AfterDecision, Resume;
    QuietKeepsWalk(c, s, ControlStep(c, s, luck));
  }

  lemma ZeroDoneKeepsWalk(c: Params, s: State, luck: Luck)
    requires WalkInv(c, s) && s.control.ZeroDone?
    ensures WalkInv(c, ControlStep(c, s, luck))
  {
    WalkInvEntry(c, s);
    hide WalkInv, Cycle, ForceAfter, Latched, NotReady, Under, WalkAfter, Settled, Losing, Rounded, Desired, WireStep;
    hide ZeroStep, AfterFirst, AfterDecision, Resume;
    NoteKeepsWalk(c, s, Rested, ControlStep(c, s, luck));
  }

  // ... and of sending.

  lemma CheckKeepsWalk(c: Params, s: State, luck: Luck)
    requires WalkInv(c, s) && s.control.Armed? && s.shared.walkReady == WalkAfter(s.log)
    ensures WalkInv(c, ControlStep(c, s, luck))
  {
    WalkInvEntry(c, s);
    hide WalkInv, Cycle, ForceAfter, Latched, NotReady, Under, WalkAfter, Settled, Losing, Rounded, Desired, WireStep;
    hide ZeroStep, AfterFirst, AfterDecision, Resume;
    var s' := ControlStep(c, s, luck);
    if s.shared.walkReady {
      NoteKeepsWalk(c, s, WalkSeen, s');
    } else {
      QuietKeepsWalk(c, s, s');
    }
  }

  lemma ChoiceKeepsWalk(c: Params, s: State, luck: Luck)
    requires WalkInv(c, s) && s.control.Sending?
    ensures WalkInv(c, ControlStep(c, s, luck))
  {
    WalkInvEntry(c, s);
    hide WalkInv, Cycle, ForceAfter, Latched, NotReady, Under, WalkAfter, Settled, Losing, Rounded, Desired, WireStep;
    hide ZeroStep, AfterFirst, AfterDecision, Resume;
    var s' := ControlStep(c, s, luck);
    if s.link.connected && s.link.accid {
      NoteKeepsWalk(c, s, Chosen(s.link.app), s');
    } else {
      NoteKeepsWalk(c, s, Failure, s');
    }
  }

  lemma WireWritesWalk(c: Params, s: State, luck: Luck)
    requires WalkInv(c, s) && s.control.OnWire? && !luck.raised
    ensures WalkInv(c, ControlStep(c, s, luck))
  {
    hide WalkInv, Cycle, ForceAfter, Latched, NotReady, Under, WalkAfter, Settled, Losing, Rounded, Desired, ZeroStep;
    hide AfterFirst, AfterDecision, Resume;
    NoteKeepsWalk(c, s, Written(Rounded(s.control.cmd), s.control.via, c.legacy || luck.yes), ControlStep(c, s, luck));
  }

  lemma WireKeepsWalk(c: Params, s: State, luck: Luck)
    requires WalkInv(c, s) && s.control.OnWire?
    ensures WalkInv(c, ControlStep(c, s, luck))
  {
    hide WalkInv, Cycle, ForceAfter, Latched, NotReady, Under, WalkAfter, Settled, Losing, Rounded, Desired, ZeroStep;
    hide AfterFirst, AfterDecision, Resume;
    if luck.raised {
      NoteKeepsWalk(c, s, Failure, ControlStep(c, s, luck));
    } else {
      WireWritesWalk(c, s, luck);
    }
  }

  lemma AnsweredKeepsWalk(c: Params, s: State, luck: Luck)
    requires WalkInv(c, s) && s.control.Answered?
    ensures WalkInv(c, ControlStep(c, s, luck))
  {
    WalkInvEntry(c, s);
    hide WalkInv, Cycle, ForceAfter, Latched, NotReady, Under, WalkAfter, Settled, Losing, Rounded, Desired, WireStep;
    hide ZeroStep, AfterFirst, AfterDecision, Resume;
    NoteKeepsWalk(c, s, Acknowledged, ControlStep(c, s, luck));
  }

  lemma LossKeepsWalk(c: Params, s: State, luck: Luck)
    requires WalkInv(c, s) && s.control.LostTransport?
    ensures WalkInv(c, ControlStep(c, s, luck))
  {
    WalkInvEntry(c, s);
    CycleStep(s.log, Closed);
    hide WalkInv, Cycle, ForceAfter, Latched, NotReady, Under, WalkAfter, Settled, Losing, Rounded, Desired, WireStep;
    hide ZeroStep, AfterFirst, AfterDecision;
    var s' := ControlStep(c, s, luck);
    if s.control.via == s.link.app && s.link.connected {
      NoteKeepsWalk(c, s, Closed, s');
    } else {
      QuietKeepsWalk(c, s, s');
    }
  }

  lemma LostKeepsWalk(c: Params, s: State, luck: Luck)
    requires WalkInv(c, s) && s.control.LostState?
    ensures WalkInv(c, ControlStep(c, s, luck))
  {
    WalkInvEntry(c, s);
    CycleStep(s.log, WalkLost);
    hide WalkInv, Cycle, ForceAfter, Latched, NotReady, Under, WalkAfter, Settled, Losing, Rounded, Desired, WireStep;
    hide ZeroStep, AfterFirst, AfterDecision;
    NoteKeepsWalk(c, s, WalkLost, ControlStep(c, s, luck));
  }

  lemma LostLatchKeepsWalk(c: Params, s: State, luck: Luck)
    requires WalkInv(c, s) && s.control.LostLatch?
    ensures WalkInv(c, ControlStep(c, s, luck))
  {
    WalkInvEntry(c, s);
    CycleStep(s.log, PauseSet);
    hide WalkInv, Cycle, ForceAfter, Latched, NotReady, Under, WalkAfter, Settled, Losing, Rounded, Desired, WireStep;
    hide ZeroStep, AfterFirst, AfterDecision;
    NoteKeepsWalk(c, s, PauseSet, ControlStep(c, s, luck));
  }

  lemma FailureKeepsWalk(c: Params, s: State, luck: Luck)
    requires WalkInv(c, s) && (s.control.CommandFailed? || s.control.CommandFailedLatch?)
    ensures WalkInv(c, ControlStep(c, s, luck))
  {
    WalkInvEntry(c, s);
    hide WalkInv, Cycle, ForceAfter, Latched, NotReady, Under, WalkAfter, Settled, Losing, Rounded, Desired, WireStep;
    hide ZeroStep, AfterFirst, AfterDecision, Resume;
    if s.control.CommandFailed? {
      NoteKeepsWalk(c, s, WalkLost, ControlStep(c, s, luck));
    } else {
      NoteKeepsWalk(c, s, PauseSet, ControlStep(c, s, luck));
    }
  }

  lemma ControlKeepsWalk(c: Params, s: State, luck: Luck)
    requires WalkInv(c, s) && s.shared.walkReady == WalkAfter(s.log) && s.shared.forceZero == ForceAfter(s.log)
    ensures WalkInv(c, ControlStep(c, s, luck))
  {
    hide WalkInv, WalkAfter, ForceAfter, ControlStep;
    match s.control {
      case Zeros(_, _) => ZerosKeepWalk(c, s, luck);
      case ZeroFailed(_) => ZeroFailureKeepsWalk(c, s, luck);
      case ZeroRecord(_) => ZeroRecordKeepsWalk(c, s, luck);
      case WalkOff => WalkSetKeepsWalk(c, s, luck);
      case WalkOn => WalkSetKeepsWalk(c, s, luck);
      case Armed(_, _) => CheckKeepsWalk(c, s, luck);
      case Sending(_, _) => ChoiceKeepsWalk(c, s, luck);
      case OnWire(_, _, _) => WireKeepsWalk(c, s, luck);
      case Answered(_) => AnsweredKeepsWalk(c, s, luck);
      case LostTransport(_, _) => LossKeepsWalk(c, s, luck);
      case LostState(_, _) => LostKeepsWalk(c, s, luck);
      case LostLatch(_) => LostLatchKeepsWalk(c, s, luck);
      case ZeroDone => ZeroDoneKeepsWalk(c, s, luck);
      case CommandFailed => FailureKeepsWalk(c, s, luck);
      case CommandFailedLatch => FailureKeepsWalk(c, s, luck);
      case _ =>
        if s.control.Decided? || s.control.WalkRetry? || s.control.ModeRequest? || s.control.ModeFailed? {
          RequestKeepsWalk(c, s, luck);
        } else if s.control.SecondStart? || s.control.SecondClock? {
          SnapshotKeepsWalk(c, s, luck);
        } else if s.control.ZeroCheck? || s.control.ZeroCount? || s.control.Stopped? {
          IdleKeepsWalk(c, s, luck);
        } else {
          DecidingKeepsWalk(c, s, luck);
        }
    }
  }

  lemma NoWalk(c: Params, clock: real)
    ensures WalkInv(c, Init(c, clock))
  {
  }

  lemma TickKeepsWalk(c: Params, s: State, dt: Duration)
    requires WalkInv(c, s)
    ensures WalkInv(c, Next(c, s, Tick(dt)))
  {
    WalkInvEntry(c, s);
    hide WalkInv, EntryOk, CycleOk, Deciders;
    QuietKeepsWalk(c, s, Next(c, s, Tick(dt)));
  }

  lemma WalkReadySays(c: Params, s: State)
    requires Inv(c, s)
    ensures s.shared.walkReady == WalkAfter(s.log) && s.shared.forceZero == ForceAfter(s.log)
  {
    hide PausedAfter, CommandAfter, WalkAfter, ForceAfter, WritesBacked, ControlOk, Within;
  }

  lemma {:induction false} RunKeepsWalk(c: Params, clock: real, actions: seq<Action>)
    requires ParamsOk(c)
    ensures WalkInv(c, Run(c, Init(c, clock), actions))
    decreases |actions|
  {
    hide WalkInv, Inv, RosStep, SocketStep, ControlStep, WalkAfter, ForceAfter;
    if actions == [] {
      NoWalk(c, clock);
    } else {
      var s := Run(c, Init(c, clock), actions[..|actions| - 1]);
      RunKeepsWalk(c, clock, actions[..|actions| - 1]);
      RunKeepsInv(c, clock, actions[..|actions| - 1]);
      WalkReadySays(c, s);
      match actions[|actions| - 1] {
        case Tick(dt) => TickKeepsWalk(c, s, dt);
        case RosAct(input) => RosKeepsWalk(c, s, input);
        case SocketAct(input) => SocketKeepsWalk(c, s, input);
        case ControlAct(luck) => ControlKeepsWalk(c, s, luck);
      }
    }
  }

  /** The entry that walk mode is on by. */
  lemma {:induction false} EnteredAt(log: seq<Event>) returns (e: int)
    requires WalkAfter(log)
    ensures 0 <= e < |log| && log[e].WalkEntered? && forall i | e < i < |log| :: !Settles(log[i])
    decreases |log|
  {
    var n := |log| - 1;
    if log[n].WalkEntered? {
      e := n;
    } else {
      e := EnteredAt(log[..n]);
    }
  }

  lemma {:induction false} NothingUnsettled(log: seq<Event>, e: int)
    requires Settled(log) && 0 <= e < |log| && log[e].WalkEntered? && forall i | e < i < |log| :: !Settles(log[i])
    ensures forall i | e < i < |log| :: !Unsettles(log[i])
    decreases |log|
  {
    var n := |log| - 1;
    if e < n {
      NothingUnsettled(log[..n], e);
      assert forall i | e < i < n :: log[i] == log[..n][i];
    }
  }

  lemma {:induction false} LossIsOver(log: seq<Event>, j: int) returns (i: int)
    requires !Losing(log) && 0 <= j < |log| && log[j].Closed?
    ensures j < i < |log| && Settles(log[i])
    decreases |log|
  {
    var n := |log| - 1;
    if Settles(log[n]) {
      i := n;
    } else {
      i := LossIsOver(log[..n], j);
    }
  }

  /** The messages of zero sequences strictly between. */
  function ZeroedIn(log: seq<Event>, from: int, to: int): set<int>
    requires 0 <= from && to <= |log|
  {
    set i | from < i < to && log[i].Zeroed?
  }

  predicate Unbroken(e: Event) { !Breaks(e) && !e.ModeAccepted? }

  lemma {:induction false} UnderMeans(log: seq<Event>)
    requires Under(log).Some?
    ensures var Sequence(m, n) := Under(log).value;
            && 0 <= m < |log| && log[m].ModeAccepted? && (forall i | m < i < |log| :: Unbroken(log[i]))
            && |ZeroedIn(log, m, |log|)| == n
    decreases |log|
  {
    var n := |log| - 1;
    var m := Under(log).value.request;
    if log[n].ModeAccepted? {
      assert ZeroedIn(log, n, |log|) == {};
    } else {
      UnderMeans(log[..n]);
      OneMoreZeroed(log, m);
    }
  }

  lemma OneMoreZeroed(log: seq<Event>, m: int)
    requires 0 <= m < |log| - 1
    ensures var n := |log| - 1;
            |ZeroedIn(log, m, n + 1)| == |ZeroedIn(log[..n], m, n)| + if log[n].Zeroed? then 1 else 0
  {
    var n := |log| - 1;
    assert ZeroedIn(log[..n], m, n) == ZeroedIn(log, m, n);
    assert ZeroedIn(log, m, n + 1) == ZeroedIn(log, m, n) + if log[n].Zeroed? then {n} else {};
  }

  /**
   A way into walk mode: the robot accepted the request at m, and between that and e, where the mode was entered, went
   exactly zeroRepeat messages of zero velocity, none of which failed, and no velocity.
   */
  ghost predicate Entry(c: Params, log: seq<Event>, m: int, e: int) {
    && 0 <= m < e < |log| && log[m].ModeAccepted? && log[e].WalkEntered?
    && (forall i | m < i < e :: !log[i].Written? && !log[i].Snapped? && (log[i].Zeroed? ==> log[i].ok))
    && |ZeroedIn(log, m, e)| == c.zeroRepeat
  }

  lemma EveryEntry(c: Params, s: State, e: int) returns (m: int)
    requires ParamsOk(c) && Reachable(c, s) && 0 <= e < |s.log| && s.log[e].WalkEntered?
    ensures Entry(c, s.log, m, e)
  {
    var clock, actions :| s == Run(c, Init(c, clock), actions);
    RunKeepsWalk(c, clock, actions);
    var before := s.log[..e];
    assert Under(before).Some? && Under(before).value.sent == c.zeroRepeat;
    UnderMeans(before);
    m := Under(before).value.request;
    assert ZeroedIn(before, m, e) == ZeroedIn(s.log, m, e);
    hide Under, Run;
    assert forall i | m < i < e :: Unbroken(before[i]) && before[i] == s.log[i];
  }

  /** What ends walk mode, or is followed by its end before the next velocity. */
  predicate EndsWalk(e: Event) {
    e.WalkLost? || e.Rested? || e.Reset? || e.Idled? || e.Zeroed? || (e.Written? && !e.ok)
  }

  /** A connection that closed at j does not stand in the way of a write chosen at q and checked at r. */
  predicate LossInFlight(log: seq<Event>, j: int, r: int, q: int)
    requires 0 <= r && q <= |log|
  {
    exists i :: r < i < q && j < i && (log[i].WalkLost? || log[i].Rested? || log[i].Reset?)
  }

  lemma EveryMoveChecked(c: Params, s: State, k: int) returns (r: int, q: int)
    requires ParamsOk(c) && Reachable(c, s) && 0 <= k < |s.log| && Moves(s.log[k])
    ensures Walked(s.log, r, q, k)
  {
    var clock, actions :| s == Run(c, Init(c, clock), actions);
    RunKeepsWalk(c, clock, actions);
    hide Run, Walked;
    r, q :| Walked(s.log, r, q, k);
  }

  lemma WalkedMeans(log: seq<Event>, r: int, q: int, k: int)
    requires 0 <= k <= |log| && Walked(log, r, q, k)
    ensures 0 <= r < q < k && log[r].WalkSeen? && log[q].Chosen? && Undisturbed(log, r, k)
  {
    hide Settled, Losing, WalkAfter;
  }

  lemma ReadySince(log: seq<Event>, r: int, q: int, k: int) returns (e: int)
    requires 0 <= k <= |log| && Walked(log, r, q, k)
    ensures 0 <= e < r < |log| && log[e].WalkEntered?
    ensures forall i | e < i < r :: !Settles(log[i]) && !EndsWalk(log[i])
  {
    hide Losing;
    e := EnteredAt(log[..r]);
    NothingUnsettled(log[..r], e);
    assert forall i | e < i < r :: log[i] == log[..r][i];
  }

  lemma LossesInFlight(log: seq<Event>, e: int, r: int, q: int, k: int)
    requires 0 <= k <= |log| && Walked(log, r, q, k) && 0 <= e && forall i | e < i < r :: !Settles(log[i])
    ensures 0 <= r < q < k && forall j | e < j < q && log[j].Closed? :: LossInFlight(log, j, r, q)
  {
    hide Settled, WalkAfter, Losing;
    forall j | e < j < q && log[j].Closed?
      ensures LossInFlight(log, j, r, q)
    {
      var i := LossIsOver(log[..q], j);
      assert log[..q][i] == log[i];
    }
  }

  /**
   Every non-zero write of every run: walk mode had been entered at e, in order, and up to the check at r nothing ended
   it; after the check the connection is chosen and the velocity written without another snapshot. A connection lost
   after e was lost so late that its loss came through only after the check.
   */
  lemma EveryMoveWalks(c: Params, s: State, k: int) returns (m: int, e: int, r: int, q: int)
    requires ParamsOk(c) && Reachable(c, s) && 0 <= k < |s.log| && Moves(s.log[k])
    ensures Entry(c, s.log, m, e) && 0 <= e < r < q < k && s.log[r].WalkSeen? && s.log[q].Chosen?
    ensures forall i | e < i < r :: !EndsWalk(s.log[i])
    ensures Undisturbed(s.log, r, k)
    ensures forall j | e < j < q && s.log[j].Closed? :: LossInFlight(s.log, j, r, q)
  {
    r, q := EveryMoveChecked(c, s, k);
    hide Reachable, Walked, Entry;
    e := ReadySince(s.log, r, q, k);
    m := EveryEntry(c, s, e);
    LossesInFlight(s.log, e, r, q, k);
    WalkedMeans(s.log, r, q, k);
  }

  /** So once something has ended walk mode and a snapshot been taken, the next velocity needs a new entry. */
  lemma MoveNeedsNewEntry(c: Params, s: State, j: int, at: int, k: int) returns (e: int)
    requires ParamsOk(c) && Reachable(c, s)
    requires 0 <= j < at < k < |s.log| && EndsWalk(s.log[j]) && s.log[at].Snapped? && Moves(s.log[k])
    ensures j < e < k && s.log[e].WalkEntered?
  {
    var m, r, q;
    m, e, r, q := EveryMoveWalks(c, s, k);
    assert s.log[e].WalkEntered?;
    assert at <= r by { assert Undisturbed(s.log, r, k); }
  }

  lemma {:induction false} FailureLatched(log: seq<Event>, j: int) returns (i: int)
    requires !Failing(log) && 0 <= j < |log| && IsFailure(log[j])
    ensures j < i < |log| && log[i].PauseSet?
    decreases |log|
  {
    var n := |log| - 1;
    if log[n].PauseSet? {
      i := n;
    } else {
      i := FailureLatched(log[..n], j);
    }
  }

  lemma {:induction false} LossLatched(log: seq<Event>, j: int) returns (i: int)
    requires !Unlatched(log) && 0 <= j < |log| && log[j].Closed?
    ensures j < i < |log| && log[i].PauseSet?
    decreases |log|
  {
    var n := |log| - 1;
    if log[n].PauseSet? {
      i := n;
    } else {
      i := LossLatched(log[..n], j);
    }
  }

  lemma ReachableLatched(c: Params, s: State)
    requires ParamsOk(c) && Reachable(c, s)
    ensures LatchOk(s)
  {
    var clock, actions :| s == Run(c, Init(c, clock), actions);
    RunKeepsWalk(c, clock, actions);
    hide Run, LatchOk, EntriesOk, EntryOk, CycleOk, RestsOk, CarryOk, WritesWalk;
  }

  /** The messages of zero sequences strictly between that did not fail. */
  function StopsIn(log: seq<Event>, from: int, to: int): set<int>
    requires 0 <= from && to <= |log|
  {
    set i | from < i < to && log[i].Zeroed? && log[i].ok
  }

  lemma {:induction false} CycleMeans(log: seq<Event>)
    requires Cycle(log).Some?
    ensures var r := Cycle(log).value;
            && 0 <= r.start < |log| && log[r.start].Idled? && (forall i | r.start < i < |log| :: !log[i].Snapped?)
            && r.owed == ForceAfter(log[..r.start]) && |StopsIn(log, r.start, |log|)| == r.sent
            && (r.failed ==> exists i :: r.start < i < |log| && IsFailure(log[i]))
    decreases |log|
  {
    var n := |log| - 1;
    var r := Cycle(log).value;
    hide ForceAfter;
    if log[n].Idled? {
      assert StopsIn(log, n, |log|) == {};
    } else {
      CycleMeans(log[..n]);
      assert log[..n][..r.start] == log[..r.start];
      OneMoreStop(log, r.start);
      if r.failed && !IsFailure(log[n]) {
        var i :| r.start < i < n && IsFailure(log[..n][i]);
        assert IsFailure(log[i]);
      }
    }
  }

  lemma OneMoreStop(log: seq<Event>, m: int)
    requires 0 <= m < |log| - 1
    ensures var n := |log| - 1;
            |StopsIn(log, m, n + 1)| == |StopsIn(log[..n], m, n)| + if log[n].Zeroed? && log[n].ok then 1 else 0
  {
    var n := |log| - 1;
    assert StopsIn(log[..n], m, n) == StopsIn(log, m, n);
    assert StopsIn(log, m, n + 1) == StopsIn(log, m, n) + if log[n].Zeroed? && log[n].ok then {n} else {};
  }

  /** What makes a zero sequence owed, and what pays it. */
  predicate AsksStop(e: Event) { e.PauseSet? || e.Refused? || e.Reset? || e.WalkLost? }

  lemma {:induction false} StopIsOwed(log: seq<Event>, j: int)
    requires 0 <= j < |log| && AsksStop(log[j])
    requires forall i | j < i < |log| :: !log[i].Recorded? && !log[i].Acknowledged?
    ensures ForceAfter(log)
    decreases |log|
  {
    var n := |log| - 1;
    if j < n {
      StopIsOwed(log[..n], j);
    }
  }

  /**
   A cycle with nothing to send: if something asked for a stop before it and no zero sequence has been recorded and no
   velocity acknowledged since, exactly zeroRepeat messages of zero velocity go out in it, or something fails.
   */
  lemma IdleCycleStops(c: Params, s: State, e: int) returns (i: int)
    requires ParamsOk(c) && Reachable(c, s) && 0 <= e < |s.log| && s.log[e].Rested?
    ensures 0 <= i < e && s.log[i].Idled? && forall n | i < n < e :: !s.log[n].Snapped?
    ensures forall j | 0 <= j < i && AsksStop(s.log[j])
              && (forall n | j < n < i :: !s.log[n].Recorded? && !s.log[n].Acknowledged?) ::
              |StopsIn(s.log, i, e)| == c.zeroRepeat || exists n :: i < n < e && IsFailure(s.log[n])
  {
    ReachableRests(c, s);
    var before := s.log[..e];
    assert Cycle(before).Some? && Paid(c, Cycle(before).value);
    CycleMeans(before);
    i := Cycle(before).value.start;
    assert StopsIn(before, i, e) == StopsIn(s.log, i, e) && before[..i] == s.log[..i];
    hide Cycle, Reachable, ForceAfter;
    assert forall n | 0 <= n < e :: before[n] == s.log[n];
    if j :| 0 <= j < i && AsksStop(s.log[j])
            && forall n | j < n < i :: !s.log[n].Recorded? && !s.log[n].Acknowledged?
    {
      StopIsOwed(s.log[..i], j);
    }
  }

  lemma ReachableRests(c: Params, s: State)
    requires ParamsOk(c) && Reachable(c, s)
    ensures RestsOk(c, s.log)
  {
    var clock, actions :| s == Run(c, Init(c, clock), actions);
    RunKeepsWalk(c, clock, actions);
    hide Run, LatchOk, EntriesOk, EntryOk, CycleOk, RestsOk, CarryOk, WritesWalk;
  }

  /** After any failure the robot moves again only once a resume message has come. */
  lemma MoveNeedsResume(c: Params, s: State, j: int, k: int) returns (r: int)
    requires ParamsOk(c) && Reachable(c, s) && 0 <= j < k < |s.log| && IsFailure(s.log[j]) && Moves(s.log[k])
    requires exists at :: j < at < k && s.log[at].Snapped?
    ensures j < r < k && s.log[r].Resumed?
  {
    ReachableLatched(c, s);
    var at, m := EveryMoveIsBacked(c, s, k);
    BackedIsUnpaused(c, s.log, at, k);
    hide Reachable, PausedAfter, Allows, Failing, Unlatched;
    var early :| j < early < k && s.log[early].Snapped?;
    assert s.log[at].Snapped? && Undisturbed(s.log, at, k);
    var i := FailureLatched(s.log[..at], j);
    r := UnpausedMeansResumed(c.startPaused, s.log[..at], i);
  }

  /** A connection that closes sets the pause before another one is chosen for a velocity, until the shutdown. */
  lemma LossStopsRobot(c: Params, s: State, j: int, k: int) returns (i: int, q: int)
    requires ParamsOk(c) && Reachable(c, s) && !s.transportStop
    requires 0 <= j < k < |s.log| && s.log[j].Closed? && Moves(s.log[k])
    ensures 0 <= q < k && s.log[q] == Chosen(s.log[k].via)
    ensures j < q ==> j < i < q && s.log[i].PauseSet?
  {
    ReachableLatched(c, s);
    var o, a, m, at;
    o, a, m, at, q := EveryMoveHasRoute(c, s, k);
    hide Reachable, Failing, Unlatched, Way;
    assert s.log[q] == Chosen(s.log[k].via);
    i := 0;
    if j < q {
      i := LossLatched(s.log[..q], j);
    }
  }

  // ---------- runs in which the promise is not kept ----------

  lemma Go(c: Params, s: State, a: Action) returns (s': State)
    requires Reachable(c, s)
    ensures Reachable(c, s') && s' == Next(c, s, a)
  {
    var clock, actions :| s == Run(c, Init(c, clock), actions);
    s' := Next(c, s, a);
    assert (actions + [a])[..|actions|] == actions;
    assert s' == Run(c, Init(c, clock), actions + [a]);
  }

  const EXAMPLE := Params(true, true, true, 1.0, 0.0, 0.0, 1, 1.0, 1.0, 1.0)
  const FORWARD := Velocity(1.0, 0.0, 0.0)

  function Lucky(app: nat): Action { ControlAct(Luck(true, false, app)) }

  function Connected(app: nat): Link { Link(app, true, true, true) }

  /** Connected and unpaused, with FORWARD stored at 1.0 and the control thread at the top of its loop. */
  ghost predicate Commanded(s: State, app: nat, now: real) {
    && Reachable(EXAMPLE, s) && 1.0 <= now <= 2.0
    && s == State(Shared(false, FORWARD, Some(1.0), 0.0, false, true), Connected(app), now,
                  Top, RosIdle, SocketIdle, false, false, s.log)
  }

  /** The control thread decides to move and asks for Walk mode. */
  lemma ExampleAsks(s0: State, app: nat, now: real) returns (s: State)
    requires Commanded(s0, app, now)
    ensures Reachable(EXAMPLE, s)
    ensures s == s0.(control := Zeros(true, 1), log := s0.log + [Snapped(now), ModeAccepted])
  {
    hide RosStep, SocketStep, Reachable, OpenReset, Round4, WireStep;
    s := Go(EXAMPLE, s0, Lucky(app));
    s := Go(EXAMPLE, s, Lucky(app));
    assert s.control == FirstSnapped(Decision(true, FORWARD, false));
    s := Go(EXAMPLE, s, Lucky(app));
    s := Go(EXAMPLE, s, Lucky(app));
    s := Go(EXAMPLE, s, Lucky(app));
    s := Go(EXAMPLE, s, Lucky(app));
  }

  /** Walk mode is granted and the zero sequence is out; the thread is about to set _walk_mode_ready. */
  lemma ExampleZeros(s0: State, app: nat, now: real) returns (s: State)
    requires Commanded(s0, app, now)
    ensures Reachable(EXAMPLE, s)
    ensures s == s0.(shared := s0.shared.(forceZero := false), control := WalkOn,
                     log := s0.log + [Snapped(now), ModeAccepted, Zeroed(app, true), Recorded])
  {
    hide RosStep, SocketStep, Reachable, OpenReset, Round4, WireStep;
    s := ExampleAsks(s0, app, now);
    s := Go(EXAMPLE, s, Lucky(app));
    s := Go(EXAMPLE, s, Lucky(app));
    s := Go(EXAMPLE, s, Lucky(app));
  }

  /** With FORWARD in force and unpaused, the second snapshot takes it. */
  lemma ExampleSnaps(s0: State, app: nat) returns (s: State)
    requires Reachable(EXAMPLE, s0) && s0.control == WalkOn && !s0.shared.paused
    requires s0.shared.cmd == FORWARD && s0.shared.cmdTime == Some(1.0) && s0.clock <= 2.0
    ensures Reachable(EXAMPLE, s)
    ensures s == s0.(shared := s0.shared.(walkReady := true), control := Sending(FORWARD, |s0.log| + 1),
                     log := s0.log + [WalkEntered, Snapped(s0.clock), WalkSeen])
  {
    hide RosStep, SocketStep, Reachable, OpenReset, Round4, WireStep;
    s := Go(EXAMPLE, s0, Lucky(app));
    s := Go(EXAMPLE, s, Lucky(app));
    s := Go(EXAMPLE, s, Lucky(app));
    s := Go(EXAMPLE, s, Lucky(app));
  }

  /** The command is written to the connection of the moment. */
  lemma ExampleSends(s0: State) returns (s: State)
    requires Reachable(EXAMPLE, s0) && s0.control.Sending? && s0.control.cmd == FORWARD
    requires s0.link.connected && s0.link.accid
    ensures Reachable(EXAMPLE, s)
    ensures s.log == s0.log + [Chosen(s0.link.app), Written(FORWARD, s0.link.app, true)]
  {
    hide RosStep, SocketStep, Reachable, OpenReset;
    s := Go(EXAMPLE, s0, Lucky(s0.link.app));
    assert Round4(1.0) == 1.0 && Round4(0.0) == 0.0;
    s := Go(EXAMPLE, s, Lucky(s0.link.app));
  }

  lemma ExampleConnects() returns (s: State)
    ensures Reachable(EXAMPLE, s)
    ensures s == State(Shared(true, ZERO, None, 1.0, false, true), Connected(1), 1.0,
                       Top, RosIdle, SocketIdle, false, false, [Opened(1), Reset])
  {
    s := Init(EXAMPLE, 1.0);
    assert s == Run(EXAMPLE, Init(EXAMPLE, 1.0), []);
    s := Go(EXAMPLE, s, SocketAct(NewApp));
    s := Go(EXAMPLE, s, SocketAct(Open));
    s := Go(EXAMPLE, s, SocketAct(Proceed));
  }

  /** Connected, resumed, and given a Twist. */
  lemma ExampleStarts() returns (s: State)
    ensures Commanded(s, 1, 1.0)
    ensures s.log == [Opened(1), Reset, Resumed, Arrived(1.0, Some(1)), Stored(FORWARD, 1.0, 3)]
  {
    s := ExampleConnects();
    hide Reachable, ControlStep;
    s := Go(EXAMPLE, s, RosAct(Pause(false)));
    s := Go(EXAMPLE, s, RosAct(Continue));
    s := Go(EXAMPLE, s, RosAct(Twist(FORWARD)));
    s := Go(EXAMPLE, s, RosAct(Continue));
  }

  /** The connection drops, which latches the pause. */
  lemma ExampleLoses(s0: State) returns (s: State)
    requires Reachable(EXAMPLE, s0) && s0.socket == SocketIdle && s0.link == Connected(1) && !s0.transportStop
    ensures Reachable(EXAMPLE, s)
    ensures s == s0.(shared := NotReady(s0.shared).(paused := true, zeroSince := s0.clock),
                     link := Link(1, false, true, true), log := s0.log + [Closed, WalkLost, PauseSet])
  {
    hide Reachable, RosStep, ControlStep;
    s := Go(EXAMPLE, s0, SocketAct(Drop));
    s := Go(EXAMPLE, s, SocketAct(Proceed));
    s := Go(EXAMPLE, s, SocketAct(Proceed));
  }

  /** The next connection opens; its reset is still to come. */
  lemma ExampleReopens(s0: State) returns (s: State)
    requires Reachable(EXAMPLE, s0) && s0.socket == SocketIdle && s0.link == Link(1, false, true, true)
    ensures Reachable(EXAMPLE, s)
    ensures s == s0.(link := Connected(2), socket := Opening, log := s0.log + [Opened(2)])
  {
    hide Reachable, RosStep, ControlStep;
    s := Go(EXAMPLE, s0, SocketAct(NewApp));
    s := Go(EXAMPLE, s, SocketAct(Open));
  }

  /** Its reset clears the Twist in force. */
  lemma ExampleResets(s0: State) returns (s: State)
    requires Reachable(EXAMPLE, s0) && s0.socket == Opening
    ensures Reachable(EXAMPLE, s)
    ensures s == s0.(shared := OpenReset(s0.shared), socket := SocketIdle, log := s0.log + [Reset])
  {
    hide Reachable, RosStep, ControlStep;
    s := Go(EXAMPLE, s0, SocketAct(Proceed));
  }

  /** The connection opens and resets between the snapshot and the send. */
  lemma OldCommandOnNewConnection() returns (s: State)
    ensures ParamsOk(EXAMPLE) && Reachable(EXAMPLE, s)
    ensures s.log == [Opened(1), Reset, Resumed, Arrived(1.0, Some(1)), Stored(FORWARD, 1.0, 3),
                      Snapped(1.0), ModeAccepted, Zeroed(1, true), Recorded, WalkEntered, Snapped(1.0), WalkSeen,
                      Closed, WalkLost, PauseSet, Opened(2), Reset, Chosen(2), Written(FORWARD, 2, true)]
    ensures Moves(s.log[18]) && !ArrivedOn(s.log, 3, 18)
  {
    s := ExampleStarts();
    s := ExampleZeros(s, 1, 1.0);
    s := ExampleSnaps(s, 1);
    s := ExampleLoses(s);
    s := ExampleReopens(s);
    s := ExampleResets(s);
    s := ExampleSends(s);
  }

  /** The same before the connection has reset. */
  lemma OldCommandBeforeReset() returns (s: State)
    ensures ParamsOk(EXAMPLE) && Reachable(EXAMPLE, s)
    ensures s.log == [Opened(1), Reset, Resumed, Arrived(1.0, Some(1)), Stored(FORWARD, 1.0, 3),
                      Snapped(1.0), ModeAccepted, Zeroed(1, true), Recorded, WalkEntered, Snapped(1.0), WalkSeen,
                      Closed, WalkLost, PauseSet, Opened(2), Chosen(2), Written(FORWARD, 2, true)]
    ensures Moves(s.log[17]) && !ArrivedOn(s.log, 3, 17)
  {
    s := ExampleStarts();
    s := ExampleZeros(s, 1, 1.0);
    s := ExampleSnaps(s, 1);
    s := ExampleLoses(s);
    s := ExampleReopens(s);
    s := ExampleSends(s);
  }

  /** Resumed after the drop, the old Twist is taken by a snapshot between the two regions of _on_open. */
  lemma OldSnapshotBeforeReset() returns (s: State)
    ensures ParamsOk(EXAMPLE) && Reachable(EXAMPLE, s)
    ensures s.log == [Opened(1), Reset, Resumed, Arrived(1.0, Some(1)), Stored(FORWARD, 1.0, 3),
                      Snapped(1.0), ModeAccepted, Zeroed(1, true), Recorded, Closed, WalkLost, PauseSet, Resumed,
                      Opened(2), WalkEntered, Snapped(1.0), WalkSeen, Chosen(2), Written(FORWARD, 2, true)]
    ensures Moves(s.log[18]) && !ArrivedOn(s.log, 3, 18) && ResetOutstanding(s.log, 13, 4, 15)
  {
    s := ExampleStarts();
    s := ExampleZeros(s, 1, 1.0);
    s := ExampleLoses(s);
    s := ExampleResumes(s);
    s := ExampleReopens(s);
    s := ExampleSnaps(s, 2);
    s := ExampleSends(s);
  }

  /** In that run the connection of the write opened after the mode request, and before walk mode was entered by it. */
  lemma OldRequestOnNewConnection() returns (s: State)
    ensures ParamsOk(EXAMPLE) && Reachable(EXAMPLE, s) && |s.log| == 19 && Moves(s.log[18])
    ensures Entry(EXAMPLE, s.log, 6, 14) && s.log[13] == Opened(s.log[18].via)
  {
    s := OldSnapshotBeforeReset();
    hide Reachable;
    OneZeroEntry(s.log, 6, 14);
  }

  lemma OneZeroEntry(log: seq<Event>, m: int, e: int)
    requires 0 <= m < e - 1 && e < |log| && log[m].ModeAccepted? && log[e].WalkEntered?
    requires log[m + 1].Zeroed? && log[m + 1].ok
    requires forall i | m + 1 < i < e :: !log[i].Written? && !log[i].Snapped? && !log[i].Zeroed?
    ensures Entry(EXAMPLE, log, m, e)
  {
    assert ZeroedIn(log, m, e) == {m + 1};
  }

  lemma ExampleResumes(s0: State) returns (s: State)
    requires Reachable(EXAMPLE, s0) && s0.ros == RosIdle
    ensures Reachable(EXAMPLE, s)
    ensures s == s0.(shared := s0.shared.(paused := false), log := s0.log + [Resumed])
  {
    hide Reachable, SocketStep, ControlStep;
    s := Go(EXAMPLE, s0, RosAct(Pause(false)));
    s := Go(EXAMPLE, s, RosAct(Continue));
  }

  /** A Twist arrives, and the connection is replaced before its callback gets the lock. */
  lemma ExampleHolds() returns (s: State)
    ensures Commanded(s, 2, 1.5)
    ensures s.log == [Opened(1), Reset, Arrived(1.0, Some(1)), Closed, WalkLost, PauseSet, Opened(2), Reset,
                      Stored(FORWARD, 1.0, 2), Resumed]
  {
    s := ExampleConnects();
    hide Reachable, ControlStep;
    s := Go(EXAMPLE, s, RosAct(Twist(FORWARD)));
    s := Go(EXAMPLE, s, Tick(0.5));
    s := ExampleLoses(s);
    s := ExampleReopens(s);
    s := ExampleResets(s);
    s := Go(EXAMPLE, s, RosAct(Continue));
    s := ExampleResumes(s);
  }

  /** The connection opens while the callback holds the Twist, which is then stored and written as if it were fresh. */
  lemma OldSampleOnNewConnection() returns (s: State)
    ensures ParamsOk(EXAMPLE) && Reachable(EXAMPLE, s)
    ensures s.log == [Opened(1), Reset, Arrived(1.0, Some(1)), Closed, WalkLost, PauseSet, Opened(2), Reset,
                      Stored(FORWARD, 1.0, 2), Resumed, Snapped(1.5), ModeAccepted, Zeroed(2, true), Recorded,
                      WalkEntered, Snapped(1.5), WalkSeen, Chosen(2), Written(FORWARD, 2, true)]
    ensures Moves(s.log[18]) && !ArrivedOn(s.log, 2, 18)
  {
    s := ExampleHolds();
    s := ExampleZeros(s, 2, 1.5);
    s := ExampleSnaps(s, 2);
    s := ExampleSends(s);
  }
}
