/**
 The replanning state machine of scan_replan_fsm.cpp: modes, flags and what it publishes. Planner, map and
 odometry are oracles: what they answer inside one callback comes in with the callback.
 */
module ReplanFsm {
  import opened Options

  datatype Exec = Init | WaitTarget | GenNewTraj | ReplanTraj | ExecTraj | EmergencyStop

  datatype Mode = ManualTarget | PresetTarget | ReferencePath

  datatype Params = Params(mode: Mode, maxFail: int, failSafe: bool, presetWaypoints: nat)

  datatype GoalStatus = Running | Failed | Reached | Cancelled

  /** What goes out: a planned trajectory, a trajectory that stands still, or a status. */
  datatype Event = Plan | Stop | Status(status: GoalStatus)

  datatype PathMsg = PathMsg(empty: bool, frameOk: bool)

  /** The fields about the goal: trigger_, have_target_, have_new_target_, the route and a cached path. */
  datatype Goal = Goal(trigger: bool, have: bool, untried: bool, waypoints: nat, current: nat, pending: Option<PathMsg>)

  /** The fields other nodes drive. */
  datatype Senses = Senses(odom: bool, height: bool, frozen: bool)

  datatype State = State(exec: Exec, flagEscape: bool, needHoverStop: bool, failCount: int, presetStarted: bool,
                         haveTraj: bool, goal: Goal, senses: Senses, log: seq<Event>)

  const NO_GOAL := Goal(false, false, false, 0, 0, None)

  /** The state init leaves. */
  function Start(): State {
    State(Init, true, false, 0, false, false, NO_GOAL, Senses(false, false, false), [])
  }

  function Note(s: State, e: Event): State { s.(log := s.log + [e]) }

  function StopNow(s: State): State { Note(s, Stop).(haveTraj := true) }

  /** stopCurrentNavigation: without odometry there is no place to stop at. */
  function StopNavigation(s: State, report: bool): State {
    var s := if s.senses.odom then StopNow(s) else s;
    var s := s.(goal := NO_GOAL, needHoverStop := false, flagEscape := false, failCount := 0, exec := WaitTarget);
    if report then Note(s, Status(Cancelled)) else s
  }

  // ---------- planning ----------

  /** What one call of callReboundReplan meets: a local target, and a plan for it. */
  datatype Rebound = Rebound(target: bool, plan: bool)

  predicate Plans(r: Rebound) { r.target && r.plan }

  function CallRebound(s: State, r: Rebound): State {
    if !r.target then s
    else
      var s := s.(goal := s.goal.(untried := false));
      if r.plan then Note(s, Plan).(haveTraj := true) else s
  }

  /** What planFromCurrentTraj meets: a refreshed global trajectory and two attempts. */
  datatype Refresh = Refresh(refreshed: bool, first: Rebound, second: Rebound)

  predicate Replans(p: Params, r: Refresh) {
    (p.mode == ReferencePath || r.refreshed) && (Plans(r.first) || Plans(r.second))
  }

  function PlanFromCurrent(p: Params, s: State, r: Refresh): State {
    if p.mode != ReferencePath && !r.refreshed then s
    else if Plans(r.first) then CallRebound(s, r.first)
    else CallRebound(CallRebound(s, r.first), r.second)
  }

  function Aimed(g: Goal): Goal { g.(have := true, untried := true) }

  /** planNextWaypoint: it succeeds exactly when there is an active waypoint and the planner reaches it. */
  predicate WaypointOk(g: Goal, reachable: bool) { g.current < g.waypoints && reachable }

  function WithNextWaypoint(g: Goal, reachable: bool): Goal { if WaypointOk(g, reachable) then Aimed(g) else g }

  // ---------- callbacks ----------

  /** What a tick of the execution timer meets. */
  datatype TickLuck = TickLuck(retryReady: bool, rebound: Rebound, refresh: Refresh, atGoal: bool, trajEnded: bool,
                               moveOn: bool, nearWaypoint: bool, reachable: bool, nearEnd: bool, nearStart: bool,
                               slow: bool)

  function Finished(p: Params, s: State): State {
    if s.failCount >= p.maxFail then
      Note(s, Status(Failed)).(failCount := 0, needHoverStop := true, flagEscape := true, exec := EmergencyStop)
    else s
  }

  function GoToNextWaypoint(s: State, reachable: bool): State {
    var g := s.goal.(current := s.goal.current + 1);
    s.(goal := WithNextWaypoint(g, reachable), exec := GenNewTraj,
       failCount := if WaypointOk(g, reachable) then s.failCount else s.failCount + 1)
  }

  function Dropped(g: Goal): Goal { g.(have := false, trigger := false) }

  function GoalReached(s: State): State { Note(s, Status(Reached)).(goal := Dropped(s.goal), exec := WaitTarget) }

  predicate MoreWaypoints(p: Params, g: Goal) { p.mode == PresetTarget && g.current + 1 < g.waypoints }

  /** One tick of the state at hand, and whether finishProcess follows. */
  function TickBody(p: Params, s: State, o: TickLuck): (State, bool) {
    match s.exec
    case Init => if s.senses.odom && s.goal.trigger then (s.(exec := WaitTarget), true) else (s, false)
    case WaitTarget => if s.goal.have then (s.(exec := GenNewTraj), true) else (s, false)
    case GenNewTraj => (GenTick(s, o), true)
    case ReplanTraj => (ReplanTick(p, s, o), true)
    case ExecTraj => ExecTick(p, s, o)
    case EmergencyStop => (EmergencyTick(p, s, o).(flagEscape := false), true)
  }

  function GenTick(s: State, o: TickLuck): State {
    if !o.retryReady then s
    else if Plans(o.rebound) then CallRebound(s, o.rebound).(failCount := 0, exec := ExecTraj, flagEscape := true)
    else CallRebound(s, o.rebound).(failCount := s.failCount + 1)
  }

  function ReplanTick(p: Params, s: State, o: TickLuck): State {
    if !o.retryReady then s
    else if Replans(p, o.refresh) then PlanFromCurrent(p, s, o.refresh).(failCount := 0, exec := ExecTraj)
    else PlanFromCurrent(p, s, o.refresh).(failCount := s.failCount + 1)
  }

  function ExecTick(p: Params, s: State, o: TickLuck): (State, bool) {
    if p.mode == ReferencePath then (ReferenceTick(s, o), false)
    else if MoreWaypoints(p, s.goal) && o.nearWaypoint then (GoToNextWaypoint(s, o.reachable), false)
    else if o.trajEnded then (EndedTick(p, s, o), false)
    else if o.nearEnd || o.nearStart then (s, false)
    else (s.(exec := ReplanTraj), true)
  }

  function ReferenceTick(s: State, o: TickLuck): State {
    if o.atGoal then GoalReached(s)
    else if !s.senses.frozen && (o.moveOn || o.trajEnded) then s.(exec := ReplanTraj)
    else s
  }

  function EndedTick(p: Params, s: State, o: TickLuck): State {
    if MoreWaypoints(p, s.goal) then GoToNextWaypoint(s, o.reachable)
    else
      var s := if p.mode == PresetTarget then s.(goal := s.goal.(waypoints := 0, current := 0)) else s;
      if o.atGoal then GoalReached(s) else s.(exec := ReplanTraj)
  }

  function EmergencyTick(p: Params, s: State, o: TickLuck): State {
    if s.flagEscape then StopNow(s)
    else if !(p.failSafe && o.slow) then s
    else if !s.needHoverStop then s.(exec := GenNewTraj)
    else s.(needHoverStop := false, goal := Dropped(s.goal), exec := WaitTarget)
  }

  function OnTick(p: Params, s: State, o: TickLuck): State {
    var (body, finish) := TickBody(p, s, o);
    if finish then Finished(p, body) else body
  }

  /** What checkCollisionCallback meets: a collision ahead, soon or not, and what replanning gives. */
  datatype SafetyLuck = SafetyLuck(collision: bool, retryReady: bool, refresh: Refresh, soon: bool)

  function OnSafety(p: Params, s: State, o: SafetyLuck): State {
    if s.exec != ExecTraj || !s.haveTraj || !o.collision then s
    else
      var s' := if o.retryReady then PlanFromCurrent(p, s, o.refresh) else s;
      if o.retryReady && Replans(p, o.refresh) then s'
      else s'.(exec := if o.soon then EmergencyStop else ReplanTraj)
  }

  /** A manual goal: ignored before the first height, below ground, or empty; otherwise planned for. */
  datatype GoalLuck = GoalLuck(ignored: bool, planned: bool)

  predicate GoalAccepted(s: State, o: GoalLuck) { s.senses.height && !o.ignored && o.planned }

  function OnGoal(s: State, o: GoalLuck): State {
    if !s.senses.height || o.ignored then s
    else
      var g := s.goal.(trigger := true);
      if !o.planned then Note(s, Status(Failed)).(goal := g) else Pursued(s.(goal := g))
  }

  function Pursued(s: State): State {
    var exec := if s.exec == WaitTarget then GenNewTraj else if s.exec == ExecTraj then ReplanTraj else s.exec;
    Note(s, Status(Running)).(goal := Aimed(s.goal), exec := exec)
  }

  /** What a reference path meets: rejected for its start, unusable, already there, planned for. */
  datatype PathLuck = PathLuck(rejected: bool, unusable: bool, atGoal: bool, planned: bool)

  predicate PathAccepted(s: State, m: PathMsg, o: PathLuck) {
    !m.empty && m.frameOk && s.senses.odom && !o.rejected && !o.unusable && !o.atGoal && o.planned
  }

  function OnPath(s: State, m: PathMsg, o: PathLuck): State {
    if m.empty then StopNavigation(s, true)
    else if !m.frameOk then Note(s, Status(Failed))
    else if !s.senses.odom then s.(goal := s.goal.(pending := Some(m)))
    else if o.rejected then Note(s, Status(Failed))
    else FollowPath(s.(needHoverStop := false, flagEscape := true, failCount := 0), o)
  }

  /** The rest of pathCallback, once the old goal is dropped and the stop is armed again. */
  function FollowPath(s: State, o: PathLuck): State {
    var g := s.goal.(trigger := true, have := false, untried := false);
    if o.unusable then Note(s, Status(Failed)).(goal := g)
    else if o.atGoal then Note(s, Status(Reached)).(goal := g.(trigger := false))
    else if !o.planned then Unplanned(s.(goal := g))
    else
      var idle := s.exec == WaitTarget || s.exec == Init || s.exec == EmergencyStop;
      Note(s, Status(Running)).(goal := Aimed(g), exec := if idle then GenNewTraj else ReplanTraj)
  }

  function Unplanned(s: State): State { Note(StopNow(s), Status(Failed)).(goal := s.goal.(trigger := false)) }

  /** The preset route is started once, by the first odometry. */
  function StartPreset(p: Params, s: State, reachable: bool): State {
    var s' := RouteSet(p, s);
    s'.(goal := WithNextWaypoint(s'.goal, reachable),
        exec := if WaypointOk(s'.goal, reachable) then GenNewTraj else s'.exec)
  }

  function RouteSet(p: Params, s: State): State {
    s.(presetStarted := true, goal := s.goal.(waypoints := p.presetWaypoints, current := 0, trigger := true))
  }

  datatype OdomLuck = OdomLuck(path: PathLuck, reachable: bool)

  function Sensed(p: Params, s: State): State {
    s.(senses := s.senses.(odom := true, height := s.senses.height || p.mode == ManualTarget))
  }

  /** A path cached before the first odometry is followed now. */
  function TakePending(p: Params, s: State, o: PathLuck): State {
    if !s.senses.odom && s.goal.pending.Some?
    then OnPath(Sensed(p, s).(goal := s.goal.(pending := None)), s.goal.pending.value, o)
    else Sensed(p, s)
  }

  function OnOdometry(p: Params, s: State, o: OdomLuck): State {
    var s' := TakePending(p, s, o.path);
    if p.mode == PresetTarget && !s'.presetStarted then StartPreset(p, s', o.reachable) else s'
  }

  datatype Action =
    | Tick(tick: TickLuck) | Safety(safety: SafetyLuck)
    | GoalMsg(goal: GoalLuck) | Path(msg: PathMsg, path: PathLuck)
    | Odometry(odom: OdomLuck) | Frozen(frozen: bool) | Cancel | Preempt

  /** Goals are subscribed to in the manual mode, paths in the reference mode. */
  function Next(p: Params, s: State, a: Action): State {
    match a
    case Tick(o) => OnTick(p, s, o)
    case Safety(o) => OnSafety(p, s, o)
    case GoalMsg(o) => if p.mode == ManualTarget then OnGoal(s, o) else s
    case Path(m, o) => if p.mode == ReferencePath then OnPath(s, m, o) else s
    case Odometry(o) => OnOdometry(p, s, o)
    case Frozen(b) => s.(senses := s.senses.(frozen := b))
    case Cancel => StopNavigation(s, true)
    case Preempt => StopNavigation(s, false)
  }

  function Run(p: Params, s: State, actions: seq<Action>): State
    decreases |actions|
  {
    if actions == [] then s else Next(p, Run(p, s, actions[..|actions| - 1]), actions[|actions| - 1])
  }

  /** A plan goes out exactly when one is found, and planning leaves the mode and the flags alone. */
  lemma ReboundFacts(s: State, r: Rebound)
    ensures var s' := CallRebound(s, r);
            && s'.log == s.log + (if Plans(r) then [Plan] else [])
            && s' == s.(goal := s'.goal, haveTraj := s'.haveTraj, log := s'.log)
            && s'.haveTraj == (s.haveTraj || Plans(r))
  {
  }

  lemma PlanningFacts(p: Params, s: State, r: Refresh)
    ensures var s' := PlanFromCurrent(p, s, r);
            && s'.log == s.log + (if Replans(p, r) then [Plan] else [])
            && s' == s.(goal := s'.goal, haveTraj := s'.haveTraj, log := s'.log)
            && s'.haveTraj == (s.haveTraj || Replans(p, r))
  {
    ReboundFacts(s, r.first);
    ReboundFacts(CallRebound(s, r.first), r.second);
    hide CallRebound;
  }

  // ---------- a stop is always armed while moving ----------

  predicate Armed(s: State) { (s.exec == ReplanTraj || s.exec == ExecTraj) ==> s.flagEscape }

  /** What a tick of the executing state can do. */
  predicate StaysCalm(s: State, s': State) {
    && s'.flagEscape == s.flagEscape && s'.needHoverStop == s.needHoverStop
    && (s'.exec == ExecTraj || s'.exec == ReplanTraj || s'.exec == GenNewTraj || s'.exec == WaitTarget)
    && (s'.log == s.log || s'.log == s.log + [Status(Reached)])
  }

  lemma EndedTickFacts(p: Params, s: State, o: TickLuck)
    ensures StaysCalm(s, EndedTick(p, s, o)) && StaysCalm(s, GoToNextWaypoint(s, o.reachable))
  {
  }

  lemma ReferenceTickFacts(s: State, o: TickLuck)
    requires s.exec == ExecTraj
    ensures StaysCalm(s, ReferenceTick(s, o))
  {
  }

  lemma ExecTickFacts(p: Params, s: State, o: TickLuck)
    requires s.exec == ExecTraj
    ensures StaysCalm(s, ExecTick(p, s, o).0)
    ensures ExecTick(p, s, o).1 ==> ExecTick(p, s, o).0.exec == ReplanTraj
  {
    EndedTickFacts(p, s, o);
    ReferenceTickFacts(s, o);
    hide EndedTick, GoToNextWaypoint, ReferenceTick;
  }

  lemma TickKeepsArmed(p: Params, s: State, o: TickLuck)
    requires Armed(s)
    ensures Armed(OnTick(p, s, o))
  {
    if s.exec == ExecTraj {
      ExecTickFacts(p, s, o);
    }
    ReboundFacts(s, o.rebound);
    PlanningFacts(p, s, o.refresh);
    hide CallRebound, PlanFromCurrent, Plans, Replans, ExecTick;
  }

  lemma PathKeepsArmed(s: State, m: PathMsg, o: PathLuck)
    requires Armed(s)
    ensures Armed(OnPath(s, m, o))
  {
  }

  lemma SafetyKeepsArmed(p: Params, s: State, o: SafetyLuck)
    requires Armed(s)
    ensures Armed(OnSafety(p, s, o))
  {
  }

  lemma StepKeepsArmed(p: Params, s: State, a: Action)
    requires Armed(s)
    ensures Armed(Next(p, s, a))
  {
    hide OnTick, OnPath, OnSafety;
    match a {
      case Tick(o) => TickKeepsArmed(p, s, o);
      case Safety(o) => SafetyKeepsArmed(p, s, o);
      case Path(m, o) => PathKeepsArmed(s, m, o);
      case Odometry(o) =>
        if s.goal.pending.Some? {
          PathKeepsArmed(Sensed(p, s).(goal := s.goal.(pending := None)), s.goal.pending.value, o.path);
        }
      case _ =>
    }
  }

  /** In every run, replanning or executing means that the next emergency will publish a stop. */
  lemma {:induction false} RunKeepsArmed(p: Params, actions: seq<Action>)
    ensures Armed(Run(p, Start(), actions))
    decreases |actions|
  {
    hide Armed, Next;
    if actions == [] {
      StartArmed();
    } else {
      RunKeepsArmed(p, actions[..|actions| - 1]);
      StepKeepsArmed(p, Run(p, Start(), actions[..|actions| - 1]), actions[|actions| - 1]);
    }
  }

  lemma StartArmed()
    ensures Armed(Start())
  {
  }

  // ---------- every emergency publishes a stop ----------

  /** While moving or stopping, the next emergency tick will publish a stop. */
  predicate Ready(s: State) { Armed(s) && (s.exec == EmergencyStop ==> s.flagEscape) }

  /**
   A callback that can enter the emergency state: from another state, or again because replanning failed too often.
   */
  predicate Enters(p: Params, s: State, a: Action) {
    s.exec != EmergencyStop || (a.Tick? && TickBody(p, s, a.tick).0.failCount >= p.maxFail)
  }

  /** Entering the emergency state arms the stop. */
  lemma EntryIsReady(p: Params, s: State, a: Action)
    requires Armed(s) && Enters(p, s, a)
    ensures Ready(Next(p, s, a))
  {
    StepKeepsArmed(p, s, a);
    match a {
      case Tick(o) => TickIntoEmergency(p, s, o);
      case Safety(o) => SafetyKeepsReady(p, s, o);
      case _ => OthersKeepReady(p, s, a);
    }
  }

  lemma TickIntoEmergency(p: Params, s: State, o: TickLuck)
    requires s.exec != EmergencyStop || TickBody(p, s, o).0.failCount >= p.maxFail
    ensures OnTick(p, s, o).exec == EmergencyStop ==> OnTick(p, s, o).flagEscape
  {
    if s.exec == ExecTraj {
      ExecTickFacts(p, s, o);
    }
    ReboundFacts(s, o.rebound);
    PlanningFacts(p, s, o.refresh);
    hide CallRebound, PlanFromCurrent, Plans, Replans, ExecTick;
  }

  lemma SafetyKeepsReady(p: Params, s: State, o: SafetyLuck)
    requires Ready(s)
    ensures Ready(OnSafety(p, s, o))
  {
    PlanningFacts(p, s, o.refresh);
    hide PlanFromCurrent, Replans;
  }

  lemma PathKeepsReady(s: State, m: PathMsg, o: PathLuck)
    requires Ready(s)
    ensures Ready(OnPath(s, m, o))
  {
  }

  lemma OthersKeepReady(p: Params, s: State, a: Action)
    requires Ready(s) && !a.Tick? && !a.Safety?
    ensures Ready(Next(p, s, a))
  {
    hide OnTick, OnPath, OnSafety;
    match a {
      case Path(m, o) => PathKeepsReady(s, m, o);
      case Odometry(o) =>
        if s.goal.pending.Some? {
          PathKeepsReady(Sensed(p, s).(goal := s.goal.(pending := None)), s.goal.pending.value, o.path);
        }
      case _ =>
    }
  }

  lemma ReadyUnlessTick(p: Params, s: State, a: Action)
    requires Ready(s) && !a.Tick?
    ensures Ready(Next(p, s, a))
  {
    hide Ready, Next;
    if a.Safety? {
      SafetyKeepsReady(p, s, a.safety);
    } else {
      OthersKeepReady(p, s, a);
    }
    StepOnce(p, s, a);
  }

  lemma {:induction false} ReadyUntilTick(p: Params, s: State, quiet: seq<Action>)
    requires Ready(s) && forall a | a in quiet :: !a.Tick?
    ensures Ready(Run(p, s, quiet))
    decreases |quiet|
  {
    hide Ready, Next;
    if quiet != [] {
      var n := |quiet| - 1;
      ReadyUntilTick(p, s, quiet[..n]);
      ReadyUnlessTick(p, Run(p, s, quiet[..n]), quiet[n]);
    }
  }

  lemma StepOnce(p: Params, s: State, a: Action)
    ensures a.Safety? ==> Next(p, s, a) == OnSafety(p, s, a.safety)
    ensures a.Tick? ==> Next(p, s, a) == OnTick(p, s, a.tick)
  {
  }

  /**
   In every run: whenever the emergency state is entered and the machine is still there at the next tick of the
   execution timer, that tick publishes a stop first of all.
   */
  lemma EveryEmergencyStops(p: Params, before: seq<Action>, entry: Action, quiet: seq<Action>, o: TickLuck)
    requires Enters(p, Run(p, Start(), before), entry)
    requires forall a | a in quiet :: !a.Tick?
    requires Run(p, Next(p, Run(p, Start(), before), entry), quiet).exec == EmergencyStop
    ensures var s := Run(p, Next(p, Run(p, Start(), before), entry), quiet);
            s.log + [Stop] <= OnTick(p, s, o).log
  {
    hide Next, Run, Enters;
    RunKeepsArmed(p, before);
    var s0 := Run(p, Start(), before);
    EntryIsReady(p, s0, entry);
    ReadyUntilTick(p, Next(p, s0, entry), quiet);
    EmergencyTickStops(p, Run(p, Next(p, s0, entry), quiet), o);
  }

  /** The emergency state is left only by a later tick, after the stop, with the fail-safe on and the robot slow. */
  lemma EmergencyTickStops(p: Params, s: State, o: TickLuck)
    requires s.exec == EmergencyStop
    ensures s.flagEscape ==> s.log + [Stop] <= OnTick(p, s, o).log && OnTick(p, s, o).exec == EmergencyStop
    ensures OnTick(p, s, o).exec != EmergencyStop ==> !s.flagEscape && p.failSafe && o.slow
  {
  }

  // ---------- nothing moves after a cancel ----------

  predicate Idle(s: State) { s.exec == WaitTarget && !s.goal.have }

  /** The callbacks that take up a goal: a manual goal, a reference path, a cached path, the preset route. */
  predicate AcceptsGoal(p: Params, s: State, a: Action) {
    match a
    case GoalMsg(o) => p.mode == ManualTarget && GoalAccepted(s, o)
    case Path(m, o) => p.mode == ReferencePath && PathAccepted(s, m, o)
    case Odometry(o) =>
      || (!s.senses.odom && s.goal.pending.Some? && PathAccepted(Sensed(p, s), s.goal.pending.value, o.path))
      || (p.mode == PresetTarget && !s.presetStarted && p.presetWaypoints > 0 && o.reachable)
    case _ => false
  }

  /** No trajectory but a stop is among what was published since. */
  ghost predicate OnlyStops(before: seq<Event>, after: seq<Event>) {
    before <= after && forall k | |before| <= k < |after| :: after[k] != Plan
  }

  lemma IdleFollow(s: State, o: PathLuck)
    requires s.exec == WaitTarget
    ensures OnlyStops(s.log, FollowPath(s, o).log) && FollowPath(s, o).presetStarted == s.presetStarted
    ensures if !o.unusable && !o.atGoal && o.planned then FollowPath(s, o).goal.have else Idle(FollowPath(s, o))
  {
  }

  lemma StoppedIsIdle(s: State, report: bool)
    ensures var s' := StopNavigation(s, report);
            Idle(s') && OnlyStops(s.log, s'.log) && s'.presetStarted == s.presetStarted
  {
  }

  lemma NothingOut(s: State)
    ensures OnlyStops(s.log, s.log) && OnlyStops(s.log, s.log + [Status(Failed)])
  {
  }

  lemma IdlePath(s: State, m: PathMsg, o: PathLuck)
    requires Idle(s)
    ensures OnlyStops(s.log, OnPath(s, m, o).log) && OnPath(s, m, o).presetStarted == s.presetStarted
    ensures if PathAccepted(s, m, o) then OnPath(s, m, o).goal.have else Idle(OnPath(s, m, o))
  {
    StoppedIsIdle(s, true);
    IdleFollow(s.(needHoverStop := false, flagEscape := true, failCount := 0), o);
    hide FollowPath, StopNavigation, OnlyStops;
    NothingOut(s);
  }

  lemma IdleTick(p: Params, s: State, o: TickLuck)
    requires Idle(s)
    ensures OnTick(p, s, o) == s
  {
  }

  lemma IdleSafety(p: Params, s: State, o: SafetyLuck)
    requires Idle(s)
    ensures OnSafety(p, s, o) == s
  {
  }

  lemma IdleOdometry(p: Params, s: State, o: OdomLuck)
    requires Idle(s)
    ensures var a := Odometry(o);
            && OnlyStops(s.log, Next(p, s, a).log)
            && if AcceptsGoal(p, s, a) then Next(p, s, a).goal.have else Idle(Next(p, s, a))
  {
    NothingOut(s);
    hide OnPath, PathAccepted, OnlyStops;
    if s.goal.pending.Some? {
      var s' := Sensed(p, s).(goal := s.goal.(pending := None));
      IdlePath(s', s.goal.pending.value, o.path);
      SameAcceptance(Sensed(p, s), s', s.goal.pending.value, o.path);
    }
  }

  /** An idle machine stays idle and publishes no plan, or takes up a goal: exactly the named callbacks do that. */
  lemma IdleStep(p: Params, s: State, a: Action)
    requires Idle(s)
    ensures OnlyStops(s.log, Next(p, s, a).log)
    ensures if AcceptsGoal(p, s, a) then Next(p, s, a).goal.have else Idle(Next(p, s, a))
  {
    NothingOut(s);
    hide OnPath, PathAccepted, OnTick, OnSafety, OnOdometry, StopNavigation;
    match a {
      case Tick(o) => IdleTick(p, s, o);
      case Safety(o) => IdleSafety(p, s, o);
      case Path(m, o) => IdlePath(s, m, o);
      case Odometry(o) => IdleOdometry(p, s, o);
      case Cancel => StoppedIsIdle(s, true);
      case Preempt => StoppedIsIdle(s, false);
      case _ =>
    }
  }

  lemma SameAcceptance(s: State, s': State, m: PathMsg, o: PathLuck)
    requires s.senses == s'.senses
    ensures PathAccepted(s, m, o) == PathAccepted(s', m, o)
  {
  }

  /** No callback of the run takes up a goal. */
  ghost predicate NoneAccepted(p: Params, s: State, actions: seq<Action>) {
    forall i | 0 <= i < |actions| :: !AcceptsGoal(p, Run(p, s, actions[..i]), actions[i])
  }

  /** An idle machine in which no callback takes up a goal stays idle and publishes no plan. */
  lemma {:induction false} OnlyStopsWhileIdle(p: Params, s: State, actions: seq<Action>)
    requires Idle(s) && NoneAccepted(p, s, actions)
    ensures Idle(Run(p, s, actions)) && OnlyStops(s.log, Run(p, s, actions).log)
    decreases |actions|
  {
    hide Next, AcceptsGoal;
    if actions != [] {
      var n := |actions| - 1;
      forall i | 0 <= i < n
        ensures !AcceptsGoal(p, Run(p, s, actions[..n][..i]), actions[..n][i])
      {
        assert actions[..n][..i] == actions[..i];
      }
      OnlyStopsWhileIdle(p, s, actions[..n]);
      IdleStep(p, Run(p, s, actions[..n]), actions[n]);
    }
  }

  /**
   After a cancel or a preemption, in any state and for any continuation: as long as no callback takes up a goal,
   the machine waits without a target and every trajectory it publishes is a stop.
   */
  lemma OnlyStopsAfterCancel(p: Params, s: State, report: bool, actions: seq<Action>)
    requires NoneAccepted(p, StopNavigation(s, report), actions)
    ensures Idle(Run(p, StopNavigation(s, report), actions))
    ensures OnlyStops(s.log, Run(p, StopNavigation(s, report), actions).log)
  {
    StoppedIsIdle(s, report);
    OnlyStopsWhileIdle(p, StopNavigation(s, report), actions);
    hide StopNavigation, NoneAccepted, Run;
  }

  // ---------- a goal accepted during an emergency ----------

  /** Callbacks that bring no new target, cancel or preemption to a manual machine. */
  predicate Waits(a: Action) {
    a.Tick? || a.Safety? || a.Odometry? || a.Frozen? || a.Path? || (a.GoalMsg? && (a.goal.ignored || !a.goal.planned))
  }

  predicate AllWait(actions: seq<Action>) { forall a | a in actions :: Waits(a) }

  predicate HasTick(actions: seq<Action>) { exists a :: a in actions && a.Tick? }

  /** What one callback publishes: the first tick the armed stop, a goal that cannot be planned for its refusal. */
  function Entry(armed: bool, before: seq<Action>, a: Action): seq<Event> {
    match a
    case Tick(_) => if armed && !HasTick(before) then [Stop] else []
    case GoalMsg(o) => if !o.ignored && !o.planned then [Status(Failed)] else []
    case _ => []
  }

  /** What is published during an emergency and while idle after it: a stop, and the refusals of other goals. */
  function Published(armed: bool, actions: seq<Action>): seq<Event>
    decreases |actions|
  {
    if actions == [] then []
    else
      var n := |actions| - 1;
      Published(armed, actions[..n]) + Entry(armed, actions[..n], actions[n])
  }

  /** Some tick finds the robot slow after the stop went out: at once, or in an earlier tick. */
  predicate SlowAfterStop(armed: bool, actions: seq<Action>)
    decreases |actions|
  {
    if actions == [] then false
    else
      var n := |actions| - 1;
      SlowAfterStop(armed, actions[..n])
          || (actions[n].Tick? && actions[n].tick.slow && (!armed || HasTick(actions[..n])))
  }

  /** The emergency is left: the fail-safe is on, failures are counted at all, and a slow tick follows the stop. */
  predicate Leaves(p: Params, s: State, actions: seq<Action>) {
    p.maxFail > 0 && p.failSafe && SlowAfterStop(s.flagEscape, actions)
  }

  /**
   What every run of a manual machine keeps: a target came by a goal message and so after a height, no path is cached,
   failures are counted only while planning, and where no failure is tolerated at all every emergency tick arms the
   stop anew.
   */
  predicate Settled(p: Params, s: State) {
    && (s.goal.have ==> s.goal.trigger && s.senses.height)
    && s.goal.pending.None? && (s.exec == ExecTraj || s.exec == EmergencyStop ==> s.failCount == 0)
    && (p.maxFail <= 0 && s.exec == EmergencyStop ==> s.flagEscape)
  }

  lemma ReboundKeepsGoal(s: State, r: Rebound)
    ensures CallRebound(s, r).goal == s.goal.(untried := CallRebound(s, r).goal.untried)
  {
  }

  lemma PlanningKeepsGoal(p: Params, s: State, r: Refresh)
    ensures PlanFromCurrent(p, s, r).goal == s.goal.(untried := PlanFromCurrent(p, s, r).goal.untried)
  {
    ReboundKeepsGoal(s, r.first);
    ReboundKeepsGoal(CallRebound(s, r.first), r.second);
    hide CallRebound;
  }

  lemma SettledExec(p: Params, s: State, o: TickLuck)
    requires p.mode == ManualTarget && Settled(p, s) && s.exec == ExecTraj
    ensures Settled(p, ExecTick(p, s, o).0)
  {
    EndedTickFacts(p, s, o);
    hide GoalReached;
    ReachedKeeps(s);
  }

  lemma ReachedKeeps(s: State)
    ensures var s' := GoalReached(s);
            s'.exec == WaitTarget && !s'.goal.have && s'.goal.pending == s.goal.pending && s'.flagEscape == s.flagEscape
  {
  }

  lemma SettledPlanning(p: Params, s: State, o: TickLuck)
    requires Settled(p, s)
    ensures s.exec == GenNewTraj ==> Settled(p, GenTick(s, o))
    ensures s.exec == ReplanTraj ==> Settled(p, ReplanTick(p, s, o))
  {
    ReboundKeepsGoal(s, o.rebound);
    PlanningKeepsGoal(p, s, o.refresh);
    ReboundFacts(s, o.rebound);
    PlanningFacts(p, s, o.refresh);
    hide CallRebound, PlanFromCurrent, Plans, Replans;
  }

  /** A tick in the emergency state of a settled machine. */
  lemma WaitInTick(p: Params, s: State, o: TickLuck)
    requires Settled(p, s) && s.exec == EmergencyStop
    ensures var s' := OnTick(p, s, o);
            if p.maxFail <= 0 then s'.exec == EmergencyStop && s'.goal == s.goal
            else if s.flagEscape then s' == StopNow(s).(flagEscape := false)
            else if !(p.failSafe && o.slow) then s' == s
            else if s.needHoverStop then Idle(s') && s'.log == s.log && s'.senses == s.senses
            else s' == s.(exec := GenNewTraj)
  {
  }

  lemma SettledEmergency(p: Params, s: State, o: TickLuck)
    requires Settled(p, s) && s.exec == EmergencyStop
    ensures Settled(p, OnTick(p, s, o))
  {
    WaitInTick(p, s, o);
    EmergencyKeeps(p, s, o);
    hide OnTick;
  }

  lemma EmergencyKeeps(p: Params, s: State, o: TickLuck)
    requires Settled(p, s) && s.exec == EmergencyStop
    ensures var s' := OnTick(p, s, o);
            && s'.failCount == 0 && (s'.goal == s.goal || s'.goal == Dropped(s.goal)) && s'.senses == s.senses
            && (p.maxFail <= 0 ==> s'.flagEscape)
  {
  }

  lemma SettledTick(p: Params, s: State, o: TickLuck)
    requires p.mode == ManualTarget && Settled(p, s)
    ensures Settled(p, OnTick(p, s, o))
  {
    if s.exec == EmergencyStop {
      SettledEmergency(p, s, o);
      hide OnTick;
      return;
    }
    SettledPlanning(p, s, o);
    if s.exec == ExecTraj {
      SettledExec(p, s, o);
    }
    hide GenTick, ReplanTick, ExecTick, EmergencyTick;
  }

  lemma SettledGoal(p: Params, s: State, o: GoalLuck)
    requires Settled(p, s)
    ensures Settled(p, OnGoal(s, o))
  {
  }

  lemma SettledOdometry(p: Params, s: State, o: OdomLuck)
    requires p.mode == ManualTarget && Settled(p, s)
    ensures Settled(p, OnOdometry(p, s, o))
  {
    hide OnPath, StartPreset;
  }

  lemma SettledSafety(p: Params, s: State, o: SafetyLuck)
    requires p.mode == ManualTarget && Settled(p, s) && Armed(s)
    ensures Settled(p, OnSafety(p, s, o))
  {
    PlanningKeepsGoal(p, s, o.refresh);
    PlanningFacts(p, s, o.refresh);
    hide PlanFromCurrent, Replans;
  }

  lemma SettledStep(p: Params, s: State, a: Action)
    requires p.mode == ManualTarget && Settled(p, s) && Armed(s)
    ensures Settled(p, Next(p, s, a))
  {
    hide OnTick, OnSafety, OnOdometry, OnGoal, OnPath;
    match a {
      case Tick(o) => SettledTick(p, s, o);
      case Safety(o) => SettledSafety(p, s, o);
      case Odometry(o) => SettledOdometry(p, s, o);
      case GoalMsg(o) => SettledGoal(p, s, o);
      case _ =>
    }
  }

  lemma {:induction false} RunSettled(p: Params, actions: seq<Action>)
    requires p.mode == ManualTarget
    ensures Settled(p, Run(p, Start(), actions))
    decreases |actions|
  {
    hide Next;
    if actions != [] {
      var n := |actions| - 1;
      RunSettled(p, actions[..n]);
      RunKeepsArmed(p, actions[..n]);
      hide Settled, Armed;
      SettledStep(p, Run(p, Start(), actions[..n]), actions[n]);
    }
  }

  lemma WaitOutsideTicks(p: Params, s: State, a: Action)
    requires p.mode == ManualTarget && Settled(p, s) && Waits(a) && !a.Tick? && s.exec != ExecTraj && s.senses.height
    ensures var s' := Next(p, s, a);
            && s' == s.(senses := s'.senses, goal := s'.goal, log := s.log + Entry(false, [], a))
            && s'.senses.height && s'.goal == s.goal.(trigger := s'.goal.trigger)
            && (s.goal.trigger ==> s'.goal.trigger)
  {
    hide OnPath;
  }

  lemma RunNothing(p: Params, s: State, actions: seq<Action>)
    ensures actions[..|actions|] == actions && Run(p, s, actions[..0]) == s
  {
  }

  lemma RunNext(p: Params, s: State, actions: seq<Action>, i: nat)
    requires i < |actions|
    ensures Run(p, s, actions[..i + 1]) == Next(p, Run(p, s, actions[..i]), actions[i])
  {
    assert actions[..i + 1][..i] == actions[..i];
  }

  /** What the machine looks like while the emergency lasts. */
  predicate StillStopping(p: Params, s: State, e: State, actions: seq<Action>) {
    && Settled(p, e) && e.exec == EmergencyStop && e.goal == s.goal && e.senses.height
    && (p.maxFail > 0 ==>
          && e.needHoverStop == s.needHoverStop && e.flagEscape == (s.flagEscape && !HasTick(actions))
          && e.log == s.log + Published(s.flagEscape, actions))
  }

  lemma StopsOverTick(p: Params, s: State, e: State, before: seq<Action>, o: TickLuck)
    requires p.mode == ManualTarget && s.goal.have && Armed(e) && StillStopping(p, s, e, before)
    requires !(p.maxFail > 0 && p.failSafe && o.slow && (!s.flagEscape || HasTick(before)))
    ensures StillStopping(p, s, OnTick(p, e, o), before + [Tick(o)])
  {
    OneMoreAction(s.flagEscape, before, Tick(o));
    SettledEmergency(p, e, o);
    WaitInTick(p, e, o);
    EmergencyKeeps(p, e, o);
    hide OnTick, HasTick, Published, Settled, Armed;
  }

  lemma StopsOverOther(p: Params, s: State, e: State, before: seq<Action>, a: Action)
    requires p.mode == ManualTarget && s.goal.have && Settled(p, s) && Armed(e) && StillStopping(p, s, e, before)
    requires Waits(a) && !a.Tick?
    ensures StillStopping(p, s, Next(p, e, a), before + [a])
  {
    OneMoreAction(s.flagEscape, before, a);
    SettledStep(p, e, a);
    WaitOutsideTicks(p, e, a);
    hide Next, HasTick, Published, Armed, Waits;
  }

  lemma {:induction false} StopsUntilLeft(p: Params, s: State, actions: seq<Action>)
    requires p.mode == ManualTarget && Settled(p, s) && Armed(s) && s.exec == EmergencyStop && s.goal.have
    requires AllWait(actions) && !Leaves(p, s, actions)
    ensures StillStopping(p, s, Run(p, s, actions), actions)
    decreases |actions|
  {
    if actions != [] {
      var n := |actions| - 1;
      var before, a := actions[..n], actions[n];
      var e := Run(p, s, before);
      TicksSoFar(actions);
      StopsUntilLeft(p, s, before);
      assert Waits(a) && actions == before + [a];
      assert !(p.maxFail > 0 && p.failSafe && a.Tick? && a.tick.slow && (!s.flagEscape || HasTick(before)));
      hide Next, HasTick, AllWait, SlowAfterStop, Published, StillStopping, Settled, Waits;
      if a.Tick? {
        StepOnce(p, e, a);
        StopsOverTick(p, s, e, before, a.tick);
      } else {
        StopsOverOther(p, s, e, before, a);
      }
    }
  }

  lemma OneMoreAction(armed: bool, before: seq<Action>, a: Action)
    ensures Published(armed, before + [a]) == Published(armed, before) + Entry(armed, before, a)
    ensures HasTick(before + [a]) <==> HasTick(before) || a.Tick?
  {
    assert (before + [a])[..|before|] == before;
  }

  lemma TicksSoFar(actions: seq<Action>)
    requires actions != []
    ensures HasTick(actions) <==> HasTick(actions[..|actions| - 1]) || actions[|actions| - 1].Tick?
    ensures AllWait(actions) ==> AllWait(actions[..|actions| - 1])
  {
    var n := |actions| - 1;
    assert actions == actions[..n] + [actions[n]];
  }

  /** The first tick that leaves the emergency. */
  lemma {:induction false} FirstLeave(p: Params, s: State, actions: seq<Action>) returns (j: nat)
    requires Leaves(p, s, actions)
    ensures j < |actions| && !Leaves(p, s, actions[..j]) && Leaves(p, s, actions[..j + 1])
    decreases |actions|
  {
    var n := |actions| - 1;
    if Leaves(p, s, actions[..n]) {
      j := FirstLeave(p, s, actions[..n]);
      assert actions[..n][..j] == actions[..j] && actions[..n][..j + 1] == actions[..j + 1];
    } else {
      j := n;
      assert actions[..j + 1] == actions;
    }
  }

  lemma {:induction false} LeavesOn(p: Params, s: State, actions: seq<Action>, i: nat)
    requires i <= |actions| && Leaves(p, s, actions[..i])
    ensures Leaves(p, s, actions)
    decreases |actions| - i
  {
    if i < |actions| {
      assert actions[..i + 1][..i] == actions[..i];
      LeavesOn(p, s, actions, i + 1);
    } else {
      assert actions[..i] == actions;
    }
  }

  /** That tick goes to waiting without a target from a hover stop, and to planning for the goal otherwise. */
  lemma LeavingTick(p: Params, s: State, actions: seq<Action>, j: nat)
    requires p.mode == ManualTarget && Settled(p, s) && Armed(s) && s.exec == EmergencyStop && s.goal.have
    requires AllWait(actions)
    requires j < |actions| && !Leaves(p, s, actions[..j]) && Leaves(p, s, actions[..j + 1])
    ensures var e := Run(p, s, actions[..j + 1]);
            if s.needHoverStop then QuietlyIdle(p, s, e, actions[..j + 1])
            else e.exec == GenNewTraj && e.goal == s.goal
  {
    var before := actions[..j];
    PrefixWaits(actions, j);
    StopsUntilLeft(p, s, before);
    RunNext(p, s, actions, j);
    LastOfPrefix(actions, j + 1);
    assert actions[..j + 1][..j] == before;
    assert actions[j].Tick? && actions[j].tick.slow && (!s.flagEscape || HasTick(before));
    hide Next, Run, HasTick, AllWait, Published, StillStopping, QuietlyIdle, Settled, SlowAfterStop, Armed;
    StepOnce(p, Run(p, s, before), actions[j]);
    LeavesOverTick(p, s, Run(p, s, before), before, actions[j].tick);
  }

  lemma LeavesOverTick(p: Params, s: State, e: State, before: seq<Action>, o: TickLuck)
    requires p.mode == ManualTarget && s.goal.have && StillStopping(p, s, e, before)
    requires p.maxFail > 0 && p.failSafe && o.slow && (!s.flagEscape || HasTick(before))
    ensures var e' := OnTick(p, e, o);
            if s.needHoverStop then QuietlyIdle(p, s, e', before + [Tick(o)])
            else e'.exec == GenNewTraj && e'.goal == s.goal
  {
    OneMoreAction(s.flagEscape, before, Tick(o));
    SettledEmergency(p, e, o);
    WaitInTick(p, e, o);
    hide OnTick, HasTick, Published, Settled;
  }

  lemma LastOfPrefix(actions: seq<Action>, j: nat)
    requires 0 < j <= |actions|
    ensures actions[..j] == actions[..j - 1] + [actions[j - 1]]
  {
  }

  lemma PrefixWaits(actions: seq<Action>, j: nat)
    requires AllWait(actions) && j <= |actions|
    ensures AllWait(actions[..j]) && forall i | 0 <= i < |actions| :: Waits(actions[i])
  {
    hide Waits;
  }

  /** Idle with nothing published but the stop and refusals of other goals, the stop being out. */
  predicate QuietlyIdle(p: Params, s: State, e: State, actions: seq<Action>) {
    && Idle(e) && Settled(p, e) && e.senses.height && HasTick(actions)
    && e.log == s.log + Published(s.flagEscape, actions)
  }

  /** An idle manual machine to which nothing new is said publishes nothing more. */
  lemma IdleOverOther(p: Params, s: State, e: State, before: seq<Action>, a: Action)
    requires p.mode == ManualTarget && QuietlyIdle(p, s, e, before) && Waits(a)
    ensures QuietlyIdle(p, s, Next(p, e, a), before + [a])
  {
    OneMoreAction(s.flagEscape, before, a);
    SettledStep(p, e, a);
    if a.Tick? {
      StepOnce(p, e, a);
      IdleTick(p, e, a.tick);
    } else {
      WaitOutsideTicks(p, e, a);
    }
    hide Next, HasTick, Published, Waits, OnTick, Settled;
  }

  lemma {:induction false} IdleWaits(p: Params, s: State, actions: seq<Action>, i: nat, j: nat)
    requires p.mode == ManualTarget && AllWait(actions) && i <= j <= |actions|
    requires QuietlyIdle(p, s, Run(p, s, actions[..i]), actions[..i])
    ensures QuietlyIdle(p, s, Run(p, s, actions[..j]), actions[..j])
    decreases j - i
  {
    if i < j {
      IdleWaits(p, s, actions, i, j - 1);
      RunNext(p, s, actions, j - 1);
      LastOfPrefix(actions, j);
      PrefixWaits(actions, j);
      hide Next, Run, AllWait, QuietlyIdle, Waits;
      IdleOverOther(p, s, Run(p, s, actions[..j - 1]), actions[..j - 1], actions[j - 1]);
    }
  }

  /** The goal is gone before it was ever planned for, and nothing that concerns it was published meanwhile. */
  ghost predicate LostQuietly(p: Params, s: State, actions: seq<Action>) {
    exists i | 0 <= i <= |actions| :: LostAt(p, s, actions, i)
  }

  ghost predicate LostAt(p: Params, s: State, actions: seq<Action>, i: nat)
    requires i <= |actions|
  {
    && Idle(Run(p, s, actions[..i])) && (forall h | 0 <= h < i :: Run(p, s, actions[..h]).exec != GenNewTraj)
    && Run(p, s, actions[..i]).log == s.log + Published(s.flagEscape, actions[..i])
  }

  /**
   From the emergency state of a manual machine with a goal, whatever callbacks follow short of a new target, a cancel
   or a preemption: the goal is lost without a status exactly when the stop is a hover stop and the emergency is left.
   Until then it is kept; left otherwise, planning for it begins.
   */
  lemma GoalInEmergency(p: Params, s: State, actions: seq<Action>)
    requires p.mode == ManualTarget && Settled(p, s) && s.exec == EmergencyStop && s.goal.have && AllWait(actions)
    ensures LostQuietly(p, s, actions) <==> s.needHoverStop && Leaves(p, s, actions)
    ensures s.needHoverStop && Leaves(p, s, actions) ==>
              Idle(Run(p, s, actions)) && Run(p, s, actions).log == s.log + Published(s.flagEscape, actions)
    ensures !Leaves(p, s, actions) ==> Run(p, s, actions).exec == EmergencyStop && Run(p, s, actions).goal == s.goal
    ensures !s.needHoverStop && Leaves(p, s, actions) ==>
              exists i | 0 <= i <= |actions| ::
                Run(p, s, actions[..i]).exec == GenNewTraj && Run(p, s, actions[..i]).goal == s.goal
  {
    hide Next, Settled, SlowAfterStop, Published;
    forall i: nat | i <= |actions| && !Leaves(p, s, actions[..i])
      ensures Run(p, s, actions[..i]).exec == EmergencyStop && Run(p, s, actions[..i]).goal == s.goal
    {
      assert AllWait(actions[..i]);
      StopsUntilLeft(p, s, actions[..i]);
    }
    assert actions[..|actions|] == actions;
    if Leaves(p, s, actions) {
      var j := FirstLeave(p, s, actions);
      LeavingTick(p, s, actions, j);
      BeforeFirstLeave(p, s, actions, j);
      if s.needHoverStop {
        IdleWaits(p, s, actions, j + 1, |actions|);
        assert LostAt(p, s, actions, j + 1);
      } else {
        forall i: nat | i <= |actions|
          ensures !LostAt(p, s, actions, i)
        {
          if i > j + 1 {
            assert Run(p, s, actions[..j + 1]).exec == GenNewTraj;
          }
        }
      }
    } else {
      forall i: nat | i <= |actions|
        ensures !LostAt(p, s, actions, i)
      {
        if Leaves(p, s, actions[..i]) {
          LeavesOn(p, s, actions, i);
        }
      }
    }
  }

  lemma BeforeFirstLeave(p: Params, s: State, actions: seq<Action>, j: nat)
    requires j <= |actions| && !Leaves(p, s, actions[..j])
    ensures forall i | 0 <= i <= j :: !Leaves(p, s, actions[..i])
  {
    forall i: nat | i <= j && Leaves(p, s, actions[..i])
      ensures false
    {
      assert actions[..j][..i] == actions[..i];
      LeavesOn(p, s, actions[..j], i);
    }
  }

  /**
   So for a manual goal accepted in the emergency state of any run: it is reported as running and dropped without a
   status exactly when the machine is in a hover stop and leaves it.
   */
  lemma HoverDropsAcceptedGoal(p: Params, before: seq<Action>, g: GoalLuck, actions: seq<Action>)
    requires p.mode == ManualTarget && AllWait(actions)
    requires Run(p, Start(), before).exec == EmergencyStop && GoalAccepted(Run(p, Start(), before), g)
    ensures var s := Run(p, Start(), before);
            var s' := Next(p, s, GoalMsg(g));
            && s'.goal.have && s'.log == s.log + [Status(Running)]
            && (LostQuietly(p, s', actions) <==> s.needHoverStop && Leaves(p, s, actions))
            && (!Leaves(p, s, actions) ==> Run(p, s', actions).goal.have)
            && (!s.needHoverStop && Leaves(p, s, actions) ==>
                  exists i | 0 <= i <= |actions| ::
                    Run(p, s', actions[..i]).exec == GenNewTraj && Run(p, s', actions[..i]).goal.have)
  {
    var s := Run(p, Start(), before);
    RunSettled(p, before);
    RunKeepsArmed(p, before);
    SettledStep(p, s, GoalMsg(g));
    var s' := Next(p, s, GoalMsg(g));
    assert s'.exec == EmergencyStop && s'.goal.have && s'.flagEscape == s.flagEscape
           && s'.needHoverStop == s.needHoverStop;
    hide Next, Settled, SlowAfterStop, LostQuietly, AllWait;
    GoalInEmergency(p, s', actions);
  }

  // ---------- a run in which that happens ----------

  const HOVERING := Params(ManualTarget, 1, true, 0)
  const UNPLANNED := Rebound(false, false)
  const ANY_GOAL := GoalLuck(false, true)
  const FIRST_ODOMETRY := Odometry(OdomLuck(PathLuck(false, false, false, false), false))

  function FailingTick(slow: bool): Action {
    Tick(TickLuck(true, UNPLANNED, Refresh(false, UNPLANNED, UNPLANNED),
                  false, false, false, false, false, false, false, slow))
  }

  const TO_HOVER := [FIRST_ODOMETRY, GoalMsg(ANY_GOAL), FailingTick(false), FailingTick(false), FailingTick(false)]
  const OUT_OF_HOVER := [FailingTick(false), FailingTick(true)]

  /** One tolerated failure is one too many: planning fails, and the machine stops and hovers. */
  lemma ReachesHover() returns (s: State)
    ensures s == Run(HOVERING, Start(), TO_HOVER)
    ensures s.exec == EmergencyStop && s.needHoverStop && s.flagEscape && GoalAccepted(s, ANY_GOAL) && s.failCount == 0
    ensures s.log == [Status(Running), Status(Failed)]
  {
    hide Run;
    s := Start();
    RunNothing(HOVERING, s, TO_HOVER);
    for i := 0 to 5
      invariant s == Run(HOVERING, Start(), TO_HOVER[..i])
      invariant i == 0 ==> s == Start()
      invariant i == 1 ==> s == Start().(senses := Senses(true, true, false))
      invariant i == 2 ==> s.exec == Init && s.goal.trigger && s.goal.have
      invariant i == 3 ==> s.exec == WaitTarget && s.goal.have
      invariant i == 4 ==> s.exec == GenNewTraj
      invariant 2 <= i <= 4 ==> s.senses.odom && s.senses.height && s.failCount == 0 && s.log == [Status(Running)]
      invariant i == 5 ==> s.exec == EmergencyStop && s.needHoverStop && s.flagEscape && s.senses.height
      invariant i == 5 ==> s.failCount == 0 && s.log == [Status(Running), Status(Failed)]
    {
      RunNext(HOVERING, Start(), TO_HOVER, i);
      s := Next(HOVERING, s, TO_HOVER[i]);
    }
  }

  /** A goal accepted there is reported as running; two ticks later it is gone, with only a stop published. */
  lemma GoalLostInHover() returns (s: State)
    ensures s == Next(HOVERING, Run(HOVERING, Start(), TO_HOVER), GoalMsg(ANY_GOAL)) && s.goal.have
    ensures AllWait(OUT_OF_HOVER) && LostQuietly(HOVERING, s, OUT_OF_HOVER)
    ensures Idle(Run(HOVERING, s, OUT_OF_HOVER))
    ensures Run(HOVERING, s, OUT_OF_HOVER).log == [Status(Running), Status(Failed), Status(Running), Stop]
  {
    var e := ReachesHover();
    s := Next(HOVERING, e, GoalMsg(ANY_GOAL));
    assert OUT_OF_HOVER[..1] == [FailingTick(false)] && OUT_OF_HOVER[..1][..0] == [] && OUT_OF_HOVER[0].Tick?;
    assert SlowAfterStop(true, OUT_OF_HOVER);
    hide Run, Next;
    HoverDropsAcceptedGoal(HOVERING, TO_HOVER, ANY_GOAL, OUT_OF_HOVER);
    RunNothing(HOVERING, s, OUT_OF_HOVER);
    RunNext(HOVERING, s, OUT_OF_HOVER, 0);
    RunNext(HOVERING, s, OUT_OF_HOVER, 1);
    LastTicks(e, s);
  }

  lemma LastTicks(e: State, s: State)
    requires e.exec == EmergencyStop && e.needHoverStop && e.flagEscape && e.failCount == 0 && GoalAccepted(e, ANY_GOAL)
    requires s == Next(HOVERING, e, GoalMsg(ANY_GOAL))
    ensures var s1 := Next(HOVERING, s, OUT_OF_HOVER[0]);
            Idle(Next(HOVERING, s1, OUT_OF_HOVER[1]))
            && Next(HOVERING, s1, OUT_OF_HOVER[1]).log == e.log + [Status(Running)] + [Stop]
  {
  }

  // ---------- laws of single callbacks ----------

  /** No status Running is among what was published since. */
  ghost predicate NoneRunning(before: seq<Event>, after: seq<Event>) {
    before <= after && forall k | |before| <= k < |after| :: after[k] != Status(Running)
  }

  /** e is among what was published since. */
  ghost predicate Adds(before: seq<Event>, after: seq<Event>, e: Event) {
    before <= after && exists k :: |before| <= k < |after| && after[k] == e
  }

  /** No waypoint is left after the one the machine is on its way to. */
  predicate LastWaypoint(p: Params, g: Goal) { p.mode != PresetTarget || g.waypoints <= g.current + 1 }

  /** The goal is reached: the robot is there, and was not only to pass by. */
  predicate Arrives(p: Params, s: State, o: TickLuck) {
    && s.exec == ExecTraj && o.atGoal
    && (p.mode == ReferencePath || (o.trajEnded && LastWaypoint(p, s.goal)))
  }

  /** A waypoint is passed: another one is left, and the robot is near it or at the end of its trajectory. */
  predicate Passes(p: Params, s: State, o: TickLuck) {
    s.exec == ExecTraj && !LastWaypoint(p, s.goal) && (o.nearWaypoint || o.trajEnded)
  }

  /**
   A tick publishes GOAL_REACHED exactly on arrival, and exactly then an executing machine drops the target and waits;
   away from the goal it keeps its target. A waypoint is passed one at a time, exactly when it is due.
   */
  ghost predicate ArrivalLaw(p: Params, s: State, s': State, o: TickLuck) {
    && (Adds(s.log, s'.log, Status(Reached)) <==> Arrives(p, s, o))
    && (s.exec == ExecTraj ==>
          && (s'.exec == WaitTarget <==> Arrives(p, s, o))
          && (Arrives(p, s, o) ==> !s'.goal.have && !s'.goal.trigger && s'.log == s.log + [Status(Reached)])
          && (!Arrives(p, s, o) && s.goal.have ==> s'.goal.have)
          && (s'.exec == GenNewTraj <==> Passes(p, s, o))
          && s'.goal.untried == (s.goal.untried || (Passes(p, s, o) && o.reachable)))
    && (Passes(p, s, o) ==> s'.failCount == s.failCount + if o.reachable then 0 else 1)
    && (Passes(p, s, o) ==> s'.goal.current == s.goal.current + 1 && s'.goal.waypoints == s.goal.waypoints)
    && (s.exec == EmergencyStop || s.exec == GenNewTraj || s.exec == ReplanTraj
        ==> s'.goal.current == s.goal.current && s'.goal.waypoints == s.goal.waypoints)
  }

  /** A local trajectory that has ended, or is due, away from the goal and the waypoints. */
  predicate NeedsReplan(p: Params, s: State, o: TickLuck) {
    && s.exec == ExecTraj && !Arrives(p, s, o) && !Passes(p, s, o)
    && if p.mode == ReferencePath then !s.senses.frozen && (o.moveOn || o.trajEnded)
       else o.trajEnded || !(o.nearEnd || o.nearStart)
  }

  /** The failures in a row after a tick of a planning state. */
  function Failures(s: State, o: TickLuck, planned: bool): int {
    if !o.retryReady then s.failCount else if planned then 0 else s.failCount + 1
  }

  predicate Planned(p: Params, s: State, o: TickLuck) {
    if s.exec == GenNewTraj then Plans(o.rebound) else Replans(p, o.refresh)
  }

  /**
   An executing machine plans anew exactly when it needs to, or has failed too often. A planning machine executes
   exactly after a plan, counts the failures in a row, and gives up, with GOAL_FAILED, exactly when there are too many.
   */
  ghost predicate PlanningLaw(p: Params, s: State, s': State, o: TickLuck) {
    && (s.exec == ExecTraj ==>
          && (s'.exec == ReplanTraj || s'.exec == EmergencyStop <==> NeedsReplan(p, s, o))
          && (s'.exec == EmergencyStop ==> p.maxFail <= s.failCount && p.mode != ReferencePath && !o.trajEnded)
          && (s'.exec == EmergencyStop <==> Adds(s.log, s'.log, Status(Failed))))
    && (s.exec == GenNewTraj || s.exec == ReplanTraj ==>
          var planned := Planned(p, s, o);
          var n := Failures(s, o, planned);
          && (Adds(s.log, s'.log, Plan) <==> o.retryReady && planned)
          && (Adds(s.log, s'.log, Status(Failed)) <==> p.maxFail <= n)
          && s'.exec == (if p.maxFail <= n then EmergencyStop else if o.retryReady && planned then ExecTraj else s.exec)
          && s'.failCount == if p.maxFail <= n then 0 else n)
    && (s.exec == WaitTarget && s.goal.have ==>
          s'.exec == if p.maxFail <= s.failCount then EmergencyStop else GenNewTraj)
  }

  /**
   What a tick may do. An armed emergency publishes its stop and lasts; it ends only after that, with the fail-safe on
   and the robot slow, and nothing is published then. Whatever enters it arms the stop and asks for a hover. Execution
   starts only with one new plan, outside planning nothing but stops goes out, and an idle machine stays as it is.
   */
  ghost predicate TickLaw(p: Params, s: State, s': State, o: TickLuck) {
    && ArrivalLaw(p, s, s', o) && PlanningLaw(p, s, s', o)
    && (s.exec == EmergencyStop && s.flagEscape ==> s'.exec == EmergencyStop && s.log + [Stop] <= s'.log)
    && (s.exec == EmergencyStop && s'.exec != EmergencyStop ==>
          !s.flagEscape && p.failSafe && o.slow && s'.log == s.log)
    && (s.exec != EmergencyStop && s'.exec == EmergencyStop ==> s'.flagEscape && s'.needHoverStop)
    && (s.exec != ExecTraj && s'.exec == ExecTraj ==> s'.log == s.log + [Plan])
    && (s.exec != GenNewTraj && s.exec != ReplanTraj ==> OnlyStops(s.log, s'.log))
    && (Idle(s) ==> s' == s)
  }

  lemma TickObeysLaw(p: Params, s: State, o: TickLuck)
    requires Armed(s)
    ensures TickLaw(p, s, OnTick(p, s, o), o) && Armed(OnTick(p, s, o))
  {
    TickKeepsArmed(p, s, o);
    TickArrivesAndPlans(p, s, o);
    hide ArrivalLaw, PlanningLaw;
    if s.exec == EmergencyStop {
      EmergencyTickStops(p, s, o);
      EmergencyTickLog(p, s, o);
    } else {
      TickIntoEmergency(p, s, o);
      CalmTick(p, s, o);
    }
    hide OnTick;
  }

  /** What is new in a log that grew by known entries. */
  lemma AddsKnown(before: seq<Event>, more: seq<Event>, e: Event)
    ensures Adds(before, before + more, e) <==> e in more
  {
    if e in more {
      var k :| 0 <= k < |more| && more[k] == e;
      assert (before + more)[|before| + k] == e;
    }
  }

  lemma AddsAll(s: State, s': State, more: seq<Event>)
    requires s'.log == s.log + more
    ensures forall e :: Adds(s.log, s'.log, e) <==> e in more
  {
    forall e
      ensures Adds(s.log, s'.log, e) <==> e in more
    {
      AddsKnown(s.log, more, e);
    }
  }

  /** The end of a tick: the failures so far may be too many. */
  lemma FinishedLog(p: Params, s: State, more: seq<Event>, s1: State)
    requires s1.log == s.log + more
    ensures var s' := Finished(p, s1);
            s'.log == s.log + if p.maxFail <= s1.failCount then more + [Status(Failed)] else more
  {
    assert s.log + more + [Status(Failed)] == s.log + (more + [Status(Failed)]);
  }

  /** One tick of the executing state, by what it meets. */
  ghost predicate ExecLaw(p: Params, s: State, o: TickLuck, s': State, finish: bool) {
    && s'.log == s.log + (if Arrives(p, s, o) then [Status(Reached)] else [])
    && (s'.exec == WaitTarget <==> Arrives(p, s, o)) && (s'.exec == GenNewTraj <==> Passes(p, s, o))
    && (s'.exec == ReplanTraj <==> NeedsReplan(p, s, o))
    && (Arrives(p, s, o) ==> !s'.goal.have && !s'.goal.trigger)
    && (!Arrives(p, s, o) && s.goal.have ==> s'.goal.have)
    && s'.goal.untried == (s.goal.untried || (Passes(p, s, o) && o.reachable))
    && (Passes(p, s, o) ==> s'.goal.current == s.goal.current + 1 && s'.goal.waypoints == s.goal.waypoints)
    && (Passes(p, s, o) ==> s'.failCount == s.failCount + if o.reachable then 0 else 1)
    && (finish ==> s'.failCount == s.failCount && p.mode != ReferencePath && !o.trajEnded)
    && (finish ==> NeedsReplan(p, s, o)) && s'.exec != EmergencyStop
  }

  lemma ReferenceArrives(p: Params, s: State, o: TickLuck)
    requires s.exec == ExecTraj && p.mode == ReferencePath
    ensures ExecLaw(p, s, o, ReferenceTick(s, o), false)
  {
  }

  lemma WaypointPasses(p: Params, s: State, o: TickLuck)
    requires Passes(p, s, o)
    ensures ExecLaw(p, s, o, GoToNextWaypoint(s, o.reachable), false)
  {
  }

  lemma EndArrives(p: Params, s: State, o: TickLuck)
    requires s.exec == ExecTraj && p.mode != ReferencePath && o.trajEnded && LastWaypoint(p, s.goal)
    ensures ExecLaw(p, s, o, EndedTick(p, s, o), false)
  {
  }

  lemma ExecArrives(p: Params, s: State, o: TickLuck)
    requires s.exec == ExecTraj
    ensures ExecLaw(p, s, o, ExecTick(p, s, o).0, ExecTick(p, s, o).1)
  {
    if p.mode == ReferencePath {
      ReferenceArrives(p, s, o);
      hide ExecLaw, ReferenceTick;
    } else if Passes(p, s, o) {
      WaypointPasses(p, s, o);
      hide ExecLaw, GoToNextWaypoint;
    } else if o.trajEnded {
      EndArrives(p, s, o);
      hide ExecLaw, EndedTick;
    } else {
      hide ReferenceTick, EndedTick, GoToNextWaypoint;
    }
  }

  lemma ExecLog(p: Params, s: State, o: TickLuck) returns (more: seq<Event>)
    requires s.exec == ExecTraj
    ensures OnTick(p, s, o).log == s.log + more
    ensures Status(Reached) in more <==> Arrives(p, s, o)
    ensures Status(Failed) in more <==> OnTick(p, s, o).exec == EmergencyStop
    ensures Arrives(p, s, o) ==> more == [Status(Reached)]
    ensures OnTick(p, s, o).exec == EmergencyStop ==> NeedsReplan(p, s, o) && p.mode != ReferencePath
    ensures OnTick(p, s, o).exec == EmergencyStop ==> p.maxFail <= s.failCount && !o.trajEnded
  {
    ExecArrives(p, s, o);
    var (s1, finish) := ExecTick(p, s, o);
    hide ExecTick, NeedsReplan, Arrives, Passes;
    more := if Arrives(p, s, o) then [Status(Reached)] else [];
    if finish {
      FinishedLog(p, s, more, s1);
      if p.maxFail <= s1.failCount {
        more := more + [Status(Failed)];
      }
    }
  }

  lemma PlanningLog(p: Params, s: State, o: TickLuck) returns (more: seq<Event>)
    requires s.exec == GenNewTraj || s.exec == ReplanTraj
    ensures OnTick(p, s, o).log == s.log + more
    ensures more == (if o.retryReady && Planned(p, s, o) then [Plan] else [])
                    + if p.maxFail <= Failures(s, o, Planned(p, s, o)) then [Status(Failed)] else []
  {
    ReboundFacts(s, o.rebound);
    PlanningFacts(p, s, o.refresh);
    hide CallRebound, PlanFromCurrent, Plans, Replans, ExecTick;
    more := if o.retryReady && Planned(p, s, o) then [Plan] else [];
    FinishedLog(p, s, more, TickBody(p, s, o).0);
    if p.maxFail <= Failures(s, o, Planned(p, s, o)) {
      more := more + [Status(Failed)];
    }
  }

  lemma ExecTickArrives(p: Params, s: State, o: TickLuck)
    requires s.exec == ExecTraj
    ensures ArrivalLaw(p, s, OnTick(p, s, o), o) && PlanningLaw(p, s, OnTick(p, s, o), o)
  {
    var more := ExecLog(p, s, o);
    AddsAll(s, OnTick(p, s, o), more);
    ExecArrives(p, s, o);
    var (s1, finish) := ExecTick(p, s, o);
    hide Adds, ExecTick, Arrives, Passes, NeedsReplan;
    if finish && p.maxFail <= s1.failCount {
      assert OnTick(p, s, o).exec == EmergencyStop && OnTick(p, s, o).goal == s1.goal;
    } else {
      assert OnTick(p, s, o) == s1;
    }
    hide OnTick;
  }

  lemma GenTickGoal(s: State, o: TickLuck)
    requires s.exec == GenNewTraj
    ensures var s1 := GenTick(s, o);
            && s1.goal == s.goal.(untried := s1.goal.untried) && s1.failCount == Failures(s, o, Plans(o.rebound))
            && s1.exec == if o.retryReady && Plans(o.rebound) then ExecTraj else s.exec
  {
    ReboundFacts(s, o.rebound);
    ReboundKeepsGoal(s, o.rebound);
    hide CallRebound, Plans;
  }

  lemma ReplanTickGoal(p: Params, s: State, o: TickLuck)
    requires s.exec == ReplanTraj
    ensures var s1 := ReplanTick(p, s, o);
            && s1.goal == s.goal.(untried := s1.goal.untried) && s1.failCount == Failures(s, o, Replans(p, o.refresh))
            && s1.exec == if o.retryReady && Replans(p, o.refresh) then ExecTraj else s.exec
  {
    PlanningFacts(p, s, o.refresh);
    PlanningKeepsGoal(p, s, o.refresh);
    hide PlanFromCurrent, Replans;
  }

  lemma PlanningTickGoal(p: Params, s: State, o: TickLuck)
    requires s.exec == GenNewTraj || s.exec == ReplanTraj
    ensures var s' := OnTick(p, s, o);
            && s'.goal == s.goal.(untried := s'.goal.untried)
            && var n := Failures(s, o, Planned(p, s, o));
               && s'.failCount == (if p.maxFail <= n then 0 else n)
               && s'.exec == if p.maxFail <= n then EmergencyStop
                             else if o.retryReady && Planned(p, s, o) then ExecTraj else s.exec
  {
    if s.exec == GenNewTraj {
      GenTickGoal(s, o);
    } else {
      ReplanTickGoal(p, s, o);
    }
    hide GenTick, ReplanTick, Plans, Replans, ExecTick, Failures;
  }

  lemma PlanningTickLaws(p: Params, s: State, o: TickLuck)
    requires s.exec == GenNewTraj || s.exec == ReplanTraj
    ensures ArrivalLaw(p, s, OnTick(p, s, o), o) && PlanningLaw(p, s, OnTick(p, s, o), o)
  {
    var more := PlanningLog(p, s, o);
    AddsAll(s, OnTick(p, s, o), more);
    PlanningTickGoal(p, s, o);
    hide OnTick, Adds, Planned;
  }

  lemma RestTickLaws(p: Params, s: State, o: TickLuck)
    requires s.exec == Init || s.exec == WaitTarget || s.exec == EmergencyStop
    ensures ArrivalLaw(p, s, OnTick(p, s, o), o) && PlanningLaw(p, s, OnTick(p, s, o), o)
  {
    var more := RestLog(p, s, o);
    AddsAll(s, OnTick(p, s, o), more);
    hide Adds;
  }

  lemma TickArrivesAndPlans(p: Params, s: State, o: TickLuck)
    ensures ArrivalLaw(p, s, OnTick(p, s, o), o) && PlanningLaw(p, s, OnTick(p, s, o), o)
  {
    hide OnTick, ArrivalLaw, PlanningLaw;
    if s.exec == ExecTraj {
      ExecTickArrives(p, s, o);
    } else if s.exec == GenNewTraj || s.exec == ReplanTraj {
      PlanningTickLaws(p, s, o);
    } else {
      RestTickLaws(p, s, o);
    }
  }

  /** The other states publish a stop, or give up, and report no arrival. */
  lemma RestLog(p: Params, s: State, o: TickLuck) returns (more: seq<Event>)
    requires s.exec == Init || s.exec == WaitTarget || s.exec == EmergencyStop
    ensures OnTick(p, s, o).log == s.log + more && Status(Reached) !in more
  {
    hide GenTick, ReplanTick, ExecTick;
    var (s1, finish) := TickBody(p, s, o);
    more := if s.exec == EmergencyStop && s.flagEscape then [Stop] else [];
    assert s1.log == s.log + more;
    if finish {
      FinishedLog(p, s, more, s1);
      if p.maxFail <= s1.failCount {
        more := more + [Status(Failed)];
      }
    }
    hide TickBody, Finished;
  }

  lemma EmergencyTickLog(p: Params, s: State, o: TickLuck)
    requires s.exec == EmergencyStop
    ensures var s' := OnTick(p, s, o);
            OnlyStops(s.log, s'.log) && s'.exec != ExecTraj && (s'.exec != EmergencyStop ==> s'.log == s.log)
  {
  }

  lemma CalmTick(p: Params, s: State, o: TickLuck)
    requires s.exec != EmergencyStop
    ensures CalmLaw(s, OnTick(p, s, o))
  {
    if s.exec == ExecTraj {
      CalmExec(p, s, o);
      hide OnTick, CalmLaw;
    } else if s.exec == Init || s.exec == WaitTarget {
      hide GenTick, ReplanTick, ExecTick;
    } else {
      CalmPlanning(p, s, o);
      hide OnTick, CalmLaw;
    }
  }

  ghost predicate CalmLaw(s: State, s': State) {
    && (s'.exec == EmergencyStop ==> s'.needHoverStop)
    && (s.exec != ExecTraj && s'.exec == ExecTraj ==> s'.log == s.log + [Plan])
    && (s.exec != GenNewTraj && s.exec != ReplanTraj ==> OnlyStops(s.log, s'.log))
    && (Idle(s) ==> s' == s)
  }

  lemma CalmExec(p: Params, s: State, o: TickLuck)
    requires s.exec == ExecTraj
    ensures CalmLaw(s, OnTick(p, s, o))
  {
    ExecTickFacts(p, s, o);
    hide ExecTick;
  }

  lemma CalmPlanning(p: Params, s: State, o: TickLuck)
    requires s.exec == GenNewTraj || s.exec == ReplanTraj
    ensures CalmLaw(s, OnTick(p, s, o))
  {
    ReboundFacts(s, o.rebound);
    PlanningFacts(p, s, o.refresh);
    hide CallRebound, PlanFromCurrent, Plans, Replans, ExecTick;
  }

  lemma GoalObeysLaw(s: State, o: GoalLuck)
    requires Armed(s)
    ensures var s' := OnGoal(s, o);
            && Armed(s') && OnlyStops(s.log, s'.log) && (s'.exec == EmergencyStop <==> s.exec == EmergencyStop)
            && (!GoalAccepted(s, o) || s.exec !in {WaitTarget, ExecTraj} ==> s'.exec == s.exec)
            && (GoalAccepted(s, o) && s.exec == WaitTarget ==> s'.exec == GenNewTraj)
            && (GoalAccepted(s, o) && s.exec == ExecTraj ==> s'.exec == ReplanTraj)
            && if GoalAccepted(s, o) then s'.goal.have && s'.log == s.log + [Status(Running)]
               else s'.goal.have == s.goal.have && NoneRunning(s.log, s'.log)
  {
  }

  lemma SensedKeepsArmed(p: Params, s: State)
    requires Armed(s)
    ensures Armed(Sensed(p, s))
  {
  }

  lemma SameArmed(s: State, s': State)
    requires Armed(s') && s.exec == s'.exec && s.flagEscape == s'.flagEscape
    ensures Armed(s)
  {
  }

  /** A path publishes no plan, and is reported as running exactly when it is the new target and planning begins. */
  ghost predicate PathLaw(s: State, s': State, m: PathMsg, accepted: bool) {
    && OnlyStops(s.log, s'.log)
    && (if accepted then
          && s'.log == s.log + [Status(Running)] && s'.goal.have && s'.flagEscape
          && s'.exec == (if s.exec in {GenNewTraj, ReplanTraj, ExecTraj} then ReplanTraj else GenNewTraj)
        else NoneRunning(s.log, s'.log) && s'.exec == if m.empty then WaitTarget else s.exec)
    && (s.senses.odom ==> s'.goal.pending.None? || s'.goal.pending == s.goal.pending)
    && s'.presetStarted == s.presetStarted && s'.senses == s.senses
  }

  lemma FollowObeysLaw(s: State, m: PathMsg, o: PathLuck)
    requires s.flagEscape && !m.empty
    ensures PathLaw(s, FollowPath(s, o), m, !o.unusable && !o.atGoal && o.planned)
  {
  }

  lemma StopObeysLaw(s: State, m: PathMsg)
    requires m.empty
    ensures PathLaw(s, StopNavigation(s, true), m, false)
  {
  }

  /** A status Failed, or a path put aside for later. */
  lemma RefusalObeysLaw(s: State, m: PathMsg)
    requires !m.empty
    ensures PathLaw(s, Note(s, Status(Failed)), m, false)
    ensures !s.senses.odom ==> PathLaw(s, s.(goal := s.goal.(pending := Some(m))), m, false)
  {
  }

  lemma RearmedObeysLaw(s: State, s1: State, s': State, m: PathMsg, accepted: bool)
    requires s1 == s.(needHoverStop := s1.needHoverStop, flagEscape := s1.flagEscape, failCount := s1.failCount)
    requires PathLaw(s1, s', m, accepted)
    ensures PathLaw(s, s', m, accepted)
  {
  }

  lemma PathObeysLaw(s: State, m: PathMsg, o: PathLuck)
    ensures PathLaw(s, OnPath(s, m, o), m, PathAccepted(s, m, o))
  {
    var s1 := s.(needHoverStop := false, flagEscape := true, failCount := 0);
    if m.empty {
      StopObeysLaw(s, m);
    } else {
      RefusalObeysLaw(s, m);
      FollowObeysLaw(s1, m, o);
      RearmedObeysLaw(s, s1, FollowPath(s1, o), m, !o.unusable && !o.atGoal && o.planned);
    }
    hide FollowPath, StopNavigation, PathLaw, Note;
  }

  /**
   Odometry publishes no plan; the first one takes the cached path, the preset route is started by the time it
   returns, and from then on it only senses. An idle machine takes a target from it exactly when it accepts one.
   */
  ghost predicate OdometryLaw(p: Params, s: State, s': State, accepted: bool) {
    && s'.senses.odom && OnlyStops(s.log, s'.log)
    && (p.mode == PresetTarget ==> s'.presetStarted)
    && (Idle(s) ==> if accepted then s'.goal.have else Idle(s'))
    && (s.senses.odom && (p.mode != PresetTarget || s.presetStarted) ==> s' == s.(senses := s'.senses))
    && (!s.senses.odom ==> s'.goal.pending.None?)
  }

  lemma NextOdometry(p: Params, s: State, o: OdomLuck)
    ensures Next(p, s, Odometry(o)) == OnOdometry(p, s, o)
  {
  }

  lemma OdometryKeepsArmed(p: Params, s: State, o: OdomLuck)
    requires Armed(s)
    ensures Armed(OnOdometry(p, s, o))
  {
    StepKeepsArmed(p, s, Odometry(o));
    NextOdometry(p, s, o);
    hide Next, OnOdometry, Armed;
  }

  lemma OdometryObeysLaw(p: Params, s: State, o: OdomLuck)
    requires Armed(s)
    ensures Armed(OnOdometry(p, s, o))
    ensures OdometryLaw(p, s, OnOdometry(p, s, o), AcceptsGoal(p, s, Odometry(o)))
  {
    OdometryKeepsArmed(p, s, o);
    if Idle(s) {
      IdleOdometry(p, s, o);
      NextOdometry(p, s, o);
    }
    PendingFacts(p, s, o.path);
    PresetFacts(p, TakePending(p, s, o.path), o.reachable);
    hide OnlyStops, AcceptsGoal, Armed, TakePending, StartPreset, Next, Idle;
  }

  lemma PendingFacts(p: Params, s: State, o: PathLuck)
    ensures var s' := TakePending(p, s, o);
            && OnlyStops(s.log, s'.log) && s'.presetStarted == s.presetStarted && s'.senses == Sensed(p, s).senses
            && (if s.senses.odom then s' == Sensed(p, s) else s'.goal.pending.None?)
  {
    NothingOut(s);
    if s.goal.pending.Some? {
      PathObeysLaw(Sensed(p, s).(goal := s.goal.(pending := None)), s.goal.pending.value, o);
    }
    hide OnPath, OnlyStops, NoneRunning, PathAccepted;
  }

  lemma PresetFacts(p: Params, s: State, reachable: bool)
    ensures var s' := StartPreset(p, s, reachable);
            s'.log == s.log && s'.presetStarted && s'.senses == s.senses && s'.goal.pending == s.goal.pending
  {
  }

  /** A plan goes out only while planning, or from the safety callback while executing. */
  lemma OnlyPlanningPlans(p: Params, s: State, a: Action)
    requires Armed(s) && s.exec != GenNewTraj && s.exec != ReplanTraj && !(s.exec == ExecTraj && a.Safety?)
    ensures OnlyStops(s.log, Next(p, s, a).log)
  {
    NothingOut(s);
    hide OnTick, OnPath, OnOdometry, OnGoal, StopNavigation, AcceptsGoal, PathAccepted, NoneRunning, OnlyStops;
    match a {
      case Tick(o) => TickObeysLaw(p, s, o);
      case Path(m, o) => PathObeysLaw(s, m, o);
      case Odometry(o) => OdometryObeysLaw(p, s, o);
      case GoalMsg(o) => GoalObeysLaw(s, o);
      case Cancel => StoppedIsIdle(s, true);
      case Preempt => StoppedIsIdle(s, false);
      case _ =>
    }
  }

  // ---------- every GOAL_REACHED is an arrival ----------

  /** A path that ends where the robot already is. */
  predicate PathArrives(m: PathMsg, o: PathLuck) { !m.empty && m.frameOk && !o.rejected && !o.unusable && o.atGoal }

  /** The callbacks that find the robot at the goal. */
  predicate ArrivesBy(p: Params, s: State, a: Action) {
    match a
    case Tick(o) => Arrives(p, s, o)
    case Path(m, o) => p.mode == ReferencePath && s.senses.odom && PathArrives(m, o)
    case Odometry(o) =>
      !s.senses.odom && s.goal.pending.Some? && PathArrives(s.goal.pending.value, o.path)
    case _ => false
  }

  /** The robot is at the goal that the callback looks at. */
  predicate FindsGoal(a: Action) {
    (a.Tick? && a.tick.atGoal) || (a.Path? && a.path.atGoal) || (a.Odometry? && a.odom.path.atGoal)
  }

  lemma ArrivalFindsGoal(p: Params, s: State, a: Action)
    requires ArrivesBy(p, s, a)
    ensures FindsGoal(a)
  {
  }

  /** A path reports an arrival exactly when it ends where the robot is. */
  lemma PathReports(s: State, m: PathMsg, o: PathLuck)
    ensures s.log <= OnPath(s, m, o).log
    ensures Adds(s.log, OnPath(s, m, o).log, Status(Reached)) <==> s.senses.odom && PathArrives(m, o)
  {
    if m.empty || !m.frameOk || !s.senses.odom || o.rejected {
      RefusedReports(s, m, o);
      hide OnPath, Adds;
    } else {
      FollowReports(s.(needHoverStop := false, flagEscape := true, failCount := 0), o);
      hide FollowPath, Adds;
    }
  }

  lemma RefusedReports(s: State, m: PathMsg, o: PathLuck)
    requires m.empty || !m.frameOk || !s.senses.odom || o.rejected
    ensures s.log <= OnPath(s, m, o).log && !Adds(s.log, OnPath(s, m, o).log, Status(Reached))
  {
  }

  lemma FollowReports(s: State, o: PathLuck)
    ensures s.log <= FollowPath(s, o).log
    ensures Adds(s.log, FollowPath(s, o).log, Status(Reached)) <==> !o.unusable && o.atGoal
  {
    if !o.unusable && o.atGoal {
      AddsKnown(s.log, [Status(Reached)], Status(Reached));
    }
  }

  lemma OdometryReports(p: Params, s: State, o: OdomLuck)
    ensures s.log <= OnOdometry(p, s, o).log
    ensures Adds(s.log, OnOdometry(p, s, o).log, Status(Reached)) <==> ArrivesBy(p, s, Odometry(o))
  {
    PresetFacts(p, TakePending(p, s, o.path), o.reachable);
    if !s.senses.odom && s.goal.pending.Some? {
      PathReports(Sensed(p, s).(goal := s.goal.(pending := None)), s.goal.pending.value, o.path);
    }
    hide OnPath, StartPreset, PathArrives;
  }

  lemma SafetyReports(p: Params, s: State, o: SafetyLuck)
    ensures s.log <= OnSafety(p, s, o).log && !Adds(s.log, OnSafety(p, s, o).log, Status(Reached))
  {
    PlanningFacts(p, s, o.refresh);
    hide PlanFromCurrent, Replans;
  }

  /** Any callback in any state reports an arrival exactly when it finds the robot at the goal. */
  lemma ReportsArrivals(p: Params, s: State, a: Action)
    ensures s.log <= Next(p, s, a).log
    ensures Adds(s.log, Next(p, s, a).log, Status(Reached)) <==> ArrivesBy(p, s, a)
  {
    match a {
      case Tick(o) =>
        TickArrivesAndPlans(p, s, o);
        TickGrows(p, s, o);
        hide OnTick, Arrives, Passes, PlanningLaw;
      case Path(m, o) =>
        PathReports(s, m, o);
        hide OnPath, PathArrives;
      case Odometry(o) =>
        OdometryReports(p, s, o);
        hide OnOdometry;
      case Safety(o) =>
        SafetyReports(p, s, o);
        hide OnSafety;
      case _ =>
    }
  }

  lemma TickGrows(p: Params, s: State, o: TickLuck)
    ensures s.log <= OnTick(p, s, o).log
  {
    if s.exec == ExecTraj {
      var more := ExecLog(p, s, o);
      hide OnTick;
    } else if s.exec == GenNewTraj || s.exec == ReplanTraj {
      var more := PlanningLog(p, s, o);
      hide OnTick;
    } else {
      var more := RestLog(p, s, o);
      hide OnTick;
    }
  }

  /** The callback at i published the entry at k. */
  predicate PublishedBy(p: Params, actions: seq<Action>, i: nat, k: nat)
    requires i < |actions|
  {
    |Run(p, Start(), actions[..i]).log| <= k < |Run(p, Start(), actions[..i + 1]).log|
  }

  /** In every run, each GOAL_REACHED was published by a callback that found the robot at the goal. */
  lemma {:induction false} EveryReachedIsArrival(p: Params, actions: seq<Action>, k: nat) returns (i: nat)
    requires k < |Run(p, Start(), actions).log| && Run(p, Start(), actions).log[k] == Status(Reached)
    ensures i < |actions| && PublishedBy(p, actions, i, k)
    ensures ArrivesBy(p, Run(p, Start(), actions[..i]), actions[i]) && FindsGoal(actions[i])
    decreases |actions|
  {
    hide Next, ArrivesBy, FindsGoal;
    if actions == [] {
      assert false;
    } else {
      var n := |actions| - 1;
      var s := Run(p, Start(), actions[..n]);
      ReportsArrivals(p, s, actions[n]);
      assert actions[..n + 1] == actions;
      if |s.log| <= k {
        i := n;
        ArrivalFindsGoal(p, s, actions[n]);
      } else {
        i := EveryReachedIsArrival(p, actions[..n], k);
        assert actions[..n][..i] == actions[..i] && actions[..n][..i + 1] == actions[..i + 1];
      }
    }
  }

  // ---------- the machine as it is programmed ----------

  class ScanReplanFsm {
    const params: Params
    var execState: Exec
    var trigger: bool
    var haveTarget: bool
    var haveNewTarget: bool
    var activeWaypoints: nat
    var currentWp: nat
    var pendingPath: Option<PathMsg>
    var haveOdom: bool
    var heightReady: bool
    var frozen: bool
    var presetStarted: bool
    var needHoverStop: bool
    var flagEscapeEmergency: bool
    var replanFailCount: int
    var haveTraj: bool
    var published: seq<Event>

    function GoalView(): Goal
      reads this
    {
      Goal(trigger, haveTarget, haveNewTarget, activeWaypoints, currentWp, pendingPath)
    }

    function View(): State
      reads this
    {
      State(execState, flagEscapeEmergency, needHoverStop, replanFailCount, presetStarted, haveTraj,
            GoalView(), Senses(haveOdom, heightReady, frozen), published)
    }

    /** While replanning or executing, the next emergency publishes a stop. */
    predicate Valid()
      reads this
    {
      Armed(View())
    }

    constructor (params: Params)
      ensures this.params == params && View() == Start() && Valid()
    {
      this.params := params;
      execState, trigger, haveTarget, haveNewTarget := Init, false, false, false;
      activeWaypoints, currentWp, pendingPath := 0, 0, None;
      haveOdom, heightReady, frozen, presetStarted := false, false, false, false;
      needHoverStop, flagEscapeEmergency, replanFailCount, haveTraj, published := false, true, 0, false, [];
    }

    method Publish(e: Event)
      modifies this`published
      ensures published == old(published) + [e]
    {
      published := published + [e];
    }

    method CallEmergencyStop()
      modifies this`published, this`haveTraj
      ensures View() == StopNow(old(View()))
    {
      haveTraj := true;
      Publish(Stop);
    }

    method CallReboundReplan(r: Rebound) returns (success: bool)
      modifies this`published, this`haveTraj, this`haveNewTarget
      ensures View() == CallRebound(old(View()), r) && (success <==> Plans(r))
      ensures published == old(published) + (if success then [Plan] else [])
    {
      if !r.target {
        return false;
      }
      haveNewTarget := false;
      if r.plan {
        haveTraj := true;
        Publish(Plan);
      }
      return r.plan;
    }

    method PlanFromCurrentTraj(r: Refresh) returns (success: bool)
      modifies this`published, this`haveTraj, this`haveNewTarget
      ensures View() == PlanFromCurrent(params, old(View()), r) && (success <==> Replans(params, r))
      ensures published == old(published) + (if success then [Plan] else [])
      ensures haveTraj <==> old(haveTraj) || success
    {
      PlanningFacts(params, View(), r);
      hide CallRebound;
      if params.mode != ReferencePath && !r.refreshed {
        return false;
      }
      success := CallReboundReplan(r.first);
      if !success {
        success := CallReboundReplan(r.second);
      }
    }

    method PlanNextWaypoint(reachable: bool) returns (success: bool)
      modifies this`haveTarget, this`haveNewTarget
      ensures View() == old(View()).(goal := WithNextWaypoint(old(GoalView()), reachable))
      ensures success <==> WaypointOk(old(GoalView()), reachable)
    {
      if currentWp >= activeWaypoints || !reachable {
        return false;
      }
      haveTarget := true;
      haveNewTarget := true;
      return true;
    }

    method ClearGoal()
      modifies this
      ensures View() == old(View()).(goal := NO_GOAL)
    {
      trigger, haveTarget, haveNewTarget := false, false, false;
      activeWaypoints, currentWp, pendingPath := 0, 0, None;
    }

    method ClearFlags()
      modifies this
      ensures View() == old(View()).(needHoverStop := false, flagEscape := false, failCount := 0, exec := WaitTarget)
    {
      needHoverStop, flagEscapeEmergency, replanFailCount := false, false, 0;
      execState := WaitTarget;
    }

    method StopCurrentNavigation(report: bool)
      modifies this
      ensures View() == StopNavigation(old(View()), report) && Valid()
      ensures Idle(View()) && GoalView() == NO_GOAL && !flagEscapeEmergency && !needHoverStop
      ensures published == old(published) + (if haveOdom then [Stop] else [])
                                          + (if report then [Status(Cancelled)] else [])
    {
      if haveOdom {
        CallEmergencyStop();
      }
      ClearGoal();
      ClearFlags();
      if report {
        Publish(Status(Cancelled));
      }
    }

    method FinishProcess()
      modifies this
      ensures View() == Finished(params, old(View()))
    {
      if replanFailCount >= params.maxFail {
        replanFailCount, needHoverStop, flagEscapeEmergency := 0, true, true;
        Publish(Status(Failed));
        execState := EmergencyStop;
      }
    }

    method AdvanceWaypoint(reachable: bool)
      modifies this
      ensures View() == GoToNextWaypoint(old(View()), reachable)
    {
      currentWp := currentWp + 1;
      var planned := PlanNextWaypoint(reachable);
      if !planned {
        replanFailCount := replanFailCount + 1;
      }
      execState := GenNewTraj;
    }

    method ReachGoal()
      modifies this
      ensures View() == GoalReached(old(View()))
    {
      haveTarget, trigger := false, false;
      Publish(Status(Reached));
      execState := WaitTarget;
    }

    method FollowTick(o: TickLuck)
      modifies this
      ensures View() == ReferenceTick(old(View()), o)
    {
      hide GoalReached;
      if o.atGoal {
        ReachGoal();
      } else if !frozen && (o.moveOn || o.trajEnded) {
        execState := ReplanTraj;
      }
    }

    method ExecTrajTick(o: TickLuck) returns (finish: bool)
      modifies this
      ensures (View(), finish) == ExecTick(params, old(View()), o)
    {
      hide GoToNextWaypoint, GoalReached, ReferenceTick;
      if params.mode == ReferencePath {
        FollowTick(o);
        return false;
      }
      var more := params.mode == PresetTarget && currentWp + 1 < activeWaypoints;
      if more && o.nearWaypoint {
        AdvanceWaypoint(o.reachable);
        return false;
      }
      if o.trajEnded {
        if more {
          AdvanceWaypoint(o.reachable);
          return false;
        }
        if params.mode == PresetTarget {
          activeWaypoints, currentWp := 0, 0;
        }
        if o.atGoal {
          ReachGoal();
        } else {
          execState := ReplanTraj;
        }
        return false;
      } else if o.nearEnd || o.nearStart {
        return false;
      }
      execState := ReplanTraj;
      return true;
    }

    method EmergencyStopTick(o: TickLuck)
      modifies this
      ensures View() == EmergencyTick(params, old(View()), o).(flagEscape := false)
    {
      if flagEscapeEmergency {
        CallEmergencyStop();
      } else {
        if params.failSafe && !needHoverStop && o.slow {
          execState := GenNewTraj;
        } else if params.failSafe && needHoverStop && o.slow {
          needHoverStop, haveTarget, trigger := false, false, false;
          execState := WaitTarget;
        }
      }
      flagEscapeEmergency := false;
    }

    method GenNewTrajTick(o: TickLuck)
      requires execState == GenNewTraj
      modifies this
      ensures View() == GenTick(old(View()), o)
    {
      ReboundFacts(View(), o.rebound);
      hide CallRebound, Plans;
      if !o.retryReady {
        return;
      }
      var success := CallReboundReplan(o.rebound);
      if success {
        replanFailCount, execState, flagEscapeEmergency := 0, ExecTraj, true;
      } else {
        replanFailCount := replanFailCount + 1;
      }
    }

    method ReplanTrajTick(o: TickLuck)
      requires execState == ReplanTraj
      modifies this
      ensures View() == ReplanTick(params, old(View()), o)
    {
      PlanningFacts(params, View(), o.refresh);
      hide PlanFromCurrent, Replans;
      if !o.retryReady {
        return;
      }
      var success := PlanFromCurrentTraj(o.refresh);
      if success {
        replanFailCount, execState := 0, ExecTraj;
      } else {
        replanFailCount := replanFailCount + 1;
      }
    }

    /** The switch over the state, and whether finishProcess follows. */
    method RunState(o: TickLuck) returns (finish: bool)
      modifies this
      ensures (View(), finish) == TickBody(params, old(View()), o)
    {
      hide GenTick, ReplanTick, ExecTick, EmergencyTick;
      match execState {
        case Init =>
          if !haveOdom || !trigger {
            return false;
          }
          execState := WaitTarget;
        case WaitTarget =>
          if !haveTarget {
            return false;
          }
          execState := GenNewTraj;
        case GenNewTraj => GenNewTrajTick(o);
        case ReplanTraj => ReplanTrajTick(o);
        case ExecTraj =>
          finish := ExecTrajTick(o);
          return;
        case EmergencyStop => EmergencyStopTick(o);
      }
      return true;
    }

    /** One tick: how emergencies start, stop and end, when execution starts, and when plans may go out. */
    method ExecFsmCallback(o: TickLuck)
      requires Valid()
      modifies this
      ensures View() == OnTick(params, old(View()), o) && Valid()
      ensures TickLaw(params, old(View()), View(), o)
    {
      TickObeysLaw(params, View(), o);
      hide TickLaw, Armed, TickBody, Finished;
      var finish := RunState(o);
      if finish {
        FinishProcess();
      }
    }

    /** A collision ahead is answered by a new plan, or else by a stop that is armed; without one nothing changes. */
    method CheckCollisionCallback(o: SafetyLuck)
      requires Valid()
      modifies this
      ensures View() == OnSafety(params, old(View()), o) && Valid()
      ensures var danger := old(execState) == ExecTraj && old(haveTraj) && o.collision;
              if !danger then View() == old(View())
              else if o.retryReady && Replans(params, o.refresh) then
                execState == ExecTraj && published == old(published) + [Plan]
              else && published == old(published) && flagEscapeEmergency
                   && execState == if o.soon then EmergencyStop else ReplanTraj
    {
      hide PlanFromCurrent, Replans;
      PlanningFacts(params, View(), o.refresh);
      if execState != ExecTraj || !haveTraj || !o.collision {
        return;
      }
      if o.retryReady {
        var success := PlanFromCurrentTraj(o.refresh);
        if success {
          execState := ExecTraj;
          return;
        }
      }
      execState := if o.soon then EmergencyStop else ReplanTraj;
    }

    method PursueGoal()
      modifies this
      ensures View() == Pursued(old(View()))
    {
      haveTarget, haveNewTarget := true, true;
      if execState == WaitTarget {
        execState := GenNewTraj;
      } else if execState == ExecTraj {
        execState := ReplanTraj;
      }
      Publish(Status(Running));
    }

    /** A manual goal publishes no trajectory, neither enters nor leaves an emergency, and is reported as running
        exactly when it becomes the target. */
    method WaypointCallback(o: GoalLuck)
      requires Valid()
      modifies this
      ensures View() == OnGoal(old(View()), o) && Valid()
      ensures OnlyStops(old(published), published) && (execState == EmergencyStop <==> old(execState) == EmergencyStop)
      // a goal is planned for anew from a standstill, and from the trajectory under way
      ensures execState == if !GoalAccepted(old(View()), o) then old(execState)
                           else if old(execState) == WaitTarget then GenNewTraj
                           else if old(execState) == ExecTraj then ReplanTraj else old(execState)
      ensures if GoalAccepted(old(View()), o) then haveTarget && published == old(published) + [Status(Running)]
              else haveTarget == old(haveTarget) && NoneRunning(old(published), published)
    {
      GoalObeysLaw(View(), o);
      hide Armed, GoalAccepted, Pursued, OnlyStops, NoneRunning;
      if !heightReady || o.ignored {
        return;
      }
      trigger := true;
      if o.planned {
        PursueGoal();
      } else {
        Publish(Status(Failed));
      }
    }

    /** A path publishes no plan; it is reported as running exactly when it is the new target and planning begins. */
    method PathCallback(m: PathMsg, o: PathLuck)
      requires Valid()
      modifies this
      ensures View() == OnPath(old(View()), m, o) && Valid()
      ensures OnlyStops(old(published), published)
      ensures if PathAccepted(old(View()), m, o) then
                && published == old(published) + [Status(Running)] && haveTarget && flagEscapeEmergency
                && execState == (if old(execState) in {GenNewTraj, ReplanTraj, ExecTraj} then ReplanTraj
                                 else GenNewTraj)
              else NoneRunning(old(published), published) && execState == if m.empty then WaitTarget else old(execState)
    {
      PathKeepsArmed(View(), m, o);
      PathObeysLaw(View(), m, o);
      hide OnlyStops, NoneRunning, Armed, PathAccepted;
      hide StopNavigation, FollowPath;
      if m.empty {
        StopCurrentNavigation(true);
      } else if !m.frameOk {
        Publish(Status(Failed));
      } else if !haveOdom {
        pendingPath := Some(m);
      } else if o.rejected {
        Publish(Status(Failed));
      } else {
        RearmStop();
        FollowReference(o);
      }
    }

    method RearmStop()
      modifies this
      ensures View() == old(View()).(needHoverStop := false, flagEscape := true, failCount := 0)
    {
      needHoverStop, flagEscapeEmergency, replanFailCount := false, true, 0;
    }

    method SetGoalFlags(triggered: bool, target: bool)
      modifies this
      ensures View() == old(View()).(goal := old(GoalView()).(trigger := triggered, have := target, untried := target))
    {
      trigger, haveTarget, haveNewTarget := triggered, target, target;
    }

    method FollowReference(o: PathLuck)
      modifies this
      ensures View() == FollowPath(old(View()), o)
    {
      hide Unplanned;
      SetGoalFlags(true, false);
      if o.unusable {
        Publish(Status(Failed));
      } else if o.atGoal {
        SetGoalFlags(false, false);
        Publish(Status(Reached));
      } else if o.planned {
        SetGoalFlags(true, true);
        execState := if execState == WaitTarget || execState == Init || execState == EmergencyStop then GenNewTraj
                     else ReplanTraj;
        Publish(Status(Running));
      } else {
        FailToPlan();
      }
    }

    method FailToPlan()
      modifies this
      ensures View() == Unplanned(old(View()))
    {
      CallEmergencyStop();
      trigger := false;
      Publish(Status(Failed));
    }

    /** Odometry publishes no plan; it takes a cached path once, starts the preset route once, then only senses. */
    method OdometryCallback(o: OdomLuck)
      requires Valid()
      modifies this
      ensures View() == OnOdometry(params, old(View()), o) && Valid()
      ensures OdometryLaw(params, old(View()), View(), AcceptsGoal(params, old(View()), Odometry(o)))
    {
      OdometryObeysLaw(params, View(), o);
      hide TakePending, StartPreset, OdometryLaw, Armed, AcceptsGoal;
      TakePendingPath(o.path);
      if params.mode == PresetTarget && !presetStarted {
        PlanGlobalTrajByGivenWps(o.reachable);
      }
    }

    method TakePendingPath(o: PathLuck)
      requires Valid()
      modifies this
      ensures View() == TakePending(params, old(View()), o) && Valid()
    {
      hide OnPath, Armed, OnlyStops, NoneRunning, PathAccepted;
      var first := !haveOdom;
      heightReady := heightReady || params.mode == ManualTarget;
      haveOdom := true;
      assert View() == Sensed(params, old(View()));
      SensedKeepsArmed(params, old(View()));
      if first && pendingPath.Some? {
        var path := pendingPath.value;
        pendingPath := None;
        SameArmed(View(), Sensed(params, old(View())));
        PathCallback(path, o);
      }
    }

    method PlanGlobalTrajByGivenWps(reachable: bool)
      modifies this
      ensures View() == StartPreset(params, old(View()), reachable)
    {
      hide RouteSet;
      SetRoute();
      var planned := PlanNextWaypoint(reachable);
      if planned {
        execState := GenNewTraj;
      }
    }

    method SetRoute()
      modifies this
      ensures View() == RouteSet(params, old(View()))
    {
      presetStarted := true;
      activeWaypoints, currentWp, trigger := params.presetWaypoints, 0, true;
    }

    /** One callback. Outside planning, and a collision while executing, it lets no plan out. */
    method Do(a: Action)
      requires Valid()
      modifies this
      ensures View() == Next(params, old(View()), a) && Valid()
      ensures old(Ready(View())) && !a.Tick? ==> Ready(View())
      ensures old(execState) in {Init, WaitTarget, EmergencyStop} || (old(execState) == ExecTraj && !a.Safety?) ==>
                OnlyStops(old(published), published)
    {
      if execState in {Init, WaitTarget, EmergencyStop} || (execState == ExecTraj && !a.Safety?) {
        OnlyPlanningPlans(params, View(), a);
      }
      hide OnlyStops, Ready;
      if old(Ready(View())) && !a.Tick? {
        ReadyUnlessTick(params, View(), a);
      }
      hide OnTick, OnPath, OnSafety, OnGoal, OnOdometry, StopNavigation;
      match a {
        case Tick(o) => ExecFsmCallback(o);
        case Safety(o) => CheckCollisionCallback(o);
        case GoalMsg(o) =>
          if params.mode == ManualTarget {
            WaypointCallback(o);
          }
        case Path(m, o) =>
          if params.mode == ReferencePath {
            PathCallback(m, o);
          }
        case Odometry(o) => OdometryCallback(o);
        case Frozen(b) => frozen := b;
        case Cancel => StopCurrentNavigation(true);
        case Preempt => StopCurrentNavigation(false);
      }
    }

    /**
     Any sequence of callbacks keeps the stop armed. An idle machine in which none of them takes up a goal stays idle
     and publishes no plan; an emergency that is still there without a tick in between is still to publish its stop.
     */
    method DoAll(actions: seq<Action>)
      requires Valid()
      modifies this
      ensures View() == Run(params, old(View()), actions) && Valid()
      ensures old(Idle(View())) && NoneAccepted(params, old(View()), actions) ==>
                Idle(View()) && OnlyStops(old(published), published)
      ensures old(Ready(View())) && (forall a | a in actions :: !a.Tick?) ==> Ready(View())
    {
      ghost var s := View();
      for i := 0 to |actions|
        invariant View() == Run(params, s, actions[..i]) && Valid()
      {
        RunNext(params, s, actions, i);
        Do(actions[i]);
      }
      RunNothing(params, s, actions);
      if Idle(s) && NoneAccepted(params, s, actions) {
        OnlyStopsWhileIdle(params, s, actions);
      }
      if Ready(s) && (forall a | a in actions :: !a.Tick?) {
        ReadyUntilTick(params, s, actions);
      }
    }
  }
}
