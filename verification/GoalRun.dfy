/**
 The resident goal run: `runGoalToTerminal` (codex-daemon-client.ts), the phase hold it
 keeps in the session file (codex-phase-lifecycle.ts) and the restart loop that calls it
 again on a new daemon (codex-daemon-goal-runtime.ts).

 The function is asynchronous, so it is modelled as a machine whose program counter names
 the places where it can stand. Between two awaits only the clock may move; at an await the
 environment may deliver any notification, close the transport, answer or refuse a request.
 A process may die at any point and a new process may run the goal again; only the session
 file and the wake queue survive.
 */
module GoalRun {
  import opened Prelude

  // ---------------------------------------------------------------- protocol values

  datatype Status = Active | Paused | Blocked | UsageLimited | BudgetLimited | Complete

  predicate IsTerminal(s: Status) {
    s.Complete? || s.Blocked? || s.UsageLimited? || s.BudgetLimited?
  }

  /** The goal object of a notification or of thread/goal/get; absent members are None. */
  datatype Goal = Goal(status: Option<Status>, objective: Option<string>)

  datatype HoldPhase = Entering | Holding | Reactivating

  /** The phaseHold record: the budgets that were left when the hold was entered. */
  datatype Hold = Hold(phase: HoldPhase, active: nat, hard: nat)

  datatype ErrorKind = Timeout | TransportClosed | SetupFailed | GoalReplaced | Raw

  datatype Outcome = Returned(status: Status, succeeded: bool) | Failed(kind: ErrorKind)

  datatype Rpc = SetGoal | StartTurn | GetGoal

  const MAX_OBJECTIVE := 4000

  /** What one goal is run with. Durations are milliseconds. */
  datatype Config = Config(
    objective: string,
    activeCap: nat,        // overallTimeoutMs
    waitingCap: nat,       // waitingTimeoutMs
    requestCap: nat,       // the client's own per-request timeout
    maxRestarts: nat,
    hasPhase: bool)        // a phase controller was given
  {
    function HardCeiling(): nat { Max(activeCap, waitingCap) }
    predicate Ours(g: Goal) { g.objective.None? || g.objective.value == objective }
  }

  // ---------------------------------------------------------------- history

  datatype Act =
    | CallStarted(conn: nat, thread: string)
    | Armed                                              // this call's goal was confirmed set
    | Saw(from: Option<string>, goal: Option<Goal>)      // an update the run looked at
    | Discarded                                          // the terminal seen so far is dropped
    | Sent(rpc: Rpc, timeout: int, left: int)            // a request bound by the budget
    | HoldEntered(active: nat, hard: nat)
    | Queued(wake: nat)
    | TurnSent(conn: nat, wake: nat)
    | TurnOk(conn: nat, wake: nat)
    | ActiveOk(conn: nat, wake: nat)
    | Reactivated(wake: nat, activeLeft: int, hardLeft: int)   // budgets left right after activation
    | Finished(wake: nat)
    | HoldCleared(wake: nat)
    | Ended(outcome: Outcome)

  datatype History = Start | Then(before: History, last: Act)

  ghost predicate Did(h: History, a: Act) {
    h.Then? && (h.last == a || Did(h.before, a))
  }

  /** The thread of the current call. */
  ghost function ThreadOf(h: History): Option<string> {
    if h.Start? then None
    else if h.last.CallStarted? then Some(h.last.thread)
    else ThreadOf(h.before)
  }

  /** A set-goal of the current call has been confirmed. */
  ghost predicate ArmedIn(h: History) {
    h.Then? && !h.last.CallStarted? && (h.last.Armed? || ArmedIn(h.before))
  }

  /** The terminal status that `a`, coming after `h`, reports and that may be trusted: `a` came
      after this call's own set-goal was confirmed, names this call's thread, and carries no
      objective or this run's objective. */
  ghost function TrustedStatus(c: Config, h: History, a: Act): Option<Status> {
    if && a.Saw?
       && ArmedIn(h)
       && a.from.Some? && a.from == ThreadOf(h)
       && a.goal.Some? && c.Ours(a.goal.value)
       && a.goal.value.status.Some? && IsTerminal(a.goal.value.status.value)
    then a.goal.value.status else None
  }

  ghost predicate Resets(a: Act) {
    a.CallStarted? || a.Discarded?
  }

  /** The latest trusted terminal of the current call that nothing has dropped since. */
  ghost function Latest(c: Config, h: History): Option<Status> {
    if h.Start? || Resets(h.last) then None
    else
      var t := TrustedStatus(c, h.before, h.last);
      if t.Some? then t else Latest(c, h.before)
  }

  /** A hold was entered and not cleared since. */
  ghost predicate HoldOpen(h: History) {
    h.Then? && !h.last.HoldCleared? && (h.last.HoldEntered? || HoldOpen(h.before))
  }

  /** The budgets recorded when the latest hold was entered. */
  ghost function LastHold(h: History): Option<(nat, nat)> {
    if h.Start? then None
    else if h.last.HoldEntered? then Some((h.last.active, h.last.hard))
    else LastHold(h.before)
  }

  /** Wake ids in the order they were queued. */
  ghost function QueueOf(h: History): seq<nat> {
    if h.Start? then []
    else if h.last.Queued? then QueueOf(h.before) + [h.last.wake]
    else QueueOf(h.before)
  }

  /** On one connection the turn start of `wake` succeeded, and after it the switch to active. */
  ghost predicate TurnThenActive(h: History, wake: nat) {
    && h.Then?
    && (TurnThenActive(h.before, wake)
        || (h.last.ActiveOk? && h.last.wake == wake && Did(h.before, TurnOk(h.last.conn, wake))))
  }

  /** `wake` was finished since the latest hold was entered. */
  ghost predicate FinishedInHold(h: History, wake: nat) {
    h.Then? && !h.last.HoldEntered? && (h.last == Finished(wake) || FinishedInHold(h.before, wake))
  }

  /** What must already have happened for `a` to be allowed next. */
  ghost predicate Justified(c: Config, h: History, a: Act) {
    match a
    case Ended(Returned(s, ok)) =>
      && Latest(c, h) == Some(s)
      && (ok <==> s == Complete)
      && (c.hasPhase ==> s != Complete)
    case Ended(Failed(Timeout)) => !HoldOpen(h)
    case Sent(_, timeout, left) => 0 < timeout <= Min(left, c.requestCap)
    case TurnSent(conn, w) =>
      && !Did(h, ActiveOk(conn, w))
      && var q := QueueOf(h);
         exists k :: 0 <= k < |q| && q[k] == w && forall m :: 0 <= m < k ==> Did(h, Finished(q[m]))
    case Reactivated(_, active, hard) => active >= 0 && hard >= 0 && LastHold(h) == Some((active, hard))
    case Finished(w) => TurnThenActive(h, w)
    case HoldCleared(w) => FinishedInHold(h, w)
    case _ => true
  }

  ghost predicate AllJustified(c: Config, h: History) {
    h.Then? ==> AllJustified(c, h.before) && Justified(c, h.before, h.last)
  }

  // ---------------------------------------------------------------- the machine

  datatype SetPlace = BeforeSet | SendSet | AwaitSet
  datatype KickPlace = BeforeKick | SendKick | AwaitKick
  datatype LoopPlace = Nap | Sleeping | Woken | SendGet | AwaitGet | PollError | Polled(goal: Option<Goal>) | EnterHold
  datatype PausePlace = PauseTop | AwaitPause | SendGetPaused | AwaitGetPaused
    | Confirm | AwaitWatcher | PauseError | PauseWait
  datatype WakePlace = MarkStarted | SendTurn | AwaitTurn | SendActive | AwaitActive | WakeError
  datatype BookPlace = FinishWake | LeaveMark | LeaveStop | LeaveClear | BookError | BookWait

  /** Where the run stands. */
  datatype Pc =
    | Setting(place: SetPlace)                     // before the set-goal is confirmed
    | Kicking(kick: KickPlace)                    // before the first turn is started
    | SetupError(kind: Option<ErrorKind>)         // the catch block of the setup
    | Top                                         // the head of the main loop
    | Looping(loop: LoopPlace)                    // the main loop while no hold lasts
    | Pausing(setup: bool, pause: PausePlace)     // ensurePhasePaused, from the setup or from the loop
    | HoldWait                                    // held, nothing to do
    | Waking(wake: nat, at: WakePlace)            // delivering a wake
    | Booking(wake: nat, book: BookPlace)         // recording a delivered wake
    | Done(outcome: Outcome)
    | Dead                                        // the process is gone

  /** The time variables of one runGoal of the runtime and of its current call. */
  datatype Budgets = Budgets(
    startedAt: nat, carried: int, carriedHard: int,   // runtime
    deadline: int, hard: int,                         // current call
    gateSeen: bool, heldThisRun: bool,                // history
    startedHeld: bool)                                // the run found a hold already stored

  datatype State = State(
    restarts: nat, b: Budgets,
    // variables of one runGoalToTerminal call
    conn: nat, thread: string, pc: Pc,
    terminal: Option<Status>, armed: bool, held: bool, hold: Option<Hold>, closed: bool,
    // the world: clock, session file, wake queue
    now: nat, store: Option<Hold>, queue: seq<nat>, started: set<nat>, finished: set<nat>,
    log: History)

  datatype Event =
    | Tick(ms: nat)
    | Notify(from: Option<string>, goal: Option<Goal>)
    | Close
    | Enqueue(wake: nat)
    | Step(gateOpen: bool, ok: bool)   // run on to the next place; ok is a local call's or a send's success
    | Reply(goal: Option<Goal>)        // the awaited call resolved
    | Reject                           // the awaited call rejected
    | Respawn(ok: bool, thread: string)
    | Crash
    | Rerun(thread: string)

  predicate IsAwait(pc: Pc) {
    match pc
    case Setting(p) => p.AwaitSet?
    case Kicking(p) => p.AwaitKick?
    case Looping(p) => p.Sleeping? || p.AwaitGet?
    case Pausing(_, p) => p.AwaitPause? || p.AwaitGetPaused? || p.AwaitWatcher? || p.PauseWait?
    case HoldWait => true
    case Waking(_, p) => p.AwaitTurn? || p.AwaitActive?
    case Booking(_, p) => p.LeaveStop? || p.BookWait?
    case _ => false
  }

  function Note(s: State, a: Act): State {
    s.(log := Then(s.log, a))
  }

  function Finish(s: State, o: Outcome): State {
    Note(s, Ended(o)).(pc := Done(o))
  }

  function Fail(s: State, kind: ErrorKind): State {
    Finish(s, Failed(kind))
  }

  /** remainingBudget(): an open gate keeps a full active budget ahead, up to the hard deadline. */
  function Extend(c: Config, b: Budgets, now: nat, gateOpen: bool): Budgets {
    if !gateOpen then b else
      var extended := Min(b.hard, now + c.activeCap);
      if extended > b.deadline
      then b.(gateSeen := true, deadline := extended, carried := Max(b.carried, extended))
      else b.(gateSeen := true)
  }

  function ReadBudget(c: Config, s: State, gateOpen: bool): State {
    s.(b := Extend(c, s.b, s.now, gateOpen))
  }

  function Left(s: State): int { s.b.deadline - s.now }

  /** request() with the remaining budget: refused when closed or without budget, fatal when the write throws. */
  function SendBudgeted(c: Config, s: State, rpc: Rpc, ok: bool, sent: Pc, refused: Pc): State {
    var timeout := Max(0, Min(c.requestCap, Left(s)));
    if s.closed || timeout <= 0 then s.(pc := refused)
    else if !ok then s.(closed := true, pc := refused)
    else Note(s, Sent(rpc, timeout, Left(s))).(pc := sent)
  }

  /** request() with the phase-control timeout. */
  function SendControl(s: State, ok: bool, sent: Pc, refused: Pc): State {
    if s.closed then s.(pc := refused)
    else if !ok then s.(closed := true, pc := refused)
    else s.(pc := sent)
  }

  function FirstUnfinished(queue: seq<nat>, finished: set<nat>): (r: Option<nat>)
    ensures r.None? ==> forall k :: 0 <= k < |queue| ==> queue[k] in finished
    ensures r.Some? ==> exists k :: 0 <= k < |queue| && queue[k] == r.value && r.value !in finished
                          && forall m :: 0 <= m < k ==> queue[m] in finished
  {
    if queue == [] then None
    else if queue[0] !in finished then Some(queue[0])
    else
      var r := FirstUnfinished(queue[1..], finished);
      assert r.None? ==> forall k :: 0 <= k < |queue| ==> queue[k] in finished by {
        if r.None? {
          forall k | 0 <= k < |queue| ensures queue[k] in finished {
            if k > 0 { assert queue[k] == queue[1..][k - 1]; }
          }
        }
      }
      assert r.Some? ==> exists k :: 0 <= k < |queue| && queue[k] == r.value && r.value !in finished
                          && forall m :: 0 <= m < k ==> queue[m] in finished by {
        if r.Some? {
          var k :| 0 <= k < |queue[1..]| && queue[1..][k] == r.value && r.value !in finished
                    && forall m :: 0 <= m < k ==> queue[1..][m] in finished;
          assert queue[k + 1] == r.value;
          forall m | 0 <= m < k + 1 ensures queue[m] in finished {
            if m > 0 { assert queue[m] == queue[1..][m - 1]; }
          }
        }
      }
      r
  }

  /** Deadlines of a call that finds no hold: anchored to the run, never below what was carried. */
  function Rearm(c: Config, b: Budgets): Budgets {
    var hard := Max(b.startedAt + c.HardCeiling(), b.carriedHard);
    b.(deadline := Min(hard, Max(b.startedAt + c.activeCap, b.carried)), hard := hard)
  }

  /** Frozen budgets count again from `now`; both deadlines are reported to the runtime. */
  function Restore(b: Budgets, now: nat, h: Hold): Budgets {
    var d, e := now + h.active, now + h.hard;
    b.(deadline := d, hard := e, carried := Max(b.carried, d), carriedHard := Max(b.carriedHard, e),
       heldThisRun := true)
  }

  /** The start of a runGoalToTerminal call. */
  function NewCall(c: Config, s: State, thread: string): State {
    var s1 := Note(s, CallStarted(s.conn + 1, thread)).(
      conn := s.conn + 1, thread := thread, closed := false, terminal := None, armed := false);
    if c.hasPhase && s.store.Some? then
      s1.(b := Restore(s.b, s.now, s.store.value),
          hold := s.store, held := true, pc := Pausing(true, PauseTop))
    else
      s1.(b := Rearm(c, s.b), hold := None, held := false, pc := Setting(BeforeSet))
  }

  /** A fresh runGoal: its own start instant, nothing carried. */
  function NewRun(c: Config, s: State, thread: string): State {
    NewCall(c, s.(restarts := 0, b := Budgets(s.now, 0, 0, 0, 0, false, false, c.hasPhase && s.store.Some?)), thread)
  }

  /** Setting the goal. */
  function SetStep(c: Config, s: State, p: SetPlace, gateOpen: bool, ok: bool): Option<State> {
    var b := ReadBudget(c, s, gateOpen);
    match p
    case BeforeSet => Some(b.(pc := if Left(b) <= 0 then SetupError(Some(Timeout)) else Setting(SendSet)))
    case SendSet =>
      Some(if |c.objective| > MAX_OBJECTIVE then b.(pc := SetupError(Some(SetupFailed)))
           else SendBudgeted(c, b, SetGoal, ok, Setting(AwaitSet), SetupError(None)))
    case AwaitSet => None
  }

  /** Starting the first turn. */
  function KickStep(c: Config, s: State, p: KickPlace, gateOpen: bool, ok: bool): Option<State> {
    var b := ReadBudget(c, s, gateOpen);
    match p
    case BeforeKick => Some(b.(pc := if Left(b) <= 0 then SetupError(Some(Timeout)) else Kicking(SendKick)))
    case SendKick => Some(SendBudgeted(c, b, StartTurn, ok, Kicking(AwaitKick), SetupError(None)))
    case AwaitKick => None
  }

  /** The catch block of the setup: a terminal seen meanwhile wins over the error. */
  function SetupErrorStep(c: Config, s: State, kind: Option<ErrorKind>, gateOpen: bool): State {
    if s.terminal.Some? then s.(pc := Top)
    else if kind.Some? then Fail(s, kind.value)
    else if s.closed then Fail(s, TransportClosed)
    else
      var b := ReadBudget(c, s, gateOpen);
      Fail(b, if Left(b) <= 0 then Timeout else SetupFailed)
  }

  /** The head of the main loop. When held it asks observe(), which is not ok when the queue
      cannot be read or a shutdown is requested. */
  function TopStep(c: Config, s: State, gateOpen: bool, ok: bool): State {
    if s.held then
      if s.closed then Fail(s, TransportClosed) else
        var w := FirstUnfinished(s.queue, s.finished);
        s.(pc := if ok && w.Some? then Waking(w.value, MarkStarted) else HoldWait)
    else if s.terminal.Some? then
      if c.hasPhase && s.terminal.value == Complete then s.(pc := Looping(EnterHold))
      else Finish(s, Returned(s.terminal.value, s.terminal.value == Complete))
    else Checked(c, s, gateOpen, Looping(Nap))
  }

  /** Closed fails the run, then an exhausted budget does; otherwise go on. */
  function Checked(c: Config, s: State, gateOpen: bool, next: Pc): State {
    if s.closed then Fail(s, TransportClosed)
    else
      var b := ReadBudget(c, s, gateOpen);
      if Left(b) <= 0 then Fail(b, Timeout) else b.(pc := next)
  }

  /** The main loop while no hold lasts. */
  function LoopStep(c: Config, s: State, p: LoopPlace, gateOpen: bool, ok: bool): Option<State> {
    match p
    case Nap => Some(ReadBudget(c, s, gateOpen).(pc := Looping(Sleeping)))
    case Woken => Some(if s.terminal.Some? then s.(pc := Top) else Checked(c, s, gateOpen, Looping(SendGet)))
    case SendGet =>
      Some(SendBudgeted(c, ReadBudget(c, s, gateOpen), GetGoal, ok, Looping(AwaitGet), Looping(PollError)))
    case PollError => Some(if s.terminal.Some? then s.(pc := Top) else Checked(c, s, gateOpen, Top))
    case Polled(goal) => Some(PolledStep(c, s, goal))
    case EnterHold =>
      if !ok then Some(Fail(s, Raw)) else
        var h := Hold(Entering, Max(0, s.b.deadline - s.now), Max(0, s.b.hard - s.now));
        Some(Note(s, HoldEntered(h.active, h.hard)).(
               store := Some(h), hold := Some(h), b := s.b.(heldThisRun := true), pc := Pausing(false, PauseTop)))
    case Sleeping => None
    case AwaitGet => None
  }

  /** The poll answered: a terminal already seen wins; a goal that is not ours ends the run. */
  function PolledStep(c: Config, s: State, goal: Option<Goal>): State {
    if s.terminal.Some? || goal.None? || goal.value.status.None? then s.(pc := Top)
    else
      var s1 := Note(s, Saw(Some(s.thread), goal)).(pc := Top);
      if !c.Ours(goal.value) then Fail(s1, GoalReplaced)
      else if IsTerminal(goal.value.status.value) then s1.(terminal := goal.value.status)
      else s1
  }

  /** ensurePhasePaused(): retry until the daemon confirms the pause and it is recorded. */
  function PauseStep(c: Config, s: State, setup: bool, p: PausePlace, ok: bool): Option<State> {
    match p
    case PauseTop =>
      if s.closed then Some(PauseFailed(s, setup))
      else if |c.objective| > MAX_OBJECTIVE then Some(s.(pc := Pausing(setup, PauseError)))
      else Some(SendControl(s, ok, Pausing(setup, AwaitPause), Pausing(setup, PauseError)))
    case SendGetPaused => Some(SendControl(s, ok, Pausing(setup, AwaitGetPaused), Pausing(setup, PauseError)))
    case Confirm =>
      if ok && s.store.Some?
      then Some(s.(store := Some(s.store.value.(phase := Holding)), pc := Pausing(setup, AwaitWatcher)))
      else Some(s.(pc := Pausing(setup, PauseError)))
    case PauseError =>
      Some(if s.closed then PauseFailed(s, setup) else s.(pc := Pausing(setup, PauseWait)))
    case _ => None
  }

  /** failClose inside ensurePhasePaused: caught by the setup block, or ends the call. */
  function PauseFailed(s: State, setup: bool): State {
    if setup then s.(pc := SetupError(Some(TransportClosed))) else Fail(s, TransportClosed)
  }

  /** reactivateWake(): mark the wake started, send its turn, switch the goal to active. */
  function WakeStep(c: Config, s: State, w: nat, p: WakePlace, ok: bool): Option<State> {
    match p
    case MarkStarted =>
      Some(if ok then s.(started := s.started + {w}, pc := Waking(w, SendTurn)) else Fail(s, Raw))
    case SendTurn =>
      if s.closed || !ok then Some(s.(closed := true, pc := Waking(w, WakeError)))
      else Some(Note(s, TurnSent(s.conn, w)).(pc := Waking(w, AwaitTurn)))
    case SendActive =>
      Some(if |c.objective| > MAX_OBJECTIVE then s.(pc := Waking(w, WakeError))
           else SendControl(s, ok, Waking(w, AwaitActive), Waking(w, WakeError)))
    case WakeError => Some(if s.closed then Fail(s, TransportClosed) else s.(pc := HoldWait))
    case _ => None
  }

  /** The bookkeeping loop: finishWake and leaveHold are retried, the turn is not. */
  function BookStep(s: State, w: nat, p: BookPlace, ok: bool): Option<State> {
    match p
    case FinishWake =>
      Some(if !ok || w !in s.started then s.(pc := Booking(w, BookError))
           else if w in s.finished then s.(pc := Booking(w, LeaveMark))
           else Note(s, Finished(w)).(finished := s.finished + {w}, pc := Booking(w, LeaveMark)))
    case LeaveMark =>
      Some(if !ok then s.(pc := Booking(w, BookError))
           else if s.store.None? then s.(pc := Booking(w, LeaveStop))
           else s.(store := Some(s.store.value.(phase := Reactivating)), pc := Booking(w, LeaveStop)))
    case LeaveClear =>
      Some(if !ok then s.(pc := Booking(w, BookError))
           else Note(s, HoldCleared(w)).(store := None, hold := None, held := false, pc := Top))
    case BookError => Some(if s.closed then Fail(s, TransportClosed) else s.(pc := Booking(w, BookWait)))
    case _ => None
  }

  /** A timer or a local wait is over; an open transport may also have answered a request. */
  function OnReply(c: Config, s: State, goal: Option<Goal>): Option<State> {
    match s.pc
    case Setting(p) =>
      if p.AwaitSet? && !s.closed then Some(Note(s, Armed).(armed := true, pc := Kicking(BeforeKick))) else None
    case Kicking(p) => if p.AwaitKick? && !s.closed then Some(s.(pc := Top)) else None
    case Looping(p) =>
      if p.Sleeping? then Some(s.(pc := Looping(Woken)))
      else if p.AwaitGet? && !s.closed then Some(s.(pc := Looping(Polled(goal))))
      else None
    case Pausing(setup, p) => OnPauseReply(c, s, setup, p, goal)
    case HoldWait => Some(s.(pc := Top))
    case Waking(w, p) => OnWakeReply(s, w, p)
    case Booking(w, p) =>
      if p.LeaveStop? then Some(s.(pc := Booking(w, LeaveClear)))
      else if p.BookWait? then Some(s.(pc := Booking(w, FinishWake)))
      else None
    case _ => None
  }

  function OnPauseReply(c: Config, s: State, setup: bool, p: PausePlace, goal: Option<Goal>): Option<State> {
    if p.PauseWait? then Some(s.(pc := Pausing(setup, PauseTop)))
    else if p.AwaitWatcher? then
      if setup then Some(s.(pc := Top))
      else Some(Note(s, Discarded).(terminal := None, held := true, pc := Top))
    else if s.closed then None
    else if p.AwaitPause? then Some(Note(s, Armed).(armed := true, pc := Pausing(setup, SendGetPaused)))
    else if p.AwaitGetPaused? then
      var confirmed := goal.Some? && goal.value.status == Some(Paused) && c.Ours(goal.value);
      Some(s.(pc := Pausing(setup, if confirmed then Confirm else PauseWait)))
    else None
  }

  /** The wake's turn started: what was seen before is dropped. The goal became active: the
      frozen budgets count again. */
  function OnWakeReply(s: State, w: nat, p: WakePlace): Option<State> {
    if s.closed then None
    else if p.AwaitTurn? then
      Some(Note(Note(s, TurnOk(s.conn, w)), Discarded).(terminal := None, pc := Waking(w, SendActive)))
    else if p.AwaitActive? && s.hold.Some? then
      var b := Restore(s.b, s.now, s.hold.value);
      Some(Note(Note(s, ActiveOk(s.conn, w)), Reactivated(w, b.deadline - s.now, b.hard - s.now)).(
             b := b, pc := Booking(w, FinishWake)))
    else None
  }

  /** The awaited call rejected: refused, timed out, or the transport closed. */
  function OnReject(s: State): Option<State> {
    if !IsAwait(s.pc) then None else
      match s.pc
      case Setting(_) => Some(s.(pc := SetupError(None)))
      case Kicking(_) => Some(s.(pc := SetupError(None)))
      case Looping(p) => if p.AwaitGet? then Some(s.(pc := Looping(PollError))) else None
      case Pausing(setup, p) => if p.PauseWait? then None else Some(s.(pc := Pausing(setup, PauseError)))
      case Waking(w, _) => Some(s.(pc := Waking(w, WakeError)))
      case Booking(w, p) => if p.LeaveStop? then Some(s.(pc := Booking(w, BookError))) else None
      case _ => None
  }

  /** onGoalUpdate: only an armed run, its own thread and its own (or no) objective count. */
  function AfterUpdate(c: Config, armed: bool, thread: string, terminal: Option<Status>,
                       from: Option<string>, goal: Option<Goal>): Option<Status> {
    if armed && from == Some(thread) && goal.Some? && c.Ours(goal.value)
       && goal.value.status.Some? && IsTerminal(goal.value.status.value)
    then goal.value.status else terminal
  }

  function OnNotify(c: Config, s: State, from: Option<string>, goal: Option<Goal>): State {
    Note(s, Saw(from, goal)).(terminal := AfterUpdate(c, s.armed, s.thread, s.terminal, from, goal))
  }

  function LocalStep(c: Config, s: State, gateOpen: bool, ok: bool): Option<State> {
    match s.pc
    case Setting(p) => SetStep(c, s, p, gateOpen, ok)
    case Kicking(p) => KickStep(c, s, p, gateOpen, ok)
    case SetupError(kind) => Some(SetupErrorStep(c, s, kind, gateOpen))
    case Top => Some(TopStep(c, s, gateOpen, ok))
    case Looping(p) => LoopStep(c, s, p, gateOpen, ok)
    case Pausing(setup, p) => PauseStep(c, s, setup, p, ok)
    case Waking(w, p) => WakeStep(c, s, w, p, ok)
    case Booking(w, p) => BookStep(s, w, p, ok)
    case _ => None
  }

  /** One step of the whole system; None when the event cannot happen there. */
  function Next(c: Config, s: State, e: Event): Option<State> {
    match e
    case Tick(ms) => Some(s.(now := s.now + ms))
    case Notify(from, goal) =>
      if !IsAwait(s.pc) then None else if s.closed then Some(s) else Some(OnNotify(c, s, from, goal))
    case Close => if IsAwait(s.pc) then Some(s.(closed := true)) else None
    case Enqueue(w) =>
      if w in s.queue then None else Some(Note(s, Queued(w)).(queue := s.queue + [w]))
    case Step(gateOpen, ok) => LocalStep(c, s, gateOpen, ok)
    case Reply(goal) => OnReply(c, s, goal)
    case Reject => OnReject(s)
    case Respawn(ok, thread) =>
      if s.pc != Done(Failed(TransportClosed)) || s.restarts >= c.maxRestarts then None
      else
        var s1 := s.(restarts := s.restarts + 1);
        Some(if ok then NewCall(c, s1, thread) else s1)
    case Crash => if s.pc.Dead? then None else Some(s.(pc := Dead))
    case Rerun(thread) => if s.pc.Dead? || s.pc.Done? then Some(NewRun(c, s, thread)) else None
  }

  /** Before the first run: no hold stored, nothing queued. */
  function Initial(c: Config, now: nat): State {
    State(0, Rearm(c, Budgets(now, 0, 0, 0, 0, false, false, false)), 0, "", Dead, None, false, false, None, true,
          now, None, [], {}, {}, Start)
  }

  /** The state after the events, in order; None when one of them could not happen. */
  function Run(c: Config, s: State, events: seq<Event>): Option<State>
    decreases |events|
  {
    if events == [] then Some(s) else
      var t := Next(c, s, events[0]);
      if t.None? then None else Run(c, t.value, events[1..])
  }

  /** `s` can be reached from the beginning by some interleaving. */
  ghost predicate Reachable(c: Config, s: State) {
    exists now: nat, events :: Run(c, Initial(c, now), events) == Some(s)
  }
}
