/**
 What every reachable state of the resident goal run guarantees. `AllJustified` is the central
 statement: each entry of the history is allowed by the entries before it.
 */
module GoalRunProofs {
  import opened Prelude
  import opened GoalRun

  // ---------------------------------------------------------------- invariants

  predicate Live(pc: Pc) { !pc.Done? && !pc.Dead? }

  predicate NeedsArmed(pc: Pc) {
    || pc.Kicking? || pc.Top? || pc.Looping? || pc.HoldWait? || pc.Waking? || pc.Booking?
    || (pc.Pausing? && (pc.pause.SendGetPaused? || pc.pause.AwaitGetPaused?
                        || pc.pause.Confirm? || pc.pause.AwaitWatcher?))
  }

  /** The call's variables say what the history says. */
  ghost predicate TrustInv(c: Config, h: History, terminal: Option<Status>, armed: bool, thread: string) {
    && terminal == Latest(c, h)
    && armed == ArmedIn(h)
    && ThreadOf(h) == Some(thread)
    && (terminal.Some? ==> armed)
  }

  /** The hold on disk is the one the history says was entered last. */
  ghost predicate StoreInv(c: Config, h: History, store: Option<Hold>) {
    && (store.Some? <==> HoldOpen(h))
    && (store.Some? ==> c.hasPhase && LastHold(h) == Some((store.value.active, store.value.hard))
                        && store.value.active <= store.value.hard)
  }

  ghost predicate SameBudgets(a: Option<Hold>, b: Option<Hold>) {
    (a.Some? <==> b.Some?) && (a.Some? ==> a.value.active == b.value.active && a.value.hard == b.value.hard)
  }

  /** Where a hold is in memory, by the place the call stands at. */
  ghost predicate PlaceInv(c: Config, pc: Pc, held: bool, hold: Option<Hold>, armed: bool) {
    && (held ==> hold.Some?)
    && (NeedsArmed(pc) ==> armed)
    && (pc.Setting? || pc.Kicking? || pc.Looping? ==> hold.None?)
    && (pc == Looping(EnterHold) ==> c.hasPhase)
    && (pc.Pausing? ==> hold.Some? && (held <==> pc.setup))
    && (pc.Waking? || pc.Booking? || pc.HoldWait? ==> held)
    && (pc.Top? ==> (held <==> hold.Some?))
    && (pc.SetupError? && hold.Some? ==> pc.kind == Some(TransportClosed) && held)
  }

  /** When a restart keeps both deadlines exactly: they must not lie before the ones the run
      would have from its own start. */
  predicate RestartKeeps(c: Config, b: Budgets) {
    b.startedAt + c.activeCap <= b.deadline && b.startedAt + c.HardCeiling() <= b.hard
  }

  /** The deadlines of a call and what the runtime carries. */
  ghost predicate BudgetInv(c: Config, b: Budgets) {
    && 0 <= b.carried <= b.deadline <= b.hard
    && 0 <= b.carriedHard <= b.hard
    && b.deadline <= Max(b.startedAt + c.activeCap, b.carried)
    && b.hard <= Max(b.startedAt + c.HardCeiling(), b.carriedHard)
    && (!b.heldThisRun ==>
          && b.hard == b.startedAt + c.HardCeiling()
          && b.startedAt + c.activeCap <= b.deadline
          && (!b.gateSeen ==> b.deadline == b.startedAt + c.activeCap))
    && (!b.startedHeld ==> RestartKeeps(c, b))
  }

  /** A stored hold has at least as much time as the deadlines still leave. */
  ghost predicate FrozenInv(b: Budgets, now: nat, store: Option<Hold>) {
    store.Some? ==> b.deadline <= now + store.value.active && b.hard <= now + store.value.hard
  }

  ghost predicate QueueInv(h: History, queue: seq<nat>, finished: set<nat>) {
    && QueueOf(h) == queue
    && (forall w: nat :: w in finished <==> Did(h, Finished(w)))
  }

  ghost predicate ConnInv(h: History, conn: nat) {
    forall n: nat, w: nat :: Did(h, ActiveOk(n, w)) ==> n <= conn
  }

  /** `w` stands in the queue behind finished wakes only. */
  ghost predicate IsNext(queue: seq<nat>, finished: set<nat>, w: nat) {
    exists k :: 0 <= k < |queue| && queue[k] == w && forall m :: 0 <= m < k ==> queue[m] in finished
  }

  /** The wake being delivered is the next one, and a delivered wake is not delivered again. */
  ghost predicate WakeInv(h: History, conn: nat, pc: Pc, queue: seq<nat>, finished: set<nat>) {
    && (forall w: nat :: Did(h, ActiveOk(conn, w)) ==> w in finished || (pc.Booking? && pc.wake == w))
    && (pc.Waking? ==> pc.wake !in finished && IsNext(queue, finished, pc.wake))
    && (pc.Waking? && (pc.at.SendActive? || pc.at.AwaitActive?) ==> Did(h, TurnOk(conn, pc.wake)))
    && (pc.Booking? ==>
          && TurnThenActive(h, pc.wake)
          && (pc.wake in finished ==> FinishedInHold(h, pc.wake))
          && (pc.book.LeaveMark? || pc.book.LeaveStop? || pc.book.LeaveClear? ==> pc.wake in finished))
  }

  /** What holds in every state, between runs too. */
  ghost predicate WorldOk(c: Config, s: State) {
    && StoreInv(c, s.log, s.store)
    && BudgetInv(c, s.b)
    && FrozenInv(s.b, s.now, s.store)
    && QueueInv(s.log, s.queue, s.finished)
    && ConnInv(s.log, s.conn)
  }

  /** What holds while a call is under way. */
  ghost predicate CallOk(c: Config, s: State) {
    && TrustInv(c, s.log, s.terminal, s.armed, s.thread)
    && PlaceInv(c, s.pc, s.held, s.hold, s.armed)
    && SameBudgets(s.hold, s.store)
    && WakeInv(s.log, s.conn, s.pc, s.queue, s.finished)
  }

  ghost predicate Inv(c: Config, s: State) {
    WorldOk(c, s) && (Live(s.pc) ==> CallOk(c, s))
  }

  /** `h'` is `h` with at most two more acts, each justified by what came before it. */
  ghost predicate Extends(c: Config, h: History, h': History) {
    || h' == h
    || (h'.Then? && h'.before == h && Justified(c, h, h'.last))
    || (h'.Then? && h'.before.Then? && h'.before.before == h
        && Justified(c, h, h'.before.last) && Justified(c, h'.before, h'.last))
  }

  /** Within one run of the runtime the deadlines only move forward. */
  predicate Later(b: Budgets, b': Budgets) {
    b'.startedAt == b.startedAt && b.deadline <= b'.deadline && b.hard <= b'.hard
  }

  /** Entering a hold records the time both deadlines leave; a reactivation grants what it records. */
  ghost predicate Timed(s: State, t: State) {
    t.log != s.log && t.log.Then? ==>
      && (t.log.last.HoldEntered? ==>
            t.log.last == HoldEntered(Max(0, s.b.deadline - s.now), Max(0, s.b.hard - s.now)))
      && (t.log.last.Reactivated? ==>
            t.log.last == Reactivated(t.log.last.wake, t.b.deadline - t.now, t.b.hard - t.now))
  }

  ghost predicate Good(c: Config, s: State, t: State) {
    Inv(c, t) && Extends(c, s.log, t.log) && Later(s.b, t.b) && Timed(s, t)
  }

  // ---------------------------------------------------------------- one step keeps the invariant

  /** Acts that the stored hold, the queue and the delivered wakes do not depend on. */
  predicate Neutral(a: Act) {
    !(a.HoldEntered? || a.HoldCleared? || a.Queued? || a.Finished? || a.ActiveOk?)
  }

  lemma NeutralWorld(c: Config, h: History, a: Act, store: Option<Hold>, queue: seq<nat>, finished: set<nat>, conn: nat)
    requires StoreInv(c, h, store) && QueueInv(h, queue, finished) && ConnInv(h, conn) && Neutral(a)
    ensures StoreInv(c, Then(h, a), store) && QueueInv(Then(h, a), queue, finished) && ConnInv(Then(h, a), conn)
  {
  }

  lemma NeutralWake(h: History, a: Act, conn: nat, pc: Pc, queue: seq<nat>, finished: set<nat>)
    requires WakeInv(h, conn, pc, queue, finished) && Neutral(a)
    ensures WakeInv(Then(h, a), conn, pc, queue, finished)
  {
  }

  lemma EndGood(c: Config, s: State, kind: ErrorKind)
    requires Inv(c, s)
    requires kind == Timeout ==> s.store.None?
    ensures Good(c, s, Fail(s, kind))
  {
    NeutralWorld(c, s.log, Ended(Failed(kind)), s.store, s.queue, s.finished, s.conn);
  }

  /** Going on to a place that asks no more than the present one keeps everything. */
  lemma MoveGood(c: Config, s: State, pc: Pc, closed: bool)
    requires Inv(c, s) && Live(s.pc) && Live(pc)
    requires PlaceInv(c, pc, s.held, s.hold, s.armed)
    requires WakeInv(s.log, s.conn, pc, s.queue, s.finished)
    ensures Good(c, s, s.(pc := pc, closed := closed))
  {
  }

  /** Reading the budget while no hold is stored. */
  lemma ReadGood(c: Config, s: State, gateOpen: bool)
    requires Inv(c, s) && s.store.None?
    ensures Good(c, s, ReadBudget(c, s, gateOpen))
  {
  }

  /** Neither the place before nor the places after a budgeted send belong to a hold. */
  predicate Plain(c: Config, s: State, pc: Pc) {
    && (pc.Setting? || pc.SetupError? || ((pc.Kicking? || pc.Top? || pc.Looping?) && s.armed))
    && pc != Looping(EnterHold)
    && s.hold.None? && !s.held
  }

  lemma SendGood(c: Config, s: State, rpc: Rpc, ok: bool, sent: Pc, refused: Pc)
    requires Inv(c, s) && Live(s.pc)
    requires Plain(c, s, sent) && Plain(c, s, refused)
    ensures Good(c, s, SendBudgeted(c, s, rpc, ok, sent, refused))
  {
    if s.closed || Min(c.requestCap, Left(s)) <= 0 {
      MoveGood(c, s, refused, s.closed);
    } else if !ok {
      MoveGood(c, s, refused, true);
    } else {
      SentGood(c, s, rpc, Min(c.requestCap, Left(s)), sent);
    }
  }

  lemma SentGood(c: Config, s: State, rpc: Rpc, timeout: int, sent: Pc)
    requires Inv(c, s) && Live(s.pc) && Plain(c, s, sent)
    requires 0 < timeout <= Min(c.requestCap, Left(s))
    ensures Good(c, s, Note(s, Sent(rpc, timeout, Left(s))).(pc := sent))
  {
    var a := Sent(rpc, timeout, Left(s));
    NeutralWorld(c, s.log, a, s.store, s.queue, s.finished, s.conn);
    NeutralWake(s.log, a, s.conn, s.pc, s.queue, s.finished);
  }

  lemma CheckedGood(c: Config, s: State, gateOpen: bool, next: Pc)
    requires Inv(c, s) && Live(s.pc) && s.store.None?
    requires Plain(c, s, next)
    ensures Good(c, s, Checked(c, s, gateOpen, next))
  {
    if s.closed {
      EndGood(c, s, TransportClosed);
    } else {
      ReadGood(c, s, gateOpen);
      var b := ReadBudget(c, s, gateOpen);
      if Left(b) <= 0 { TimeoutGood(c, s, b); } else { ReadMoveGood(c, s, b, next); }
    }
  }

  /** The budget was read, and nothing else done, from `s` to `b`. */
  ghost predicate JustRead(c: Config, s: State, b: State) {
    Inv(c, b) && Later(s.b, b.b) && b == s.(b := b.b)
  }

  lemma TimeoutGood(c: Config, s: State, b: State)
    requires JustRead(c, s, b) && b.store.None?
    ensures Good(c, s, Fail(b, Timeout))
  {
    EndGood(c, b, Timeout);
  }

  lemma ReadMoveGood(c: Config, s: State, b: State, next: Pc)
    requires JustRead(c, s, b) && Live(s.pc) && Live(next)
    requires PlaceInv(c, next, s.held, s.hold, s.armed)
    requires WakeInv(s.log, s.conn, next, s.queue, s.finished)
    ensures Good(c, s, b.(pc := next))
  {
    MoveGood(c, b, next, b.closed);
  }

  lemma ReadSendGood(c: Config, s: State, b: State, rpc: Rpc, ok: bool, sent: Pc, refused: Pc)
    requires JustRead(c, s, b) && Live(s.pc)
    requires Plain(c, s, sent) && Plain(c, s, refused)
    ensures Good(c, s, SendBudgeted(c, b, rpc, ok, sent, refused))
  {
    SendGood(c, b, rpc, ok, sent, refused);
  }

  lemma SetGood(c: Config, s: State, p: SetPlace, gateOpen: bool, ok: bool)
    requires Inv(c, s) && s.pc == Setting(p)
    requires SetStep(c, s, p, gateOpen, ok).Some?
    ensures Good(c, s, SetStep(c, s, p, gateOpen, ok).value)
  {
    var b := ReadBudget(c, s, gateOpen);
    ReadGood(c, s, gateOpen);
    match p
    case BeforeSet => ReadMoveGood(c, s, b, if Left(b) <= 0 then SetupError(Some(Timeout)) else Setting(SendSet));
    case SendSet =>
      if |c.objective| > MAX_OBJECTIVE {
        ReadMoveGood(c, s, b, SetupError(Some(SetupFailed)));
      } else {
        ReadSendGood(c, s, b, SetGoal, ok, Setting(AwaitSet), SetupError(None));
      }
    case AwaitSet =>
  }

  lemma KickGood(c: Config, s: State, p: KickPlace, gateOpen: bool, ok: bool)
    requires Inv(c, s) && s.pc == Kicking(p)
    requires KickStep(c, s, p, gateOpen, ok).Some?
    ensures Good(c, s, KickStep(c, s, p, gateOpen, ok).value)
  {
    var b := ReadBudget(c, s, gateOpen);
    ReadGood(c, s, gateOpen);
    match p
    case BeforeKick => ReadMoveGood(c, s, b, if Left(b) <= 0 then SetupError(Some(Timeout)) else Kicking(SendKick));
    case SendKick => ReadSendGood(c, s, b, StartTurn, ok, Kicking(AwaitKick), SetupError(None));
    case AwaitKick =>
  }

  lemma SetupErrorGood(c: Config, s: State, kind: Option<ErrorKind>, gateOpen: bool)
    requires Inv(c, s) && s.pc == SetupError(kind)
    ensures Good(c, s, SetupErrorStep(c, s, kind, gateOpen))
  {
    if s.terminal.Some? {
    } else if kind.Some? {
      EndGood(c, s, kind.value);
    } else if s.closed {
      EndGood(c, s, TransportClosed);
    } else {
      ReadGood(c, s, gateOpen);
      var b := ReadBudget(c, s, gateOpen);
      EndGood(c, b, if Left(b) <= 0 then Timeout else SetupFailed);
    }
  }

  lemma TopGood(c: Config, s: State, gateOpen: bool, ok: bool)
    requires Inv(c, s) && s.pc.Top?
    ensures Good(c, s, TopStep(c, s, gateOpen, ok))
  {
    if s.held {
      HeldTopGood(c, s, gateOpen, ok);
    } else if s.terminal.None? {
      CheckedGood(c, s, gateOpen, Looping(Nap));
    } else if c.hasPhase && s.terminal.value == Complete {
      MoveGood(c, s, Looping(EnterHold), s.closed);
    } else {
      ReturnGood(c, s);
    }
  }

  lemma HeldTopGood(c: Config, s: State, gateOpen: bool, ok: bool)
    requires Inv(c, s) && s.pc.Top? && s.held
    ensures Good(c, s, TopStep(c, s, gateOpen, ok))
  {
    if s.closed {
      EndGood(c, s, TransportClosed);
    } else {
      var w := FirstUnfinished(s.queue, s.finished);
      MoveGood(c, s, if ok && w.Some? then Waking(w.value, MarkStarted) else HoldWait, s.closed);
    }
  }

  lemma ReturnGood(c: Config, s: State)
    requires Inv(c, s) && s.pc.Top? && !s.held && s.terminal.Some? && (c.hasPhase ==> s.terminal.value != Complete)
    ensures Good(c, s, Finish(s, Returned(s.terminal.value, s.terminal.value == Complete)))
  {
    NeutralWorld(c, s.log, Ended(Returned(s.terminal.value, s.terminal.value == Complete)),
                 s.store, s.queue, s.finished, s.conn);
  }

  lemma NotifyGood(c: Config, s: State, from: Option<string>, goal: Option<Goal>)
    requires Inv(c, s) && Live(s.pc)
    ensures Good(c, s, OnNotify(c, s, from, goal))
  {
  }

  lemma PolledGood(c: Config, s: State, goal: Option<Goal>)
    requires Inv(c, s) && s.pc.Looping?
    ensures Good(c, s, PolledStep(c, s, goal))
  {
    if s.terminal.Some? || goal.None? || goal.value.status.None? {
      MoveGood(c, s, Top, s.closed);
    } else if c.Ours(goal.value) {
      SeenGood(c, s, goal);
    } else {
      ReplacedGood(c, s, goal);
    }
  }

  lemma SeenGood(c: Config, s: State, goal: Option<Goal>)
    requires Inv(c, s) && s.pc.Looping? && s.terminal.None?
    requires goal.Some? && goal.value.status.Some? && c.Ours(goal.value)
    ensures Good(c, s, PolledStep(c, s, goal))
  {
    var moved := s.(pc := Top);
    MoveGood(c, s, Top, s.closed);
    NotifyGood(c, moved, Some(s.thread), goal);
    assert PolledStep(c, s, goal) == OnNotify(c, moved, Some(s.thread), goal);
  }

  lemma ReplacedGood(c: Config, s: State, goal: Option<Goal>)
    requires Inv(c, s) && s.pc.Looping? && s.terminal.None?
    requires goal.Some? && goal.value.status.Some? && !c.Ours(goal.value)
    ensures Good(c, s, PolledStep(c, s, goal))
  {
    var a, e := Saw(Some(s.thread), goal), Ended(Failed(GoalReplaced));
    NeutralWorld(c, s.log, a, s.store, s.queue, s.finished, s.conn);
    NeutralWorld(c, Then(s.log, a), e, s.store, s.queue, s.finished, s.conn);
    TwoActs(c, s.log, a, e);
  }

  lemma LoopGood(c: Config, s: State, p: LoopPlace, gateOpen: bool, ok: bool)
    requires Inv(c, s) && s.pc == Looping(p)
    requires LoopStep(c, s, p, gateOpen, ok).Some?
    ensures Good(c, s, LoopStep(c, s, p, gateOpen, ok).value)
  {
    match p
    case Nap =>
      ReadGood(c, s, gateOpen);
      ReadMoveGood(c, s, ReadBudget(c, s, gateOpen), Looping(Sleeping));
    case Woken =>
      if s.terminal.None? { CheckedGood(c, s, gateOpen, Looping(SendGet)); } else { MoveGood(c, s, Top, s.closed); }
    case SendGet =>
      ReadGood(c, s, gateOpen);
      ReadSendGood(c, s, ReadBudget(c, s, gateOpen), GetGoal, ok, Looping(AwaitGet), Looping(PollError));
    case PollError =>
      if s.terminal.None? { CheckedGood(c, s, gateOpen, Top); } else { MoveGood(c, s, Top, s.closed); }
    case Polled(goal) => PolledGood(c, s, goal);
    case EnterHold => EnterGood(c, s, gateOpen, ok);
    case _ =>
  }

  lemma EnterGood(c: Config, s: State, gateOpen: bool, ok: bool)
    requires Inv(c, s) && s.pc == Looping(EnterHold)
    ensures Good(c, s, LoopStep(c, s, EnterHold, gateOpen, ok).value)
  {
  }

  lemma PauseGood(c: Config, s: State, setup: bool, p: PausePlace, ok: bool)
    requires Inv(c, s) && s.pc == Pausing(setup, p)
    requires PauseStep(c, s, setup, p, ok).Some?
    ensures Good(c, s, PauseStep(c, s, setup, p, ok).value)
  {
    match p
    case PauseTop =>
      if s.closed {
        PauseFailedGood(c, s, setup);
      } else if |c.objective| > MAX_OBJECTIVE {
        MoveGood(c, s, Pausing(setup, PauseError), s.closed);
      } else {
        ControlGood(c, s, ok, Pausing(setup, AwaitPause), Pausing(setup, PauseError));
      }
    case SendGetPaused => ControlGood(c, s, ok, Pausing(setup, AwaitGetPaused), Pausing(setup, PauseError));
    case Confirm => ConfirmGood(c, s, setup, ok);
    case PauseError =>
      if s.closed { PauseFailedGood(c, s, setup); } else { MoveGood(c, s, Pausing(setup, PauseWait), s.closed); }
    case _ =>
  }

  lemma ControlGood(c: Config, s: State, ok: bool, sent: Pc, refused: Pc)
    requires Inv(c, s) && Live(s.pc) && Live(sent) && Live(refused)
    requires PlaceInv(c, sent, s.held, s.hold, s.armed) && PlaceInv(c, refused, s.held, s.hold, s.armed)
    requires WakeInv(s.log, s.conn, sent, s.queue, s.finished) && WakeInv(s.log, s.conn, refused, s.queue, s.finished)
    ensures Good(c, s, SendControl(s, ok, sent, refused))
  {
    if !s.closed && ok { MoveGood(c, s, sent, s.closed); } else { MoveGood(c, s, refused, true); }
  }

  lemma ConfirmGood(c: Config, s: State, setup: bool, ok: bool)
    requires Inv(c, s) && s.pc == Pausing(setup, Confirm)
    ensures Good(c, s, PauseStep(c, s, setup, Confirm, ok).value)
  {
    if !(ok && s.store.Some?) { MoveGood(c, s, Pausing(setup, PauseError), s.closed); }
  }

  lemma PauseFailedGood(c: Config, s: State, setup: bool)
    requires Inv(c, s) && s.pc.Pausing? && s.pc.setup == setup
    ensures Good(c, s, PauseFailed(s, setup))
  {
    EndGood(c, s, TransportClosed);
    if setup { MoveGood(c, s, SetupError(Some(TransportClosed)), s.closed); }
  }

  lemma WakeGood(c: Config, s: State, w: nat, p: WakePlace, ok: bool)
    requires Inv(c, s) && s.pc == Waking(w, p)
    requires WakeStep(c, s, w, p, ok).Some?
    ensures Good(c, s, WakeStep(c, s, w, p, ok).value)
  {
    match p
    case MarkStarted => if ok { MarkGood(c, s, w); } else { EndGood(c, s, Raw); }
    case SendTurn => TurnSentGood(c, s, w, ok);
    case SendActive =>
      if |c.objective| > MAX_OBJECTIVE {
        MoveGood(c, s, Waking(w, WakeError), s.closed);
      } else {
        ControlGood(c, s, ok, Waking(w, AwaitActive), Waking(w, WakeError));
      }
    case WakeError => if s.closed { EndGood(c, s, TransportClosed); } else { MoveGood(c, s, HoldWait, s.closed); }
    case _ =>
  }

  lemma MarkGood(c: Config, s: State, w: nat)
    requires Inv(c, s) && s.pc == Waking(w, MarkStarted)
    ensures Good(c, s, s.(started := s.started + {w}, pc := Waking(w, SendTurn)))
  {
    MoveGood(c, s, Waking(w, SendTurn), s.closed);
  }

  lemma TurnSentGood(c: Config, s: State, w: nat, ok: bool)
    requires Inv(c, s) && s.pc == Waking(w, SendTurn)
    ensures Good(c, s, WakeStep(c, s, w, SendTurn, ok).value)
  {
    if s.closed || !ok {
      MoveGood(c, s, Waking(w, WakeError), true);
    } else {
      NeutralWorld(c, s.log, TurnSent(s.conn, w), s.store, s.queue, s.finished, s.conn);
      NeutralWake(s.log, TurnSent(s.conn, w), s.conn, s.pc, s.queue, s.finished);
    }
  }

  lemma BookGood(c: Config, s: State, w: nat, p: BookPlace, ok: bool)
    requires Inv(c, s) && s.pc == Booking(w, p)
    requires BookStep(s, w, p, ok).Some?
    ensures Good(c, s, BookStep(s, w, p, ok).value)
  {
    match p
    case FinishWake =>
      if !ok || w !in s.started { MoveGood(c, s, Booking(w, BookError), s.closed); } else { FinishGood(c, s, w); }
    case LeaveMark =>
      if !ok { MoveGood(c, s, Booking(w, BookError), s.closed); } else { LeaveMarkGood(c, s, w); }
    case LeaveClear => ClearGood(c, s, w, ok);
    case BookError =>
      if s.closed { EndGood(c, s, TransportClosed); } else { MoveGood(c, s, Booking(w, BookWait), s.closed); }
    case _ =>
  }

  lemma FinishGood(c: Config, s: State, w: nat)
    requires Inv(c, s) && s.pc == Booking(w, BookPlace.FinishWake) && w in s.started
    ensures Good(c, s, BookStep(s, w, BookPlace.FinishWake, true).value)
  {
    if w in s.finished { MoveGood(c, s, Booking(w, LeaveMark), s.closed); }
  }

  lemma LeaveMarkGood(c: Config, s: State, w: nat)
    requires Inv(c, s) && s.pc == Booking(w, LeaveMark)
    ensures Good(c, s, BookStep(s, w, LeaveMark, true).value)
  {
    MoveGood(c, s, Booking(w, LeaveStop), s.closed);
  }

  lemma ClearGood(c: Config, s: State, w: nat, ok: bool)
    requires Inv(c, s) && s.pc == Booking(w, LeaveClear)
    ensures Good(c, s, BookStep(s, w, LeaveClear, ok).value)
  {
  }

  lemma TurnReplyGood(c: Config, s: State, w: nat)
    requires Inv(c, s) && s.pc == Waking(w, AwaitTurn)
    requires OnWakeReply(s, w, AwaitTurn).Some?
    ensures Good(c, s, OnWakeReply(s, w, AwaitTurn).value)
  {
    var a := TurnOk(s.conn, w);
    NeutralWorld(c, s.log, a, s.store, s.queue, s.finished, s.conn);
    NeutralWorld(c, Then(s.log, a), Discarded, s.store, s.queue, s.finished, s.conn);
    NeutralWake(s.log, a, s.conn, s.pc, s.queue, s.finished);
    NeutralWake(Then(s.log, a), Discarded, s.conn, s.pc, s.queue, s.finished);
  }

  lemma ActiveReplyGood(c: Config, s: State, w: nat)
    requires Inv(c, s) && s.pc == Waking(w, AwaitActive)
    requires OnWakeReply(s, w, AwaitActive).Some?
    ensures Good(c, s, OnWakeReply(s, w, AwaitActive).value)
  {
    ActiveReplyIs(s, w);
    ActivatedGood(c, s, w);
  }

  lemma ActiveReplyIs(s: State, w: nat)
    requires OnWakeReply(s, w, AwaitActive).Some?
    ensures s.hold.Some? && OnWakeReply(s, w, AwaitActive).value == Restored(Activated(s, w), w)
  {
  }

  lemma ActivatedGood(c: Config, s: State, w: nat)
    requires Inv(c, s) && s.pc == Waking(w, AwaitActive) && s.hold.Some?
    ensures Good(c, s, Restored(Activated(s, w), w))
  {
    ActiveGood(c, s, w);
    RestoreGood(c, Activated(s, w), w);
    BothGood(c, s, Activated(s, w), w);
  }

  function Activated(s: State, w: nat): State {
    Note(s, ActiveOk(s.conn, w)).(pc := Booking(w, BookPlace.FinishWake))
  }

  function Restored(s: State, w: nat): State
    requires s.hold.Some?
  {
    var b := Restore(s.b, s.now, s.hold.value);
    Note(s, Reactivated(w, b.deadline - s.now, b.hard - s.now)).(b := b)
  }

  lemma BothGood(c: Config, s: State, s1: State, w: nat)
    requires s1 == Activated(s, w) && s.hold.Some? && Inv(c, Restored(s1, w)) && Later(s1.b, Restored(s1, w).b)
    requires Justified(c, s.log, ActiveOk(s.conn, w)) && Justified(c, s1.log, Restored(s1, w).log.last)
    ensures Good(c, s, Restored(s1, w))
  {
    TwoActs(c, s.log, ActiveOk(s.conn, w), Restored(s1, w).log.last);
  }

  lemma TwoActs(c: Config, h: History, a: Act, b: Act)
    requires Justified(c, h, a) && Justified(c, Then(h, a), b)
    ensures Extends(c, h, Then(Then(h, a), b))
  {
  }

  lemma ActiveGood(c: Config, s: State, w: nat)
    requires Inv(c, s) && s.pc == Waking(w, AwaitActive)
    ensures Inv(c, Activated(s, w))
    ensures Justified(c, s.log, ActiveOk(s.conn, w))
  {
  }

  lemma RestoreGood(c: Config, s: State, w: nat)
    requires Inv(c, s) && Live(s.pc) && s.hold.Some?
    ensures Inv(c, Restored(s, w)) && Later(s.b, Restored(s, w).b)
    ensures Justified(c, s.log, Restored(s, w).log.last)
  {
    var a := Restored(s, w).log.last;
    NeutralWorld(c, s.log, a, s.store, s.queue, s.finished, s.conn);
    NeutralWake(s.log, a, s.conn, s.pc, s.queue, s.finished);
  }

  lemma PauseReplyGood(c: Config, s: State, setup: bool, p: PausePlace, goal: Option<Goal>)
    requires Inv(c, s) && s.pc == Pausing(setup, p)
    requires OnPauseReply(c, s, setup, p, goal).Some?
    ensures Good(c, s, OnPauseReply(c, s, setup, p, goal).value)
  {
  }

  lemma ReplyGood(c: Config, s: State, goal: Option<Goal>)
    requires Inv(c, s)
    requires OnReply(c, s, goal).Some?
    ensures Good(c, s, OnReply(c, s, goal).value)
  {
    match s.pc
    case Pausing(setup, p) => PauseReplyGood(c, s, setup, p, goal);
    case Waking(w, p) => if p.AwaitTurn? { TurnReplyGood(c, s, w); } else { ActiveReplyGood(c, s, w); }
    case _ => OtherReplyGood(c, s, goal);
  }

  lemma OtherReplyGood(c: Config, s: State, goal: Option<Goal>)
    requires Inv(c, s) && !s.pc.Pausing? && !s.pc.Waking?
    requires OnReply(c, s, goal).Some?
    ensures Good(c, s, OnReply(c, s, goal).value)
  {
    match s.pc
    case Setting(_) => SetReplyGood(c, s);
    case Kicking(_) => MoveGood(c, s, Top, s.closed);
    case Looping(p) =>
      MoveGood(c, s, Looping(if p.Sleeping? then Woken else Polled(goal)), s.closed);
    case HoldWait => MoveGood(c, s, Top, s.closed);
    case Booking(w, p) =>
      MoveGood(c, s, if p.LeaveStop? then Booking(w, LeaveClear) else Booking(w, BookPlace.FinishWake), s.closed);
    case _ =>
  }

  lemma SetReplyGood(c: Config, s: State)
    requires Inv(c, s) && s.pc.Setting?
    ensures Good(c, s, Note(s, Armed).(armed := true, pc := Kicking(BeforeKick)))
  {
    NeutralWorld(c, s.log, Armed, s.store, s.queue, s.finished, s.conn);
    NeutralWake(s.log, Armed, s.conn, s.pc, s.queue, s.finished);
  }

  lemma RejectGood(c: Config, s: State)
    requires Inv(c, s)
    requires OnReject(s).Some?
    ensures Good(c, s, OnReject(s).value)
  {
    match s.pc
    case Setting(_) => MoveGood(c, s, SetupError(None), s.closed);
    case Kicking(_) => MoveGood(c, s, SetupError(None), s.closed);
    case Looping(_) => MoveGood(c, s, Looping(PollError), s.closed);
    case Pausing(setup, _) => MoveGood(c, s, Pausing(setup, PauseError), s.closed);
    case Waking(w, _) => MoveGood(c, s, Waking(w, WakeError), s.closed);
    case Booking(w, _) => MoveGood(c, s, Booking(w, BookError), s.closed);
    case _ =>
  }

  lemma NewCallGood(c: Config, s: State, thread: string)
    requires Inv(c, s)
    ensures Good(c, s, NewCall(c, s, thread))
  {
    if c.hasPhase && s.store.Some? { HeldCallGood(c, s, thread); } else { FreeCallGood(c, s, thread); }
  }

  lemma HeldCallGood(c: Config, s: State, thread: string)
    requires Inv(c, s) && c.hasPhase && s.store.Some?
    ensures Good(c, s, NewCall(c, s, thread))
  {
    NeutralWorld(c, s.log, CallStarted(s.conn + 1, thread), s.store, s.queue, s.finished, s.conn);
  }

  lemma FreeCallGood(c: Config, s: State, thread: string)
    requires Inv(c, s) && s.store.None?
    ensures Good(c, s, NewCall(c, s, thread))
  {
    NeutralWorld(c, s.log, CallStarted(s.conn + 1, thread), s.store, s.queue, s.finished, s.conn);
  }

  /** A new run starts from its own instant, so only the invariant and the history carry over. */
  lemma NewRunGood(c: Config, s: State, thread: string)
    requires Inv(c, s) && !Live(s.pc)
    ensures Inv(c, NewRun(c, s, thread)) && Extends(c, s.log, NewRun(c, s, thread).log)
  {
    if c.hasPhase && s.store.Some? { HeldRunGood(c, s, thread); } else { FreeRunGood(c, s, thread); }
  }

  lemma HeldRunGood(c: Config, s: State, thread: string)
    requires Inv(c, s) && !Live(s.pc) && c.hasPhase && s.store.Some?
    ensures Inv(c, NewRun(c, s, thread)) && Extends(c, s.log, NewRun(c, s, thread).log)
  {
  }

  lemma FreeRunGood(c: Config, s: State, thread: string)
    requires Inv(c, s) && !Live(s.pc) && s.store.None?
    ensures Inv(c, NewRun(c, s, thread)) && Extends(c, s.log, NewRun(c, s, thread).log)
  {
  }

  lemma EnqueueGood(c: Config, s: State, w: nat)
    requires Inv(c, s) && w !in s.queue
    ensures Good(c, s, Note(s, Queued(w)).(queue := s.queue + [w]))
  {
    if Live(s.pc) && s.pc.Waking? {
      var k :| 0 <= k < |s.queue| && s.queue[k] == s.pc.wake && forall m :: 0 <= m < k ==> s.queue[m] in s.finished;
      var longer := s.queue + [w];
      assert longer[k] == s.pc.wake && forall m :: 0 <= m < k ==> longer[m] in s.finished;
    }
  }

  lemma LocalGood(c: Config, s: State, gateOpen: bool, ok: bool)
    requires Inv(c, s)
    requires LocalStep(c, s, gateOpen, ok).Some?
    ensures Good(c, s, LocalStep(c, s, gateOpen, ok).value)
  {
    match s.pc
    case Setting(p) => SetGood(c, s, p, gateOpen, ok);
    case Kicking(p) => KickGood(c, s, p, gateOpen, ok);
    case SetupError(kind) => SetupErrorGood(c, s, kind, gateOpen);
    case Top => TopGood(c, s, gateOpen, ok);
    case Looping(p) => LoopGood(c, s, p, gateOpen, ok);
    case Pausing(setup, p) => PauseGood(c, s, setup, p, ok);
    case Waking(w, p) => WakeGood(c, s, w, p, ok);
    case Booking(w, p) => BookGood(c, s, w, p, ok);
    case _ =>
  }

  lemma TickGood(c: Config, s: State, ms: nat)
    requires Inv(c, s)
    ensures Good(c, s, s.(now := s.now + ms))
  {
  }

  lemma CrashGood(c: Config, s: State)
    requires Inv(c, s)
    ensures Good(c, s, s.(pc := Dead))
  {
  }

  lemma CountGood(c: Config, s: State)
    requires Inv(c, s)
    ensures Good(c, s, s.(restarts := s.restarts + 1))
  {
  }

  lemma RespawnGood(c: Config, s: State, ok: bool, thread: string)
    requires Inv(c, s) && s.pc.Done?
    requires Next(c, s, Respawn(ok, thread)).Some?
    ensures Good(c, s, Next(c, s, Respawn(ok, thread)).value)
  {
    CountGood(c, s);
    NewCallGood(c, s.(restarts := s.restarts + 1), thread);
  }

  /** What the daemon may do at an await. */
  lemma DaemonGood(c: Config, s: State, e: Event)
    requires Inv(c, s) && (e.Notify? || e.Close?)
    requires Next(c, s, e).Some?
    ensures Good(c, s, Next(c, s, e).value)
  {
    match e
    case Notify(from, goal) =>
      TickGood(c, s, 0);
      NotifyGood(c, s, from, goal);
    case Close => MoveGood(c, s, s.pc, true);
  }

  /** Steps of the queue, the runtime and the operating system. */
  lemma WorldStepGood(c: Config, s: State, e: Event)
    requires Inv(c, s) && (e.Enqueue? || e.Respawn? || e.Crash?)
    requires Next(c, s, e).Some?
    ensures Good(c, s, Next(c, s, e).value)
  {
    match e
    case Enqueue(w) => EnqueueGood(c, s, w);
    case Respawn(ok, thread) => RespawnGood(c, s, ok, thread);
    case Crash => CrashGood(c, s);
  }

  lemma NextGood(c: Config, s: State, e: Event)
    requires Inv(c, s) && !e.Rerun?
    requires Next(c, s, e).Some?
    ensures Good(c, s, Next(c, s, e).value)
  {
    match e
    case Step(gateOpen, ok) => LocalGood(c, s, gateOpen, ok);
    case Reply(goal) => ReplyGood(c, s, goal);
    case Reject => RejectGood(c, s);
    case Tick(ms) => TickGood(c, s, ms);
    case Notify(_, _) => DaemonGood(c, s, e);
    case Close => DaemonGood(c, s, e);
    case _ => WorldStepGood(c, s, e);
  }

  // ---------------------------------------------------------------- every run

  lemma AnyStepGood(c: Config, s: State, e: Event)
    requires Inv(c, s) && AllJustified(c, s.log)
    requires Next(c, s, e).Some?
    ensures Inv(c, Next(c, s, e).value) && AllJustified(c, Next(c, s, e).value.log)
  {
    StepExtends(c, s, e);
    ExtendsJustified(c, s.log, Next(c, s, e).value.log);
  }

  lemma StepExtends(c: Config, s: State, e: Event)
    requires Inv(c, s)
    requires Next(c, s, e).Some?
    ensures Inv(c, Next(c, s, e).value) && Extends(c, s.log, Next(c, s, e).value.log)
  {
    if e.Rerun? { NewRunGood(c, s, e.thread); } else { NextGood(c, s, e); }
  }

  lemma ExtendsJustified(c: Config, h: History, h': History)
    requires AllJustified(c, h) && Extends(c, h, h')
    ensures AllJustified(c, h')
  {
  }

  lemma {:induction false} RunGood(c: Config, s: State, events: seq<Event>)
    requires Inv(c, s) && AllJustified(c, s.log)
    requires Run(c, s, events).Some?
    ensures Inv(c, Run(c, s, events).value) && AllJustified(c, Run(c, s, events).value.log)
    decreases |events|
  {
    if events != [] {
      AnyStepGood(c, s, events[0]);
      RunGood(c, Next(c, s, events[0]).value, events[1..]);
    }
  }

  lemma ReachableGood(c: Config, s: State)
    requires Reachable(c, s)
    ensures Inv(c, s) && AllJustified(c, s.log)
  {
    var now: nat, events :| Run(c, Initial(c, now), events) == Some(s);
    RunGood(c, Initial(c, now), events);
  }

  /** `p` is the history as it stood at some earlier moment, or now. */
  ghost predicate Within(p: History, h: History) {
    p == h || (h.Then? && Within(p, h.before))
  }

  lemma {:induction false} JustifiedWithin(c: Config, p: History, h: History)
    requires AllJustified(c, h) && Within(p, h) && p.Then?
    ensures Justified(c, p.before, p.last)
  {
    if p != h { JustifiedWithin(c, p, h.before); }
  }

  /** Main result: whatever the interleaving, crashes and restarts, every entry of the
      history was allowed by the entries before it. */
  lemma EveryEntryIsJustified(c: Config, s: State, p: History)
    requires Reachable(c, s)
    requires Within(p, s.log) && p.Then?
    ensures Justified(c, p.before, p.last)
  {
    ReachableGood(c, s);
    JustifiedWithin(c, p, s.log);
  }

  lemma {:induction false} LatestHasSource(c: Config, h: History) returns (p: History)
    requires Latest(c, h).Some?
    ensures Within(p, h) && p.Then? && TrustedStatus(c, p.before, p.last) == Latest(c, h)
    ensures forall q :: Within(q, h) && Within(p, q) && q != p && q.Then? ==>
              !Resets(q.last) && TrustedStatus(c, q.before, q.last).None?
  {
    if TrustedStatus(c, h.before, h.last).Some? {
      p := h;
      forall q | Within(q, h) && Within(p, q) && q != p && q.Then?
        ensures false
      {
        WithinIsSmaller(q, h);
        WithinIsSmaller(p, q);
      }
    } else {
      p := LatestHasSource(c, h.before);
    }
  }

  ghost function Size(h: History): nat {
    if h.Start? then 0 else 1 + Size(h.before)
  }

  lemma {:induction false} WithinIsSmaller(p: History, h: History)
    requires Within(p, h)
    ensures p == h || Size(p) < Size(h)
  {
    if p != h { WithinIsSmaller(p, h.before); }
  }

  /** A returned status was reported by an update that came after this call's set-goal was
      confirmed, on its own thread, with no objective or its own, and nothing trusted came
      later. It counts as success exactly when complete, and a run with a phase controller
      never returns complete. */
  lemma ReturnedStatusIsTrusted(c: Config, s: State, end: History, status: Status, ok: bool) returns (p: History)
    requires Reachable(c, s)
    requires Within(end, s.log) && end.Then? && end.last == Ended(Returned(status, ok))
    ensures Within(p, end.before) && p.Then? && TrustedStatus(c, p.before, p.last) == Some(status)
    ensures forall q :: Within(q, end.before) && Within(p, q) && q != p && q.Then? ==>
              !Resets(q.last) && TrustedStatus(c, q.before, q.last).None?
    ensures ok <==> status == Complete
    ensures c.hasPhase ==> status != Complete
  {
    EveryEntryIsJustified(c, s, end);
    p := LatestHasSource(c, end.before);
  }

  /** Once a wake's turn start and its activation both succeeded on a connection, that turn is
      never sent on it again. */
  lemma DeliveredTurnIsNotRepeated(c: Config, s: State, sent: History, done: History, conn: nat, w: nat)
    requires Reachable(c, s)
    requires Within(sent, s.log) && sent.Then? && sent.last == TurnSent(conn, w)
    requires Within(done, s.log) && done.Then? && done.last == ActiveOk(conn, w)
    ensures !Within(done, sent.before)
  {
    EveryEntryIsJustified(c, s, sent);
    if Within(done, sent.before) { WithinDid(done, sent.before); }
  }

  lemma {:induction false} WithinDid(p: History, h: History)
    requires Within(p, h) && p.Then?
    ensures Did(h, p.last)
  {
    if p != h { WithinDid(p, h.before); }
  }

  // ---------------------------------------------------------------- budgets

  /** Across any number of restarts of one run that has seen no hold: the hard deadline is the
      start plus the larger cap, the deadline lies between the start plus the active cap and
      the hard deadline, and it is exactly the former when no gate was seen open. */
  lemma UnheldBudget(c: Config, s: State)
    requires Reachable(c, s) && !s.b.heldThisRun
    ensures s.b.hard == s.b.startedAt + c.HardCeiling()
    ensures s.b.startedAt + c.activeCap <= s.b.deadline <= s.b.hard
    ensures !s.b.gateSeen ==> s.b.deadline == s.b.startedAt + c.activeCap
  {
    ReachableGood(c, s);
  }

  /** Within one run, holds and restarts included, neither deadline moves back. */
  lemma DeadlinesNeverMoveBack(c: Config, s: State, e: Event)
    requires Reachable(c, s) && Next(c, s, e).Some? && !e.Rerun?
    ensures s.b.deadline <= Next(c, s, e).value.b.deadline
    ensures s.b.hard <= Next(c, s, e).value.b.hard
  {
    ReachableGood(c, s);
    NextGood(c, s, e);
  }

  /** A daemon restart outside a hold keeps both deadlines exactly when RestartKeeps. */
  lemma RestartKeepsDeadlinesExactlyWhen(c: Config, s: State, thread: string)
    requires Reachable(c, s) && s.store.None?
    ensures var b := NewCall(c, s, thread).b;
            (b.deadline == s.b.deadline && b.hard == s.b.hard) <==> RestartKeeps(c, s.b)
  {
    ReachableGood(c, s);
  }

  /** A run that found no hold stored when it began keeps its deadlines over every restart. */
  lemma RestartKeepsDeadlines(c: Config, s: State, thread: string)
    requires Reachable(c, s) && s.store.None? && !s.b.startedHeld
    ensures NewCall(c, s, thread).b.deadline == s.b.deadline && NewCall(c, s, thread).b.hard == s.b.hard
  {
    ReachableGood(c, s);
  }

  // ---------------------------------------------------------------- holds

  /** Entering a hold records exactly the time both deadlines leave at that instant, and a
      reactivation leaves exactly the time it records. */
  lemma HoldTimesAreExact(c: Config, s: State, e: Event)
    requires Reachable(c, s) && Next(c, s, e).Some? && !e.Rerun?
    ensures Timed(s, Next(c, s, e).value)
  {
    ReachableGood(c, s);
    NextGood(c, s, e);
  }

  lemma {:induction false} LastHoldHasSource(h: History) returns (p: History)
    requires LastHold(h).Some?
    ensures Within(p, h) && p.Then? && p.last == HoldEntered(LastHold(h).value.0, LastHold(h).value.1)
    ensures forall q :: Within(q, h) && Within(p, q) && q != p && q.Then? ==> !q.last.HoldEntered?
  {
    if h.last.HoldEntered? {
      p := h;
      forall q | Within(q, h) && Within(p, q) && q != p && q.Then?
        ensures false
      {
        WithinIsSmaller(q, h);
        WithinIsSmaller(p, q);
      }
    } else {
      p := LastHoldHasSource(h.before);
    }
  }

  /** The budgets left right after a reactivation are those recorded when the latest hold was
      entered, however long it lasted and whatever restarted meanwhile. */
  lemma HoldFreezesBudgets(c: Config, s: State, on: History, w: nat, active: int, hard: int) returns (p: History)
    requires Reachable(c, s)
    requires Within(on, s.log) && on.Then? && on.last == Reactivated(w, active, hard)
    ensures active >= 0 && hard >= 0
    ensures Within(p, on.before) && p.Then? && p.last == HoldEntered(active, hard)
    ensures forall q :: Within(q, on.before) && Within(p, q) && q != p && q.Then? ==> !q.last.HoldEntered?
  {
    EveryEntryIsJustified(c, s, on);
    p := LastHoldHasSource(on.before);
  }

  // ---------------------------------------------------------------- a process restart inside a hold

  lemma {:induction false} RunAppend(c: Config, s: State, a: seq<Event>, b: seq<Event>)
    requires Run(c, s, a).Some?
    ensures Run(c, s, a + b) == Run(c, Run(c, s, a).value, b)
    decreases |a|
  {
    if a == [] {
      assert a + b == b;
    } else {
      assert (a + b)[0] == a[0] && (a + b)[1..] == a[1..] + b;
      RunAppend(c, Next(c, s, a[0]).value, a[1..], b);
    }
  }

  lemma InitialReachable(c: Config, now: nat)
    ensures Reachable(c, Initial(c, now))
  {
    assert Run(c, Initial(c, now), []) == Some(Initial(c, now));
  }

  lemma ReachableNext(c: Config, s: State, e: Event) returns (t: State)
    requires Reachable(c, s) && Next(c, s, e).Some?
    ensures Reachable(c, t) && Next(c, s, e) == Some(t)
  {
    t := Next(c, s, e).value;
    var now: nat, events :| Run(c, Initial(c, now), events) == Some(s);
    RunAppend(c, Initial(c, now), events, [e]);
    assert Run(c, s, [e]) == Run(c, t, []);
    assert Run(c, Initial(c, now), events + [e]) == Some(t);
  }

  const SHORT := Config("", 60, 60, 30, 5, true)

  lemma FirstRun(c: Config, thread: string) returns (s: State)
    ensures Reachable(c, s) && s == NewRun(c, Initial(c, 0), thread)
  {
    InitialReachable(c, 0);
    s := ReachableNext(c, Initial(c, 0), Rerun(thread));
  }

  lemma ShortRunBegins() returns (s: State)
    ensures Reachable(SHORT, s) && s.pc == Setting(BeforeSet) && !s.closed && !s.held && s.thread == "t"
    ensures s.hold.None? && s.terminal.None? && s.store.None? && s.now == 0 && s.queue == [] && s.finished == {}
    ensures s.b.deadline == 60 && s.b.hard == 60
  {
    s := FirstRun(SHORT, "t");
  }

  lemma ShortRunStarts() returns (s: State)
    ensures Reachable(SHORT, s) && s.pc == Kicking(AwaitKick) && s.armed && !s.closed && !s.held && s.thread == "t"
    ensures s.hold.None? && s.terminal.None? && s.store.None? && s.now == 0 && s.queue == [] && s.finished == {}
    ensures s.b.deadline == 60 && s.b.hard == 60
  {
    s := ShortRunBegins();
    s := ReachableNext(SHORT, s, Step(false, true));
    s := ReachableNext(SHORT, s, Step(false, true));
    s := ReachableNext(SHORT, s, Reply(None));
    s := ReachableNext(SHORT, s, Step(false, true));
    s := ReachableNext(SHORT, s, Step(false, true));
  }

  /** A complete is seen at 50. */
  lemma ShortRunCompletes() returns (s: State)
    ensures Reachable(SHORT, s) && s.pc == Kicking(AwaitKick) && s.armed && !s.closed && !s.held && s.thread == "t"
    ensures s.hold.None? && s.terminal == Some(Complete) && s.store.None? && s.now == 50
    ensures s.queue == [] && s.finished == {} && s.b.deadline == 60 && s.b.hard == 60
  {
    s := ShortRunStarts();
    s := ReachableNext(SHORT, s, Tick(50));
    s := ReachableNext(SHORT, s, Notify(Some("t"), Some(Goal(Some(Complete), None))));
  }

  /** At 50, with 10 left of 60, a complete leads to a hold. */
  lemma ShortRunEntersHold() returns (s: State)
    ensures Reachable(SHORT, s) && s.pc == Pausing(false, PauseTop)
    ensures s.now == 50 && s.store == Some(Hold(Entering, 10, 10)) && s.queue == [] && s.finished == {}
  {
    s := ShortRunCompletes();
    s := ReachableNext(SHORT, s, Reply(None));
    s := ReachableNext(SHORT, s, Step(false, true));
    s := ReachableNext(SHORT, s, Step(false, true));
  }

  /** The process dies and a new one finds the hold. */
  lemma ShortRunIsTakenUp() returns (s: State)
    ensures Reachable(SHORT, s) && s.pc == Pausing(true, AwaitPause) && s.held && !s.closed && s.restarts == 0
    ensures s.now == 50 && s.hold == Some(Hold(Entering, 10, 10)) && s.store == Some(Hold(Entering, 10, 10))
    ensures s.queue == [] && s.finished == {} && s.b.startedAt == 50 && s.b.startedHeld
    ensures s.b.carried == 60 && s.b.carriedHard == 60
  {
    s := ShortRunEntersHold();
    s := ReachableNext(SHORT, s, Crash);
    s := ReachableNext(SHORT, s, Rerun("t"));
    s := ReachableNext(SHORT, s, Step(false, true));
  }

  /** It confirms the pause. */
  lemma ShortRunResumesHold() returns (s: State)
    ensures Reachable(SHORT, s) && s.pc == Top && s.held && !s.closed && s.restarts == 0
    ensures s.now == 50 && s.hold == Some(Hold(Entering, 10, 10)) && s.store == Some(Hold(Holding, 10, 10))
    ensures s.queue == [] && s.finished == {} && s.b.startedAt == 50 && s.b.startedHeld
    ensures s.b.carried == 60 && s.b.carriedHard == 60
  {
    s := ShortRunIsTakenUp();
    s := ReachableNext(SHORT, s, Reply(None));
    s := ReachableNext(SHORT, s, Step(false, true));
    s := ReachableNext(SHORT, s, Reply(Some(Goal(Some(Paused), None))));
    s := ReachableNext(SHORT, s, Step(false, true));
    s := ReachableNext(SHORT, s, Reply(None));
  }

  /** A wake arrives and its turn is sent. */
  lemma ShortRunSendsTurn() returns (s: State)
    ensures Reachable(SHORT, s) && s.pc == Waking(7, AwaitTurn) && !s.closed && s.restarts == 0 && s.held
    ensures s.now == 50 && s.hold == Some(Hold(Entering, 10, 10)) && s.store == Some(Hold(Holding, 10, 10))
    ensures 7 in s.started && 7 !in s.finished && s.b.startedAt == 50 && s.b.startedHeld
    ensures s.b.carried == 60 && s.b.carriedHard == 60
  {
    s := ShortRunResumesHold();
    s := ReachableNext(SHORT, s, Enqueue(7));
    assert s.queue == [7];
    s := ReachableNext(SHORT, s, Step(false, true));
    s := ReachableNext(SHORT, s, Step(false, true));
    s := ReachableNext(SHORT, s, Step(false, true));
  }

  /** The goal is activated with what the hold had kept. */
  lemma ShortRunIsWoken() returns (s: State)
    ensures Reachable(SHORT, s) && s.pc == Booking(7, FinishWake) && !s.closed && s.restarts == 0
    ensures s.now == 50 && s.store == Some(Hold(Holding, 10, 10)) && s.hold.Some? && s.held
    ensures s.terminal.None? && 7 in s.started && 7 !in s.finished
    ensures s.b.deadline == 60 && s.b.hard == 60
    ensures s.b.startedAt == 50 && s.b.startedHeld && s.b.carried == 60 && s.b.carriedHard == 60
  {
    s := ShortRunSendsTurn();
    s := ReachableNext(SHORT, s, Reply(None));
    s := ReachableNext(SHORT, s, Step(false, true));
    s := ReachableNext(SHORT, s, Reply(None));
  }

  /** The wake is recorded. */
  lemma ShortRunLeavesHold() returns (s: State)
    ensures Reachable(SHORT, s) && s.pc == Top && !s.held && !s.closed && s.restarts == 0
    ensures s.store.None? && s.terminal.None? && s.now == 50 && s.b.deadline == 60 && s.b.hard == 60
    ensures s.b.startedAt == 50 && s.b.startedHeld && s.b.carried == 60 && s.b.carriedHard == 60
  {
    s := ShortRunIsWoken();
    s := ReachableNext(SHORT, s, Step(false, true));
    s := ReachableNext(SHORT, s, Step(false, true));
    s := ReachableNext(SHORT, s, Reply(None));
    s := ReachableNext(SHORT, s, Step(false, true));
  }

  /** The main loop sleeps. */
  lemma ShortRunGoesOn() returns (s: State)
    ensures Reachable(SHORT, s) && s.pc == Looping(Sleeping) && !s.closed && s.restarts == 0
    ensures s.store.None? && s.terminal.None? && s.now == 50 && s.b.deadline == 60 && s.b.hard == 60
    ensures s.b.startedAt == 50 && s.b.startedHeld && s.b.carried == 60 && s.b.carriedHard == 60
  {
    s := ShortRunLeavesHold();
    s := ReachableNext(SHORT, s, Step(false, true));
    s := ReachableNext(SHORT, s, Step(false, true));
  }

  /** The deadlines restored after a hold do not always survive a later restart. With caps of
      60, a run that had 10 left when it entered a hold, was taken up by a new process and
      woken, has 10 left again; when the daemon then dies, the restart gives it 60. */
  lemma ProcessRestartInHoldRearms() returns (s: State)
    ensures Reachable(SHORT, s) && s.store.None? && s.pc == Done(Failed(TransportClosed))
    ensures Left(s) == 10 && s.b.startedHeld && !RestartKeeps(SHORT, s.b)
    ensures Left(NewCall(SHORT, s, "t")) == 60
  {
    s := ShortRunGoesOn();
    s := ReachableNext(SHORT, s, Close);
    s := ReachableNext(SHORT, s, Reply(None));
    s := ReachableNext(SHORT, s, Step(false, true));
  }
}
