/**
 The variables that one `runGoalToTerminal` call and the runtime's carry callbacks update in
 place (codex-daemon-client.ts, codex-daemon-goal-runtime.ts), as a class whose methods are the
 closures that touch them, and the calls of one run chained over its restarts.
 */
module GoalCalls {
  import opened Prelude
  import opened GoalRun
  import opened GoalRunProofs

  // ---------------------------------------------------------------- what the closures keep

  lemma ExtendKeeps(c: Config, b: Budgets, now: nat, gateOpen: bool)
    requires BudgetInv(c, b)
    ensures BudgetInv(c, Extend(c, b, now, gateOpen)) && Later(b, Extend(c, b, now, gateOpen))
  {
  }

  lemma RearmKeeps(c: Config, b: Budgets)
    requires BudgetInv(c, b)
    ensures BudgetInv(c, Rearm(c, b)) && Later(b, Rearm(c, b))
  {
  }

  lemma RestoreKeeps(c: Config, b: Budgets, now: nat, h: Hold)
    requires BudgetInv(c, b) && FrozenInv(b, now, Some(h)) && h.active <= h.hard
    ensures BudgetInv(c, Restore(b, now, h)) && Later(b, Restore(b, now, h))
  {
  }

  /** A run that begins: nothing carried, nothing seen. */
  function Fresh(startedAt: nat, hold: Option<Hold>): Budgets {
    Budgets(startedAt, 0, 0, 0, 0, false, false, hold.Some?)
  }

  function StartTimes(c: Config, earlier: Budgets, now: nat, hold: Option<Hold>): Budgets {
    if hold.Some? then Restore(earlier, now, hold.value) else Rearm(c, earlier)
  }

  /** What the times before a call must be. */
  ghost predicate Ready(c: Config, earlier: Budgets, startedAt: nat, now: nat, hold: Option<Hold>) {
    && earlier.startedAt == startedAt
    && (BudgetInv(c, earlier) || earlier == Fresh(startedAt, hold))
    && (hold.Some? ==> hold.value.active <= hold.value.hard && FrozenInv(earlier, now, hold))
  }

  lemma StartKeeps(c: Config, earlier: Budgets, startedAt: nat, now: nat, hold: Option<Hold>)
    requires Ready(c, earlier, startedAt, now, hold)
    ensures BudgetInv(c, StartTimes(c, earlier, now, hold)) && Later(earlier, StartTimes(c, earlier, now, hold))
  {
    if earlier != Fresh(startedAt, hold) {
      if hold.Some? { RestoreKeeps(c, earlier, now, hold.value); } else { RearmKeeps(c, earlier); }
    }
  }

  class GoalCall {
    const c: Config
    const startedAt: nat
    const thread: string
    var deadline: int
    var hardDeadline: int
    var carried: int
    var carriedHard: int
    var terminalSeen: Option<Status>
    var goalArmed: bool
    ghost var gateSeen: bool
    ghost var heldThisRun: bool
    ghost const startedHeld: bool
    ghost var log: History

    ghost function Times(): Budgets
      reads this
    {
      Budgets(startedAt, carried, carriedHard, deadline, hardDeadline, gateSeen, heldThisRun, startedHeld)
    }

    /** The budgets keep their bounds, and the terminal seen is the latest one that may be trusted. */
    ghost predicate Valid()
      reads this
    {
      BudgetInv(c, Times()) && TrustInv(c, log, terminalSeen, goalArmed, thread)
    }

    /** The head of the function: armed from the run's start and what was carried, or from a
        stored hold. */
    constructor (c: Config, startedAt: nat, thread: string, now: nat, carried: int, carriedHard: int,
                 hold: Option<Hold>, ghost earlier: Budgets, ghost log: History)
      requires earlier.carried == carried && earlier.carriedHard == carriedHard
      requires Ready(c, earlier, startedAt, now, hold)
      ensures Valid() && this.c == c && this.startedAt == startedAt && this.thread == thread
      ensures Times() == StartTimes(c, earlier, now, hold) && Later(earlier, Times())
      ensures terminalSeen == None && !goalArmed
      ensures this.log.Then? && this.log.before == log && this.log.last.CallStarted?
    {
      this.c, this.startedAt, this.thread := c, startedAt, thread;
      this.carried, this.carriedHard := carried, carriedHard;
      var hard := Max(startedAt + c.HardCeiling(), carriedHard);
      hardDeadline := hard;
      deadline := Min(hard, Max(startedAt + c.activeCap, carried));
      if hold.Some? {
        deadline := now + hold.value.active;
        hardDeadline := now + hold.value.hard;
        this.carried := Max(carried, now + hold.value.active);
        this.carriedHard := Max(carriedHard, now + hold.value.hard);
      }
      terminalSeen, goalArmed := None, false;
      gateSeen, heldThisRun, startedHeld := earlier.gateSeen, earlier.heldThisRun || hold.Some?, earlier.startedHeld;
      this.log := Then(log, CallStarted(0, thread));
      new;
      assert Times() == StartTimes(c, earlier, now, hold);
      StartKeeps(c, earlier, startedAt, now, hold);
    }

    /** remainingBudget(): while a gate is open a full active budget lies ahead, as far as the
        hard deadline allows, and never more than that is added. */
    method RemainingBudget(now: nat, isWaiting: bool) returns (left: int)
      requires Valid()
      modifies `deadline, `carried, `gateSeen
      ensures Valid() && Times() == Extend(c, old(Times()), now, isWaiting) && Later(old(Times()), Times())
      ensures left == deadline - now
      ensures isWaiting ==> left >= Min(c.activeCap, hardDeadline - now)
      ensures left <= Max(old(deadline) - now, if isWaiting then c.activeCap else 0)
    {
      ExtendKeeps(c, Times(), now, isWaiting);
      if isWaiting {
        gateSeen := true;
        var extended := Min(hardDeadline, now + c.activeCap);
        if extended > deadline {
          deadline := extended;
          if deadline > carried { carried := deadline; }
        }
      }
      left := deadline - now;
    }

    /** enterHold: what both deadlines leave is frozen, and the terminal seen is dropped. */
    method EnterHold(now: nat) returns (h: Hold)
      requires Valid()
      modifies `heldThisRun, `terminalSeen, `log
      ensures Valid() && Later(old(Times()), Times()) && FrozenInv(Times(), now, Some(h)) && h.active <= h.hard
      ensures h == Hold(Entering, Max(0, deadline - now), Max(0, hardDeadline - now)) && terminalSeen == None
    {
      h := Hold(Entering, Max(0, deadline - now), Max(0, hardDeadline - now));
      heldThisRun := true;
      Discard();
    }

    /** The frozen budgets count again from now. */
    method RestoreBudget(now: nat, h: Hold)
      requires Valid() && FrozenInv(Times(), now, Some(h)) && h.active <= h.hard
      modifies `deadline, `hardDeadline, `carried, `carriedHard, `heldThisRun
      ensures Valid() && Times() == Restore(old(Times()), now, h) && Later(old(Times()), Times())
      ensures deadline - now == h.active && hardDeadline - now == h.hard
    {
      RestoreKeeps(c, Times(), now, h);
      deadline := now + h.active;
      hardDeadline := now + h.hard;
      if deadline > carried { carried := deadline; }
      if hardDeadline > carriedHard { carriedHard := hardDeadline; }
      heldThisRun := true;
      assert Times() == Restore(old(Times()), now, h);
    }

    /** The set-goal was confirmed. */
    method Confirm()
      requires Valid()
      modifies `goalArmed, `log
      ensures Valid() && goalArmed && log == Then(old(log), Armed)
    {
      goalArmed := true;
      log := Then(log, Armed);
    }

    /** A new phase of the run begins; what was seen before does not end it. */
    method Discard()
      requires Valid()
      modifies `terminalSeen, `log
      ensures Valid() && terminalSeen == None && log == Then(old(log), Discarded)
    {
      terminalSeen := None;
      log := Then(log, Discarded);
    }

    /** Only an armed call's own thread and own goal count; the latest such terminal is kept. */
    method OnGoalUpdate(from: Option<string>, goal: Option<Goal>)
      requires Valid()
      modifies `terminalSeen, `log
      ensures Valid() && log == Then(old(log), Saw(from, goal))
      ensures terminalSeen == if TrustedStatus(c, old(log), Saw(from, goal)).Some?
                              then TrustedStatus(c, old(log), Saw(from, goal)) else old(terminalSeen)
    {
      log := Then(log, Saw(from, goal));
      if !goalArmed || from != Some(thread) || goal.None? || !c.Ours(goal.value) { return; }
      if goal.value.status.Some? && IsTerminal(goal.value.status.value) {
        terminalSeen := goal.value.status;
      }
    }
  }

  // ---------------------------------------------------------------- the calls of one run

  /** What happens to the budgets within one call, in the order it comes. */
  datatype Beat =
    | Wait(ms: nat)
    | ReadBudgetOf(gateOpen: bool)
    | GoalConfirmed
    | Update(from: Option<string>, goal: Option<Goal>)
    | Enter                             // a phase hold
    | WakeTurn
    | Activate                          // the goal is active again
    | Leave                             // the hold is cleared

  /** What will happen in one call: the thread, the time that passes before it, and the beats. */
  datatype Script = Script(thread: string, pause: nat, beats: seq<Beat>)

  /** One call: its daemon, when it began, the hold it found, and the times after each beat. */
  datatype CallTimes = CallTimes(daemon: nat, at: nat, hold: Option<Hold>, marks: seq<Budgets>)

  ghost predicate AllLater(marks: seq<Budgets>) {
    forall i, j :: 0 <= i <= j < |marks| ==> Later(marks[i], marks[j])
  }

  ghost predicate Kept(c: Config, marks: seq<Budgets>) {
    AllLater(marks) && forall i :: 0 <= i < |marks| ==> BudgetInv(c, marks[i])
  }

  lemma KeptGrows(c: Config, marks: seq<Budgets>, b: Budgets)
    requires Kept(c, marks) && marks != [] && Later(marks[|marks| - 1], b) && BudgetInv(c, b)
    ensures Kept(c, marks + [b])
  {
    forall i, j | 0 <= i <= j < |marks| + 1
      ensures Later((marks + [b])[i], (marks + [b])[j])
    {
      if i < |marks| { assert Later(marks[i], marks[|marks| - 1]); }
    }
  }

  /** The call kept the bounds throughout and began with what the one before it left. */
  ghost predicate Follows(c: Config, earlier: Budgets, call: CallTimes) {
    && call.marks != [] && call.marks[0] == StartTimes(c, earlier, call.at, call.hold)
    && Later(earlier, call.marks[0]) && Kept(c, call.marks)
  }

  /** The times the calls leave, or those of a run that has made none. */
  function LastTimes(begun: Budgets, calls: seq<CallTimes>): Budgets {
    if calls == [] || calls[|calls| - 1].marks == [] then begun
    else calls[|calls| - 1].marks[|calls[|calls| - 1].marks| - 1]
  }

  ghost predicate Linked(c: Config, begun: Budgets, calls: seq<CallTimes>) {
    calls != [] ==>
      && Linked(c, begun, calls[..|calls| - 1])
      && Follows(c, LastTimes(begun, calls[..|calls| - 1]), calls[|calls| - 1])
  }

  /** The calls of a run that began with the times `begun`, and what the next one starts from. */
  ghost predicate InOrder(c: Config, begun: Budgets, calls: seq<CallTimes>, now: nat, carried: int, carriedHard: int,
                          hold: Option<Hold>)
  {
    && Linked(c, begun, calls)
    && (calls == [] ==> begun == Fresh(begun.startedAt, hold))
    && LastTimes(begun, calls).carried == carried && LastTimes(begun, calls).carriedHard == carriedHard
    && Ready(c, LastTimes(begun, calls), begun.startedAt, now, hold)
  }

  lemma OneMoreInOrder(c: Config, begun: Budgets, calls: seq<CallTimes>, call: CallTimes, now: nat, hold: Option<Hold>)
    requires Linked(c, begun, calls) && Follows(c, LastTimes(begun, calls), call)
    requires LastTimes(begun, calls).startedAt == begun.startedAt
    requires hold.Some? ==> hold.value.active <= hold.value.hard && FrozenInv(call.marks[|call.marks| - 1], now, hold)
    ensures var b := call.marks[|call.marks| - 1];
            InOrder(c, begun, calls + [call], now, b.carried, b.carriedHard, hold)
  {
    assert (calls + [call])[..|calls|] == calls;
    assert Later(call.marks[0], call.marks[|call.marks| - 1]);
  }

  /** The last times are no earlier than any before them. */
  lemma {:induction false} LastIsLatest(c: Config, begun: Budgets, calls: seq<CallTimes>, i: nat, m: Budgets)
    requires Linked(c, begun, calls) && i < |calls| && m in calls[i].marks
    ensures Later(m, LastTimes(begun, calls))
  {
    var k := |calls| - 1;
    if i < k {
      LastIsLatest(c, begun, calls[..k], i, m);
      assert Later(calls[k].marks[0], LastTimes(begun, calls));
    }
  }

  /** Every time of an earlier call is no later than any time of a later one. */
  lemma {:induction false} CallsNeverMoveBack(c: Config, begun: Budgets, calls: seq<CallTimes>,
                                              i: nat, j: nat, m: Budgets, n: Budgets)
    requires Linked(c, begun, calls) && i < j < |calls| && m in calls[i].marks && n in calls[j].marks
    ensures Later(m, n)
  {
    var k := |calls| - 1;
    if j < k {
      CallsNeverMoveBack(c, begun, calls[..k], i, j, m, n);
    } else {
      LastIsLatest(c, begun, calls[..k], i, m);
      assert Later(calls[k].marks[0], n);
    }
  }

  /** The times one run of the runtime carries from call to call. */
  class RunBudget {
    const c: Config
    const startedAt: nat
    var now: nat
    var carried: int
    var carriedHard: int
    var hold: Option<Hold>              // in the session file
    ghost const begun: Budgets
    ghost var calls: seq<CallTimes>
    ghost var log: History

    ghost predicate Valid()
      reads this
    {
      begun.startedAt == startedAt && InOrder(c, begun, calls, now, carried, carriedHard, hold)
    }

    constructor (c: Config, startedAt: nat, stored: Option<Hold>)
      requires stored.Some? ==> stored.value.active <= stored.value.hard
      ensures Valid() && this.c == c && this.startedAt == startedAt && calls == [] && begun == Fresh(startedAt, stored)
    {
      this.c, this.startedAt, now, carried, carriedHard, hold := c, startedAt, startedAt, 0, 0, stored;
      begun, calls, log := Fresh(startedAt, stored), [], Start;
    }

    /** One call on daemon `d`; the runtime keeps what it reports as carried. */
    method OneCall(d: nat, script: Script)
      requires Valid()
      modifies this
      ensures Valid() && |calls| == |old(calls)| + 1 && calls[..|old(calls)|] == old(calls)
      ensures calls[|old(calls)|].daemon == d
    {
      now := now + script.pause;
      RunStartStays(c, begun, calls);
      ghost var at, found := now, hold;
      var call;
      ghost var marks;
      call, now, hold, marks :=
        PlayCall(c, startedAt, script, now, carried, carriedHard, hold, LastTimes(begun, calls), log);
      ghost var made := CallTimes(d, at, found, marks);
      OneMoreInOrder(c, begun, calls, made, now, hold);
      carried, carriedHard := call.carried, call.carriedHard;
      calls := calls + [made];
      log := call.log;
    }
  }

  /** A call from its start to its end. */
  method PlayCall(c: Config, startedAt: nat, script: Script, at: nat, carried: int, carriedHard: int,
                  found: Option<Hold>, ghost earlier: Budgets, ghost log: History)
    returns (call: GoalCall, later: nat, kept: Option<Hold>, ghost marks: seq<Budgets>)
    requires earlier.carried == carried && earlier.carriedHard == carriedHard && Ready(c, earlier, startedAt, at, found)
    ensures fresh(call) && later >= at
    ensures kept.Some? ==> kept.value.active <= kept.value.hard && FrozenInv(call.Times(), later, kept)
    ensures forall d :: Follows(c, earlier, CallTimes(d, at, found, marks))
    ensures marks != [] && marks[|marks| - 1] == call.Times()
  {
    call := new GoalCall(c, startedAt, script.thread, at, carried, carriedHard, found, earlier, log);
    later, kept, marks := PlayBeats(call, at, found, script.beats);
  }

  method PlayBeats(call: GoalCall, now: nat, hold: Option<Hold>, beats: seq<Beat>)
    returns (later: nat, kept: Option<Hold>, ghost marks: seq<Budgets>)
    requires call.Valid()
    requires hold.Some? ==> hold.value.active <= hold.value.hard && FrozenInv(call.Times(), now, hold)
    modifies call
    ensures call.Valid() && later >= now
    ensures kept.Some? ==> kept.value.active <= kept.value.hard && FrozenInv(call.Times(), later, kept)
    ensures |marks| == |beats| + 1 && marks[0] == old(call.Times()) && marks[|beats|] == call.Times()
    ensures Kept(call.c, marks)
  {
    later, kept, marks := now, hold, [call.Times()];
    for i := 0 to |beats|
      invariant call.Valid() && later >= now
      invariant kept.Some? ==> kept.value.active <= kept.value.hard && FrozenInv(call.Times(), later, kept)
      invariant |marks| == i + 1 && marks[0] == old(call.Times()) && marks[i] == call.Times()
      invariant Kept(call.c, marks)
    {
      later, kept := PlayBeat(call, later, kept, beats[i]);
      KeptGrows(call.c, marks, call.Times());
      marks := marks + [call.Times()];
    }
  }

  method PlayBeat(call: GoalCall, now: nat, hold: Option<Hold>, beat: Beat) returns (later: nat, kept: Option<Hold>)
    requires call.Valid()
    requires hold.Some? ==> hold.value.active <= hold.value.hard && FrozenInv(call.Times(), now, hold)
    modifies call
    ensures call.Valid() && later >= now
    ensures Later(old(call.Times()), call.Times())
    ensures kept.Some? ==> kept.value.active <= kept.value.hard && FrozenInv(call.Times(), later, kept)
  {
    later, kept := now, hold;
    match beat {
      case Wait(ms) => later := now + ms;
      case ReadBudgetOf(gateOpen) =>
        if hold.None? { var left := call.RemainingBudget(now, gateOpen); }
      case GoalConfirmed => call.Confirm();
      case Update(from, goal) => call.OnGoalUpdate(from, goal);
      case Enter =>
        if hold.None? {
          var h := call.EnterHold(now);
          kept := Some(h);
        }
      case WakeTurn => call.Discard();
      case Activate =>
        if hold.Some? { call.RestoreBudget(now, hold.value); }
      case Leave => kept := None;
    }
  }

  /** The one budget of a run: over any number of restarts, holds and open gates neither deadline
      ever moves back, and a run that never held keeps the budget it began with, however often it
      was restarted: its hard deadline stays at the larger cap, and without an open gate its
      deadline stays at the active cap. */
  method DriveCalls(c: Config, startedAt: nat, stored: Option<Hold>, scripts: seq<Script>) returns (run: RunBudget)
    requires stored.Some? ==> stored.value.active <= stored.value.hard
    ensures run.Valid() && |run.calls| == |scripts|
    ensures NeverMovesBack(run.calls) && NeverStretched(c, startedAt, run.calls)
  {
    run := new RunBudget(c, startedAt, stored);
    for i := 0 to |scripts|
      invariant fresh(run) && run.Valid() && run.c == c && run.startedAt == startedAt && |run.calls| == i
      invariant run.begun == Fresh(startedAt, stored)
    {
      run.OneCall(i, scripts[i]);
    }
    WholeRunKeeps(c, run.begun, run.calls);
  }

  /** Within a call and from any call to a later one, deadlines only move forward. */
  ghost predicate NeverMovesBack(calls: seq<CallTimes>) {
    && (forall i :: 0 <= i < |calls| ==> AllLater(calls[i].marks))
    && (forall i, j, m, n :: 0 <= i < j < |calls| && m in calls[i].marks && n in calls[j].marks ==> Later(m, n))
  }

  ghost predicate NeverStretched(c: Config, startedAt: nat, calls: seq<CallTimes>) {
    forall i, m :: 0 <= i < |calls| && m in calls[i].marks ==> Unstretched(c, startedAt, m)
  }

  lemma WholeRunKeeps(c: Config, begun: Budgets, calls: seq<CallTimes>)
    requires Linked(c, begun, calls)
    ensures NeverMovesBack(calls) && NeverStretched(c, begun.startedAt, calls)
  {
    forall i | 0 <= i < |calls|
      ensures AllLater(calls[i].marks)
    {
      EachIsKept(c, begun, calls, i);
    }
    forall i, j, m, n | 0 <= i < j < |calls| && m in calls[i].marks && n in calls[j].marks
      ensures Later(m, n)
    {
      CallsNeverMoveBack(c, begun, calls, i, j, m, n);
    }
    forall i, m | 0 <= i < |calls| && m in calls[i].marks
      ensures Unstretched(c, begun.startedAt, m)
    {
      CallsAreUnstretched(c, begun, calls, i, m);
    }
  }

  lemma {:induction false} EachIsKept(c: Config, begun: Budgets, calls: seq<CallTimes>, i: nat)
    requires Linked(c, begun, calls) && i < |calls|
    ensures Kept(c, calls[i].marks)
  {
    if i < |calls| - 1 { EachIsKept(c, begun, calls[..|calls| - 1], i); }
  }

  /** Without a hold the deadlines are those the run's own start gives. */
  predicate Unstretched(c: Config, startedAt: nat, b: Budgets) {
    !b.heldThisRun ==>
      && b.hard == startedAt + c.HardCeiling()
      && startedAt + c.activeCap <= b.deadline <= b.hard
      && (!b.gateSeen ==> b.deadline == startedAt + c.activeCap)
  }

  lemma {:induction false} CallsAreUnstretched(c: Config, begun: Budgets, calls: seq<CallTimes>, i: nat, m: Budgets)
    requires Linked(c, begun, calls) && i < |calls| && m in calls[i].marks
    ensures m.startedAt == begun.startedAt && Unstretched(c, begun.startedAt, m)
  {
    var k := |calls| - 1;
    if i < k {
      CallsAreUnstretched(c, begun, calls[..k], i, m);
    } else {
      assert Later(calls[k].marks[0], m);
      RunStartStays(c, begun, calls[..k]);
    }
  }

  lemma {:induction false} RunStartStays(c: Config, begun: Budgets, calls: seq<CallTimes>)
    requires Linked(c, begun, calls)
    ensures LastTimes(begun, calls).startedAt == begun.startedAt
  {
    if calls != [] {
      RunStartStays(c, begun, calls[..|calls| - 1]);
      assert Later(calls[|calls| - 1].marks[0], LastTimes(begun, calls));
    }
  }
}
