/**
 Waits that do not count as work: the self-rescheduling tick of wait-aware-exec.ts and the
 poller's check in TmuxAdapter.ts. Times are whole milliseconds.
 */
module WaitExec {
  import opened Prelude

  datatype Sample = Sample(at: int, waiting: bool)

  predicate Ascending(samples: seq<Sample>) {
    forall i, j :: 0 <= i < j < |samples| ==> samples[i].at <= samples[j].at
  }

  // ---------------------------------------------------------------- meaning of the samples

  /** The time between samples that starts with a waiting (or a working) one. */
  function TimeAfter(samples: seq<Sample>, waiting: bool): int {
    var n := |samples|;
    if n <= 1 then 0
    else TimeAfter(samples[..n - 1], waiting)
         + if samples[n - 2].waiting == waiting then samples[n - 1].at - samples[n - 2].at else 0
  }

  function Waited(samples: seq<Sample>): int {
    TimeAfter(samples, true)
  }

  /** Working time up to the last sample; the time before the first sample is work. */
  function Worked(startedAt: int, samples: seq<Sample>): int
    requires samples != []
  {
    samples[0].at - startedAt + TimeAfter(samples, false)
  }

  /** Where the stretch of waiting samples that the last sample belongs to begins. */
  function PeriodStart(samples: seq<Sample>): int
    requires samples != [] && samples[|samples| - 1].waiting
  {
    var n := |samples|;
    if n > 1 && samples[n - 2].waiting then PeriodStart(samples[..n - 1]) else samples[n - 1].at
  }

  /** How long the current wait has lasted, 0 when not waiting. */
  function Period(samples: seq<Sample>): int
    requires samples != []
  {
    var last := samples[|samples| - 1];
    if last.waiting then last.at - PeriodStart(samples) else 0
  }

  /** Elapsed time is always work plus waiting. */
  lemma {:induction false} ElapsedIsWorkPlusWaits(startedAt: int, samples: seq<Sample>)
    requires samples != []
    ensures Worked(startedAt, samples) + Waited(samples) == samples[|samples| - 1].at - startedAt
  {
    var n := |samples|;
    if n > 1 {
      ElapsedIsWorkPlusWaits(startedAt, samples[..n - 1]);
    }
  }

  // ---------------------------------------------------------------- the two counters

  datatype Waits = Waits(total: int, since: Option<int>)

  /** One sample's update of the two counters. */
  function Observe(w: Waits, x: Sample): Waits {
    if x.waiting && w.since.None? then w.(since := Some(x.at))
    else if !x.waiting && w.since.Some? then Waits(w.total + x.at - w.since.value, None)
    else w
  }

  function After(samples: seq<Sample>): Waits {
    if samples == [] then Waits(0, None)
    else Observe(After(samples[..|samples| - 1]), samples[|samples| - 1])
  }

  /** The counters mean what they are meant to: a wait is open exactly while the last sample
      waits, it began with the current stretch, and the total with the open wait is the time
      attributed to waiting. */
  lemma {:induction false} CountersMeanWaiting(samples: seq<Sample>)
    requires samples != []
    ensures var w, last := After(samples), samples[|samples| - 1];
            && (w.since.Some? <==> last.waiting)
            && (last.waiting ==> w.since.value == PeriodStart(samples))
            && w.total + Period(samples) == Waited(samples)
  {
    var n := |samples|;
    if n == 1 {
      assert samples[..0] == [];
    } else {
      var before := samples[..n - 1];
      CountersMeanWaiting(before);
      assert before[n - 2] == samples[n - 2];
    }
  }

  // ---------------------------------------------------------------- against the real gate

  /** The milliseconds of [a, b) in which the gate is open. */
  function TrueWaiting(gate: int -> bool, a: int, b: int): int
    requires a <= b
    decreases b - a
  {
    if a == b then 0 else TrueWaiting(gate, a, b - 1) + if gate(b - 1) then 1 else 0
  }

  /** How often the gate changes in (a, b]. */
  function Changes(gate: int -> bool, a: int, b: int): nat
    requires a <= b
    decreases b - a
  {
    if a == b then 0 else Changes(gate, a, b - 1) + if gate(b) != gate(b - 1) then 1 else 0
  }

  lemma {:induction false} TrueWaitingSplits(gate: int -> bool, a: int, b: int, c: int)
    requires a <= b <= c
    ensures TrueWaiting(gate, a, c) == TrueWaiting(gate, a, b) + TrueWaiting(gate, b, c)
    ensures Changes(gate, a, c) == Changes(gate, a, b) + Changes(gate, b, c)
    decreases c - b
  {
    if b < c { TrueWaitingSplits(gate, a, b, c - 1); }
  }

  /** Without a change the gate stays as it was; in any case it cannot be open longer than the
      interval. */
  lemma {:induction false} OneInterval(gate: int -> bool, a: int, b: int)
    requires a <= b
    ensures 0 <= TrueWaiting(gate, a, b) <= b - a
    ensures Changes(gate, a, b) == 0 ==> gate(b) == gate(a) && TrueWaiting(gate, a, b) == if gate(a) then b - a else 0
    decreases b - a
  {
    if a < b { OneInterval(gate, a, b - 1); }
  }

  predicate Honest(gate: int -> bool, samples: seq<Sample>) {
    forall i :: 0 <= i < |samples| ==> samples[i].waiting == gate(samples[i].at)
  }

  predicate GapsWithin(samples: seq<Sample>, gap: int) {
    forall i :: 0 < i < |samples| ==> samples[i].at - samples[i - 1].at <= gap
  }

  function Abs(x: int): int {
    if x < 0 then -x else x
  }

  predicate CloseToTruth(gate: int -> bool, samples: seq<Sample>, gap: int)
    requires samples != [] && Ascending(samples)
  {
    var a, b := samples[0].at, samples[|samples| - 1].at;
    Abs(Waited(samples) - TrueWaiting(gate, a, b)) <= gap * Changes(gate, a, b)
  }

  /** Counted waiting differs from true waiting by at most one gap between samples for each
      change of the gate. */
  lemma {:induction false} CountedWaitingIsClose(gate: int -> bool, samples: seq<Sample>, gap: nat)
    requires samples != [] && Ascending(samples) && Honest(gate, samples) && GapsWithin(samples, gap)
    ensures CloseToTruth(gate, samples, gap)
  {
    var n := |samples|;
    if n > 1 {
      var before := samples[..n - 1];
      CountedWaitingIsClose(gate, before, gap);
      var a, b, c := samples[0].at, samples[n - 2].at, samples[n - 1].at;
      assert before[n - 2] == samples[n - 2];
      TrueWaitingSplits(gate, a, b, c);
      OneInterval(gate, b, c);
      Distribute(gap, Changes(gate, a, b), Changes(gate, b, c));
    }
  }

  lemma Distribute(gap: nat, x: nat, y: nat)
    ensures gap * (x + y) == gap * x + gap * y
    ensures y > 0 ==> gap * y >= gap
    ensures gap * y >= 0
  {
    if y > 0 { assert gap * y == gap * (y - 1) + gap && gap * (y - 1) >= 0; }
  }

  // ---------------------------------------------------------------- the tick loop

  datatype Reason = Active | Waiting | Outer

  datatype Outcome = Succeeded | Failed | TimedOut(reason: Reason)

  const MAX_TIMER_MS := 2_147_483_647

  datatype Limits = Limits(active: int, waiting: int, retry: int, outer: int)

  predicate Positive(l: Limits) {
    l.active > 0 && l.waiting > 0 && l.retry > 0 && l.outer > 0
  }

  /** The limits of a call; none when one of them is refused. */
  function LimitsOf(active: int, waiting: int, retry: int, outer: Option<int>): (l: Option<Limits>)
    ensures l.Some? <==> active > 0 && waiting > 0 && retry > 0 && (outer.Some? ==> outer.value > 0)
    ensures l.Some? ==> Positive(l.value)
    ensures l.Some? && outer.None? && 7 * waiting <= MAX_TIMER_MS && active <= MAX_TIMER_MS ==>
              l.value.outer >= active && l.value.outer >= 7 * waiting
  {
    if active <= 0 || waiting <= 0 || retry <= 0 || (outer.Some? && outer.value <= 0) then None
    else Some(Limits(active, waiting, retry,
                     if outer.Some? then outer.value else Min(MAX_TIMER_MS, Max(active, waiting * 7))))
  }

  /** What a tick decides from all samples: a timeout, or the next delay. */
  datatype Decision = Stop(reason: Reason) | Again(delay: int)

  function Decide(l: Limits, startedAt: int, samples: seq<Sample>): (d: Decision)
    requires samples != []
    ensures Positive(l) && samples[|samples| - 1].at - startedAt < l.outer && d.Again? ==> 0 < d.delay <= l.retry
  {
    var last := samples[|samples| - 1];
    var left := l.outer - (last.at - startedAt);
    if last.waiting then
      if Period(samples) >= l.waiting then Stop(Waiting)
      else Again(Min(Min(l.retry, l.waiting - Period(samples)), left))
    else if Worked(startedAt, samples) >= l.active then Stop(Active)
    else Again(Min(Min(l.retry, l.active - Worked(startedAt, samples)), left))
  }

  /** The run has kept its limits at a tick, but for the lateness of ticks. */
  predicate WithinLimits(l: Limits, startedAt: int, samples: seq<Sample>, late: int)
    requires samples != []
  {
    && Worked(startedAt, samples) <= l.active + late
    && Period(samples) <= l.waiting + late
    && samples[|samples| - 1].at - startedAt < l.outer
  }

  /** A tick no later than `late` after it is due keeps the limits. */
  lemma NextTickWithinLimits(l: Limits, startedAt: int, samples: seq<Sample>, late: int, x: Sample)
    requires Positive(l) && samples != [] && WithinLimits(l, startedAt, samples, late)
    requires Decide(l, startedAt, samples).Again?
    requires samples[|samples| - 1].at <= x.at <= samples[|samples| - 1].at + Decide(l, startedAt, samples).delay + late
    requires x.at - startedAt < l.outer && late >= 0
    ensures WithinLimits(l, startedAt, samples + [x], late)
  {
    var all := samples + [x];
    assert all[..|samples|] == samples;
  }

  /** The samples are honest and close enough, and no limit was passed at any of them. */
  predicate KeptSoFar(l: Limits, startedAt: int, gate: int -> bool, samples: seq<Sample>, late: int) {
    && Honest(gate, samples) && GapsWithin(samples, l.retry + late)
    && forall n :: 0 < n <= |samples| ==> WithinLimits(l, startedAt, samples[..n], late)
  }

  class WaitAwareExec {
    const limits: Limits
    const startedAt: int
    var totalWaitingMs: int
    var waitingSince: Option<int>
    var timer: Option<int>            // the delay of the tick that is scheduled
    var settled: bool
    var outcome: Option<Outcome>
    ghost var samples: seq<Sample>
    ghost var settlements: nat

    ghost predicate Counting()
      reads this
    {
      && Positive(limits)
      && Waits(totalWaitingMs, waitingSince) == After(samples)
      && settlements == (if settled then 1 else 0) && (outcome.Some? <==> settled)
      && (settled ==> timer.None?)
      && Ascending(samples) && (samples != [] ==> startedAt <= samples[0].at)
    }

    /** Unless the call is settled, the next tick is scheduled as the samples so far demand. */
    ghost predicate Valid()
      reads this
    {
      && Counting()
      && (!settled && samples != [] ==>
            && samples[|samples| - 1].at - startedAt < limits.outer
            && Decide(limits, startedAt, samples) == Again(if timer.Some? then timer.value else 0))
    }

    constructor (limits: Limits, now: int)
      requires Positive(limits)
      ensures Valid() && this.limits == limits && startedAt == now && samples == [] && !settled
    {
      this.limits, startedAt := limits, now;
      totalWaitingMs, waitingSince, timer, settled, outcome := 0, None, None, false, None;
      samples, settlements := [], 0;
    }

    /** settleSuccess, settleError and timeout: only the first of them has an effect. */
    method Settle(o: Outcome)
      requires Counting()
      modifies this`settled, this`timer, this`outcome, this`settlements
      ensures Valid() && settled
      ensures outcome == if old(settled) then old(outcome) else Some(o)
    {
      if settled { return; }
      settled := true;
      timer := None;
      outcome := Some(o);
      settlements := settlements + 1;
    }

    method ActiveElapsed(at: int) returns (active: int)
      requires Counting() && samples != [] && at == samples[|samples| - 1].at
      ensures active == Worked(startedAt, samples)
    {
      CountersMeanWaiting(samples);
      ElapsedIsWorkPlusWaits(startedAt, samples);
      var currentWait := if waitingSince.None? then 0 else at - waitingSince.value;
      active := at - startedAt - totalWaitingMs - currentWait;
    }

    /** The two counters take one sample. */
    method Sampled(at: int, waiting: bool)
      requires Counting() && startedAt <= at && (samples != [] ==> samples[|samples| - 1].at <= at)
      modifies this`totalWaitingMs, this`waitingSince, this`samples
      ensures Counting() && samples == old(samples) + [Sample(at, waiting)]
    {
      if waiting && waitingSince.None? {
        waitingSince := Some(at);
      } else if !waiting && waitingSince.Some? {
        totalWaitingMs := totalWaitingMs + at - waitingSince.value;
        waitingSince := None;
      }
      assert (samples + [Sample(at, waiting)])[..|samples|] == samples;
      samples := samples + [Sample(at, waiting)];
    }

    /** The call was settled or rescheduled as the samples demand. */
    ghost predicate Decided()
      reads this
      requires samples != []
    {
      match Decide(limits, startedAt, samples)
      case Stop(reason) => settled && outcome == Some(TimedOut(reason))
      case Again(delay) => !settled && timer == Some(delay)
    }

    /** The half of a tick that finds the call waiting. */
    method JudgeWait(at: int)
      requires Counting() && !settled && samples != [] && at == samples[|samples| - 1].at
      requires at - startedAt < limits.outer && waitingSince.Some?
      modifies this`settled, this`timer, this`outcome, this`settlements
      ensures Valid() && Decided() && settlements >= old(settlements)
    {
      CountersMeanWaiting(samples);
      var waitElapsed := at - waitingSince.value;
      if waitElapsed >= limits.waiting {
        Settle(TimedOut(Waiting));
      } else {
        timer := Some(Min(Min(limits.retry, limits.waiting - waitElapsed), limits.outer - (at - startedAt)));
      }
    }

    /** The half of a tick that finds it working. */
    method JudgeWork(at: int)
      requires Counting() && !settled && samples != [] && at == samples[|samples| - 1].at
      requires at - startedAt < limits.outer && waitingSince.None?
      modifies this`settled, this`timer, this`outcome, this`settlements
      ensures Valid() && Decided() && settlements >= old(settlements)
    {
      CountersMeanWaiting(samples);
      var active := ActiveElapsed(at);
      if active >= limits.active {
        Settle(TimedOut(Active));
      } else {
        timer := Some(Min(Min(limits.retry, limits.active - active), limits.outer - (at - startedAt)));
      }
    }

    /** tick: `waiting` is what the probe answers, false when it throws. */
    method Tick(at: int, waiting: bool)
      requires Valid() && startedAt <= at && (samples != [] ==> samples[|samples| - 1].at <= at)
      modifies this
      ensures Valid() && settlements >= old(settlements)
      ensures old(settled) ==> settled && outcome == old(outcome) && samples == old(samples)
      ensures !old(settled) && at - startedAt >= limits.outer ==>
                settled && outcome == Some(TimedOut(Outer)) && samples == old(samples)
      ensures !old(settled) && at - startedAt < limits.outer ==>
                samples == old(samples) + [Sample(at, waiting)] && Decided()
    {
      if settled { return; }
      var outerElapsed := at - startedAt;
      if outerElapsed >= limits.outer {
        Settle(TimedOut(Outer));
        return;
      }
      Sampled(at, waiting);
      if waitingSince.Some? {
        JudgeWait(at);
      } else {
        JudgeWork(at);
      }
    }

    /** The run so far kept what it promises. */
    ghost predicate OnTrack(gate: int -> bool, late: nat)
      reads this`samples
    {
      KeptSoFar(limits, startedAt, gate, samples, late)
    }

    /** The whole call. Every tick comes when it is due or at most `late` after it, the child may
        finish at any time up to the next tick, and may still call back after it was killed, and
        the probe answers what the gate is. The call settles exactly once, at `end`, within the
        outer limit but for lateness, and no limit was passed at any tick but for lateness. */
    method Run(gate: int -> bool, late: nat) returns (end: int)
      requires Valid() && samples == [] && !settled
      modifies this
      ensures Valid() && settled && settlements == 1 && OnTrack(gate, late)
      ensures startedAt <= end <= startedAt + limits.outer + late
      ensures outcome == Some(TimedOut(Outer)) ==> end >= startedAt + limits.outer
      ensures samples != [] ==> CloseToTruth(gate, samples, limits.retry + late)
    {
      end := UntilSettled(gate, late);
      if * { Finish(); }              // the callback of a child that was killed
      if samples != [] { CountedWaitingIsClose(gate, samples, limits.retry + late); }
    }

    method UntilSettled(gate: int -> bool, late: nat) returns (end: int)
      requires Valid() && samples == [] && !settled
      modifies this
      ensures Valid() && settled && Timed(gate, late, end)
    {
      end := Begin(gate, late);
      while !settled
        invariant Valid() && Timed(gate, late, end)
        decreases if settled then 0 else 1, startedAt + limits.outer - end
      {
        end := Proceed(gate, late, end);
      }
    }

    /** What holds at every tick of the call, and at its end. */
    ghost predicate Timed(gate: int -> bool, late: nat, at: int)
      reads this
    {
      && OnTrack(gate, late) && startedAt <= at <= startedAt + limits.outer + late
      && (!settled ==> samples != [] && samples[|samples| - 1].at == at)
      && (outcome == Some(TimedOut(Outer)) ==> at >= startedAt + limits.outer)
    }

    /** Start the child, which may finish before the first tick. */
    method Begin(gate: int -> bool, late: nat) returns (at: int)
      requires Valid() && samples == [] && !settled
      modifies this
      ensures Valid() && Timed(gate, late, at)
    {
      var lateness :| 0 <= lateness <= late;
      at := startedAt + lateness;
      if * {
        Finish();                     // execFile threw, or called back at once
      } else {
        FirstTick(gate, late, at);
      }
    }

    /** Wait for the next tick, or for the child if it finishes before. */
    method Proceed(gate: int -> bool, late: nat, now: int) returns (at: int)
      requires Valid() && !settled && Timed(gate, late, now)
      modifies this
      ensures Valid() && Timed(gate, late, at) && now <= at && (!settled ==> now < at)
    {
      var lateness :| 0 <= lateness <= late;
      var due := now + timer.value + lateness;
      if * {
        at :| now <= at <= due;
        Finish();
      } else {
        at := due;
        NextTick(gate, late, at);
      }
    }

    /** The child's callback. */
    method Finish()
      requires Valid()
      modifies this`settled, this`timer, this`outcome, this`settlements
      ensures Valid() && settled
      ensures if old(settled) then outcome == old(outcome) && settlements == old(settlements)
              else outcome == Some(Succeeded) || outcome == Some(Failed)
    {
      var ok: bool := *;
      Settle(if ok then Succeeded else Failed);
    }

    method FirstTick(gate: int -> bool, late: nat, at: int)
      requires Valid() && samples == [] && !settled && startedAt <= at <= startedAt + late
      modifies this
      ensures Valid() && OnTrack(gate, late)
      ensures !settled ==> samples != [] && samples[|samples| - 1].at == at
      ensures outcome == Some(TimedOut(Outer)) ==> at >= startedAt + limits.outer
    {
      Tick(at, gate(at));
      assert forall n :: 0 < n <= |samples| ==> samples[..n] == samples;
    }

    method NextTick(gate: int -> bool, late: nat, at: int)
      requires Valid() && !settled && samples != [] && OnTrack(gate, late) && timer.Some?
      requires var last := samples[|samples| - 1].at; last + timer.value <= at <= last + timer.value + late
      modifies this
      ensures Valid() && OnTrack(gate, late)
      ensures !settled ==> samples != [] && samples[|samples| - 1].at == at
      ensures outcome == Some(TimedOut(Outer)) ==> at >= startedAt + limits.outer
      ensures at <= startedAt + limits.outer + late
    {
      if at - startedAt < limits.outer {
        TrackGrows(limits, startedAt, gate, samples, late, Sample(at, gate(at)));
      }
      Tick(at, gate(at));
    }
  }

  lemma TrackGrows(l: Limits, startedAt: int, gate: int -> bool, samples: seq<Sample>, late: nat, x: Sample)
    requires Positive(l) && samples != [] && Decide(l, startedAt, samples).Again?
    requires KeptSoFar(l, startedAt, gate, samples, late) && x.waiting == gate(x.at)
    requires samples[|samples| - 1].at <= x.at <= samples[|samples| - 1].at + Decide(l, startedAt, samples).delay + late
    requires x.at - startedAt < l.outer
    ensures KeptSoFar(l, startedAt, gate, samples + [x], late)
  {
    var all := samples + [x];
    assert samples[..|samples|] == samples;
    NextTickWithinLimits(l, startedAt, samples, late, x);
    assert samples[|samples| - 1].at - startedAt < l.outer by {
      assert WithinLimits(l, startedAt, samples[..|samples|], late);
    }
    forall n | 0 < n <= |samples| + 1
      ensures WithinLimits(l, startedAt, all[..n], late)
    {
      if n <= |samples| {
        assert all[..n] == samples[..n];
      } else {
        assert all[..n] == all;
      }
    }
  }

  // ---------------------------------------------------------------- the poller's check

  /** The same bookkeeping in the poller, whose limits are compared strictly. */
  class DynamicTimeout {
    const start: int
    const normalTimeoutMs: int
    const hardCap: int
    var totalWaitingMs: int
    var lastWaitStart: Option<int>
    ghost var samples: seq<Sample>

    ghost predicate Valid()
      reads this
    {
      && Waits(totalWaitingMs, lastWaitStart) == After(samples)
    }

    constructor (start: int, normalTimeoutMs: int, hardCap: int)
      ensures Valid() && samples == []
      ensures this.start == start && this.normalTimeoutMs == normalTimeoutMs && this.hardCap == hardCap
    {
      this.start, this.normalTimeoutMs, this.hardCap := start, normalTimeoutMs, hardCap;
      totalWaitingMs, lastWaitStart, samples := 0, None, [];
    }

    /** checkDynamicTimeout; `isWaiting` is false when the query fails. */
    method Check(now: int, isWaiting: bool) returns (shouldTimeout: bool)
      requires Valid()
      modifies this`totalWaitingMs, this`lastWaitStart, this`samples
      ensures Valid() && samples == old(samples) + [Sample(now, isWaiting)]
      ensures shouldTimeout <==>
                if isWaiting then Period(samples) > hardCap else Worked(start, samples) > normalTimeoutMs
    {
      assert (samples + [Sample(now, isWaiting)])[..|samples|] == samples;
      samples := samples + [Sample(now, isWaiting)];
      if isWaiting && lastWaitStart.None? {
        lastWaitStart := Some(now);
      } else if !isWaiting && lastWaitStart.Some? {
        totalWaitingMs := totalWaitingMs + now - lastWaitStart.value;
        lastWaitStart := None;
      }
      CountersMeanWaiting(samples);
      ElapsedIsWorkPlusWaits(start, samples);
      var elapsed := now - start;
      if isWaiting { return now - lastWaitStart.value > hardCap; }
      shouldTimeout := elapsed - totalWaitingMs > normalTimeoutMs;
    }
  }
}
