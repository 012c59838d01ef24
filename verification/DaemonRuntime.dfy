/**
 The runtime that drives one goal across daemon deaths (codex-daemon-goal-runtime.ts). Every
 await is a call of `Await`, where stop() may be called and its teardown may go on. All that the
 outside decides, also where a stop() falls, is read from a tape of answers, and every method is
 proved for every tape. The runtime keeps a record of what happened; what the record can look
 like is stated first, and every method is proved to add only entries that are allowed there. Each
 goal call of a run is a call of the run's one budget.
 */
module DaemonRuntime {
  import opened Prelude
  import GoalCalls
  import GoalRun

  type Daemon = nat

  datatype Error = TransportDeath | DrainFailed | OtherError

  datatype Event =
    | RunBegan(cursor: nat, resumed: bool)   // resumed: on a daemon an earlier run left alive
    | SpawnCalled(account: nat)
    | Spawned(d: Daemon)
    | SpawnFailed
    | Confirmed(d: Daemon)          // the daemon exited and its socket has no listener
    | CallBegan(d: Daemon)          // the run drives its goal on this daemon
    | SigKilled(d: Daemon)
    | GaveUp(d: Daemon, exited: bool)          // a run could not confirm its daemon dead
    | TeardownFailed(d: Daemon, exited: bool)  // nor could the teardown of stop()
    | Died                          // the run saw its transport die and goes on
    | StopCalled
    | Returned
    | Rejected(e: Error)
    | DrainedResolved

  datatype History = Start | Then(before: History, last: Event)

  /** What a history amounts to. `live` holds the daemons that were spawned and are not confirmed
      dead, `givenUp` those a run has given up on; the rest is about the latest run: `lostBefore`
      is what earlier runs had given up on, `calls` the daemons its goal was driven on, and
      daemons from `unserved` on are its own and had no goal call yet. */
  datatype Ledger = Ledger(
    spawnedSoFar: nat, live: set<Daemon>, givenUp: set<Daemon>, killed: set<Daemon>, stopped: bool,
    inRun: bool, cursor: nat, resumed: bool, attempts: nat, deaths: nat, spawning: bool, lost: bool,
    lostBefore: set<Daemon>, calls: seq<Daemon>, unserved: nat)

  const EMPTY := Ledger(0, {}, {}, {}, false, false, 0, false, 0, 0, false, false, {}, [], 0)

  function After(l: Ledger, e: Event): Ledger {
    match e
    case RunBegan(cursor, resumed) =>
      l.(inRun := true, cursor := cursor, resumed := resumed, attempts := 0, deaths := 0, spawning := false,
         lost := false, lostBefore := l.givenUp, calls := [],
         unserved := if resumed && l.spawnedSoFar > 0 then l.spawnedSoFar - 1 else l.spawnedSoFar)
    case SpawnCalled(_) => l.(attempts := l.attempts + 1, spawning := true)
    case Spawned(d) => l.(spawnedSoFar := d + 1, live := l.live + {d}, spawning := false)
    case SpawnFailed => l.(spawning := false)
    case Confirmed(d) => l.(live := l.live - {d})
    case CallBegan(d) => l.(calls := l.calls + [d], unserved := d + 1)
    case SigKilled(d) => l.(killed := l.killed + {d})
    case GaveUp(d, _) => l.(givenUp := l.givenUp + {d}, lost := true)
    case TeardownFailed(_, _) => l
    case Died => l.(deaths := l.deaths + 1)
    case StopCalled => l.(stopped := true)
    case Returned => l.(inRun := false)
    case Rejected(_) => l.(inRun := false)
    case DrainedResolved => l
  }

  function Book(h: History): Ledger {
    match h
    case Start => EMPTY
    case Then(before, last) => After(Book(before), last)
  }

  /** The daemons the latest run has used or tried to. */
  function Used(l: Ledger): nat {
    l.attempts + if l.resumed then 1 else 0
  }

  /** When an entry may follow: a daemon is only spawned by a run that was not stopped, after
      one transport death for each daemon it used, on the next account in turn, and when every
      earlier daemon was confirmed dead or given up by an earlier run. The goal is driven once on
      each daemon, the newest one, while no other is left. A daemon whose exit was not seen is
      only given up after SIGKILL. */
  predicate Allowed(l: Ledger, e: Event, accounts: nat, maxRestarts: nat)
    requires accounts > 0
  {
    match e
    case RunBegan(_, resumed) => !l.inRun && !l.stopped && (resumed <==> l.live != l.givenUp)
    case SpawnCalled(account) =>
      && l.inRun && !l.stopped && !l.spawning && !l.lost && l.live == l.givenUp
      && Used(l) <= l.deaths <= maxRestarts
      && account == (l.cursor + l.attempts) % accounts
    case Spawned(d) => l.inRun && l.spawning && l.live == l.givenUp && d == l.spawnedSoFar
    case SpawnFailed => l.inRun && l.spawning
    case Confirmed(d) => d in l.live && d !in l.givenUp
    case CallBegan(d) =>
      && l.inRun && !l.lost && !l.spawning
      && l.unserved <= d && d + 1 == l.spawnedSoFar && l.live <= l.givenUp + {d}
    case SigKilled(d) => d in l.live && d !in l.givenUp
    case GaveUp(d, exited) =>
      l.inRun && !l.lost && !l.spawning && d in l.live && d !in l.givenUp && (!exited ==> d in l.killed)
    case TeardownFailed(d, exited) => l.stopped && d in l.live && d !in l.givenUp && (!exited ==> d in l.killed)
    case Died => l.inRun && !l.stopped && !l.lost && l.deaths < maxRestarts
    case StopCalled => !l.stopped
    case Returned => l.inRun && !l.lost && !l.spawning
    case Rejected(e) => l.inRun && !l.spawning && (e.DrainFailed? <==> l.lost)
    case DrainedResolved => l.stopped && !l.inRun && l.live == l.givenUp
  }

  predicate AllAllowed(h: History, accounts: nat, maxRestarts: nat)
    requires accounts > 0
  {
    match h
    case Start => true
    case Then(before, last) =>
      AllAllowed(before, accounts, maxRestarts) && Allowed(Book(before), last, accounts, maxRestarts)
  }

  // ---------------------------------------------------------------- what allowed histories show

  predicate Has(h: History, e: Event) {
    h.Then? && (h.last == e || Has(h.before, e))
  }

  ghost predicate Prefix(a: History, b: History) {
    a == b || (b.Then? && Prefix(a, b.before))
  }

  /** At most one daemon is ever neither confirmed dead nor given up, whatever came before. */
  lemma {:induction false} AtMostOneUnconfirmed(h: History, accounts: nat, maxRestarts: nat)
    requires accounts > 0 && AllAllowed(h, accounts, maxRestarts)
    ensures var l := Book(h);
            && l.givenUp <= l.live
            && (exists d :: l.live - l.givenUp <= {d})
            && (forall x :: x in l.live ==> x < l.spawnedSoFar)
            && (l.spawning ==> l.inRun)
  {
    match h {
      case Start => assert EMPTY.live - EMPTY.givenUp <= {0};
      case Then(before, last) =>
        AtMostOneUnconfirmed(before, accounts, maxRestarts);
        var m, l := Book(before), Book(h);
        var d :| m.live - m.givenUp <= {d};
        match last {
          case Spawned(x) => assert l.live - l.givenUp <= {x};
          case _ => assert l.live - l.givenUp <= {d};
        }
    }
  }

  /** Within one run at most one daemon is not confirmed dead, the one a failed drain gave up
      included: only what earlier runs gave up on can be alive beside it. */
  lemma {:induction false} OneDaemonPerRun(h: History, accounts: nat, maxRestarts: nat)
    requires accounts > 0 && AllAllowed(h, accounts, maxRestarts)
    ensures exists d :: Book(h).live - Book(h).lostBefore <= {d}
    ensures var l := Book(h);
            && l.lostBefore <= l.givenUp
            && (l.inRun && !l.lost ==> l.givenUp == l.lostBefore)
            && (l.spawning ==> l.inRun && !l.lost)
  {
    match h {
      case Start => assert EMPTY.live - EMPTY.lostBefore <= {0};
      case Then(before, last) =>
        OneDaemonPerRun(before, accounts, maxRestarts);
        AtMostOneUnconfirmed(before, accounts, maxRestarts);
        var m, l := Book(before), Book(h);
        match last {
          case Spawned(x) => assert l.live - l.lostBefore <= {x};
          case RunBegan(_, _) =>
            var d :| m.live - m.givenUp <= {d};
            assert l.live - l.lostBefore <= {d};
          case _ =>
            var d :| m.live - m.lostBefore <= {d};
            assert l.live - l.lostBefore <= {d};
        }
    }
  }

  /** No run and no teardown gives up on a daemon it has not seen exit before sending SIGKILL. */
  lemma {:induction false} GivenUpOnlyAfterSigkill(h: History, d: Daemon, accounts: nat, maxRestarts: nat)
    requires accounts > 0 && AllAllowed(h, accounts, maxRestarts)
    ensures d in Book(h).killed <==> Has(h, SigKilled(d))
    ensures Has(h, GaveUp(d, false)) || Has(h, TeardownFailed(d, false)) ==> Has(h, SigKilled(d))
  {
    if h.Then? {
      GivenUpOnlyAfterSigkill(h.before, d, accounts, maxRestarts);
      assert Allowed(Book(h.before), h.last, accounts, maxRestarts);
      assert d in Book(h).killed <==> d in Book(h.before).killed || h.last == SigKilled(d);
    }
  }

  /** A run uses at most one daemon more than it saw transports die, so it spawns at most
      maxRestarts + 1 times. */
  lemma {:induction false} SpawnsAreBounded(h: History, accounts: nat, maxRestarts: nat)
    requires accounts > 0 && AllAllowed(h, accounts, maxRestarts)
    ensures Book(h).attempts <= Used(Book(h)) <= Book(h).deaths + 1 <= maxRestarts + 1
  {
    if h.Then? {
      SpawnsAreBounded(h.before, accounts, maxRestarts);
      BoundStep(Book(h.before), h.last, accounts, maxRestarts);
    }
  }

  predicate Bounded(l: Ledger, maxRestarts: nat) {
    l.attempts <= Used(l) <= l.deaths + 1 <= maxRestarts + 1
  }

  lemma BoundStep(l: Ledger, e: Event, accounts: nat, maxRestarts: nat)
    requires accounts > 0 && Bounded(l, maxRestarts) && Allowed(l, e, accounts, maxRestarts)
    ensures Bounded(After(l, e), maxRestarts)
  {
  }

  /** The goal is driven on each daemon of a run at most once, in the order they are spawned, so
      there are at most maxRestarts + 1 goal calls. */
  lemma {:induction false} OneCallPerDaemon(h: History, accounts: nat, maxRestarts: nat)
    requires accounts > 0 && AllAllowed(h, accounts, maxRestarts)
    ensures Ascending(Book(h).calls) && |Book(h).calls| <= Used(Book(h)) <= maxRestarts + 1
    ensures Served(Book(h))
  {
    if h.Then? {
      OneCallPerDaemon(h.before, accounts, maxRestarts);
      AtMostOneUnconfirmed(h.before, accounts, maxRestarts);
      CallStep(Book(h.before), h.last, accounts, maxRestarts);
    }
    SpawnsAreBounded(h, accounts, maxRestarts);
  }

  predicate Ascending(ds: seq<Daemon>) {
    forall i, j :: 0 <= i < j < |ds| ==> ds[i] < ds[j]
  }

  predicate Served(l: Ledger) {
    && Ascending(l.calls) && (forall i :: 0 <= i < |l.calls| ==> l.calls[i] < l.unserved)
    && l.unserved <= l.spawnedSoFar
    && |l.calls| + l.spawnedSoFar - l.unserved + (if l.spawning then 1 else 0) <= Used(l)
  }

  lemma CallStep(l: Ledger, e: Event, accounts: nat, maxRestarts: nat)
    requires accounts > 0 && Served(l) && Allowed(l, e, accounts, maxRestarts)
    ensures Served(After(l, e))
  {
  }

  /** The accounts of the spawn calls since the latest run began. */
  function RunAccounts(h: History): seq<nat> {
    match h
    case Start => []
    case Then(before, RunBegan(_, _)) => []
    case Then(before, SpawnCalled(account)) => RunAccounts(before) + [account]
    case Then(before, _) => RunAccounts(before)
  }

  /** The i-th spawn of a run uses the i-th account from where the cursor stood, cyclically. */
  lemma {:induction false} AccountsRotate(h: History, accounts: nat, maxRestarts: nat)
    requires accounts > 0 && AllAllowed(h, accounts, maxRestarts)
    ensures |RunAccounts(h)| == Book(h).attempts
    ensures forall i :: 0 <= i < |RunAccounts(h)| ==> RunAccounts(h)[i] == (Book(h).cursor + i) % accounts
  {
    if h.Then? {
      AccountsRotate(h.before, accounts, maxRestarts);
      match h.last {
        case RunBegan(_, _) => assert RunAccounts(h) == [];
        case SpawnCalled(account) => assert RunAccounts(h) == RunAccounts(h.before) + [account];
        case _ => assert RunAccounts(h) == RunAccounts(h.before);
      }
    }
  }

  /** Daemons are given up exactly by runs that are rejected for it. */
  lemma {:induction false} GivenUpExactlyWhenRejected(h: History, accounts: nat, maxRestarts: nat)
    requires accounts > 0 && AllAllowed(h, accounts, maxRestarts)
    ensures Book(h).givenUp != {} <==> Has(h, Rejected(DrainFailed)) || (Book(h).inRun && Book(h).lost)
  {
    if h.Then? {
      GivenUpExactlyWhenRejected(h.before, accounts, maxRestarts);
      match h.last {
        case GaveUp(d, _) => assert d in Book(h).givenUp;
        case _ =>
      }
    }
  }

  /** When drained() resolves after stop(), the daemons that are not confirmed dead are exactly
      the given-up ones: there is none exactly when no run was rejected because its own drain
      failed. In particular there is none after a run that returned. */
  lemma DrainedLeavesNoDaemonExactlyWhen(h: History, accounts: nat, maxRestarts: nat)
    requires accounts > 0 && AllAllowed(h, accounts, maxRestarts)
    requires h.Then? && h.last.DrainedResolved?
    ensures Book(h).live == {} <==> !Has(h, Rejected(DrainFailed))
  {
    GivenUpExactlyWhenRejected(h, accounts, maxRestarts);
  }

  /** What a first run records whose only daemon outlives SIGKILL. */
  function LostRun(): History {
    Then(Then(Then(Then(Then(Then(Start, RunBegan(0, false)), SpawnCalled(0)), Spawned(0)), SigKilled(0)),
      GaveUp(0, false)), Rejected(DrainFailed))
  }

  lemma LostRunLeavesItsDaemon()
    ensures Book(LostRun()).live == Book(LostRun()).givenUp == {0} && Has(LostRun(), Rejected(DrainFailed))
  {
    var spawned := Then(Then(Then(Start, RunBegan(0, false)), SpawnCalled(0)), Spawned(0));
    assert Book(spawned).live == {0} && Book(spawned).givenUp == {} by {
      assert After(EMPTY, RunBegan(0, false)).live == {};
    }
    var gaveUp := Then(Then(spawned, SigKilled(0)), GaveUp(0, false));
    assert Book(gaveUp).live == {0} && Book(gaveUp).givenUp == {0};
    assert LostRun() == Then(gaveUp, Rejected(DrainFailed));
  }

  /** After stop() nothing is spawned any more, except a daemon already being spawned. */
  lemma {:induction false} NothingSpawnsAfterStop(h: History, later: History, accounts: nat, maxRestarts: nat)
    requires accounts > 0 && AllAllowed(later, accounts, maxRestarts)
    requires Prefix(h, later) && Book(h).stopped
    ensures Book(later).stopped
    ensures Book(later).spawnedSoFar <= Book(h).spawnedSoFar + if Book(h).spawning then 1 else 0
    ensures Book(later).spawning ==> Book(h).spawning && Book(later).spawnedSoFar == Book(h).spawnedSoFar
  {
    if h != later {
      NothingSpawnsAfterStop(h, later.before, accounts, maxRestarts);
    }
  }

  // ---------------------------------------------------------------- the runtime

  datatype Teardown = Settled | Draining(d: Daemon)

  datatype Outcome = Success(restarts: nat) | Failure(e: Error) | AlreadyStopped | AlreadyRunning

  /** The runtime's variables. `inHand` is the daemon in a local variable of the run, `stuck` the
      one the teardown of stop() could not confirm dead. */
  datatype Vars = Vars(
    session: Option<Daemon>, stopped: bool, running: bool, inflight: bool, cursor: nat, teardown: Teardown,
    daemons: nat, inHand: Option<Daemon>, stuck: Option<Daemon>)

  function Held(d: Option<Daemon>): set<Daemon> {
    if d.Some? then {d.value} else {}
  }

  /** Who is answerable for the one daemon that is not confirmed dead nor given up. */
  predicate OneHolder(v: Vars) {
    && (v.session.Some? ==> v.inHand.None? && v.teardown.Settled? && v.stuck.None?)
    && (v.inHand.Some? ==> v.teardown.Settled? && v.stuck.None?)
    && (v.teardown.Draining? ==> v.stuck.None?)
  }

  function Current(v: Vars): Option<Daemon> {
    if v.session.Some? then v.session
    else if v.inHand.Some? then v.inHand
    else if v.teardown.Draining? then Some(v.teardown.d)
    else v.stuck
  }

  /** The variables say what the record says. */
  ghost predicate InStep(v: Vars, l: Ledger) {
    && OneHolder(v) && l.live == l.givenUp + Held(Current(v)) && l.givenUp !! Held(Current(v))
    && (Current(v).Some? ==> Current(v).value + 1 == v.daemons)
    && (forall x :: x in l.live ==> x < v.daemons) && l.spawnedSoFar == v.daemons && l.unserved <= v.daemons
    && l.stopped == v.stopped && l.inRun == v.inflight
    && (v.stopped ==> v.session.None?) && (v.teardown.Draining? || v.stuck.Some? ==> v.stopped)
    && (v.inHand.Some? ==> v.running) && (v.running ==> v.inflight) && (v.inflight && !v.running ==> v.stopped)
    && (v.inflight ==> v.cursor == l.cursor + l.attempts)
  }

  // ---------------------------------------------------------------- what each change keeps

  lemma StopKeeps(v: Vars, l: Ledger, accounts: nat, maxRestarts: nat)
    requires accounts > 0 && InStep(v, l) && !v.stopped
    ensures Allowed(l, StopCalled, accounts, maxRestarts)
    ensures InStep(v.(stopped := true, session := None,
                      teardown := if v.session.Some? then Draining(v.session.value) else v.teardown),
              After(l, StopCalled))
  {
  }

  lemma SigkillKeeps(v: Vars, l: Ledger, d: Daemon, accounts: nat, maxRestarts: nat)
    requires accounts > 0 && InStep(v, l) && Current(v) == Some(d)
    ensures Allowed(l, SigKilled(d), accounts, maxRestarts) && InStep(v, After(l, SigKilled(d)))
  {
  }

  /** The end of a teardown. */
  lemma SettleKeeps(v: Vars, l: Ledger, sawExit: bool, accounts: nat, maxRestarts: nat)
    requires accounts > 0 && InStep(v, l) && v.teardown.Draining?
    ensures var e := Confirmed(v.teardown.d);
            Allowed(l, e, accounts, maxRestarts) && InStep(v.(teardown := Settled), After(l, e))
    ensures sawExit || v.teardown.d in l.killed ==>
              var e := TeardownFailed(v.teardown.d, sawExit);
              && Allowed(l, e, accounts, maxRestarts)
              && InStep(v.(teardown := Settled, stuck := Some(v.teardown.d)), After(l, e))
  {
  }

  /** The end of a run's own drain. */
  lemma DrainKeeps(v: Vars, l: Ledger, sawExit: bool, accounts: nat, maxRestarts: nat)
    requires accounts > 0 && InStep(v, l) && v.inHand.Some? && !l.lost && !l.spawning
    ensures var e := Confirmed(v.inHand.value);
            Allowed(l, e, accounts, maxRestarts) && InStep(v.(inHand := None), After(l, e))
    ensures sawExit || v.inHand.value in l.killed ==>
              var e := GaveUp(v.inHand.value, sawExit);
              Allowed(l, e, accounts, maxRestarts) && InStep(v.(inHand := None), After(l, e))
  {
  }

  lemma SpawnCallKeeps(v: Vars, l: Ledger, accounts: nat, maxRestarts: nat)
    requires accounts > 0 && InStep(v, l) && v.running && v.session.None? && v.inHand.None? && !v.stopped
    requires !l.spawning && !l.lost && Used(l) <= l.deaths <= maxRestarts
    ensures var e := SpawnCalled(v.cursor % accounts);
            Allowed(l, e, accounts, maxRestarts) && InStep(v.(cursor := v.cursor + 1), After(l, e))
    ensures Current(v).None?
  {
  }

  lemma SpawnEndKeeps(v: Vars, l: Ledger, accounts: nat, maxRestarts: nat)
    requires accounts > 0 && InStep(v, l) && v.running && Current(v).None? && l.spawning
    ensures var e := Spawned(v.daemons);
            && Allowed(l, e, accounts, maxRestarts)
            && InStep(v.(inHand := Some(v.daemons), daemons := v.daemons + 1), After(l, e))
    ensures Allowed(l, SpawnFailed, accounts, maxRestarts) && InStep(v, After(l, SpawnFailed))
  {
  }

  lemma CallKeeps(v: Vars, l: Ledger, d: Daemon, accounts: nat, maxRestarts: nat)
    requires accounts > 0 && InStep(v, l) && v.running && !l.lost && !l.spawning
             && l.unserved <= d && d + 1 == v.daemons
    ensures Allowed(l, CallBegan(d), accounts, maxRestarts) && InStep(v, After(l, CallBegan(d)))
  {
  }

  lemma BeginKeeps(v: Vars, l: Ledger, accounts: nat, maxRestarts: nat)
    requires accounts > 0 && InStep(v, l) && !v.stopped && !v.running
    ensures var e := RunBegan(v.cursor, v.session.Some?);
            Allowed(l, e, accounts, maxRestarts) && InStep(v.(running := true, inflight := true), After(l, e))
  {
  }

  lemma EndKeeps(v: Vars, l: Ledger, e: Event, accounts: nat, maxRestarts: nat)
    requires accounts > 0 && InStep(v, l) && v.inflight && v.inHand.None? && !l.spawning
    requires (e.Returned? && !l.lost) || (e.Rejected? && (e.e.DrainFailed? <==> l.lost))
    ensures Allowed(l, e, accounts, maxRestarts) && InStep(v.(running := false, inflight := false), After(l, e))
  {
  }

  // ---------------------------------------------------------------- the runtime

  /** What other tasks cannot change. */
  function Rest(l: Ledger): Ledger {
    l.(live := {}, killed := {}, stopped := false)
  }

  /** The run's own counts are the same. */
  predicate SameRun(l: Ledger, m: Ledger) {
    && l.inRun == m.inRun && l.cursor == m.cursor && l.resumed == m.resumed && l.attempts == m.attempts
    && l.deaths == m.deaths && l.spawning == m.spawning && l.calls == m.calls && l.unserved == m.unserved
  }

  function Daemons(calls: seq<GoalCalls.CallTimes>): seq<Daemon> {
    seq(|calls|, i requires 0 <= i < |calls| => calls[i].daemon)
  }

  lemma DaemonsGrow(calls: seq<GoalCalls.CallTimes>, more: seq<GoalCalls.CallTimes>)
    requires |more| == |calls| + 1 && more[..|calls|] == calls
    ensures Daemons(more) == Daemons(calls) + [more[|calls|].daemon]
  {
    assert forall i :: 0 <= i < |calls| ==> more[i] == more[..|calls|][i];
  }

  class GoalRuntime {
    const accounts: nat
    const maxRestarts: nat
    const answers: nat -> bool          // what the outside will answer
    var asked: nat                      // how much of it was read
    var session: Option<Daemon>
    var stopped: bool
    var running: bool
    var inflight: bool
    var accountCursor: nat
    var teardown: Teardown
    var teardownError: bool
    var daemons: nat                    // numbers the daemons as they are spawned
    var inHand: Option<Daemon>          // the daemon in a local variable of the run
    ghost var stuck: Option<Daemon>     // the daemon the teardown of stop() could not confirm dead
    ghost var log: History

    ghost function View(): Vars
      reads this
    {
      Vars(session, stopped, running, inflight, accountCursor, teardown, daemons, inHand, stuck)
    }

    ghost predicate Valid()
      reads this
    {
      && accounts > 0 && AllAllowed(log, accounts, maxRestarts) && InStep(View(), Book(log))
      && (teardownError <==> stuck.Some?)
    }

    /** What other tasks may do while the run waits: stop() takes the session, and its teardown
        goes on. */
    twostate predicate Others()
      reads this
    {
      && running == old(running) && inflight == old(inflight) && accountCursor == old(accountCursor)
      && inHand == old(inHand) && daemons == old(daemons)
      && (old(stopped) ==> stopped)
      && (session == old(session) || (session.None? && stopped))
      && (!stopped ==> log == old(log))
      && Rest(Book(log)) == Rest(old(Book(log)))
    }

    /** Nothing happens from here on: no stop(), no answer in time, no call that succeeds. */
    ghost predicate Quiet()
      reads this`asked
    {
      forall i :: asked <= i ==> !answers(i)
    }

    /** Nothing happens but that the spawn succeeds. */
    ghost predicate OnlySpawns()
      reads this`asked
    {
      forall i :: asked <= i ==> (answers(i) <==> i == asked + 1)
    }

    constructor (accounts: nat, maxRestarts: nat, answers: nat -> bool)
      requires accounts > 0
      ensures Valid() && log == Start && !stopped && !inflight && !running
              && session.None? && accountCursor == daemons == 0
      ensures asked == 0 && this.accounts == accounts && this.maxRestarts == maxRestarts && this.answers == answers
    {
      this.accounts, this.maxRestarts, this.answers, asked := accounts, maxRestarts, answers, 0;
      session, stopped, running, inflight, accountCursor := None, false, false, false, 0;
      teardown, teardownError, daemons := Settled, false, 0;
      inHand, stuck, log := None, None, Start;
    }

    /** The first half of stop(): mark the runtime stopped, signal the session's daemon and start
        draining it in the background. */
    method Stop()
      requires Valid()
      modifies this`session, this`stopped, this`teardown, this`log
      ensures Valid() && Others() && stopped && session.None?
      ensures old(stopped) ==> log == old(log) && teardown == old(teardown)
      ensures !old(stopped) ==>
                && log == Then(old(log), StopCalled)
                && teardown == if old(session).Some? then Draining(old(session).value) else old(teardown)
    {
      if stopped { return; }
      StopKeeps(View(), Book(log), accounts, maxRestarts);
      stopped := true;
      log := Then(log, StopCalled);
      if session.Some? {
        teardown := Draining(session.value);
        session := None;
      }
    }

    /** One question to the outside: did the process exit in time, did the call succeed, was
        stop() called. */
    method Ask() returns (yes: bool)
      modifies this`asked
      ensures yes == answers(old(asked)) && asked == old(asked) + 1
    {
      yes := answers(asked);
      asked := asked + 1;
    }

    /** drainExit: wait, escalate to SIGKILL, wait again, then ask the socket. SIGKILL is sent
        exactly when the first wait ran out; the death is confirmed exactly when one of the waits
        saw the exit and after it the socket has no listener. */
    method DrainExit(d: Daemon) returns (confirmed: bool, sawExit: bool)
      requires Valid() && Current(View()) == Some(d)
      modifies this`asked, this`log
      ensures Valid() && asked > old(asked)
      ensures log == if answers(old(asked)) then old(log) else Then(old(log), SigKilled(d))
      ensures sawExit <==> answers(old(asked)) || answers(old(asked) + 1)
      ensures confirmed <==> sawExit && answers(old(asked) + if answers(old(asked)) then 1 else 2)
      ensures !sawExit ==> d in Book(log).killed
    {
      sawExit := Ask();
      if !sawExit {
        SigkillKeeps(View(), Book(log), d, accounts, maxRestarts);
        log := Then(log, SigKilled(d));
        sawExit := Ask();
        if !sawExit { return false, false; }
      }
      confirmed := Ask();
    }

    /** The background drain of stop() settles. */
    method SettleTeardown()
      requires Valid() && teardown.Draining?
      modifies this`asked, this`teardown, this`teardownError, this`stuck, this`log
      ensures Valid() && Others() && teardown.Settled? && stopped && asked > old(asked)
      ensures log.Then?
      ensures if teardownError then log.last.TeardownFailed? && log.last.d == old(teardown).d
              else log.last == Confirmed(old(teardown).d)
      ensures log.before == if answers(old(asked)) then old(log) else Then(old(log), SigKilled(old(teardown).d))
    {
      var confirmed, sawExit := DrainExit(teardown.d);
      EndTeardown(confirmed, sawExit);
    }

    method EndTeardown(confirmed: bool, sawExit: bool)
      requires Valid() && teardown.Draining? && (!confirmed ==> sawExit || teardown.d in Book(log).killed)
      modifies this`teardown, this`teardownError, this`stuck, this`log
      ensures Valid() && teardown.Settled? && teardownError == !confirmed
      ensures log == Then(old(log), if confirmed then Confirmed(old(teardown).d)
                                    else TeardownFailed(old(teardown).d, sawExit))
    {
      SettleKeeps(View(), Book(log), sawExit, accounts, maxRestarts);
      if confirmed {
        log := Then(log, Confirmed(teardown.d));
      } else {
        teardownError := true;
        stuck := Some(teardown.d);
        log := Then(log, TeardownFailed(teardown.d, sawExit));
      }
      teardown := Settled;
    }

    /** One await of the run. */
    method Await()
      requires Valid()
      modifies this`asked, this`session, this`stopped, this`teardown, this`teardownError, this`stuck, this`log
      ensures Valid() && Others()
      ensures old(Quiet()) ==> Quiet() && stopped == old(stopped)
    {
      var stops := Ask();
      if stops { Stop(); }
      var settles := Ask();
      if settles && teardown.Draining? { SettleTeardown(); }
    }

    /** await this.teardownDone */
    method AwaitTeardown()
      requires Valid() && stopped
      modifies this`asked, this`session, this`stopped, this`teardown, this`teardownError, this`stuck, this`log
      ensures Valid() && Others() && teardown.Settled?
    {
      Await();
      if teardown.Draining? { SettleTeardown(); }
    }

    method NextAccount() returns (account: nat)
      requires accounts > 0
      modifies this`accountCursor
      ensures account == old(accountCursor) % accounts && accountCursor == old(accountCursor) + 1
    {
      account := accountCursor % accounts;
      accountCursor := accountCursor + 1;
    }

    /** The run waits or works with a daemon in hand, or with none. */
    ghost predicate Going()
      reads this
    {
      Valid() && running && !Book(log).lost && !Book(log).spawning
    }

    /** Drain the daemon in hand; failing that, the run gives it up. */
    method DrainInHand() returns (confirmed: bool)
      requires Going() && inHand.Some?
      modifies this`asked, this`session, this`stopped, this`teardown, this`teardownError, this`stuck,
               this`log, this`inHand
      ensures Valid() && running && inHand.None? && session.None? && SameRun(Book(log), old(Book(log)))
      ensures Book(log).lost <==> !confirmed
      ensures old(stopped) ==> stopped
      ensures old(Quiet()) && !old(stopped) ==> !confirmed && LostAlone(old(log), old(inHand))
    {
      Await();
      confirmed := EndDrain();
    }

    method EndDrain() returns (confirmed: bool)
      requires Going() && inHand.Some?
      modifies this`asked, this`log, this`inHand
      ensures Valid() && inHand.None? && SameRun(Book(log), old(Book(log)))
      ensures Book(log).lost <==> !confirmed
      ensures old(Quiet()) ==> !confirmed && log == Lost(old(log), old(inHand).value)
    {
      var sawExit;
      confirmed, sawExit := DrainExit(inHand.value);
      Conclude(confirmed, sawExit);
    }

    method Conclude(confirmed: bool, sawExit: bool)
      requires Going() && inHand.Some? && (!confirmed ==> sawExit || inHand.value in Book(log).killed)
      modifies this`log, this`inHand
      ensures Valid() && inHand.None?
      ensures log == Then(old(log), if confirmed then Confirmed(old(inHand).value)
                                    else GaveUp(old(inHand).value, sawExit))
    {
      DrainKeeps(View(), Book(log), sawExit, accounts, maxRestarts);
      log := Then(log, if confirmed then Confirmed(inHand.value) else GaveUp(inHand.value, sawExit));
      inHand := None;
    }

    /** Nothing happened since `before` but that the daemon in hand was given up after SIGKILL. */
    ghost predicate LostAlone(before: History, d: Option<Daemon>)
      reads this
    {
      !stopped && d.Some? && log == Lost(before, d.value)
    }

    /** An error of a failed call into the outside world. */
    method SomeError() returns (e: Error)
      modifies this`asked
      ensures !e.DrainFailed? && asked > old(asked)
    {
      var dead := Ask();
      e := if dead then TransportDeath else OtherError;
    }

    /** startSession: spawn on the next account, connect, initialize. A failure, or a stop() that
        fell into it, drains the daemon before the error is thrown. */
    method StartSession() returns (e: Option<Error>)
      requires Going() && session.None? && inHand.None? && !stopped
      requires Used(Book(log)) <= Book(log).deaths <= maxRestarts
      modifies this
      ensures Valid() && running && inHand.None?
      ensures Restarted(old(Book(log)), Book(log))
      ensures e.None? ==> session == Some(old(daemons)) && !stopped && !Book(log).lost
      ensures e.Some? ==> session.None? && (e.value.DrainFailed? <==> Book(log).lost)
      ensures old(OnlySpawns()) ==>
                e.Some? && LostAlone(SpawnedOne(old(log), old(accountCursor), old(daemons)), Some(old(daemons)))
    {
      var spawned := Spawn();
      if !spawned {
        var err := SomeError();
        return Some(err);
      }
      if stopped { e := FailClose(OtherError); return; }
      e := ConnectAll();
      if e.Some? { return; }
      session, inHand := inHand, None;
    }

    /** The record after one more spawn. */
    ghost function SpawnedOne(before: History, cursor: nat, d: Daemon): History
      requires accounts > 0
    {
      Then(Then(before, SpawnCalled(cursor % accounts)), Spawned(d))
    }

    method Spawn() returns (spawned: bool)
      requires Going() && session.None? && inHand.None? && !stopped
      requires Used(Book(log)) <= Book(log).deaths <= maxRestarts
      modifies this
      ensures Going() && session.None? && Restarted(old(Book(log)), Book(log))
      ensures if spawned then inHand == Some(old(daemons)) && daemons == old(daemons) + 1
              else inHand.None? && daemons == old(daemons)
      ensures old(OnlySpawns()) ==>
                Quiet() && !stopped && spawned && log == SpawnedOne(old(log), old(accountCursor), old(daemons))
    {
      CallSpawn();
      WaitForSpawn();
      spawned := Ask();
      EndSpawn(spawned);
    }

    /** The spawn comes back: with a daemon, or with an error. */
    method EndSpawn(spawned: bool)
      requires Valid() && running && Current(View()).None? && Book(log).spawning
      modifies this`log, this`inHand, this`daemons
      ensures Valid()
      ensures log == Then(old(log), if spawned then Spawned(old(daemons)) else SpawnFailed)
      ensures if spawned then inHand == Some(old(daemons)) && daemons == old(daemons) + 1
              else inHand.None? && daemons == old(daemons)
    {
      SpawnEndKeeps(View(), Book(log), accounts, maxRestarts);
      if spawned {
        log := Then(log, Spawned(daemons));
        inHand := Some(daemons);
        daemons := daemons + 1;
      } else {
        log := Then(log, SpawnFailed);
      }
    }

    method CallSpawn()
      requires Going() && session.None? && inHand.None? && !stopped
      requires Used(Book(log)) <= Book(log).deaths <= maxRestarts
      modifies this`accountCursor, this`log
      ensures Valid() && log == Then(old(log), SpawnCalled(old(accountCursor) % accounts))
      ensures Current(View()).None?
    {
      SpawnCallKeeps(View(), Book(log), accounts, maxRestarts);
      var account := NextAccount();
      log := Then(log, SpawnCalled(account));
    }

    /** The await of a spawn: nothing is held that another task could take. */
    method WaitForSpawn()
      requires Valid() && running && Current(View()).None?
      modifies this`asked, this`session, this`stopped, this`teardown, this`teardownError, this`stuck, this`log
      ensures Valid() && Others() && Current(View()).None?
      ensures asked == old(asked) + 1 && (!answers(old(asked)) ==> stopped == old(stopped))
    {
      var stops := Ask();
      if stops { Stop(); }
    }

    /** The transport, then the client and its handshake. */
    method ConnectAll() returns (e: Option<Error>)
      requires Going() && inHand.Some?
      modifies this
      ensures Valid() && running && session.None? && SameRun(Book(log), old(Book(log)))
      ensures e.None? ==> inHand == old(inHand) && !stopped && !Book(log).lost
      ensures e.Some? ==> inHand.None? && (e.value.DrainFailed? <==> Book(log).lost)
      ensures old(Quiet()) && !old(stopped) ==> e.Some? && LostAlone(old(log), old(inHand))
    {
      e := Connect();
      if e.Some? { return; }
      e := Connect();
    }

    /** One step of the start with the daemon in hand: wait, and close it all on a failure or a
        stop(). */
    method Connect() returns (e: Option<Error>)
      requires Going() && inHand.Some?
      modifies this
      ensures Valid() && running && session.None? && SameRun(Book(log), old(Book(log)))
      ensures e.None? ==> inHand == old(inHand) && !stopped && !Book(log).lost
      ensures e.Some? ==> inHand.None? && (e.value.DrainFailed? <==> Book(log).lost)
      ensures old(Quiet()) && !old(stopped) ==> e.Some? && LostAlone(old(log), old(inHand))
    {
      Await();
      var ok := Ask();
      if !ok {
        var err := SomeError();
        e := FailClose(err);
      } else if stopped {
        e := FailClose(OtherError);
      } else {
        e := None;
      }
    }

    method FailClose(err: Error) returns (e: Option<Error>)
      requires Going() && inHand.Some? && !err.DrainFailed?
      modifies this
      ensures Valid() && running && inHand.None? && session.None? && SameRun(Book(log), old(Book(log)))
      ensures e.Some? && (e.value.DrainFailed? <==> Book(log).lost) && (!Book(log).lost ==> e.value == err)
      ensures old(Quiet()) && !old(stopped) ==> LostAlone(old(log), old(inHand))
    {
      var confirmed := DrainInHand();
      e := Some(if confirmed then err else DrainFailed);
    }

    /** The goal calls of the run are the calls of its budget. */
    ghost predicate Budgeted(budget: GoalCalls.RunBudget)
      reads this`log, budget
    {
      budget.Valid() && Book(log).calls == Daemons(budget.calls)
    }

    /** One pass of the restart loop's try block: a session, the thread, the goal. */
    method Try(budget: GoalCalls.RunBudget, script: GoalCalls.Script) returns (e: Option<Error>)
      requires Going() && inHand.None? && !stopped && Book(log).deaths <= maxRestarts && Budgeted(budget)
      requires Used(Book(log)) == Book(log).deaths + if session.Some? then 1 else 0
      requires session.Some? ==> Book(log).unserved <= session.value
      modifies this, budget
      ensures Valid() && running && inHand.None? && !Book(log).spawning && Budgeted(budget)
      ensures Book(log).deaths == old(Book(log)).deaths && Used(Book(log)) == Book(log).deaths + 1
      ensures Book(log).lost <==> e == Some(DrainFailed)
      ensures Book(log).lost ==> session.None?
      ensures old(OnlySpawns() && session.None?) ==>
                e.Some? && LostAlone(SpawnedOne(old(log), old(accountCursor), old(daemons)), Some(old(daemons)))
    {
      if session.None? {
        e := StartSession();
        if e.Some? { return; }
      }
      e := Serve(session.value, budget, script);
    }

    /** Start or resume the thread on the session's daemon, then run the goal to its end. */
    method Serve(d: Daemon, budget: GoalCalls.RunBudget, script: GoalCalls.Script) returns (e: Option<Error>)
      requires Going() && inHand.None? && d + 1 == daemons && Book(log).unserved <= d && Budgeted(budget)
      modifies this, budget
      ensures Going() && inHand.None? && Budgeted(budget)
      ensures Book(log).deaths == old(Book(log)).deaths && Used(Book(log)) == Used(old(Book(log)))
      ensures e != Some(DrainFailed)
    {
      e := Call();
      if e.Some? { return; }
      DriveGoal(d, budget, script);
      e := Call();
    }

    /** A goal call on daemon `d`. */
    method DriveGoal(d: Daemon, budget: GoalCalls.RunBudget, script: GoalCalls.Script)
      requires Going() && inHand.None? && d + 1 == daemons && Book(log).unserved <= d && Budgeted(budget)
      modifies this`log, budget
      ensures Going() && Budgeted(budget) && log == Then(old(log), CallBegan(d))
    {
      CallKeeps(View(), Book(log), d, accounts, maxRestarts);
      ghost var before := budget.calls;
      budget.OneCall(d, script);
      DaemonsGrow(before, budget.calls);
      log := Then(log, CallBegan(d));
    }

    /** A call on the session's client. */
    method Call() returns (e: Option<Error>)
      requires Going() && inHand.None?
      modifies this
      ensures Going() && inHand.None? && daemons == old(daemons) && SameRun(Book(log), old(Book(log)))
      ensures e != Some(DrainFailed)
    {
      Await();
      var ok := Ask();
      e := None;
      if !ok {
        var err := SomeError();
        e := Some(err);
      }
    }

    /** The first half of the catch block: kill what session there is and drain it, or wait for
        the teardown of a stop() that took it. False when a drain failed. */
    method TearDown() returns (confirmed: bool)
      requires Valid() && running && inHand.None? && !Book(log).spawning
      requires Book(log).lost ==> session.None?
      modifies this
      ensures Valid() && running && inHand.None? && session.None? && SameRun(Book(log), old(Book(log)))
      ensures Book(log).lost <==> old(Book(log)).lost || !confirmed
      ensures !stopped ==> Book(log).live == Book(log).givenUp
      ensures old(session.None? && !stopped) ==> confirmed && !stopped && log == old(log)
    {
      confirmed := true;
      if session.Some? {
        inHand, session := session, None;
        confirmed := DrainInHand();
      } else if stopped {
        AwaitTeardown();
      }
    }

    /** The head of the restart loop. */
    ghost predicate AtTop(budget: GoalCalls.RunBudget, restarts: nat)
      reads this, budget
    {
      && Going() && !stopped && inHand.None? && Budgeted(budget) && Book(log).deaths == restarts <= maxRestarts
      && Used(Book(log)) == restarts + (if session.Some? then 1 else 0)
      && (session.Some? ==> Book(log).unserved <= session.value)
    }

    /** One pass of the restart loop; None when it goes round again. */
    method Pass(budget: GoalCalls.RunBudget, script: GoalCalls.Script, restarts: nat) returns (r: Option<Outcome>)
      requires AtTop(budget, restarts)
      modifies this, budget
      ensures r.None? ==> AtTop(budget, restarts + 1)
      ensures r.Some? ==> Valid() && running && inHand.None? && !Book(log).spawning && Budgeted(budget)
      ensures r.Some? ==> r.value == Success(restarts) || r.value.Failure?
      ensures r.Some? && r.value.Success? ==> !Book(log).lost && restarts == Book(log).deaths
      ensures r.Some? && r.value.Failure? ==> (r.value.e.DrainFailed? <==> Book(log).lost)
      ensures old(OnlySpawns() && session.None?) ==>
                && r.Some? && r.value.Failure?
                && LostAlone(SpawnedOne(old(log), old(accountCursor), old(daemons)), Some(old(daemons)))
    {
      var e := Try(budget, script);
      if e.None? { return Some(Success(restarts)); }
      r := Catch(e.value, restarts);
    }

    /** The catch block: whatever failed, first no daemon of the run may be left. */
    method Catch(e: Error, restarts: nat) returns (r: Option<Outcome>)
      requires Valid() && running && inHand.None? && !Book(log).spawning
      requires Book(log).deaths == restarts <= maxRestarts && Used(Book(log)) == restarts + 1
      requires if Book(log).lost then e.DrainFailed? && session.None? else !e.DrainFailed?
      modifies this
      ensures r.None? ==>
                && Going() && !stopped && inHand.None? && session.None? && restarts < maxRestarts
                && Book(log).deaths == restarts + 1 && Used(Book(log)) == restarts + 1
      ensures r.Some? ==> Valid() && running && inHand.None? && !Book(log).spawning
      ensures r.Some? ==> r.value.Failure? && (r.value.e.DrainFailed? <==> Book(log).lost)
      ensures Book(log).calls == old(Book(log)).calls
      ensures e.DrainFailed? && old(!stopped) ==> r.Some? && !stopped && log == old(log)
    {
      var confirmed := TearDown();
      if !confirmed { return Some(Failure(DrainFailed)); }
      if !(e.TransportDeath? && restarts < maxRestarts && !stopped) { return Some(Failure(e)); }
      log := Then(log, Died);
      r := None;
    }

    /** The restart loop. */
    method Loop(budget: GoalCalls.RunBudget, script: nat -> GoalCalls.Script) returns (r: Outcome)
      requires AtTop(budget, 0)
      modifies this, budget
      ensures Valid() && running && inHand.None? && !Book(log).spawning && Budgeted(budget)
      ensures r.Success? || r.Failure?
      ensures r.Success? ==> !Book(log).lost && r.restarts == Book(log).deaths <= maxRestarts
      ensures r.Failure? ==> (r.e.DrainFailed? <==> Book(log).lost)
      ensures old(OnlySpawns() && session.None?) ==>
                r.Failure? && LostAlone(SpawnedOne(old(log), old(accountCursor), old(daemons)), Some(old(daemons)))
    {
      var restarts := 0;
      while true
        invariant AtTop(budget, restarts)
        invariant old(OnlySpawns() && session.None?) ==> unchanged(this)
        decreases maxRestarts - restarts
      {
        var end := Pass(budget, script(restarts), restarts);
        if end.Some? { return end.value; }
        restarts := restarts + 1;
      }
    }

    /** runGoal */
    method RunGoal(budget: GoalCalls.RunBudget, script: nat -> GoalCalls.Script) returns (r: Outcome)
      requires Valid() && budget.Valid() && budget.calls == []
      modifies this, budget
      ensures Valid() && budget.Valid()
      ensures old(stopped) ==> r.AlreadyStopped?
      ensures !old(stopped) && old(running) ==> r.AlreadyRunning?
      ensures r.AlreadyStopped? || r.AlreadyRunning? ==> log == old(log) && running == old(running)
      ensures r.Success? || r.Failure? ==>
                !running && !inflight && log.Then? && (stopped ==> teardown.Settled?) && Budgeted(budget)
      ensures r.Success? || r.Failure? ==> OneBudget(budget.c, budget.startedAt, budget.calls, maxRestarts)
      ensures r.Success? ==> log.last.Returned? && r.restarts <= maxRestarts
      ensures r.Failure? ==> log.last == Rejected(r.e)
      ensures old(OnlySpawns() && session.None? && !stopped && !running) ==>
                && r == Failure(DrainFailed) && !stopped && log.last == Rejected(DrainFailed)
                && log.before == Lost(SpawnedOne(Then(old(log), RunBegan(old(accountCursor), false)),
                                                 old(accountCursor), old(daemons)), old(daemons))
    {
      if stopped { return AlreadyStopped; }
      if running { return AlreadyRunning; }
      Begin();
      r := Loop(budget, script);
      Finish(r);
      OneBudgetPerRun(log, accounts, maxRestarts, budget.c, budget.begun, budget.calls);
    }

    method Begin()
      requires Valid() && !stopped && !running
      modifies this`running, this`inflight, this`log
      ensures Going() && log == Then(old(log), RunBegan(accountCursor, session.Some?)) && inHand.None?
      ensures Book(log).calls == [] && Book(log).deaths == 0 && Used(Book(log)) == if session.Some? then 1 else 0
      ensures session.Some? ==> Book(log).unserved <= session.value
    {
      BeginKeeps(View(), Book(log), accounts, maxRestarts);
      running, inflight := true, true;
      log := Then(log, RunBegan(accountCursor, session.Some?));
    }

    /** The finally block: a run that was stopped ends after the teardown. */
    method Finish(r: Outcome)
      requires Valid() && running && inHand.None? && !Book(log).spawning
      requires r.Success? || r.Failure?
      requires if r.Success? then !Book(log).lost else r.e.DrainFailed? <==> Book(log).lost
      modifies this
      ensures Valid() && !running && !inflight && log.Then? && (stopped ==> teardown.Settled?)
      ensures log.last == End(r) && Book(log).calls == old(Book(log)).calls
      ensures !old(stopped) ==> !stopped && log.before == old(log)
    {
      if stopped {
        running := false;
        AwaitTeardown();
      }
      EndRun(End(r));
    }

    method EndRun(e: Event)
      requires Valid() && inflight && inHand.None? && !Book(log).spawning
      requires (e.Returned? && !Book(log).lost) || (e.Rejected? && (e.e.DrainFailed? <==> Book(log).lost))
      modifies this`running, this`inflight, this`log
      ensures Valid() && !running && !inflight && log == Then(old(log), e)
    {
      EndKeeps(View(), Book(log), e, accounts, maxRestarts);
      running := false;
      log := Then(log, e);
      inflight := false;
    }

    /** The end of drained(), which is only reached once the teardown has settled and the run in
        flight, if any, is over: it resolves unless the teardown failed. */
    method Drained() returns (resolved: bool)
      requires Valid() && teardown.Settled? && !inflight && stopped
      modifies this`log
      ensures Valid() && (resolved <==> !teardownError)
      ensures resolved ==> Book(log).live == Book(log).givenUp
      ensures log == if resolved then Then(old(log), DrainedResolved) else old(log)
    {
      resolved := !teardownError;
      if resolved { log := Then(log, DrainedResolved); }
    }
  }

  function End(r: Outcome): Event
    requires r.Success? || r.Failure?
  {
    if r.Success? then Returned else Rejected(r.e)
  }

  /** The record after a daemon outlived SIGKILL. */
  function Lost(before: History, d: Daemon): History {
    Then(Then(before, SigKilled(d)), GaveUp(d, false))
  }

  /** The run tried one more daemon. */
  predicate Restarted(l: Ledger, m: Ledger) {
    !m.spawning && m.deaths == l.deaths && Used(m) == Used(l) + 1 && m.calls == l.calls && m.unserved == l.unserved
  }

  /** All goal calls of one run, on however many daemons, draw on one budget: there are at most
      maxRestarts + 1 of them, each on a newer daemon, no deadline of a later one is before one of
      an earlier one, and as long as no hold came the deadlines are those of the run's own start. */
  ghost predicate OneBudget(c: GoalRun.Config, startedAt: nat, calls: seq<GoalCalls.CallTimes>, maxRestarts: nat) {
    && |calls| <= maxRestarts + 1
    && (forall i, j :: 0 <= i < j < |calls| ==> calls[i].daemon < calls[j].daemon)
    && GoalCalls.NeverMovesBack(calls) && GoalCalls.NeverStretched(c, startedAt, calls)
  }

  lemma OneBudgetPerRun(h: History, accounts: nat, maxRestarts: nat, c: GoalRun.Config, begun: GoalRun.Budgets,
                        calls: seq<GoalCalls.CallTimes>)
    requires accounts > 0 && AllAllowed(h, accounts, maxRestarts)
    requires Book(h).calls == Daemons(calls) && GoalCalls.Linked(c, begun, calls)
    ensures OneBudget(c, begun.startedAt, calls, maxRestarts)
  {
    OneCallPerDaemon(h, accounts, maxRestarts);
    DaemonsAscend(calls);
    GoalCalls.WholeRunKeeps(c, begun, calls);
  }

  lemma DaemonsAscend(calls: seq<GoalCalls.CallTimes>)
    requires Ascending(Daemons(calls))
    ensures |Daemons(calls)| == |calls|
    ensures forall i, j :: 0 <= i < j < |calls| ==> calls[i].daemon < calls[j].daemon
  {
    forall i, j | 0 <= i < j < |calls|
      ensures calls[i].daemon < calls[j].daemon
    {
      assert Daemons(calls)[i] < Daemons(calls)[j];
    }
  }

  method RunLosesItsDaemon(accounts: nat, maxRestarts: nat, c: GoalRun.Config, script: nat -> GoalCalls.Script)
    returns (runtime: GoalRuntime)
    requires accounts > 0
    ensures fresh(runtime) && runtime.Valid() && runtime.accounts == accounts && runtime.maxRestarts == maxRestarts
    ensures runtime.log == LostRun() && !runtime.stopped && !runtime.inflight
  {
    runtime := new GoalRuntime(accounts, maxRestarts, i => i == 1);
    var budget := new GoalCalls.RunBudget(c, 0, None);
    var r := runtime.RunGoal(budget, script);
  }

  /** The first run's only daemon outlives SIGKILL: the run is rejected, stop() then has no session
      to tear down, and drained() resolves while the daemon may still be alive. */
  method DrainedMayLeaveADaemon(accounts: nat, maxRestarts: nat, c: GoalRun.Config, script: nat -> GoalCalls.Script)
    returns (runtime: GoalRuntime, resolved: bool)
    requires accounts > 0
    ensures runtime.Valid() && runtime.accounts == accounts && runtime.maxRestarts == maxRestarts
    ensures resolved && runtime.log == Then(Then(LostRun(), StopCalled), DrainedResolved)
    ensures Book(runtime.log).live == {0} && Has(runtime.log, Rejected(DrainFailed))
  {
    runtime := RunLosesItsDaemon(accounts, maxRestarts, c, script);
    LostRunLeavesItsDaemon();
    runtime.Stop();
    resolved := runtime.Drained();
  }

  /** Any use of a runtime: runs, stops falling anywhere, and calls of drained(). Each run has its
      own start and finds what hold there is. */
  method Life(accounts: nat, maxRestarts: nat, answers: nat -> bool, c: GoalRun.Config, script: nat -> GoalCalls.Script,
              uses: nat)
    returns (runtime: GoalRuntime)
    requires accounts > 0
    ensures runtime.Valid()
  {
    runtime := new GoalRuntime(accounts, maxRestarts, answers);
    for i := 0 to uses
      invariant runtime.Valid() && !runtime.inflight && fresh(runtime)
    {
      if * {
        var startedAt: nat, stored: Option<GoalRun.Hold> := *, *;
        if stored.Some? && stored.value.active > stored.value.hard { stored := None; }
        var budget := new GoalCalls.RunBudget(c, startedAt, stored);
        var r := runtime.RunGoal(budget, script);
      } else if * {
        runtime.Stop();
      } else if runtime.stopped {
        if runtime.teardown.Draining? { runtime.SettleTeardown(); }
        var resolved := runtime.Drained();
      }
    }
  }
}
