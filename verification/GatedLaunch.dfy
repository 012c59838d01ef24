/**
 The two-phase gated launch of TmuxAdapter.execute: a window whose shell waits until the commit
 file holds its own token, and an adapter that writes the token. Attempts for one execution
 follow each other; the adapter may be killed anywhere, writes may fail half way, and shells of
 earlier attempts go on polling.
 */
module GatedLaunch {
  import opened Prelude

  /** Attempts are numbered; each has its own token. */
  type Attempt = nat

  /** The commit file: a part of a token is what a write leaves that got no further. */
  datatype Commit = Absent | Part(of: Attempt) | Whole(of: Attempt)

  datatype Adapter =
    | Opening                 // about to open the window
    | Windowed                // about to open the commit file for writing
    | Writing                 // the file is truncated, the token not yet written
    | Aborting                // the write failed; about to kill the window
    | Gone

  /** The shell in the window, with the number of polls it has slept after. */
  datatype Shell = NoShell | Polling(n: nat) | Started | Exited

  const MAX_POLLS := 1500

  datatype Launch = Launch(adapter: Adapter, shell: Shell)

  /** `written` lists the tokens that reached the file whole, `starts` the Runners ever started. */
  datatype State = State(
    commit: Commit, launches: map<Attempt, Launch>, latest: Option<Attempt>,
    written: seq<Attempt>, starts: seq<Attempt>)

  const INITIAL := State(Absent, map[], None, [], [])

  const NO_LAUNCH := Launch(Gone, NoShell)

  function LaunchOf(s: State, a: Attempt): Launch {
    if a in s.launches then s.launches[a] else NO_LAUNCH
  }

  datatype Event =
    | Begin(a: Attempt)
    | Adapt(a: Attempt, ok: bool)     // the adapter's next step
    | FailLate(a: Attempt)            // the write reports an error after the token was written
    | Crash(a: Attempt)
    | Poll(a: Attempt)
    | ShellDies(a: Attempt)

  function With(s: State, a: Attempt, l: Launch): State {
    s.(launches := s.launches[a := l])
  }

  function WriteToken(s: State, a: Attempt): State {
    s.(commit := Whole(a), written := s.written + [a])
  }

  function OnAdapt(s: State, a: Attempt, ok: bool): Option<State> {
    var l := LaunchOf(s, a);
    match l.adapter
    case Opening => Some(With(s, a, if ok then Launch(Windowed, Polling(0)) else l.(adapter := Gone)))
    case Windowed =>
      Some(if ok then With(s, a, l.(adapter := Writing)).(commit := Part(a)) else With(s, a, l.(adapter := Aborting)))
    case Writing =>
      Some(if ok then WriteToken(With(s, a, l.(adapter := Gone)), a) else With(s, a, l.(adapter := Aborting)))
    case Aborting => Some(With(s, a, Launch(Gone, if ok then Exited else l.shell)))
    case Gone => None
  }

  /** One turn of the shell's loop. */
  function AfterPoll(commit: Commit, a: Attempt, n: nat): Shell {
    if commit == Whole(a) then Started
    else if n >= MAX_POLLS then Exited
    else Polling(n + 1)
  }

  function OnPoll(s: State, a: Attempt): State
    requires LaunchOf(s, a).shell.Polling?
  {
    var l := LaunchOf(s, a);
    var shell := AfterPoll(s.commit, a, l.shell.n);
    With(s, a, l.(shell := shell)).(starts := s.starts + if shell.Started? then [a] else [])
  }

  function Next(s: State, e: Event): Option<State> {
    var l := LaunchOf(s, e.a);
    match e
    case Begin(a) =>
      // only after the earlier adapter is gone, and only if there is no commit file
      if a in s.launches || !s.commit.Absent?
         || (s.latest.Some? && !LaunchOf(s, s.latest.value).adapter.Gone?) then None
      else Some(With(s, a, Launch(Opening, NoShell)).(latest := Some(a)))
    case Adapt(a, ok) => OnAdapt(s, a, ok)
    case FailLate(a) =>
      if l.adapter.Writing? then Some(WriteToken(With(s, a, l.(adapter := Aborting)), a)) else None
    case Crash(a) => if l.adapter.Gone? then None else Some(With(s, a, l.(adapter := Gone)))
    case Poll(a) => if l.shell.Polling? then Some(OnPoll(s, a)) else None
    case ShellDies(a) => if l.shell.NoShell? then None else Some(With(s, a, l.(shell := Exited)))
  }

  function Run(s: State, events: seq<Event>): Option<State>
    decreases |events|
  {
    if events == [] then Some(s) else
      var t := Next(s, events[0]);
      if t.None? then None else Run(t.value, events[1..])
  }

  ghost predicate Reachable(s: State) {
    exists events :: Run(INITIAL, events) == Some(s)
  }

  // ---------------------------------------------------------------- invariant

  ghost predicate Inv(s: State) {
    && (forall a: Attempt :: !LaunchOf(s, a).adapter.Gone? ==> s.latest == Some(a))
    && (s.starts == [] || (s.commit.Whole? && s.starts == [s.commit.of]))
    && (forall a: Attempt :: LaunchOf(s, a).shell.Polling? || LaunchOf(s, a).shell.NoShell? ==> a !in s.starts)
    && (forall a: Attempt :: LaunchOf(s, a).shell.Started? ==> a in s.starts)
    && (forall a: Attempt :: LaunchOf(s, a).shell.Polling? ==> LaunchOf(s, a).shell.n <= MAX_POLLS)
    && (forall a: Attempt :: LaunchOf(s, a).adapter.Opening? || LaunchOf(s, a).adapter.Windowed? ==> s.commit.Absent?)
    && (forall a: Attempt :: LaunchOf(s, a).adapter.Writing? ==> s.commit == Part(a))
    && (!s.commit.Absent? ==> s.latest == Some(s.commit.of))
    && s.written == (if s.commit.Whole? then [s.commit.of] else [])
  }

  /** A step that touches one launch alone. */
  ghost predicate OnlyOne(s: State, t: State, a: Attempt) {
    forall b: Attempt :: b != a ==> LaunchOf(t, b) == LaunchOf(s, b)
  }

  lemma BeginKeeps(s: State, a: Attempt)
    requires Inv(s) && Next(s, Begin(a)).Some?
    ensures Inv(Next(s, Begin(a)).value)
  {
    assert OnlyOne(s, Next(s, Begin(a)).value, a);
  }

  lemma OpenKeeps(s: State, a: Attempt, ok: bool)
    requires Inv(s) && LaunchOf(s, a).adapter.Opening?
    ensures Inv(OnAdapt(s, a, ok).value)
  {
    assert OnlyOne(s, OnAdapt(s, a, ok).value, a);
  }

  lemma TruncateKeeps(s: State, a: Attempt, ok: bool)
    requires Inv(s) && LaunchOf(s, a).adapter.Windowed?
    ensures Inv(OnAdapt(s, a, ok).value)
  {
    assert OnlyOne(s, OnAdapt(s, a, ok).value, a);
  }

  lemma WriteKeeps(s: State, a: Attempt, adapter: Adapter)
    requires Inv(s) && LaunchOf(s, a).adapter.Writing? && (adapter.Gone? || adapter.Aborting?)
    ensures Inv(WriteToken(With(s, a, LaunchOf(s, a).(adapter := adapter)), a))
  {
    assert OnlyOne(s, WriteToken(With(s, a, LaunchOf(s, a).(adapter := adapter)), a), a);
  }

  /** The adapter goes on without touching the file: it gives up, or is killed. */
  lemma LeaveKeeps(s: State, a: Attempt, adapter: Adapter)
    requires Inv(s) && !LaunchOf(s, a).adapter.Gone? && (adapter.Gone? || adapter.Aborting?)
    ensures Inv(With(s, a, LaunchOf(s, a).(adapter := adapter)))
  {
    assert OnlyOne(s, With(s, a, LaunchOf(s, a).(adapter := adapter)), a);
  }

  lemma KillKeeps(s: State, a: Attempt, adapter: Adapter)
    requires Inv(s) && (adapter == LaunchOf(s, a).adapter || adapter.Gone?)
    ensures Inv(With(s, a, Launch(adapter, Exited)))
  {
    assert OnlyOne(s, With(s, a, Launch(adapter, Exited)), a);
  }

  lemma PollKeeps(s: State, a: Attempt)
    requires Inv(s) && LaunchOf(s, a).shell.Polling?
    ensures Inv(OnPoll(s, a))
  {
    assert OnlyOne(s, OnPoll(s, a), a);
  }

  lemma AdaptKeeps(s: State, a: Attempt, ok: bool)
    requires Inv(s) && OnAdapt(s, a, ok).Some?
    ensures Inv(OnAdapt(s, a, ok).value)
  {
    match LaunchOf(s, a).adapter {
      case Opening => OpenKeeps(s, a, ok);
      case Windowed => TruncateKeeps(s, a, ok);
      case Writing => if ok { WriteKeeps(s, a, Gone); } else { LeaveKeeps(s, a, Aborting); }
      case Aborting => if ok { KillKeeps(s, a, Gone); } else { LeaveKeeps(s, a, Gone); }
      case Gone =>
    }
  }

  lemma NextKeeps(s: State, e: Event)
    requires Inv(s) && Next(s, e).Some?
    ensures Inv(Next(s, e).value)
  {
    match e {
      case Begin(a) => BeginKeeps(s, a);
      case Adapt(a, ok) => AdaptKeeps(s, a, ok);
      case FailLate(a) => WriteKeeps(s, a, Aborting);
      case Crash(a) => LeaveKeeps(s, a, Gone);
      case Poll(a) => PollKeeps(s, a);
      case ShellDies(a) => KillKeeps(s, a, LaunchOf(s, a).adapter);
    }
  }

  lemma {:induction false} RunKeeps(s: State, events: seq<Event>)
    requires Inv(s) && Run(s, events).Some?
    ensures Inv(Run(s, events).value)
    decreases |events|
  {
    if events != [] {
      NextKeeps(s, events[0]);
      RunKeeps(Next(s, events[0]).value, events[1..]);
    }
  }

  lemma ReachableInv(s: State)
    requires Reachable(s)
    ensures Inv(s)
  {
    var events :| Run(INITIAL, events) == Some(s);
    RunKeeps(INITIAL, events);
  }

  // ---------------------------------------------------------------- main results

  /** Over every interleaving the file is committed at most once, and at most one shell ever
      starts its Runner, once: the one whose token was written. */
  lemma AtMostOneRunner(s: State)
    requires Reachable(s)
    ensures |s.starts| <= |s.written| <= 1
    ensures s.starts != [] ==> s.starts == s.written && s.commit == Whole(s.starts[0])
    ensures forall a: Attempt :: LaunchOf(s, a).shell.Started? ==> s.starts == [a]
  {
    ReachableInv(s);
  }

  /** The launch that a commit file stands for can still bring up its Runner, or has. */
  predicate Promising(s: State) {
    !s.commit.Absent? &&
    var l := LaunchOf(s, s.commit.of);
    s.commit.of in s.starts || (l.shell.Polling? && (s.commit.Whole? || l.adapter.Writing?))
  }

  lemma {:induction false} RunAppend(s: State, events: seq<Event>, e: Event)
    requires Run(s, events).Some?
    ensures Run(s, events + [e]) == Next(Run(s, events).value, e)
    decreases |events|
  {
    if events == [] {
      assert [] + [e] == [e];
    } else {
      RunAppend(Next(s, events[0]).value, events[1..], e);
      assert (events + [e])[1..] == events[1..] + [e];
    }
  }

  lemma PromisingCanStart(s: State) returns (events: seq<Event>)
    requires Promising(s)
    ensures Run(s, events).Some? && s.commit.of in Run(s, events).value.starts
  {
    var a := s.commit.of;
    if a in s.starts {
      events := [];
    } else if s.commit.Whole? {
      events := [Poll(a)];
      assert events[1..] == [];
    } else {
      events := [Adapt(a, true), Poll(a)];
      var t := Next(s, Adapt(a, true)).value;
      assert [Poll(a)][1..] == [] && Run(t, [Poll(a)]) == Next(t, Poll(a));
      assert events[1..] == [Poll(a)];
    }
  }

  /** With a commit file that nobody can act on any more, nothing ever starts and no further
      attempt begins. */
  ghost predicate Stuck(s: State) {
    Inv(s) && !s.commit.Absent? && !Promising(s)
  }

  ghost predicate StillStuck(t: State) {
    !t.commit.Absent? && !Promising(t) && t.starts == []
  }

  lemma UnpromisingStays(s: State, e: Event)
    requires Stuck(s) && Next(s, e).Some?
    ensures StillStuck(Next(s, e).value) && !e.Begin?
  {
    match e {
      case Begin(_) =>
      case Adapt(a, ok) => StuckAdapter(s, a, ok);
      case Poll(a) => StuckShell(s, a);
      case _ => assert OnlyOne(s, Next(s, e).value, e.a);
    }
  }

  lemma StuckAdapter(s: State, a: Attempt, ok: bool)
    requires Stuck(s) && OnAdapt(s, a, ok).Some?
    ensures StillStuck(OnAdapt(s, a, ok).value)
  {
    assert OnlyOne(s, OnAdapt(s, a, ok).value, a);
  }

  lemma StuckShell(s: State, a: Attempt)
    requires Stuck(s) && LaunchOf(s, a).shell.Polling?
    ensures StillStuck(OnPoll(s, a))
  {
    assert OnlyOne(s, OnPoll(s, a), a);
  }

  lemma {:induction false} UnpromisingForever(s: State, events: seq<Event>)
    requires Inv(s) && !s.commit.Absent? && !Promising(s) && Run(s, events).Some?
    ensures Run(s, events).value.starts == []
    decreases |events|
  {
    if events != [] {
      UnpromisingStays(s, events[0]);
      NextKeeps(s, events[0]);
      UnpromisingForever(Next(s, events[0]).value, events[1..]);
    }
  }

  /** A commit file is what a replay takes over without starting anything. Some Runner has
      started or can still start exactly when the file's own has, or its shell is still polling
      and its token is, or can still be, written. */
  lemma AdoptionIsSoundExactlyWhen(s: State)
    requires Reachable(s) && !s.commit.Absent?
    ensures Promising(s) <==> exists events :: Run(s, events).Some? && Run(s, events).value.starts != []
  {
    ReachableInv(s);
    if Promising(s) {
      var events := PromisingCanStart(s);
      assert Run(s, events).Some? && Run(s, events).value.starts != [];
    } else {
      forall events | Run(s, events).Some?
        ensures Run(s, events).value.starts == []
      {
        UnpromisingForever(s, events);
      }
    }
  }

  /** A crash between truncating and writing the file leaves one that is taken over although no
      Runner will ever start. */
  lemma TornCommitNeverStarts() returns (s: State)
    ensures Reachable(s) && !s.commit.Absent? && !Promising(s)
  {
    var events := [Begin(0), Adapt(0, true), Adapt(0, true), Crash(0)];
    var s1 := Next(INITIAL, events[0]).value;
    var s2 := Next(s1, events[1]).value;
    var s3 := Next(s2, events[2]).value;
    s := Next(s3, events[3]).value;
    assert events[1..] == [Adapt(0, true), Adapt(0, true), Crash(0)];
    assert events[1..][1..] == [Adapt(0, true), Crash(0)];
    assert events[1..][1..][1..] == [Crash(0)];
    assert events[1..][1..][1..][1..] == [];
    assert Run(s3, [Crash(0)]) == Some(s);
    assert Run(s2, [Adapt(0, true), Crash(0)]) == Some(s);
    assert Run(s1, events[1..]) == Some(s);
    assert Run(INITIAL, events) == Some(s);
  }
}
