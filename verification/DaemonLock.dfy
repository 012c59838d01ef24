/**
 Who may touch the daemon socket of one execution (codex-daemon-runtime.ts): any number of
 spawners run `spawnCodexDaemon` and later `ensureDead`, interleaved at every await and every
 system call, together with the daemons they start. The lock file is taken as an atomic lock
 that can be reclaimed from a dead process.
 */
module DaemonLock {
  import opened Prelude

  type Pid = nat

  /** The process tree one spawner starts, up to the process that owns the socket. */
  datatype Tree = NotSpawned | Starting | Bound | Listening | Gone

  /** Before the daemon exists. */
  datatype Setup =
    | Looking                     // does a socket file exist?
    | Probing                     // is anything listening on it?
    | Reaping(orphan: Pid)        // about to kill the proven holder
    | Reprobing
    | Clearing                    // about to unlink the litter
    | Launching
    | Refusing                    // about to release the lock and throw

  /** A start that failed: kill, wait for the child, probe, and clean up. */
  datatype Cleanup = Killing | AwaitingExit | ProbingAfter(exited: bool) | UnlinkingAfter | ReleasingAfter

  /** ensureDead */
  datatype Teardown = FirstProbe | Escalating | SecondProbe | Unlinking | Releasing

  datatype Pc =
    | Idle
    | SettingUp(setup: Setup)
    | Waiting                     // for the socket to appear
    | CleaningUp(cleanup: Cleanup)
    | Up
    | TearingDown(teardown: Teardown)
    | Keeping                     // gave up on a daemon that may be alive; the lock stays held
    | Down                        // the lock was given up
    | LockedOut                   // never had the lock

  /** `killed`: the whole tree was sent SIGKILL, so it makes no further system call. */
  datatype Proc = Proc(pc: Pc, tree: Tree, killed: bool, crashed: bool)

  const FRESH := Proc(Idle, NotSpawned, false, false)

  /** The spawner follows the protocol to hold the lock here. */
  predicate Holding(pc: Pc) {
    !(pc.Idle? || pc.Down? || pc.LockedOut?)
  }

  predicate CanBind(p: Proc) { p.tree.Starting? && !p.killed }

  predicate CanListen(p: Proc) { (p.tree.Starting? || p.tree.Bound?) && !p.killed }

  /** The tree of `p` may yet come to listen at the path. */
  predicate AtStake(path: Option<Pid>, p: Pid, proc: Proc) {
    CanBind(proc) || (proc.tree.Bound? && !proc.killed && path == Some(p))
  }

  // ---------------------------------------------------------------- history

  datatype Act =
    | Launched(p: Pid)
    | CameUp(p: Pid)
    | Probed(p: Pid, live: bool)
    | SawExit(p: Pid)
    | Unlinked(p: Pid, owner: Option<Pid>, listening: bool)   // whose socket file, and was it in use
    | Released(p: Pid)

  datatype History = Start | Then(before: History, last: Act)

  /** One spawner's own acts so far: `clean` when the last of them was a probe that saw no
      listener, or the unlink right after it. */
  datatype View = View(launched: bool, up: bool, exited: bool, clean: bool, released: bool)

  function ViewOf(h: History, p: Pid): View {
    match h
    case Start => View(false, false, false, false, false)
    case Then(before, a) =>
      var v := ViewOf(before, p);
      if a.p != p then v
      else match a
        case Launched(_) => v.(launched := true, clean := false)
        case CameUp(_) => v.(up := true, clean := false)
        case Probed(_, live) => v.(clean := !live)
        case SawExit(_) => v.(exited := true, clean := false)
        case Unlinked(_, _, _) => v
        case Released(_) => v.(released := true, clean := false)
  }

  /** No unlink removes a socket on which another spawner's daemon listens, and each comes right
      after a probe that saw no listener. A lock is given up at most once; that of a spawned
      daemon only right after such a probe, and if the start failed, after the child's exit. */
  predicate Justified(h: History, a: Act) {
    match a
    case Unlinked(p, owner, listening) => ViewOf(h, p).clean && (listening ==> owner == Some(p))
    case Released(p) =>
      var v := ViewOf(h, p);
      !v.released && (v.launched ==> v.clean && (v.up || v.exited))
    case _ => true
  }

  predicate AllJustified(h: History) {
    h.Then? ==> AllJustified(h.before) && Justified(h.before, h.last)
  }

  // ---------------------------------------------------------------- the machine

  /** `earlyCrash`: some spawner process died while its daemon might yet come to listen at the
      path. `tornAgain`: some handle was torn down again after its lock was given up. */
  datatype State = State(
    lock: Option<Pid>, path: Option<Pid>, procs: map<Pid, Proc>, earlyCrash: bool, tornAgain: bool, log: History)

  const INITIAL := State(None, None, map[], false, false, Start)

  /** Neither of the two has happened. */
  predicate Disciplined(s: State) {
    !s.earlyCrash && !s.tornAgain
  }

  predicate SameFaults(s: State, t: State) {
    s.earlyCrash == t.earlyCrash && s.tornAgain == t.tornAgain
  }

  function ProcOf(s: State, p: Pid): Proc {
    if p in s.procs then s.procs[p] else FRESH
  }

  datatype Event =
    | Acquire(p: Pid)
    | Go(p: Pid, ok: bool)       // the next step; `ok` settles what is open
    | StartTeardown(p: Pid)
    | TeardownAgain(p: Pid)      // ensureDead on a handle whose lock was already given up
    | Bind(p: Pid)
    | Listen(p: Pid)
    | Die(p: Pid)
    | Crash(p: Pid)              // the spawner's process dies; its daemon lives on

  function At(s: State, p: Pid, pc: Pc): State {
    s.(procs := s.procs[p := ProcOf(s, p).(pc := pc)])
  }

  function Note(s: State, a: Act): State {
    s.(log := Then(s.log, a))
  }

  function WithTree(s: State, p: Pid, tree: Tree): State {
    s.(procs := s.procs[p := ProcOf(s, p).(tree := tree)])
  }

  function Killed(s: State, p: Pid): State {
    s.(procs := s.procs[p := ProcOf(s, p).(killed := true)])
  }

  predicate InUse(s: State) {
    s.path.Some? && ProcOf(s, s.path.value).tree.Listening?
  }

  /** isSocketLive: true whenever something listens; otherwise false, or true for an unclear
      answer. */
  function Probe(s: State, ok: bool): bool {
    InUse(s) || !ok
  }

  function Unlink(s: State, p: Pid): State {
    Note(s, Unlinked(p, s.path, InUse(s))).(path := None)
  }

  function Release(s: State, p: Pid): State {
    Note(At(s, p, Down), Released(p)).(lock := if s.lock == Some(p) then None else s.lock)
  }

  function GoSetup(s: State, p: Pid, step: Setup, ok: bool): State {
    match step
    case Looking => At(s, p, SettingUp(if s.path.None? then Launching else Probing))
    case Probing =>
      if !Probe(s, ok) then At(Note(s, Probed(p, false)), p, SettingUp(Clearing))
      else At(Note(s, Probed(p, true)), p, SettingUp(if s.path.Some? then Reaping(s.path.value) else Refusing))
    case Reaping(orphan) =>
      // the holder is killed only when it is proven to be the recorded orphan
      if ok then At(Killed(s, orphan), p, SettingUp(Reprobing))
      else At(s, p, SettingUp(Refusing))
    case Reprobing =>
      var live := Probe(s, ok);
      At(Note(s, Probed(p, live)), p, SettingUp(if live then Refusing else Clearing))
    case Clearing => At(Unlink(s, p), p, SettingUp(Launching))
    case Launching =>
      if ok then At(WithTree(Note(s, Launched(p)), p, Starting), p, Waiting)
      else At(s, p, SettingUp(Refusing))
    case Refusing => Release(s, p)
  }

  /** `ok` is a step at which the child was seen to exit. */
  function GoCleanup(s: State, p: Pid, step: Cleanup, ok: bool): State {
    match step
    case Killing => At(Killed(s, p), p, CleaningUp(AwaitingExit))
    case AwaitingExit => At(if ok then Note(s, SawExit(p)) else s, p, CleaningUp(ProbingAfter(ok)))
    case ProbingAfter(exited) =>
      var live := Probe(s, ok);
      At(Note(s, Probed(p, live)), p, if !live && exited then CleaningUp(UnlinkingAfter) else Keeping)
    case UnlinkingAfter => At(Unlink(s, p), p, CleaningUp(ReleasingAfter))
    case ReleasingAfter => Release(s, p)
  }

  function GoTeardown(s: State, p: Pid, step: Teardown, ok: bool): State {
    match step
    case FirstProbe =>
      var live := Probe(s, ok);
      At(Note(s, Probed(p, live)), p, TearingDown(if live then Escalating else Unlinking))
    case Escalating => At(Killed(s, p), p, TearingDown(SecondProbe))
    case SecondProbe =>
      var live := Probe(s, ok);
      At(Note(s, Probed(p, live)), p, if live then Up else TearingDown(Unlinking))
    case Unlinking => At(Unlink(s, p), p, TearingDown(Releasing))
    case Releasing =>
      // a second teardown finds the lock already released
      if ViewOf(s.log, p).released then At(s, p, Down) else Release(s, p)
  }

  function OnGo(s: State, p: Pid, ok: bool): Option<State> {
    match ProcOf(s, p).pc
    case SettingUp(step) => Some(GoSetup(s, p, step, ok))
    case Waiting =>
      // the socket is seen, or the child exited, or the wait timed out
      if !ok then Some(At(s, p, CleaningUp(Killing)))
      else if s.path.Some? then Some(At(Note(s, CameUp(p)), p, Up)) else None
    case CleaningUp(step) => Some(GoCleanup(s, p, step, ok))
    case TearingDown(step) => Some(GoTeardown(s, p, step, ok))
    case _ => None
  }

  function OnAcquire(s: State, p: Pid): State {
    if s.lock.None? || ProcOf(s, s.lock.value).crashed
    then At(s, p, SettingUp(Looking)).(lock := Some(p))
    else At(s, p, LockedOut)
  }

  function Next(s: State, e: Event): Option<State> {
    var proc := ProcOf(s, e.p);
    match e
    case Acquire(p) => if proc.crashed || !proc.pc.Idle? then None else Some(OnAcquire(s, p))
    case Go(p, ok) => if proc.crashed then None else OnGo(s, p, ok)
    case StartTeardown(p) =>
      if proc.crashed || !proc.pc.Up? then None else Some(At(s, p, TearingDown(FirstProbe)))
    case TeardownAgain(p) =>
      if proc.crashed || !(proc.pc.Down? && ViewOf(s.log, p).up) then None
      else Some(At(s, p, TearingDown(FirstProbe)).(tornAgain := true))
    case Bind(p) =>
      if !CanBind(proc) then None
      else if s.path.Some? then Some(WithTree(s, p, Gone))
      else Some(WithTree(s, p, Bound).(path := Some(p)))
    case Listen(p) => if proc.tree.Bound? && !proc.killed then Some(WithTree(s, p, Listening)) else None
    case Die(p) => if proc.tree.NotSpawned? then None else Some(WithTree(s, p, Gone))
    case Crash(p) =>
      if proc.crashed then None
      else Some(s.(procs := s.procs[p := proc.(crashed := true)],
                   earlyCrash := s.earlyCrash || AtStake(s.path, p, proc)))
  }

  function Run(s: State, events: seq<Event>): Option<State>
    decreases |events|
  {
    if events == [] then Some(s) else
      var t := Next(s, events[0]);
      if t.None? then None else Run(t.value, events[1..])
  }

  ghost predicate From(start: State, s: State) {
    exists events :: Run(start, events) == Some(s)
  }

  ghost predicate Reachable(s: State) {
    From(INITIAL, s)
  }

  // ---------------------------------------------------------------- invariant

  /** Past the point where the path was seen free or cleared. */
  predicate OwnsPath(pc: Pc) {
    pc == SettingUp(Launching) || pc.Waiting? || pc.CleaningUp? || pc.Up? || pc.TearingDown?
  }

  predicate BeforeLaunch(pc: Pc) {
    pc.Idle? || pc.SettingUp? || pc.LockedOut?
  }

  predicate JustUnlinked(pc: Pc) {
    pc == CleaningUp(ReleasingAfter) || pc == TearingDown(Releasing)
  }

  /** One spawner and its daemon. */
  predicate Fits(lock: Option<Pid>, path: Option<Pid>, p: Pid, proc: Proc) {
    && (Holding(proc.pc) && !proc.crashed ==> lock == Some(p))
    && (BeforeLaunch(proc.pc) ==> proc.tree.NotSpawned?)
    && (CanBind(proc) ==> lock == Some(p))
    && (proc.crashed ==> !AtStake(path, p, proc))
    && (proc.pc.Down? ==> lock != Some(p))
    && (proc.pc.Up? || proc.pc.TearingDown? || proc.pc.Keeping? || proc.pc.Down? ==> !CanBind(proc))
    && (proc.pc.CleaningUp? && !proc.pc.cleanup.Killing? ==> proc.killed)
    && (path == Some(p) ==> !proc.tree.NotSpawned? && !proc.tree.Starting? && (proc.crashed || lock == Some(p)))
    && (!proc.crashed && OwnsPath(proc.pc) ==> path == None || path == Some(p))
    && (!proc.crashed && (JustUnlinked(proc.pc) || proc.pc == SettingUp(Launching)) ==> path == None)
  }

  /** While a spawner is about to clear the path, the file there cannot be in use. */
  predicate QuietPath(s: State, p: Pid) {
    var proc := ProcOf(s, p);
    !proc.crashed && proc.pc == SettingUp(Clearing) && s.path.Some? ==>
      var owner := ProcOf(s, s.path.value);
      !owner.tree.Listening? && !CanListen(owner)
  }

  /** What a spawner's place says about its acts. */
  predicate Recorded(v: View, proc: Proc) {
    && (v.launched ==> !BeforeLaunch(proc.pc))
    && (v.released ==> proc.pc.Down?)
    && (proc.pc == SettingUp(Clearing) ==> v.clean)
    && (proc.pc.Up? || proc.pc.TearingDown? ==> v.up)
    && ((proc.pc == CleaningUp(UnlinkingAfter) || proc.pc == CleaningUp(ReleasingAfter)) ==> v.clean && v.exited)
    && (proc.pc == CleaningUp(ProbingAfter(true)) ==> v.exited)
    && ((proc.pc == TearingDown(Unlinking) || proc.pc == TearingDown(Releasing)) ==> v.clean)
  }

  ghost predicate Inv(s: State) {
    && (forall p: Pid :: Fits(s.lock, s.path, p, ProcOf(s, p)))
    && (forall p: Pid :: QuietPath(s, p))
    && (forall p: Pid :: Recorded(ViewOf(s.log, p), ProcOf(s, p)))
    && AllJustified(s.log)
  }

  // ---------------------------------------------------------------- every step keeps it

  /** A step that moves only `p` and lets it act at most once. */
  ghost predicate Moves(s: State, t: State, p: Pid) {
    && (forall q: Pid :: q != p ==> ProcOf(t, q) == ProcOf(s, q))
    && (t.log == s.log || (t.log.Then? && t.log.before == s.log && t.log.last.p == p))
  }

  /** The lock goes from a dead holder to `p` or back; the path is cleared or bound by `p`. */
  ghost predicate Fair(s: State, t: State, p: Pid) {
    && (|| t.lock == s.lock
        || (t.lock == Some(p) && (s.lock.None? || ProcOf(s, s.lock.value).crashed))
        || (t.lock.None? && s.lock == Some(p)))
    && (t.path == s.path || t.path.None? || (t.path == Some(p) && t.lock == Some(p)))
    && (var was, now := ProcOf(s, p), ProcOf(t, p);
        && (was.killed ==> now.killed)
        && (now.tree == was.tree || now.tree.Gone? || CanListen(was) || was.tree.NotSpawned?))
  }

  /** What has to be shown of the spawner that moved. */
  ghost predicate Local(s: State, p: Pid) {
    && Fits(s.lock, s.path, p, ProcOf(s, p)) && QuietPath(s, p)
    && Recorded(ViewOf(s.log, p), ProcOf(s, p)) && (s.log.Then? ==> Justified(s.log.before, s.log.last))
  }

  lemma InvGivesLocal(s: State, p: Pid)
    requires Inv(s)
    ensures Local(s, p)
  {
    assert Fits(s.lock, s.path, p, ProcOf(s, p)) && QuietPath(s, p) && Recorded(ViewOf(s.log, p), ProcOf(s, p));
  }

  lemma FitsKeeps(s: State, t: State, p: Pid)
    requires Inv(s) && Moves(s, t, p) && Fair(s, t, p) && Local(t, p)
    ensures forall q: Pid :: Fits(t.lock, t.path, q, ProcOf(t, q))
  {
    forall q: Pid
      ensures Fits(t.lock, t.path, q, ProcOf(t, q))
    {
      assert Fits(s.lock, s.path, q, ProcOf(s, q));
    }
  }

  lemma QuietKeeps(s: State, t: State, p: Pid)
    requires Inv(s) && Moves(s, t, p) && Fair(s, t, p) && Local(t, p)
    ensures forall q: Pid :: QuietPath(t, q)
  {
    forall q: Pid
      ensures QuietPath(t, q)
    {
      assert QuietPath(s, q) && Fits(s.lock, s.path, q, ProcOf(s, q)) && Fits(s.lock, s.path, p, ProcOf(s, p));
    }
  }

  lemma StepKeeps(s: State, t: State, p: Pid)
    requires Inv(s) && Moves(s, t, p) && Fair(s, t, p) && Local(t, p)
    ensures Inv(t)
  {
    FitsKeeps(s, t, p);
    QuietKeeps(s, t, p);
    forall q: Pid
      ensures Recorded(ViewOf(t.log, q), ProcOf(t, q))
    {
      assert Recorded(ViewOf(s.log, q), ProcOf(s, q));
    }
  }

  /** The state after a probe that saw no listener. */
  function Cleared(s: State, p: Pid): State {
    At(Note(s, Probed(p, false)), p, SettingUp(Clearing))
  }

  lemma ClearedKeeps(s: State, p: Pid)
    requires Inv(s) && !ProcOf(s, p).crashed && !InUse(s)
    requires ProcOf(s, p).pc == SettingUp(Probing) || ProcOf(s, p).pc == SettingUp(Reprobing)
    ensures Inv(Cleared(s, p))
  {
    InvGivesLocal(s, p);
    if s.path.Some? { InvGivesLocal(s, s.path.value); }
    StepKeeps(s, Cleared(s, p), p);
  }

  lemma QuietProbeKeeps(s: State, p: Pid, step: Setup, ok: bool)
    requires Inv(s) && !ProcOf(s, p).crashed && ProcOf(s, p).pc == SettingUp(step)
    requires (step.Probing? || step.Reprobing?) && !Probe(s, ok)
    ensures Inv(GoSetup(s, p, step, ok))
  {
    ClearedKeeps(s, p);
  }

  lemma LiveProbeKeeps(s: State, p: Pid, step: Setup, ok: bool)
    requires Inv(s) && !ProcOf(s, p).crashed && ProcOf(s, p).pc == SettingUp(step)
    requires (step.Probing? || step.Reprobing?) && Probe(s, ok)
    ensures Inv(GoSetup(s, p, step, ok))
  {
    InvGivesLocal(s, p);
    StepKeeps(s, GoSetup(s, p, step, ok), p);
  }

  lemma ProbeKeeps(s: State, p: Pid, step: Setup, ok: bool)
    requires Inv(s) && !ProcOf(s, p).crashed && ProcOf(s, p).pc == SettingUp(step)
    requires step.Probing? || step.Reprobing?
    ensures Inv(GoSetup(s, p, step, ok))
  {
    if Probe(s, ok) {
      LiveProbeKeeps(s, p, step, ok);
    } else {
      QuietProbeKeeps(s, p, step, ok);
    }
  }

  lemma LookKeeps(s: State, p: Pid, ok: bool)
    requires Inv(s) && !ProcOf(s, p).crashed && ProcOf(s, p).pc == SettingUp(Looking)
    ensures Inv(GoSetup(s, p, Looking, ok))
  {
    InvGivesLocal(s, p);
    StepKeeps(s, GoSetup(s, p, Looking, ok), p);
  }

  lemma LaunchKeeps(s: State, p: Pid, ok: bool)
    requires Inv(s) && !ProcOf(s, p).crashed && ProcOf(s, p).pc == SettingUp(Launching)
    ensures Inv(GoSetup(s, p, Launching, ok))
  {
    InvGivesLocal(s, p);
    StepKeeps(s, GoSetup(s, p, Launching, ok), p);
  }

  lemma RefuseKeeps(s: State, p: Pid, ok: bool)
    requires Inv(s) && !ProcOf(s, p).crashed && ProcOf(s, p).pc == SettingUp(Refusing)
    ensures Inv(GoSetup(s, p, Refusing, ok))
  {
    InvGivesLocal(s, p);
    StepKeeps(s, GoSetup(s, p, Refusing, ok), p);
  }

  lemma ClearKeeps(s: State, p: Pid, ok: bool)
    requires Inv(s) && !ProcOf(s, p).crashed && ProcOf(s, p).pc == SettingUp(Clearing)
    ensures Inv(GoSetup(s, p, Clearing, ok))
  {
    InvGivesLocal(s, p);
    if s.path.Some? { InvGivesLocal(s, s.path.value); }
    StepKeeps(s, GoSetup(s, p, Clearing, ok), p);
  }

  lemma SetupKeeps(s: State, p: Pid, step: Setup, ok: bool)
    requires Inv(s) && !ProcOf(s, p).crashed && ProcOf(s, p).pc == SettingUp(step)
    ensures Inv(GoSetup(s, p, step, ok))
  {
    match step {
      case Reaping(orphan) => ReapKeeps(s, p, orphan, ok);
      case Clearing => ClearKeeps(s, p, ok);
      case Probing => ProbeKeeps(s, p, step, ok);
      case Reprobing => ProbeKeeps(s, p, step, ok);
      case Looking => LookKeeps(s, p, ok);
      case Launching => LaunchKeeps(s, p, ok);
      case Refusing => RefuseKeeps(s, p, ok);
    }
  }

  /** Killing the holder of the socket, whose spawner is dead. */
  lemma KillKeeps(s: State, q: Pid)
    requires Inv(s)
    ensures Inv(Killed(s, q))
  {
    InvGivesLocal(s, q);
    if s.path.Some? { InvGivesLocal(s, s.path.value); }
    StepKeeps(s, Killed(s, q), q);
  }

  lemma ReapKeeps(s: State, p: Pid, orphan: Pid, ok: bool)
    requires Inv(s) && !ProcOf(s, p).crashed && ProcOf(s, p).pc == SettingUp(Reaping(orphan))
    ensures Inv(GoSetup(s, p, Reaping(orphan), ok))
  {
    var k := if ok then Killed(s, orphan) else s;
    KillKeeps(s, orphan);
    InvGivesLocal(k, p);
    StepKeeps(k, GoSetup(s, p, Reaping(orphan), ok), p);
  }

  lemma CleanupKeeps(s: State, p: Pid, step: Cleanup, ok: bool)
    requires Inv(s) && !ProcOf(s, p).crashed && ProcOf(s, p).pc == CleaningUp(step)
    ensures Inv(GoCleanup(s, p, step, ok))
  {
    match step {
      case ReleasingAfter => ReleaseAfterKeeps(s, p, ok);
      case UnlinkingAfter => UnlinkAfterKeeps(s, p, ok);
      case _ => KillAndWaitKeeps(s, p, step, ok);
    }
  }

  lemma KillAndWaitKeeps(s: State, p: Pid, step: Cleanup, ok: bool)
    requires Inv(s) && !ProcOf(s, p).crashed && ProcOf(s, p).pc == CleaningUp(step)
    requires step.Killing? || step.AwaitingExit? || step.ProbingAfter?
    ensures Inv(GoCleanup(s, p, step, ok))
  {
    InvGivesLocal(s, p);
    StepKeeps(s, GoCleanup(s, p, step, ok), p);
  }

  lemma UnlinkAfterKeeps(s: State, p: Pid, ok: bool)
    requires Inv(s) && !ProcOf(s, p).crashed && ProcOf(s, p).pc == CleaningUp(UnlinkingAfter)
    ensures Inv(GoCleanup(s, p, UnlinkingAfter, ok))
  {
    InvGivesLocal(s, p);
    StepKeeps(s, GoCleanup(s, p, UnlinkingAfter, ok), p);
  }

  lemma ReleaseAfterKeeps(s: State, p: Pid, ok: bool)
    requires Inv(s) && !ProcOf(s, p).crashed && ProcOf(s, p).pc == CleaningUp(ReleasingAfter)
    ensures Inv(GoCleanup(s, p, ReleasingAfter, ok))
  {
    InvGivesLocal(s, p);
    StepKeeps(s, GoCleanup(s, p, ReleasingAfter, ok), p);
  }

  lemma TeardownKeeps(s: State, p: Pid, step: Teardown, ok: bool)
    requires Inv(s) && !ProcOf(s, p).crashed && ProcOf(s, p).pc == TearingDown(step)
    ensures Inv(GoTeardown(s, p, step, ok))
  {
    match step {
      case Releasing => ReleaseKeeps(s, p, ok);
      case Unlinking => UnlinkKeeps(s, p, ok);
      case _ => ProbeAndKillKeeps(s, p, step, ok);
    }
  }

  lemma ProbeAndKillKeeps(s: State, p: Pid, step: Teardown, ok: bool)
    requires Inv(s) && !ProcOf(s, p).crashed && ProcOf(s, p).pc == TearingDown(step)
    requires step.FirstProbe? || step.Escalating? || step.SecondProbe?
    ensures Inv(GoTeardown(s, p, step, ok))
  {
    InvGivesLocal(s, p);
    StepKeeps(s, GoTeardown(s, p, step, ok), p);
  }

  lemma UnlinkKeeps(s: State, p: Pid, ok: bool)
    requires Inv(s) && !ProcOf(s, p).crashed && ProcOf(s, p).pc == TearingDown(Unlinking)
    ensures Inv(GoTeardown(s, p, Unlinking, ok))
  {
    InvGivesLocal(s, p);
    StepKeeps(s, GoTeardown(s, p, Unlinking, ok), p);
  }

  lemma ReleaseKeeps(s: State, p: Pid, ok: bool)
    requires Inv(s) && !ProcOf(s, p).crashed && ProcOf(s, p).pc == TearingDown(Releasing)
    ensures Inv(GoTeardown(s, p, Releasing, ok))
  {
    InvGivesLocal(s, p);
    StepKeeps(s, GoTeardown(s, p, Releasing, ok), p);
  }

  lemma GoKeeps(s: State, p: Pid, ok: bool)
    requires Inv(s) && !ProcOf(s, p).crashed && OnGo(s, p, ok).Some?
    ensures Inv(OnGo(s, p, ok).value)
  {
    match ProcOf(s, p).pc {
      case SettingUp(step) => SetupKeeps(s, p, step, ok);
      case Waiting =>
        InvGivesLocal(s, p);
        StepKeeps(s, OnGo(s, p, ok).value, p);
      case CleaningUp(step) => CleanupKeeps(s, p, step, ok);
      case TearingDown(step) => TeardownKeeps(s, p, step, ok);
      case _ =>
    }
  }

  lemma SpawnerKeeps(s: State, e: Event)
    requires Inv(s) && Next(s, e).Some? && Disciplined(Next(s, e).value)
    requires e.Acquire? || e.StartTeardown? || e.TeardownAgain? || e.Crash?
    ensures Inv(Next(s, e).value)
  {
    InvGivesLocal(s, e.p);
    StepKeeps(s, Next(s, e).value, e.p);
  }

  lemma DaemonKeeps(s: State, e: Event)
    requires Inv(s) && Next(s, e).Some? && (e.Bind? || e.Listen? || e.Die?)
    ensures Inv(Next(s, e).value)
  {
    InvGivesLocal(s, e.p);
    StepKeeps(s, Next(s, e).value, e.p);
  }

  lemma NextKeeps(s: State, e: Event)
    requires Inv(s) && Next(s, e).Some? && Disciplined(Next(s, e).value)
    ensures Inv(Next(s, e).value)
  {
    match e {
      case Go(p, ok) => GoKeeps(s, p, ok);
      case Bind(_) => DaemonKeeps(s, e);
      case Listen(_) => DaemonKeeps(s, e);
      case Die(_) => DaemonKeeps(s, e);
      case _ => SpawnerKeeps(s, e);
    }
  }

  lemma {:induction false} DisciplineIsKept(s: State, events: seq<Event>)
    requires Run(s, events).Some? && Disciplined(Run(s, events).value)
    ensures Disciplined(s)
    decreases |events|
  {
    if events != [] { DisciplineIsKept(Next(s, events[0]).value, events[1..]); }
  }

  lemma {:induction false} RunKeeps(s: State, events: seq<Event>)
    requires Inv(s) && Run(s, events).Some? && Disciplined(Run(s, events).value)
    ensures Inv(Run(s, events).value)
    decreases |events|
  {
    if events != [] {
      DisciplineIsKept(Next(s, events[0]).value, events[1..]);
      NextKeeps(s, events[0]);
      RunKeeps(Next(s, events[0]).value, events[1..]);
    }
  }

  lemma ReachableInv(s: State)
    requires Reachable(s) && Disciplined(s)
    ensures Inv(s)
  {
    var events :| Run(INITIAL, events) == Some(s);
    RunKeeps(INITIAL, events);
  }

  // ---------------------------------------------------------------- main results

  ghost predicate Within(h: History, log: History) {
    h == log || (log.Then? && Within(h, log.before))
  }

  lemma {:induction false} JustifiedWithin(h: History, log: History)
    requires AllJustified(log) && Within(h, log) && h.Then?
    ensures Justified(h.before, h.last)
  {
    if h != log { JustifiedWithin(h, log.before); }
  }

  /** Every unlink and every release, in any interleaving, was allowed by what came before it. */
  lemma EveryActIsJustified(s: State, h: History)
    requires Reachable(s) && Disciplined(s)
    requires Within(h, s.log) && h.Then?
    ensures Justified(h.before, h.last)
  {
    ReachableInv(s);
    JustifiedWithin(h, s.log);
  }

  /** At most one live spawner is between taking the lock and giving it up, and the daemon that
      listens at the path, unless its spawner is dead, is the one of the lock's holder. */
  lemma OneOwner(s: State, p: Pid, q: Pid)
    requires Reachable(s) && Disciplined(s)
    requires Holding(ProcOf(s, p).pc) && !ProcOf(s, p).crashed
    ensures Holding(ProcOf(s, q).pc) && !ProcOf(s, q).crashed ==> q == p
    ensures s.path == Some(q) && !ProcOf(s, q).crashed ==> q == p
    ensures CanBind(ProcOf(s, q)) ==> q == p
  {
    ReachableInv(s);
    InvGivesLocal(s, p);
    InvGivesLocal(s, q);
  }

  // ---------------------------------------------------------------- what discipline is needed for

  lemma {:induction false} RunAppend(s: State, events: seq<Event>, e: Event)
    requires Run(s, events).Some?
    ensures Run(s, events + [e]) == Next(Run(s, events).value, e)
    decreases |events|
  {
    if events == [] {
      assert [] + [e] == [e];
    } else {
      RunAppend(Next(s, events[0]).value, events[1..], e);
      assert (events + [e])[1..] == events[1..] + [e];
    }
  }

  lemma FromItself(s: State)
    ensures From(s, s)
  {
    assert Run(s, []) == Some(s);
  }

  lemma Onward(start: State, s: State, e: Event) returns (t: State)
    requires From(start, s) && Next(s, e).Some?
    ensures t == Next(s, e).value && From(start, t)
  {
    t := Next(s, e).value;
    var events :| Run(start, events) == Some(s);
    RunAppend(start, events, e);
    assert Run(start, events + [e]) == Some(t);
  }

  /** A spawner takes a lock that is free or a dead one's. */
  lemma Acquires(start: State, s: State, p: Pid) returns (t: State)
    requires From(start, s) && ProcOf(s, p) == FRESH
    requires s.lock.None? || ProcOf(s, s.lock.value).crashed
    ensures From(start, t) && t == At(s, p, SettingUp(Looking)).(lock := Some(p))
  {
    t := Onward(start, s, Acquire(p));
  }

  /** It finds no socket file and spawns its daemon. */
  lemma Launches(start: State, s: State, p: Pid) returns (t: State)
    requires From(start, s) && ProcOf(s, p) == FRESH && s.path.None?
    requires s.lock.None? || ProcOf(s, s.lock.value).crashed
    ensures From(start, t) && SameFaults(s, t) && t.lock == Some(p) && t.path.None?
    ensures t.procs == s.procs[p := Proc(Waiting, Starting, false, false)]
    ensures t.log == Then(s.log, Launched(p))
  {
    var a := Acquires(start, s, p);
    var b := Onward(start, a, Go(p, true));
    assert b == At(a, p, SettingUp(Launching));
    t := Spawns(start, b, p);
  }

  lemma Spawns(start: State, s: State, p: Pid) returns (t: State)
    requires From(start, s) && ProcOf(s, p) == Proc(SettingUp(Launching), NotSpawned, false, false)
    ensures From(start, t) && SameFaults(s, t) && t.lock == s.lock && t.path == s.path
    ensures t.procs == s.procs[p := Proc(Waiting, Starting, false, false)]
    ensures t.log == Then(s.log, Launched(p))
  {
    t := Onward(start, s, Go(p, true));
  }

  /** A teardown probes a bound socket that nobody listens on yet; its owner starts to listen,
      and the unlink takes the socket away from it. */
  lemma LateUnlink(start: State, s: State, p: Pid, owner: Pid) returns (t: State)
    requires From(start, s) && p != owner && s.path == Some(owner)
    requires ProcOf(s, p).pc == TearingDown(FirstProbe) && !ProcOf(s, p).crashed
    requires ProcOf(s, owner).tree.Bound? && !ProcOf(s, owner).killed
    ensures From(start, t) && SameFaults(s, t) && !AllJustified(t.log)
    ensures t.log.last == Unlinked(p, Some(owner), true) && ProcOf(t, owner).crashed == ProcOf(s, owner).crashed
  {
    var a := Onward(start, s, Go(p, true));
    var b := Onward(start, a, Listen(owner));
    t := Onward(start, b, Go(p, true));
  }

  /** A spawner clears what it takes for litter; the owner comes to listen right before. */
  lemma LateClear(start: State, s: State, p: Pid, owner: Pid) returns (t: State)
    requires From(start, s) && p != owner && s.path == Some(owner)
    requires ProcOf(s, p).pc == SettingUp(Looking) && !ProcOf(s, p).crashed
    requires ProcOf(s, owner).tree.Bound? && !ProcOf(s, owner).killed
    ensures From(start, t) && SameFaults(s, t) && !AllJustified(t.log)
  {
    var a := Onward(start, s, Go(p, true));
    assert a == At(s, p, SettingUp(Probing));
    var b := Onward(start, a, Go(p, true));
    assert b == At(Note(a, Probed(p, false)), p, SettingUp(Clearing));
    var c := Onward(start, b, Listen(owner));
    t := Onward(start, c, Go(p, true));
    assert t.log.last == Unlinked(p, Some(owner), true);
  }

  lemma ComesUpAndStops(start: State, s: State, p: Pid) returns (t: State)
    requires From(start, s) && s.path.Some? && ProcOf(s, p).pc.Waiting? && !ProcOf(s, p).crashed
    ensures From(start, t) && t.path == s.path && t.lock == s.lock && SameFaults(s, t)
    ensures t.procs == s.procs[p := ProcOf(s, p).(pc := TearingDown(FirstProbe))]
    ensures t.log == Then(s.log, CameUp(p))
  {
    var a := Onward(start, s, Go(p, true));
    t := Onward(start, a, StartTeardown(p));
  }

  /** The tree of a dead spawner takes the path before the next one's, whose teardown then
      unlinks it. */
  lemma OldTreeLosesItsSocket(start: State, s: State, p: Pid, q: Pid) returns (t: State)
    requires From(start, s) && p != q && s.lock == Some(p) && s.path.None?
    requires ProcOf(s, p).crashed && CanBind(ProcOf(s, p)) && ProcOf(s, q) == FRESH
    ensures From(start, t) && SameFaults(s, t) && !AllJustified(t.log) && t.log.last == Unlinked(q, Some(p), true)
  {
    var a := Launches(start, s, q);
    var b := Onward(start, a, Bind(p));
    var c := ComesUpAndStops(start, b, q);
    t := LateUnlink(start, c, q, p);
  }

  /** A spawner dies while its daemon is still starting; the next holder of the lock can then
      unlink that daemon's socket while it is in use. */
  lemma EarlyCrashBreaksIt() returns (t: State)
    ensures Reachable(t) && t.earlyCrash && !t.tornAgain
    ensures t.log.Then? && t.log.last == Unlinked(1, Some(0), true)
  {
    FromItself(INITIAL);
    var a := Launches(INITIAL, INITIAL, 0);
    var b := Onward(INITIAL, a, Crash(0));
    t := OldTreeLosesItsSocket(INITIAL, b, 0, 1);
  }

  /** The orderly life of one daemon, up to the release of the lock. */
  lemma ComesAndGoes() returns (t: State)
    ensures Reachable(t) && t.path.None? && t.lock.None? && Disciplined(t)
    ensures ProcOf(t, 0) == Proc(Down, Bound, false, false) && ProcOf(t, 1) == FRESH
    ensures ViewOf(t.log, 0).up && ViewOf(t.log, 0).released
  {
    FromItself(INITIAL);
    var a := Launches(INITIAL, INITIAL, 0);
    var b := Onward(INITIAL, a, Bind(0));
    var c := ComesUpAndStops(INITIAL, b, 0);
    assert ViewOf(c.log, 0).up && !ViewOf(c.log, 0).released;
    t := GoesDown(INITIAL, c, 0);
  }

  lemma GoesDown(start: State, s: State, p: Pid) returns (t: State)
    requires From(start, s) && s.path.Some? && !InUse(s) && s.lock == Some(p) && !ViewOf(s.log, p).released
    requires ProcOf(s, p).pc == TearingDown(FirstProbe) && !ProcOf(s, p).crashed
    ensures From(start, t) && t.path.None? && t.lock.None? && SameFaults(s, t)
    ensures t.procs == s.procs[p := ProcOf(s, p).(pc := Down)]
    ensures ViewOf(t.log, p) == ViewOf(s.log, p).(clean := false, released := true)
  {
    var a := SeesNoListener(start, s, p);
    var b := UnlinksItsOwn(start, a, p);
    t := ReleasesItsLock(start, b, p);
    assert t.procs == s.procs[p := ProcOf(s, p).(pc := Down)];
  }

  lemma SeesNoListener(start: State, s: State, p: Pid) returns (t: State)
    requires From(start, s) && !InUse(s) && ProcOf(s, p).pc == TearingDown(FirstProbe) && !ProcOf(s, p).crashed
    ensures From(start, t) && t.path == s.path && t.lock == s.lock && SameFaults(s, t)
    ensures t.procs == s.procs[p := ProcOf(s, p).(pc := TearingDown(Unlinking))]
    ensures ViewOf(t.log, p) == ViewOf(s.log, p).(clean := true)
  {
    t := Onward(start, s, Go(p, true));
  }

  lemma UnlinksItsOwn(start: State, s: State, p: Pid) returns (t: State)
    requires From(start, s) && ProcOf(s, p).pc == TearingDown(Unlinking) && !ProcOf(s, p).crashed
    ensures From(start, t) && t.path.None? && t.lock == s.lock && SameFaults(s, t)
    ensures t.procs == s.procs[p := ProcOf(s, p).(pc := TearingDown(Releasing))]
    ensures ViewOf(t.log, p) == ViewOf(s.log, p)
  {
    t := Onward(start, s, Go(p, true));
  }

  lemma ReleasesItsLock(start: State, s: State, p: Pid) returns (t: State)
    requires From(start, s) && s.lock == Some(p) && !ViewOf(s.log, p).released
    requires ProcOf(s, p).pc == TearingDown(Releasing) && !ProcOf(s, p).crashed
    ensures From(start, t) && t.path == s.path && t.lock.None? && SameFaults(s, t)
    ensures t.procs == s.procs[p := ProcOf(s, p).(pc := Down)]
    ensures ViewOf(t.log, p) == ViewOf(s.log, p).(clean := false, released := true)
  {
    t := Onward(start, s, Go(p, true));
  }

  /** A handle is torn down again after its lock was given up; it can then unlink the socket of
      the next owner while that is in use. */
  lemma TeardownAgainBreaksIt() returns (t: State)
    ensures Reachable(t) && t.tornAgain && !t.earlyCrash && !ProcOf(t, 1).crashed
    ensures t.log.Then? && t.log.last == Unlinked(0, Some(1), true)
  {
    var a := ComesAndGoes();
    var b := Launches(INITIAL, a, 1);
    var c := Onward(INITIAL, b, Bind(1));
    assert ViewOf(c.log, 0).up && ProcOf(c, 0).pc.Down?;
    var d := Onward(INITIAL, c, TeardownAgain(0));
    t := LateUnlink(INITIAL, d, 0, 1);
  }

  /** When the environment may do some of the two, every act of every interleaving is justified if
      and only if it may do neither. */
  lemma AlwaysJustifiedExactlyWhen(earlyCrashes: bool, secondTeardowns: bool)
    ensures (forall s :: Reachable(s) && (s.earlyCrash ==> earlyCrashes) && (s.tornAgain ==> secondTeardowns)
                         ==> AllJustified(s.log))
            <==> !earlyCrashes && !secondTeardowns
  {
    if earlyCrashes {
      var t := EarlyCrashBreaksIt();
      assert !AllJustified(t.log);
    } else if secondTeardowns {
      var t := TeardownAgainBreaksIt();
      assert !AllJustified(t.log);
    } else {
      forall s | Reachable(s) && Disciplined(s)
        ensures AllJustified(s.log)
      {
        ReachableInv(s);
      }
    }
  }

  // ---------------------------------------------------------------- which step does the harm

  /** The two kinds of step that discipline rules out. */
  predicate Faulty(s: State, e: Event) {
    e.TeardownAgain? || (e.Crash? && AtStake(s.path, e.p, ProcOf(s, e.p)))
  }

  function Forgiven(s: State): State {
    s.(earlyCrash := false, tornAgain := false)
  }

  /** Some continuation without a further faulty step has an act that nothing justifies. */
  ghost predicate CanBreak(s: State) {
    exists t :: From(Forgiven(s), t) && Disciplined(t) && !AllJustified(t.log)
  }

  lemma {:induction false} SomeBound(pids: set<Pid>) returns (n: nat)
    ensures forall p :: p in pids ==> p < n
    decreases |pids|
  {
    if pids == {} {
      n := 0;
    } else {
      var x :| x in pids;
      var rest := SomeBound(pids - {x});
      n := Max(rest, x + 1);
      forall p | p in pids
        ensures p < n
      {
        assert p == x || p in pids - {x};
      }
    }
  }

  lemma SomeFresh(s: State) returns (q: Pid)
    ensures ProcOf(s, q) == FRESH && q !in s.procs
  {
    q := SomeBound(s.procs.Keys);
  }

  /** A spawner that may still bind finds the path free. */
  lemma StartingHasNoFile(s: State, p: Pid)
    requires Inv(s) && CanBind(ProcOf(s, p)) && !ProcOf(s, p).crashed
    ensures s.path.None? && s.lock == Some(p) && ProcOf(s, p).pc != Down
  {
    InvGivesLocal(s, p);
  }

  lemma EarlyCrashCanBreak(s: State, p: Pid)
    requires Inv(s) && Next(s, Crash(p)).Some? && AtStake(s.path, p, ProcOf(s, p))
    ensures CanBreak(Next(s, Crash(p)).value)
  {
    InvGivesLocal(s, p);
    var u := Forgiven(Next(s, Crash(p)).value);
    FromItself(u);
    var q := SomeFresh(u);
    var t;
    if CanBind(ProcOf(s, p)) {
      StartingHasNoFile(s, p);
      t := OldTreeLosesItsSocket(u, u, p, q);
    } else {
      var a := Acquires(u, u, q);
      t := LateClear(u, a, q, p);
    }
    assert From(u, t) && Disciplined(t) && !AllJustified(t.log);
  }

  /** `p` is about to tear down a handle whose lock it gave up; all else is in order. */
  ghost predicate TearingAgain(s: State, p: Pid) {
    && ProcOf(s, p).pc == TearingDown(FirstProbe) && !ProcOf(s, p).crashed
    && s.lock != Some(p) && s.path != Some(p) && Disciplined(s)
  }

  /** The next owner loses its socket to the second teardown. */
  lemma NextOwnerLosesItsSocket(start: State, s: State, p: Pid, q: Pid) returns (t: State)
    requires From(start, s) && TearingAgain(s, p) && p != q && s.path.None? && CanBind(ProcOf(s, q))
    ensures From(start, t) && Disciplined(t) && !AllJustified(t.log)
  {
    var a := Onward(start, s, Bind(q));
    t := LateUnlink(start, a, p, q);
  }

  /** A new spawner with a free path ahead. */
  lemma LaunchIsLost(start: State, s: State, p: Pid, q: Pid) returns (t: State)
    requires From(start, s) && TearingAgain(s, p) && p != q && s.path.None?
    requires ProcOf(s, q) == Proc(SettingUp(Launching), NotSpawned, false, false) && s.lock == Some(q)
    ensures From(start, t) && Disciplined(t) && !AllJustified(t.log)
  {
    var a := Spawns(start, s, q);
    t := NextOwnerLosesItsSocket(start, a, p, q);
  }

  /** A new spawner clears litter on its path. */
  lemma ClearIsLost(start: State, s: State, p: Pid, q: Pid) returns (t: State)
    requires From(start, s) && TearingAgain(s, p) && p != q && s.lock == Some(q)
    requires ProcOf(s, q) == Proc(SettingUp(Clearing), NotSpawned, false, false)
    ensures From(start, t) && Disciplined(t) && !AllJustified(t.log)
  {
    var a := Onward(start, s, Go(q, true));
    assert a == At(Unlink(s, q), q, SettingUp(Launching));
    t := LaunchIsLost(start, a, p, q);
  }

  /** A new spawner kills the listener whose spawner is dead. */
  lemma ReapIsLost(start: State, s: State, p: Pid, q: Pid, x: Pid) returns (t: State)
    requires From(start, s) && TearingAgain(s, p) && p != q && s.lock == Some(q) && s.path == Some(x) && x != q
    requires ProcOf(s, q) == Proc(SettingUp(Reaping(x)), NotSpawned, false, false) && ProcOf(s, x).tree.Listening?
    ensures From(start, t) && Disciplined(t) && !AllJustified(t.log)
  {
    var a := Onward(start, s, Go(q, true));
    assert a == At(Killed(s, x), q, SettingUp(Reprobing));
    var b := Onward(start, a, Die(x));
    assert b == WithTree(a, x, Gone);
    var c := Onward(start, b, Go(q, true));
    assert c == At(Note(b, Probed(q, false)), q, SettingUp(Clearing));
    t := ClearIsLost(start, c, p, q);
  }

  /** A new spawner takes the free lock; whatever it finds at the path, the second teardown can
      take its socket away. */
  lemma NewcomerIsLost(start: State, s: State, p: Pid, q: Pid) returns (t: State)
    requires From(start, s) && TearingAgain(s, p) && ProcOf(s, q) == FRESH
    requires s.lock.None? || ProcOf(s, s.lock.value).crashed
    requires s.path.Some? ==> !ProcOf(s, s.path.value).tree.NotSpawned?
    ensures From(start, t) && Disciplined(t) && !AllJustified(t.log)
  {
    var a := Acquires(start, s, q);
    var b := Onward(start, a, Go(q, true));
    if s.path.None? {
      t := LaunchIsLost(start, b, p, q);
    } else {
      assert b == At(a, q, SettingUp(Probing));
      var c := Onward(start, b, Go(q, true));
      if InUse(s) {
        t := ReapIsLost(start, c, p, q, s.path.value);
      } else {
        t := ClearIsLost(start, c, p, q);
      }
    }
  }

  /** The holder of the lock, if it lives, can die without harm, unless its daemon can take the
      path and lose it. */
  lemma LockBecomesFree(start: State, s: State, p: Pid) returns (t: State)
    requires From(start, s) && TearingAgain(s, p)
    requires s.lock.Some? ==> !AtStake(s.path, s.lock.value, ProcOf(s, s.lock.value))
    ensures From(start, t) && TearingAgain(t, p) && t.path == s.path
    ensures t.lock.None? || ProcOf(t, t.lock.value).crashed
    ensures forall r: Pid :: ProcOf(t, r).tree == ProcOf(s, r).tree
  {
    if s.lock.None? || ProcOf(s, s.lock.value).crashed {
      t := s;
    } else {
      t := Onward(start, s, Crash(s.lock.value));
    }
  }

  lemma SecondTeardownCanBreak(s: State, p: Pid)
    requires Inv(s) && Next(s, TeardownAgain(p)).Some?
    ensures CanBreak(Next(s, TeardownAgain(p)).value)
  {
    InvGivesLocal(s, p);
    var u := Forgiven(Next(s, TeardownAgain(p)).value);
    FromItself(u);
    var t;
    if s.lock.Some? && AtStake(s.path, s.lock.value, ProcOf(s, s.lock.value)) {
      InvGivesLocal(s, s.lock.value);
      if CanBind(ProcOf(s, s.lock.value)) {
        t := NextOwnerLosesItsSocket(u, u, p, s.lock.value);
      } else {
        t := LateUnlink(u, u, p, s.lock.value);
      }
    } else {
      if s.path.Some? { InvGivesLocal(s, s.path.value); }
      var a := LockBecomesFree(u, u, p);
      var q := SomeFresh(a);
      t := NewcomerIsLost(u, a, p, q);
    }
    assert From(u, t) && Disciplined(t) && !AllJustified(t.log);
  }

  /** Taken from any state of a disciplined run, a step leaves a state from which things can go
      wrong without a further faulty step if and only if it is faulty itself: a crash of a
      spawner whose daemon may yet come to listen at the path, or a second teardown. */
  lemma StepIsHarmlessExactlyWhen(s: State, e: Event)
    requires Reachable(s) && Disciplined(s) && Next(s, e).Some?
    ensures CanBreak(Next(s, e).value) <==> Faulty(s, e)
  {
    ReachableInv(s);
    if Faulty(s, e) {
      if e.Crash? { EarlyCrashCanBreak(s, e.p); } else { SecondTeardownCanBreak(s, e.p); }
    } else {
      NextKeeps(s, e);
      OrderlyCannotBreak(Next(s, e).value);
    }
  }

  lemma OrderlyCannotBreak(s: State)
    requires Inv(s) && Disciplined(s)
    ensures !CanBreak(s)
  {
    forall t | From(Forgiven(s), t) && Disciplined(t)
      ensures AllJustified(t.log)
    {
      var events :| Run(s, events) == Some(t);
      RunKeeps(s, events);
    }
  }
}
