/**
 The claim marker that keeps two Stop hooks from sending the same leaked reply
 (discord-reply-enforcer.py). Any number of hook processes run `_auto_exec_reply` for one key
 and interleave at every file operation; each may be killed anywhere, and writes may fail.
 */
module ReplyClaim {
  import opened Prelude

  datatype Status = Claimed | Posting | Sent | Failed

  predicate Terminal(st: Status) { st.Sent? || st.Failed? }

  /** What reading the marker yields: a record, or nothing usable (empty, partial, corrupt). */
  datatype Content = Unreadable | Record(status: Status, nonce: nat, ts: nat)

  /** The marker file; `creator` is the process whose exclusive create made it. */
  datatype Marker = Absent | Present(creator: nat, content: Content, mtime: nat)

  const CLAIM_TTL_S := 60

  /** How a hook ends for the user: silently, or with a plain or an ambiguous nudge. */
  datatype Verdict = Silent | Nudge | Ambiguous

  /** Where one hook process stands. `target` is the status being recorded. */
  datatype Proc =
    | Fresh
    | Created(nonce: nat)                       // the exclusive create landed, nothing written yet
    | Comparing(nonce: nat, target: Status)     // claim_set: about to read and compare
    | Opening(nonce: nat, target: Status)       // claim_set: about to truncate the file
    | Writing(nonce: nat, target: Status)       // claim_set: truncated, about to write
    | InPost(nonce: nat)                        // inside the POST loop
    | Pruning
    | Over(verdict: Verdict)
    | Killed

  /** Between winning the create and recording SENT or FAILED. */
  predicate InFlight(p: Proc) {
    p.Created? || p.Comparing? || p.Opening? || p.Writing? || p.InPost?
  }

  // ---------------------------------------------------------------- history

  datatype Act =
    | Won(pid: nat)                     // won the exclusive create
    | PostEntered(pid: nat)
    | Posted(pid: nat)                  // one POST request
    | Recorded(pid: nat)                // SENT or FAILED is on disk
    | PostingRefused(pid: nat)          // the compare-and-set to POSTING failed
    | Removed                           // a prune deleted the marker

  datatype History = Start | Then(before: History, last: Act)

  ghost predicate Did(h: History, a: Act) {
    h.Then? && (h.last == a || Did(h.before, a))
  }

  /** Who won the create of the marker now on disk. */
  ghost function Winner(h: History): Option<nat> {
    if h.Start? || h.last.Removed? then None
    else if h.last.Won? then Some(h.last.pid)
    else Winner(h.before)
  }

  /** The current winner has recorded its outcome. */
  ghost predicate Settled(h: History) {
    h.Then? && !h.last.Won? && (h.last.Recorded? || Settled(h.before))
  }

  /** What must hold before `a` may happen. */
  ghost predicate Justified(h: History, a: Act) {
    match a
    case Won(p) => Winner(h) == None && !Did(h, Won(p))
    case PostEntered(p) => Winner(h) == Some(p) && !Settled(h) && !Did(h, PostEntered(p))
    case Posted(p) => Winner(h) == Some(p) && !Settled(h) && Did(h, PostEntered(p))
    case Recorded(p) => Winner(h) == Some(p) && !Settled(h) && Did(h, PostEntered(p))
    case PostingRefused(_) => false
    case Removed => Winner(h).Some? && Settled(h)
  }

  ghost predicate AllJustified(h: History) {
    h.Then? ==> AllJustified(h.before) && Justified(h.before, h.last)
  }

  // ---------------------------------------------------------------- the machine

  datatype State = State(marker: Marker, procs: map<nat, Proc>, now: nat, log: History)

  function ProcOf(s: State, pid: nat): Proc {
    if pid in s.procs then s.procs[pid] else Fresh
  }

  datatype Event =
    | Tick(seconds: nat)
    | Attempt(pid: nat, nonce: nat)     // atomic_claim
    | Go(pid: nat, ok: bool)            // the next file operation, or the end of the POST loop
    | Post(pid: nat)
    | Raise(pid: nat)                   // an exception leaves the POST loop; the caller nudges
    | Prune(pid: nat)                   // read, check and unlink this key's marker
    | Kill(pid: nat)

  function At(s: State, pid: nat, p: Proc): State {
    s.(procs := s.procs[pid := p])
  }

  function Note(s: State, a: Act): State {
    s.(log := Then(s.log, a))
  }

  function Fill(s: State, content: Content): State {
    if s.marker.Absent? then s else s.(marker := s.marker.(content := content, mtime := s.now))
  }

  /** atomic_claim on an existing marker, and what `_auto_exec_reply` does with the answer. */
  function Judge(m: Marker, now: nat): Verdict
    requires m.Present?
  {
    match m.content
    case Unreadable => if now - m.mtime <= CLAIM_TTL_S then Silent else Ambiguous
    case Record(status, _, ts) =>
      if status.Sent? then Silent
      else if status.Failed? then Nudge
      else if now - ts <= CLAIM_TTL_S then Silent
      else if status.Posting? then Ambiguous
      else Nudge
  }

  /** claim_set returned: True after a write, whether or not the bytes reached the disk. */
  function AfterSet(s: State, pid: nat, nonce: nat, target: Status): State {
    if target.Posting? then At(Note(s, PostEntered(pid)), pid, InPost(nonce))
    else At(s, pid, if target.Sent? then Pruning else Over(Nudge))
  }

  function OnGo(s: State, pid: nat, p: Proc, ok: bool): Option<State> {
    match p
    case Created(nonce) =>
      // a failed first write raises, and the caller falls back to a nudge
      Some(if ok then At(Fill(s, Record(Claimed, nonce, s.now)), pid, Comparing(nonce, Posting))
           else At(s, pid, Over(Nudge)))
    case Comparing(nonce, target) =>
      if s.marker.Present? && s.marker.content.Record? && s.marker.content.nonce == nonce
      then Some(At(s, pid, Opening(nonce, target)))
      else if target.Posting? then Some(At(Note(s, PostingRefused(pid)), pid, Over(Silent)))
      else Some(At(s, pid, if target.Sent? then Pruning else Over(Nudge)))
    case Opening(nonce, target) =>
      Some(if ok then At(Fill(s, Unreadable), pid, Writing(nonce, target)) else AfterSet(s, pid, nonce, target))
    case Writing(nonce, target) =>
      if !ok then Some(AfterSet(s, pid, nonce, target))
      else
        var s1 := Fill(s, Record(target, nonce, s.now));
        Some(AfterSet(if Terminal(target) then Note(s1, Recorded(pid)) else s1, pid, nonce, target))
    case InPost(nonce) => Some(At(s, pid, Comparing(nonce, if ok then Sent else Failed)))
    case Pruning => Some(At(s, pid, Over(Silent)))
    case _ => None
  }

  function Next(s: State, e: Event): Option<State> {
    match e
    case Tick(d) => Some(s.(now := s.now + d))
    case Attempt(pid, nonce) =>
      if !ProcOf(s, pid).Fresh? then None
      else if s.marker.Absent? then
        Some(At(Note(s, Won(pid)), pid, Created(nonce)).(marker := Present(pid, Unreadable, s.now)))
      else Some(At(s, pid, Over(Judge(s.marker, s.now))))
    case Go(pid, ok) => OnGo(s, pid, ProcOf(s, pid), ok)
    case Post(pid) => if ProcOf(s, pid).InPost? then Some(Note(s, Posted(pid))) else None
    case Raise(pid) => if ProcOf(s, pid).InPost? then Some(At(s, pid, Over(Nudge))) else None
    case Prune(pid) =>
      if !ProcOf(s, pid).Pruning? then None
      else if s.marker.Present? && s.marker.content.Record? && Terminal(s.marker.content.status)
      then Some(Note(s, Removed).(marker := Absent))
      else Some(s)
    case Kill(pid) => if ProcOf(s, pid).Killed? then None else Some(At(s, pid, Killed))
  }

  function Run(s: State, events: seq<Event>): Option<State>
    decreases |events|
  {
    if events == [] then Some(s) else
      var t := Next(s, events[0]);
      if t.None? then None else Run(t.value, events[1..])
  }

  const INITIAL := State(Absent, map[], 0, Start)

  ghost predicate Reachable(s: State) {
    exists events :: Run(INITIAL, events) == Some(s)
  }

  // ---------------------------------------------------------------- invariant

  /** What the marker holds while its creator is in flight. */
  predicate Fits(p: Proc, c: Content) {
    match p
    case Created(_) => c.Unreadable?
    case Comparing(n, t) =>
      if t.Posting? then c.Record? && c.nonce == n && c.status.Claimed? else c.Unreadable? || !Terminal(c.status)
    case Opening(n, t) => c.Record? && c.nonce == n && !Terminal(c.status)
    case Writing(_, _) => c.Unreadable?
    case InPost(_) => c.Unreadable? || !Terminal(c.status)
    case _ => true
  }

  /** Whether the process has entered the POST loop. */
  predicate BeforePost(p: Proc) {
    p.Fresh? || p.Created? || ((p.Comparing? || p.Opening? || p.Writing?) && p.target.Posting?)
  }

  ghost predicate ProcInv(h: History, m: Marker, pid: nat, p: Proc) {
    && (InFlight(p) ==> m.Present? && m.creator == pid && Fits(p, m.content))
    && (p.Fresh? ==> !Did(h, Won(pid)))
    && (BeforePost(p) ==> !Did(h, PostEntered(pid)))
    && (InFlight(p) && !BeforePost(p) ==> Did(h, PostEntered(pid)))
    && ((p.Comparing? || p.Opening? || p.Writing?) ==> !p.target.Claimed?)
  }

  ghost predicate MarkerInv(h: History, m: Marker) {
    && (m.Absent? ==> Winner(h) == None)
    && (m.Present? ==> Winner(h) == Some(m.creator))
    && (m.Present? ==> (Settled(h) <==> m.content.Record? && Terminal(m.content.status)))
  }

  ghost predicate Inv(s: State) {
    && MarkerInv(s.log, s.marker)
    && (forall pid: nat :: ProcInv(s.log, s.marker, pid, ProcOf(s, pid)))
    && AllJustified(s.log)
  }

  lemma GoKeeps(s: State, pid: nat, ok: bool)
    requires Inv(s)
    requires OnGo(s, pid, ProcOf(s, pid), ok).Some?
    ensures Inv(OnGo(s, pid, ProcOf(s, pid), ok).value)
  {
    var t := OnGo(s, pid, ProcOf(s, pid), ok).value;
    assert ProcInv(s.log, s.marker, pid, ProcOf(s, pid));
    forall q: nat
      ensures ProcInv(t.log, t.marker, q, ProcOf(t, q))
    {
      assert ProcInv(s.log, s.marker, q, ProcOf(s, q));
    }
  }

  lemma NextKeeps(s: State, e: Event)
    requires Inv(s)
    requires Next(s, e).Some?
    ensures Inv(Next(s, e).value)
  {
    var t := Next(s, e).value;
    match e
    case Go(pid, ok) => GoKeeps(s, pid, ok);
    case Attempt(pid, _) => assert ProcInv(s.log, s.marker, pid, ProcOf(s, pid)); OthersKeep(s, t, pid);
    case Post(pid) => assert ProcInv(s.log, s.marker, pid, ProcOf(s, pid)); OthersKeep(s, t, pid);
    case Raise(pid) => assert ProcInv(s.log, s.marker, pid, ProcOf(s, pid)); OthersKeep(s, t, pid);
    case Prune(pid) => assert ProcInv(s.log, s.marker, pid, ProcOf(s, pid)); OthersKeep(s, t, pid);
    case Kill(pid) => assert ProcInv(s.log, s.marker, pid, ProcOf(s, pid)); OthersKeep(s, t, pid);
    case Tick(_) =>
      forall q: nat
        ensures ProcInv(t.log, t.marker, q, ProcOf(t, q))
      {
        assert ProcInv(s.log, s.marker, q, ProcOf(s, q));
      }
  }

  /** A step of `pid` that touches no marker another process is working on keeps the others. */
  lemma OthersKeep(s: State, t: State, pid: nat)
    requires Inv(s) && ProcInv(t.log, t.marker, pid, ProcOf(t, pid))
    requires forall q: nat :: q != pid ==> ProcOf(t, q) == ProcOf(s, q)
    requires t.marker == s.marker || forall q: nat :: q != pid ==> !InFlight(ProcOf(s, q))
    requires t.log == s.log || (t.log.Then? && t.log.before == s.log
               && (t.log.last.Removed? || ((t.log.last.Won? || t.log.last.Posted?) && t.log.last.pid == pid)))
    ensures forall q: nat :: ProcInv(t.log, t.marker, q, ProcOf(t, q))
  {
    forall q: nat
      ensures ProcInv(t.log, t.marker, q, ProcOf(t, q))
    {
      assert ProcInv(s.log, s.marker, q, ProcOf(s, q));
    }
  }

  lemma {:induction false} RunKeeps(s: State, events: seq<Event>)
    requires Inv(s)
    requires Run(s, events).Some?
    ensures Inv(Run(s, events).value)
    decreases |events|
  {
    if events != [] {
      NextKeeps(s, events[0]);
      RunKeeps(Next(s, events[0]).value, events[1..]);
    }
  }

  lemma ReachableInv(s: State)
    requires Reachable(s)
    ensures Inv(s)
  {
    var events :| Run(INITIAL, events) == Some(s);
    RunKeeps(INITIAL, events);
  }

  // ---------------------------------------------------------------- main results

  /** At most one process is ever between winning the create and recording the outcome. */
  lemma AtMostOneInFlight(s: State, p: nat, q: nat)
    requires Reachable(s)
    requires InFlight(ProcOf(s, p)) && InFlight(ProcOf(s, q))
    ensures p == q
  {
    ReachableInv(s);
    assert ProcInv(s.log, s.marker, p, ProcOf(s, p)) && ProcInv(s.log, s.marker, q, ProcOf(s, q));
  }

  ghost predicate Within(p: History, h: History) {
    p == h || (h.Then? && Within(p, h.before))
  }

  lemma {:induction false} JustifiedWithin(p: History, h: History)
    requires AllJustified(h) && Within(p, h) && p.Then?
    ensures Justified(p.before, p.last)
  {
    if p != h { JustifiedWithin(p, h.before); }
  }

  /** Every create, POST, record and removal was allowed by what came before it: a create finds
      no marker, only its winner enters the POST loop and only once, POSTs only come from it
      and end with its record, the change to POSTING is never refused, and a marker is removed
      only after its outcome was recorded. */
  lemma EveryActIsJustified(s: State, p: History)
    requires Reachable(s)
    requires Within(p, s.log) && p.Then?
    ensures Justified(p.before, p.last)
  {
    ReachableInv(s);
    JustifiedWithin(p, s.log);
  }

  /** An active or unreadable marker whose creator is no longer at work. */
  predicate Abandoned(s: State, creator: nat) {
    && s.marker.Present? && s.marker.creator == creator
    && (s.marker.content.Unreadable? || !Terminal(s.marker.content.status))
    && !InFlight(ProcOf(s, creator)) && !ProcOf(s, creator).Fresh?
  }

  ghost function Sends(h: History): nat {
    if h.Start? then 0
    else Sends(h.before) + (if h.last.PostEntered? || h.last.Posted? then 1 else 0)
  }

  lemma AbandonedStays(s: State, creator: nat, e: Event)
    requires Inv(s) && Abandoned(s, creator) && Next(s, e).Some?
    ensures Abandoned(Next(s, e).value, creator)
    ensures Sends(Next(s, e).value.log) == Sends(s.log)
  {
    forall q: nat
      ensures !InFlight(ProcOf(s, q))
    {
      assert ProcInv(s.log, s.marker, q, ProcOf(s, q));
    }
    if e.Go? { assert !InFlight(ProcOf(s, e.pid)); }
  }

  /** A marker left active by a dead or finished creator stays, and no hook ever sends that
      reply automatically again, whatever happens afterwards. */
  lemma {:induction false} AbandonedMarkerBlocksForever(s: State, creator: nat, events: seq<Event>)
    requires Inv(s) && Abandoned(s, creator)
    requires Run(s, events).Some?
    ensures Abandoned(Run(s, events).value, creator)
    ensures Sends(Run(s, events).value.log) == Sends(s.log)
    decreases |events|
  {
    if events != [] {
      AbandonedStays(s, creator, events[0]);
      NextKeeps(s, events[0]);
      AbandonedMarkerBlocksForever(Next(s, events[0]).value, creator, events[1..]);
    }
  }

  /** It is not swallowed either: once older than the claim time, every hook that meets it nudges. */
  lemma StaleMarkerIsReported(s: State, creator: nat, pid: nat, nonce: nat)
    requires Abandoned(s, creator)
    requires s.now > s.marker.mtime + CLAIM_TTL_S
    requires s.marker.content.Record? ==> s.now > s.marker.content.ts + CLAIM_TTL_S
    requires Next(s, Attempt(pid, nonce)).Some?
    ensures var p := ProcOf(Next(s, Attempt(pid, nonce)).value, pid);
            p.Over? && p.verdict != Silent
  {
  }
}
