/**
 The phase controller (codex-phase-lifecycle.ts): the shared session file with its atomic merge,
 the hold kept in it, and the wake table. A file operation may fail, or be where the process is
 killed; a killed method returns at once, so what it ensures holds wherever the process can die.
 */
module PhaseLifecycle {
  import opened Prelude

  type Key = nat

  const PHASE_HOLD: Key := 0

  datatype HoldState = Entering | Paused | Reactivating

  /** A field of the session file: a phaseHold record as it may be found, or anything else. */
  datatype Field = HoldRecord(wellFormed: bool, state: HoldState, active: int, hard: int) | OtherField(value: nat)

  type Fields = map<Key, Field>

  /** The session file: missing, not a JSON object, or an object. */
  datatype File = Missing | NotAnObject | Object(fields: Fields)

  /** The patch of one writer; None stands for undefined. */
  type Patch = map<Key, Option<Field>>

  predicate ValidHold(f: Field) {
    f.HoldRecord? && f.wellFormed && f.active >= 0 && f.hard >= 0
  }

  predicate ValidFields(m: Fields) {
    PHASE_HOLD in m ==> ValidHold(m[PHASE_HOLD])
  }

  predicate Readable(f: File) {
    f.Missing? || (f.Object? && ValidFields(f.fields))
  }

  function Read(f: File): Fields
    requires Readable(f)
  {
    if f.Missing? then map[] else f.fields
  }

  /** The old fields under the patch, without the ones the patch leaves undefined. */
  function Merged(m: Fields, patch: Patch): Fields {
    map k | k in m.Keys + patch.Keys && (k in patch ==> patch[k].Some?) ::
      if k in patch then patch[k].value else m[k]
  }

  function FieldOf(m: Fields, k: Key): Option<Field> {
    if k in m then Some(m[k]) else None
  }

  // ---------------------------------------------------------------- what merging means

  /** A merge changes exactly the patched fields. */
  lemma MergeTouchesOnlyItsFields(m: Fields, patch: Patch, k: Key)
    ensures FieldOf(Merged(m, patch), k) == if k in patch then patch[k] else FieldOf(m, k)
  {
  }

  lemma SameFields(a: Fields, b: Fields)
    requires forall k :: FieldOf(a, k) == FieldOf(b, k)
    ensures a == b
  {
    forall k
      ensures k in a <==> k in b
    {
      assert FieldOf(a, k) == FieldOf(b, k);
    }
    forall k | k in a
      ensures a[k] == b[k]
    {
      assert FieldOf(a, k) == FieldOf(b, k);
    }
  }

  /** Writers of different fields may come in either order. */
  lemma MergesOfDifferentFieldsCommute(m: Fields, p: Patch, q: Patch)
    requires p.Keys !! q.Keys
    ensures Merged(Merged(m, p), q) == Merged(Merged(m, q), p)
  {
    forall k
      ensures FieldOf(Merged(Merged(m, p), q), k) == FieldOf(Merged(Merged(m, q), p), k)
    {
      MergeTouchesOnlyItsFields(m, p, k);
      MergeTouchesOnlyItsFields(m, q, k);
      MergeTouchesOnlyItsFields(Merged(m, p), q, k);
      MergeTouchesOnlyItsFields(Merged(m, q), p, k);
    }
    SameFields(Merged(Merged(m, p), q), Merged(Merged(m, q), p));
  }

  /** A patch changes nothing at `k` that is not changed again by `q`. */
  predicate Idle(m: Fields, p: Patch, q: Patch, k: Key) {
    k in p && k !in q ==> p[k] == FieldOf(m, k)
  }

  /** Two processes that read the same file and then publish one after the other lose the first
      patch, unless it changed nothing that the second leaves alone. Only then is the result the
      one of merging in turn. */
  lemma OverlappingMergesKeepBothExactlyWhen(m: Fields, p: Patch, q: Patch)
    ensures Merged(m, q) == Merged(Merged(m, p), q) <==> forall k :: Idle(m, p, q, k)
  {
    forall k
      ensures FieldOf(Merged(m, q), k) == FieldOf(Merged(Merged(m, p), q), k) <==> Idle(m, p, q, k)
    {
      MergeTouchesOnlyItsFields(m, p, k);
      MergeTouchesOnlyItsFields(m, q, k);
      MergeTouchesOnlyItsFields(Merged(m, p), q, k);
    }
    if forall k :: Idle(m, p, q, k) {
      SameFields(Merged(m, q), Merged(Merged(m, p), q));
    }
  }

  // ---------------------------------------------------------------- the hold in the file

  /** What happens to the file: the controller's writes, and other writers' merges. */
  datatype Write =
    | Enter(active: nat, hard: nat)
    | Mark(state: HoldState)          // confirmHoldPaused and the first half of leaveHold
    | Clear
    | Foreign(patch: Patch)

  function HoldPatch(f: Field): Patch {
    map[PHASE_HOLD := Some(f)]
  }

  const CLEAR_PATCH: Patch := map[PHASE_HOLD := None]

  function Written(m: Fields, w: Write): Fields {
    match w
    case Enter(active, hard) => Merged(m, HoldPatch(HoldRecord(true, Entering, active, hard)))
    case Mark(state) =>
      if PHASE_HOLD in m && m[PHASE_HOLD].HoldRecord?
      then Merged(m, HoldPatch(m[PHASE_HOLD].(state := state))) else m
    case Clear => Merged(m, CLEAR_PATCH)
    case Foreign(patch) => Merged(m, patch)
  }

  function AllWritten(m: Fields, ws: seq<Write>): Fields {
    if ws == [] then m else Written(AllWritten(m, ws[..|ws| - 1]), ws[|ws| - 1])
  }

  /** Other writers leave the hold alone. */
  predicate Respectful(ws: seq<Write>) {
    forall i :: 0 <= i < |ws| && ws[i].Foreign? ==> PHASE_HOLD !in ws[i].patch
  }

  /** The budgets of the latest hold that was not cleared. */
  function HoldAfter(ws: seq<Write>, before: Option<(nat, nat)>): Option<(nat, nat)> {
    if ws == [] then before else NextHold(ws[|ws| - 1], HoldAfter(ws[..|ws| - 1], before))
  }

  function NextHold(w: Write, hold: Option<(nat, nat)>): Option<(nat, nat)> {
    match w
    case Enter(active, hard) => Some((active, hard))
    case Clear => None
    case _ => hold
  }

  predicate Keeps(m: Fields, hold: Option<(nat, nat)>) {
    && (hold.None? ==> PHASE_HOLD !in m)
    && (hold.Some? ==> PHASE_HOLD in m && ValidHold(m[PHASE_HOLD])
                       && m[PHASE_HOLD].active == hold.value.0 && m[PHASE_HOLD].hard == hold.value.1)
  }

  lemma WrittenKeeps(m: Fields, w: Write, hold: Option<(nat, nat)>)
    requires Keeps(m, hold) && (w.Foreign? ==> PHASE_HOLD !in w.patch)
    ensures Keeps(Written(m, w), NextHold(w, hold))
  {
    match w {
      case Foreign(patch) => MergeTouchesOnlyItsFields(m, patch, PHASE_HOLD);
      case _ =>
    }
  }

  /** Whatever is written in whatever order, one merge after the other, the file holds exactly the
      budgets of the latest hold entered and not cleared: neither marking it nor any other writer
      changes them. */
  lemma {:induction false} HoldKeepsItsBudgets(m: Fields, ws: seq<Write>, hold: Option<(nat, nat)>)
    requires Keeps(m, hold) && Respectful(ws)
    ensures Keeps(AllWritten(m, ws), HoldAfter(ws, hold))
  {
    if ws != [] {
      var front, last := ws[..|ws| - 1], ws[|ws| - 1];
      HoldKeepsItsBudgets(m, front, hold);
      assert ws[|ws| - 1].Foreign? ==> PHASE_HOLD !in last.patch;
      WrittenKeeps(AllWritten(m, front), last, HoldAfter(front, hold));
    }
  }

  /** Merges of different processes may overlap. A writer of other fields that read the file
      before the writes `ws` and publishes after them keeps the hold if and only if those writes
      left the budgets as they were. */
  lemma StaleMergeKeepsHoldExactlyWhen(m: Fields, ws: seq<Write>, hold: Option<(nat, nat)>, patch: Patch)
    requires Keeps(m, hold) && Respectful(ws) && PHASE_HOLD !in patch
    ensures Keeps(AllWritten(m, ws), HoldAfter(ws, hold))
    ensures Keeps(Merged(m, patch), HoldAfter(ws, hold)) <==> HoldAfter(ws, hold) == hold
  {
    HoldKeepsItsBudgets(m, ws, hold);
    WrittenKeeps(m, Foreign(patch), hold);
  }

  // ---------------------------------------------------------------- merges of several processes

  /** A merge in two parts. In one process nothing comes between them, as the merge never waits. */
  datatype Part =
    | ReadIn(process: nat)
    | Publish(process: nat, write: Write)

  /** The fields in the file, and what each process under way has read. */
  datatype Merging = Merging(fields: Fields, seen: map<nat, Fields>)

  function Next(s: Merging, e: Part): Option<Merging> {
    match e
    case ReadIn(p) => if p in s.seen then None else Some(s.(seen := s.seen[p := s.fields]))
    case Publish(p, w) =>
      if p !in s.seen then None else Some(Merging(Written(s.seen[p], w), s.seen - {p}))
  }

  function Run(s: Merging, parts: seq<Part>): Option<Merging> {
    if parts == [] then Some(s) else
      var t := Run(s, parts[..|parts| - 1]);
      if t.None? then None else Next(t.value, parts[|parts| - 1])
  }

  function WritesOf(parts: seq<Part>): seq<Write> {
    if parts == [] then []
    else WritesOf(parts[..|parts| - 1])
         + match parts[|parts| - 1] { case Publish(_, w) => [w] case ReadIn(_) => [] }
  }

  lemma OnePartMore(s: Merging, parts: seq<Part>, e: Part)
    requires Run(s, parts).Some?
    ensures Run(s, parts + [e]) == Next(Run(s, parts).value, e)
    ensures WritesOf(parts + [e]) == WritesOf(parts) + (if e.Publish? then [e.write] else [])
  {
    assert (parts + [e])[..|parts|] == parts;
  }

  lemma OneWriteMore(m: Fields, ws: seq<Write>, w: Write)
    ensures AllWritten(m, ws + [w]) == Written(AllWritten(m, ws), w)
  {
    assert (ws + [w])[..|ws|] == ws;
  }

  /** The process has read the file as it is, or nothing. */
  predicate UpToDate(s: Merging, p: nat) {
    s.seen.Keys <= {p} && (p in s.seen ==> s.seen[p] == s.fields)
  }

  lemma OneStepInTurn(m: Fields, s: Merging, ws: seq<Write>, e: Part, p: nat)
    requires s.fields == AllWritten(m, ws) && UpToDate(s, p) && e.process == p && Next(s, e).Some?
    ensures Next(s, e).value.fields == AllWritten(m, ws + if e.Publish? then [e.write] else [])
    ensures UpToDate(Next(s, e).value, p)
  {
    if e.Publish? { OneWriteMore(m, ws, e.write); } else { assert ws + [] == ws; }
  }

  /** The merges of one process have the effect of its writes in turn. */
  lemma {:induction false} OneProcessWritesInTurn(m: Fields, parts: seq<Part>, p: nat)
    requires forall i :: 0 <= i < |parts| ==> parts[i].process == p
    requires Run(Merging(m, map[]), parts).Some?
    ensures Run(Merging(m, map[]), parts).value.fields == AllWritten(m, WritesOf(parts))
    ensures UpToDate(Run(Merging(m, map[]), parts).value, p)
  {
    if parts != [] {
      var front, last := parts[..|parts| - 1], parts[|parts| - 1];
      OneProcessWritesInTurn(m, front, p);
      assert parts == front + [last];
      OnePartMore(Merging(m, map[]), front, last);
      OneStepInTurn(m, Run(Merging(m, map[]), front).value, WritesOf(front), last, p);
    }
  }

  /** So in one process, as the callers are, the file holds exactly the budgets of the latest hold
      entered and not cleared. */
  lemma OneProcessKeepsTheHold(m: Fields, parts: seq<Part>, p: nat, hold: Option<(nat, nat)>)
    requires forall i :: 0 <= i < |parts| ==> parts[i].process == p
    requires Run(Merging(m, map[]), parts).Some?
    requires Keeps(m, hold) && Respectful(WritesOf(parts))
    ensures Keeps(Run(Merging(m, map[]), parts).value.fields, HoldAfter(WritesOf(parts), hold))
  {
    OneProcessWritesInTurn(m, parts, p);
    HoldKeepsItsBudgets(m, WritesOf(parts), hold);
  }

  const OTHER_PATCH: Patch := map[1 := Some(OtherField(7))]

  lemma OnePartTo(s: Merging, parts: seq<Part>, e: Part, t: Merging, u: Merging)
    requires Run(s, parts) == Some(t) && Next(t, e) == Some(u)
    ensures Run(s, parts + [e]) == Some(u)
    ensures WritesOf(parts + [e]) == WritesOf(parts) + (if e.Publish? then [e.write] else [])
  {
    OnePartMore(s, parts, e);
  }

  /** Both have read; the hold is published, then the other patch. */
  lemma BothRead(m: Fields) returns (parts: seq<Part>)
    ensures Run(Merging(m, map[]), parts) == Some(Merging(m, map[0 := m, 1 := m])) && WritesOf(parts) == []
  {
    var none: map<nat, Fields>, one, both := map[], map[1 := m], map[0 := m, 1 := m];
    assert none[1 := m] == one && one[0 := m] == both;
    OnePartTo(Merging(m, none), [], ReadIn(1), Merging(m, none), Merging(m, one));
    var first := [] + [ReadIn(1)];
    OnePartTo(Merging(m, none), first, ReadIn(0), Merging(m, one), Merging(m, both));
    parts := first + [ReadIn(0)];
  }

  lemma BothPublish(m: Fields, w: Write, patch: Patch) returns (parts: seq<Part>)
    ensures Run(Merging(m, map[]), parts) == Some(Merging(Merged(m, patch), map[]))
    ensures WritesOf(parts) == [w, Foreign(patch)]
  {
    var none: map<nat, Fields>, one, both := map[], map[1 := m], map[0 := m, 1 := m];
    assert both - {0} == one && one - {1} == none;
    var read := BothRead(m);
    OnePartTo(Merging(m, none), read, Publish(0, w), Merging(m, both), Merging(Written(m, w), one));
    var held := read + [Publish(0, w)];
    OnePartTo(Merging(m, none), held, Publish(1, Foreign(patch)),
              Merging(Written(m, w), one), Merging(Merged(m, patch), none));
    parts := held + [Publish(1, Foreign(patch))];
  }

  lemma HoldOfTwo(a: Write, b: Write)
    ensures HoldAfter([a, b], None) == NextHold(b, NextHold(a, None))
  {
    assert [a, b][..1] == [a] && [a][..0] == [];
    assert HoldAfter([a], None) == NextHold(a, None);
  }

  /** A second process would change that: a hold entered while it is between its reading and its
      publishing is lost, although it left the hold alone. */
  lemma SecondProcessLosesTheHold() returns (parts: seq<Part>)
    ensures Run(Merging(map[], map[]), parts).Some? && Respectful(WritesOf(parts))
    ensures HoldAfter(WritesOf(parts), None) == Some((60, 90))
    ensures PHASE_HOLD !in Run(Merging(map[], map[]), parts).value.fields
  {
    parts := BothPublish(map[], Enter(60, 90), OTHER_PATCH);
    HoldOfTwo(Enter(60, 90), Foreign(OTHER_PATCH));
  }

  // ---------------------------------------------------------------- the file as it is rewritten

  datatype End = Published | Invalid | Threw | Killed

  class SessionFile {
    var file: File

    constructor (file: File)
      ensures this.file == file
    {
      this.file := file;
    }

    /** atomicMergeCodexSessionState: read and validate, write a temporary file, rename it. */
    method AtomicMerge(patch: Patch) returns (end: End)
      modifies this
      ensures end.Invalid? <==> !Readable(old(file)) || !ValidFields(Merged(Read(old(file)), patch))
      ensures end.Invalid? || end.Threw? ==> file == old(file)
      ensures end.Published? ==> file == Object(Merged(Read(old(file)), patch))
      ensures file == old(file) || (Readable(old(file)) && file == Object(Merged(Read(old(file)), patch)))
      ensures Readable(old(file)) ==> Readable(file)
    {
      if !Readable(file) { return Invalid; }
      var merged := Merged(Read(file), patch);
      if !ValidFields(merged) { return Invalid; }
      var temporary: End := *;             // open, write and fsync the temporary file
      if temporary.Threw? { return Threw; }
      if temporary.Killed? { return Killed; }
      file := Object(merged);              // rename
      var after: bool := *;
      end := if after then Published else Killed;
    }
  }

  // ---------------------------------------------------------------- the wake table

  type WakeId = nat

  datatype WakeState = Pending | Started | Finished

  datatype Wake = Wake(id: WakeId, state: WakeState)

  predicate DistinctWakes(ws: seq<Wake>) {
    forall i, j :: 0 <= i < j < |ws| ==> ws[i].id != ws[j].id
  }

  function StateOf(ws: seq<Wake>, id: WakeId): Option<WakeState> {
    if ws == [] then None else if ws[0].id == id then Some(ws[0].state) else StateOf(ws[1..], id)
  }

  /** UPDATE ... WHERE message_id = id AND state = before. */
  function Updated(ws: seq<Wake>, id: WakeId, before: WakeState, after: WakeState): (r: seq<Wake>)
    ensures |r| == |ws| && forall i :: 0 <= i < |ws| ==> r[i].id == ws[i].id
  {
    if ws == [] then []
    else [if ws[0].id == id && ws[0].state == before then Wake(id, after) else ws[0]]
         + Updated(ws[1..], id, before, after)
  }

  lemma {:induction false} UpdateChangesOne(ws: seq<Wake>, id: WakeId, before: WakeState,
                                            after: WakeState, other: WakeId)
    requires DistinctWakes(ws)
    ensures StateOf(Updated(ws, id, before, after), other)
         == if other == id && StateOf(ws, id) == Some(before) then Some(after) else StateOf(ws, other)
  {
    if ws != [] {
      var u := Updated(ws, id, before, after);
      assert u[1..] == Updated(ws[1..], id, before, after);
      UpdateChangesOne(ws[1..], id, before, after, other);
      assert StateOf(u, other) == if u[0].id == other then Some(u[0].state) else StateOf(u[1..], other);
      if ws[0].id == id {
        assert [ws[0]] + ws[1..] == ws;
        NotLater(ws[1..], id, ws[0]);
      }
    }
  }

  lemma {:induction false} NotLater(ws: seq<Wake>, id: WakeId, first: Wake)
    requires first.id == id && DistinctWakes([first] + ws)
    ensures StateOf(ws, id) == None
  {
    if ws != [] {
      var all := [first] + ws;
      assert all[0].id != all[1].id;
      var fewer := [first] + ws[1..];
      forall i, j | 0 <= i < j < |fewer|
        ensures fewer[i].id != fewer[j].id
      {
        assert all[if i == 0 then 0 else i + 1].id != all[j + 1].id;
      }
      NotLater(ws[1..], id, first);
    }
  }

  datatype Observation = SeesShutdown | SeesWake(id: WakeId) | SeesNothing | SeesUnknown

  /** The first wake in queue order that is not finished. */
  ghost predicate IsNextWake(ws: seq<Wake>, k: nat) {
    k < |ws| && !ws[k].state.Finished? && forall i :: 0 <= i < k ==> ws[i].state.Finished?
  }

  predicate Entered(before: File, after: File, active: int, hard: int) {
    && active >= 0 && hard >= 0 && Readable(before)
    && after == Object(Written(Read(before), Enter(active, hard)))
  }

  predicate Marked(before: File, after: File, state: HoldState) {
    Readable(before) && after == Object(Written(Read(before), Mark(state))) && Readable(after)
  }

  /** leaveHold at any point: the hold is as it was but for its state, or is cleared, and nothing
      else changed. */
  ghost predicate OnTheWayOut(before: File, after: File) {
    && Readable(before) && Readable(after)
    && (forall hold :: Keeps(Read(before), hold) ==> Keeps(Read(after), hold) || Keeps(Read(after), None))
    && (forall k :: k != PHASE_HOLD ==> FieldOf(Read(after), k) == FieldOf(Read(before), k))
  }

  class PhaseController {
    const session: SessionFile
    var wakes: seq<Wake>
    var shutdownRequested: bool
    var watcherStarted: bool

    constructor (session: SessionFile)
      ensures this.session == session && wakes == [] && !shutdownRequested && !watcherStarted
    {
      this.session := session;
      wakes, shutdownRequested, watcherStarted := [], false, false;
    }

    /** Queueing a wake; one that is known already is left as it is. */
    method Enqueue(id: WakeId)
      requires DistinctWakes(wakes)
      modifies this`wakes
      ensures DistinctWakes(wakes)
      ensures wakes == if exists i :: 0 <= i < |old(wakes)| && old(wakes)[i].id == id then old(wakes)
                       else old(wakes) + [Wake(id, Pending)]
    {
      for i := 0 to |wakes|
        invariant forall j :: 0 <= j < i ==> wakes[j].id != id
      {
        if wakes[i].id == id { return; }
      }
      wakes := wakes + [Wake(id, Pending)];
    }

    /** observe(): a shutdown comes first, then the first unfinished wake. */
    method Observe() returns (o: Observation)
      ensures shutdownRequested && !o.SeesUnknown? ==> o.SeesShutdown?
      ensures !shutdownRequested && !o.SeesUnknown? ==>
                (forall k: nat :: IsNextWake(wakes, k) ==> o == SeesWake(wakes[k].id))
                && (o.SeesWake? ==> exists k: nat :: IsNextWake(wakes, k) && wakes[k].id == o.id)
    {
      var queryFails: bool := *;
      if queryFails { return SeesUnknown; }
      if shutdownRequested { return SeesShutdown; }
      for i := 0 to |wakes|
        invariant forall j :: 0 <= j < i ==> wakes[j].state.Finished?
      {
        if !wakes[i].state.Finished? {
          assert IsNextWake(wakes, i);
          return SeesWake(wakes[i].id);
        }
      }
      return SeesNothing;
    }

    method MarkWakeStarted(id: WakeId) returns (ok: bool)
      requires DistinctWakes(wakes)
      modifies this`wakes
      ensures DistinctWakes(wakes) && ok == StateOf(old(wakes), id).Some?
      ensures forall x :: StateOf(wakes, x)
                == if x == id && StateOf(old(wakes), x) == Some(Pending) then Some(Started) else StateOf(old(wakes), x)
    {
      forall x { UpdateChangesOne(wakes, id, Pending, Started, x); }
      ok := StateOf(wakes, id).Some?;
      wakes := Updated(wakes, id, Pending, Started);
    }

    /** A wake that was not started is not finished: the call throws. */
    method FinishWake(id: WakeId) returns (ok: bool)
      requires DistinctWakes(wakes)
      modifies this`wakes
      ensures DistinctWakes(wakes)
      ensures ok <==> StateOf(old(wakes), id) == Some(Started) || StateOf(old(wakes), id) == Some(Finished)
      ensures ok <==> StateOf(wakes, id) == Some(Finished)
      ensures forall x :: StateOf(wakes, x)
                == if x == id && StateOf(old(wakes), x) == Some(Started) then Some(Finished) else StateOf(old(wakes), x)
    {
      forall x { UpdateChangesOne(wakes, id, Started, Finished, x); }
      wakes := Updated(wakes, id, Started, Finished);
      ok := StateOf(wakes, id) == Some(Finished);
    }

    method EnterHold(active: int, hard: int) returns (end: End)
      modifies session
      ensures active < 0 || hard < 0 ==> end.Invalid? && session.file == old(session.file)
      ensures end.Published? ==> Entered(old(session.file), session.file, active, hard)
      ensures session.file == old(session.file) || Entered(old(session.file), session.file, active, hard)
    {
      if active < 0 || hard < 0 { return Invalid; }
      end := session.AtomicMerge(HoldPatch(HoldRecord(true, Entering, active, hard)));
    }

    /** Marks the hold; without one, confirmHoldPaused throws. */
    method MarkHold(state: HoldState) returns (end: End)
      modifies session
      ensures end.Invalid? <==> !Readable(old(session.file))
      ensures end.Invalid? || end.Threw? ==> session.file == old(session.file)
      ensures Readable(old(session.file)) && PHASE_HOLD !in Read(old(session.file)) ==> end.Threw?
      ensures end.Published? ==> Marked(old(session.file), session.file, state)
      ensures session.file == old(session.file) || Marked(old(session.file), session.file, state)
    {
      if !Readable(session.file) { return Invalid; }
      var m := Read(session.file);
      if PHASE_HOLD !in m { return Threw; }
      end := session.AtomicMerge(HoldPatch(m[PHASE_HOLD].(state := state)));
    }

    /** leaveHold: mark the hold, stop the watcher, and only then clear the hold. A failure or a
        kill before the end leaves the hold with its budgets, or leaves it cleared. */
    method LeaveHold() returns (end: End)
      modifies session, this`watcherStarted
      ensures end.Invalid? <==> !Readable(old(session.file))
      ensures end.Invalid? ==> session.file == old(session.file)
      ensures !end.Invalid? ==> OnTheWayOut(old(session.file), session.file)
      ensures end.Published? ==> PHASE_HOLD !in Read(session.file)
    {
      if !Readable(session.file) { return Invalid; }
      if PHASE_HOLD in Read(session.file) {
        end := MarkHold(Reactivating);
        if !end.Published? { return; }
      }
      if watcherStarted {
        var stopped: bool := *;
        if !stopped { return Threw; }
        watcherStarted := false;
      }
      end := session.AtomicMerge(CLEAR_PATCH);
    }
  }
}
