/**
 The crash-resumable batch engine (orchestrator.py with the tracker part of run.py and
 dedupe.py). Every call into the outside world may succeed, fail, lose the login or be the
 point where the process is killed; a killed run returns at once, so what a method ensures
 holds at every point where the engine can die.
 */
module BatchEngine {
  import opened Prelude
  import opened Checkpoint

  datatype Outcome = Fine | Transient | LoginLost | Killed

  /** A tracker issue: the note ids its text mentions, the note the engine made it for, whether
      a retention comment is on it, and how many the engine put there. Its place in the
      tracker is its identifier. */
  datatype Issue = Issue(covers: set<Id>, origin: Option<Id>, marked: bool, engineComments: nat)

  /** How one run of `run_batch` ends. */
  datatype RunEnd =
    | NothingToDo | AwaitingReview | PausedByLoad | Incomplete | ReportedNow
    | LoginStop
    | Aborted          // an exception outside the per-note handler
    | Dead             // killed

  // ---------------------------------------------------------------- tracker facts

  ghost predicate MadeFor(t: seq<Issue>, id: Id) {
    exists i :: 0 <= i < |t| && t[i].origin == Some(id)
  }

  /** The engine made at most one issue per note and put at most one retention comment on any
      issue; an issue it made mentions its note. */
  ghost predicate AtMostOnce(t: seq<Issue>) {
    && (forall i, j :: 0 <= i < j < |t| && t[i].origin.Some? ==> t[i].origin != t[j].origin)
    && (forall i :: 0 <= i < |t| && t[i].origin.Some? ==> t[i].origin.value in t[i].covers)
    && (forall i :: 0 <= i < |t| ==> t[i].engineComments <= 1 && (t[i].engineComments == 1 ==> t[i].marked))
  }

  /** Issues are only added, keep what they mention, and keep a retention comment. */
  ghost predicate Grows(a: seq<Issue>, b: seq<Issue>) {
    && |a| <= |b|
    && forall i :: 0 <= i < |a| ==>
         b[i].origin == a[i].origin && b[i].covers == a[i].covers && (a[i].marked ==> b[i].marked)
  }

  /** A note's issue mentions the note, an attached note's issue has its retention comment, and a
      note is judged exactly when there is a judgment. */
  ghost predicate NoteOk(t: seq<Issue>, id: Id, n: Note) {
    && (n.issueId.Some? ==> n.issueId.value < |t| && id in t[n.issueId.value].covers)
    && (n.attached ==> n.issueId.Some? && t[n.issueId.value].marked)
    && (n.useful.Some? <==> n.judged)
  }

  ghost predicate NotesOk(t: seq<Issue>, s: State) {
    forall id :: id in s.notes ==> NoteOk(t, id, s.notes[id])
  }

  lemma GrowsChains(a: seq<Issue>, b: seq<Issue>, c: seq<Issue>)
    requires Grows(a, b) && Grows(b, c)
    ensures Grows(a, c)
  {
  }

  /** Resolved notes of `a` are the same in `b`, and no note or attempt is forgotten. */
  ghost predicate Onward(a: State, b: State) {
    && (forall id :: IsResolved(a, id) ==> id in b.notes && b.notes[id] == a.notes[id])
    && (forall id :: id in a.notes ==> id in b.notes && a.notes[id].attempts <= b.notes[id].attempts)
  }

  lemma OnwardChains(a: State, b: State, c: State)
    requires Onward(a, b) && Onward(b, c)
    ensures Onward(a, c)
  {
    forall id | IsResolved(a, id)
      ensures id in c.notes && c.notes[id] == a.notes[id]
    {
      assert IsResolved(b, id);
    }
  }

  lemma StillResolved(a: State, b: State, ids: seq<Id>, n: nat)
    requires n <= |ids| && Onward(a, b) && forall j :: 0 <= j < n ==> IsResolved(a, ids[j])
    ensures forall j :: 0 <= j < n ==> IsResolved(b, ids[j])
  {
  }

  /** Only note `id` may differ. */
  ghost predicate OnlyNote(a: State, b: State, id: Id) {
    && b.batches == a.batches && b.nextBatch == a.nextBatch
    && b.notes.Keys == a.notes.Keys
    && forall x :: x in a.notes && x != id ==> b.notes[x] == a.notes[x]
  }

  lemma OnlyNoteKeeps(a: State, b: State, id: Id)
    requires Disciplined(a) && OnlyNote(a, b, id) && !IsResolved(a, id)
    requires id in a.notes ==> a.notes[id].attempts <= b.notes[id].attempts
    ensures Disciplined(b) && Onward(a, b)
  {
    assert b == a.(notes := b.notes);
    NotesKeep(a, b.notes);
  }

  // ---------------------------------------------------------------- progress measure

  /** How many more times a note can be taken up before it is resolved. */
  function Weight(s: State, id: Id, maxAttempts: nat): nat {
    if IsResolved(s, id) then 0
    else if id in s.notes then Max(1, maxAttempts + 1 - s.notes[id].attempts)
    else maxAttempts + 1
  }

  function Measure(s: State, ids: seq<Id>, maxAttempts: nat): nat {
    if ids == [] then 0 else Weight(s, ids[0], maxAttempts) + Measure(s, ids[1..], maxAttempts)
  }

  lemma {:induction false} SameMeasure(a: State, b: State, ids: seq<Id>, m: nat)
    requires forall id :: id in ids ==> Weight(a, id, m) == Weight(b, id, m)
    ensures Measure(a, ids, m) == Measure(b, ids, m)
  {
    if ids != [] { SameMeasure(a, b, ids[1..], m); }
  }

  /** A batch was worked on: the measure fell if a note was taken up, and is the same if none was. */
  ghost predicate Advanced(a: State, b: State, ids: seq<Id>, m: nat, reached: bool) {
    if reached then Measure(b, ids, m) < Measure(a, ids, m) else Measure(b, ids, m) == Measure(a, ids, m)
  }

  /** Going onward never raises the measure. */
  lemma {:induction false} MeasureFalls(a: State, b: State, ids: seq<Id>, m: nat)
    requires Onward(a, b)
    ensures Measure(b, ids, m) <= Measure(a, ids, m)
  {
    if ids != [] { MeasureFalls(a, b, ids[1..], m); }
  }

  lemma {:induction false} SmallerMeasure(a: State, b: State, ids: seq<Id>, id: Id, m: nat)
    requires Distinct(ids) && id in ids
    requires forall x :: x in ids && x != id ==> Weight(a, x, m) == Weight(b, x, m)
    requires Weight(b, id, m) < Weight(a, id, m)
    ensures Measure(b, ids, m) < Measure(a, ids, m)
  {
    if ids[0] == id {
      SameMeasure(a, b, ids[1..], m);
    } else {
      SmallerMeasure(a, b, ids[1..], id, m);
    }
  }

  /** Every entry into the pipeline was counted as an attempt, and none came after the cap. */
  ghost predicate Counted(entries: map<Id, nat>, s: State, maxAttempts: nat) {
    forall id :: id in entries ==>
      id in s.notes && entries[id] <= s.notes[id].attempts && entries[id] <= maxAttempts
  }

  /** Measure and count depend on the notes alone. */
  lemma NotesDecide(a: State, b: State, ids: seq<Id>, m: nat, entries: map<Id, nat>)
    requires a.notes == b.notes
    ensures Measure(a, ids, m) == Measure(b, ids, m)
    ensures Counted(entries, a, m) <==> Counted(entries, b, m)
  {
    SameMeasure(a, b, ids, m);
  }

  ghost function Enter(entries: map<Id, nat>, id: Id): map<Id, nat> {
    entries[id := (if id in entries then entries[id] else 0) + 1]
  }

  lemma CountedTakenUp(entries: map<Id, nat>, a: State, b: State, id: Id, m: nat)
    requires Counted(entries, a, m)
    requires OnlyNote(a, b, id) && id in a.notes && b.notes[id].attempts == a.notes[id].attempts + 1
    ensures Counted(entries, b, m)
    ensures b.notes[id].attempts <= m ==> Counted(Enter(entries, id), b, m)
  {
  }

  ghost predicate Bumped(a: State, b: State, id: Id) {
    id in a.notes && b == a.(notes := a.notes[id := a.notes[id].(attempts := a.notes[id].attempts + 1)])
  }

  /** Taking an unresolved note up once, within the cap or to give it up, lowers its weight. */
  lemma TakenUp(a: State, s0: State, b: State, id: Id, m: nat)
    requires Bumped(a, s0, id) && !IsResolved(a, id)
    requires OnlyNote(s0, b, id) && b.notes[id].attempts == s0.notes[id].attempts
    requires s0.notes[id].attempts <= m || IsResolved(b, id)
    ensures OnlyNote(a, b, id) && Weight(b, id, m) < Weight(a, id, m)
    ensures a.notes[id].attempts <= b.notes[id].attempts
  {
  }

  lemma TakenUpKeeps(a: State, s0: State, d: State, id: Id)
    requires Bumped(a, s0, id) && !IsResolved(a, id) && Onward(s0, d)
    ensures Onward(a, d)
  {
    forall x | IsResolved(a, x)
      ensures x in d.notes && d.notes[x] == a.notes[x]
    {
      assert IsResolved(s0, x);
    }
  }

  lemma {:induction false} MeasureIsBounded(s: State, ids: seq<Id>, m: nat)
    ensures Measure(s, ids, m) <= |ids| * (m + 1)
  {
    if ids != [] {
      MeasureIsBounded(s, ids[1..], m);
      OneMore(|ids| - 1, m + 1);
    }
  }

  lemma OneMore(n: nat, x: nat)
    ensures (n + 1) * x == n * x + x
  {
  }

  /** What is kept of one run: how it ended, and whether it took a note up. */
  datatype RunRecord = RunRecord(end: RunEnd, reached: bool)

  /** The run aborted or died, or was paused before its first unresolved note. */
  predicate Idle(x: RunRecord) {
    Lost(x.end) || (x.end.PausedByLoad? && !x.reached)
  }

  function IdleRuns(runs: seq<RunRecord>): nat {
    if runs == [] then 0 else IdleRuns(runs[..|runs| - 1]) + if Idle(runs[|runs| - 1]) then 1 else 0
  }

  /** A run that did not report went from the file `a` to the file `b`. */
  ghost predicate RunStep(a: State, x: RunRecord, b: State, ids: seq<Id>, m: nat) {
    Onward(a, b) && !x.end.ReportedNow? && (Idle(x) || Measure(b, ids, m) < Measure(a, ids, m))
  }

  /** Each run went from one of the states to the next. */
  ghost predicate Chained(states: seq<State>, runs: seq<RunRecord>, ids: seq<Id>, m: nat) {
    && |states| == |runs| + 1
    && forall i :: 0 <= i < |runs| ==> RunStep(states[i], runs[i], states[i + 1], ids, m)
  }

  lemma ChainGrows(states: seq<State>, runs: seq<RunRecord>, x: RunRecord, b: State, ids: seq<Id>, m: nat)
    requires Chained(states, runs, ids, m) && RunStep(states[|runs|], x, b, ids, m)
    ensures Chained(states + [b], runs + [x], ids, m)
  {
    forall i | 0 <= i < |runs| + 1
      ensures RunStep((states + [b])[i], (runs + [x])[i], (states + [b])[i + 1], ids, m)
    {
      if i < |runs| { assert RunStep(states[i], runs[i], states[i + 1], ids, m); }
    }
  }

  /** Runs over one batch that leave it unreported, however they fail: all but the idle ones are
      at most (maxAttempts + 1) per note. */
  lemma {:induction false} RunsAreBounded(states: seq<State>, runs: seq<RunRecord>, ids: seq<Id>, m: nat)
    requires Chained(states, runs, ids, m)
    ensures |runs| + Measure(states[|runs|], ids, m) <= IdleRuns(runs) + Measure(states[0], ids, m)
    ensures |runs| <= IdleRuns(runs) + |ids| * (m + 1)
  {
    MeasureIsBounded(states[0], ids, m);
    if runs != [] {
      var n := |runs| - 1;
      forall i | 0 <= i < n
        ensures RunStep(states[..n + 1][i], runs[..n][i], states[..n + 1][i + 1], ids, m)
      {
        assert RunStep(states[i], runs[i], states[i + 1], ids, m);
      }
      RunsAreBounded(states[..n + 1], runs[..n], ids, m);
      assert RunStep(states[n], runs[n], states[n + 1], ids, m);
      MeasureFalls(states[n], states[n + 1], ids, m);
    }
  }

  // ---------------------------------------------------------------- the engine

  function Commented(t: seq<Issue>, issue: nat): seq<Issue>
    requires issue < |t|
  {
    t[issue := t[issue].(marked := true, engineComments := t[issue].engineComments + 1)]
  }

  /** Identifier and mentioned ids of every issue. */
  function Listed(t: seq<Issue>): (r: seq<(nat, set<Id>)>)
    ensures |r| == |t|
    ensures forall i :: 0 <= i < |t| ==> r[i] == (i, t[i].covers)
  {
    if t == [] then [] else Listed(t[..|t| - 1]) + [(|t| - 1, t[|t| - 1].covers)]
  }

  /** The scanned issues are issues of the tracker, and the covered notes the ones they mention. */
  ghost predicate Scanned(t: seq<Issue>, existing: seq<(nat, set<Id>)>, covered: set<Id>) {
    && (forall k :: 0 <= k < |existing| ==> existing[k].0 < |t| && existing[k].1 == t[existing[k].0].covers)
    && (forall id :: id in covered ==> exists k :: 0 <= k < |existing| && id in existing[k].1)
  }

  ghost predicate Complete(t: seq<Issue>, covered: set<Id>, todo: set<Id>) {
    forall id :: id in todo && MadeFor(t, id) ==> id in covered
  }

  lemma IssueKeeps(t: seq<Issue>, id: Id, others: set<Id>, covered: set<Id>, todo: set<Id>)
    requires AtMostOnce(t) && Complete(t, covered, todo + {id}) && id !in covered
    ensures var more := t + [Issue({id} + others, Some(id), false, 0)];
            && AtMostOnce(more) && Grows(t, more) && (id !in todo ==> Complete(more, covered, todo))
            && Complete(more, covered + {id}, todo + {id})
  {
    var more := t + [Issue({id} + others, Some(id), false, 0)];
    assert !MadeFor(t, id);
    forall x | MadeFor(more, x) && x != id
      ensures MadeFor(t, x)
    {
      var i :| 0 <= i < |more| && more[i].origin == Some(x);
      assert t[i].origin == Some(x);
    }
  }

  /** Issues that others filed. */
  function Foreign(covers: seq<set<Id>>): (t: seq<Issue>)
    ensures |t| == |covers| && forall i :: 0 <= i < |t| ==> t[i] == Issue(covers[i], None, false, 0)
  {
    seq(|covers|, i requires 0 <= i < |covers| => Issue(covers[i], None, false, 0))
  }

  lemma ForeignKeeps(t: seq<Issue>, covers: seq<set<Id>>)
    requires AtMostOnce(t)
    ensures AtMostOnce(t + Foreign(covers)) && Grows(t, t + Foreign(covers))
    ensures forall i :: |t| <= i < |t| + |covers| ==> (t + Foreign(covers))[i].origin.None?
  {
  }

  lemma ListedIsComplete(t: seq<Issue>, existing: seq<(nat, set<Id>)>, covered: set<Id>)
    requires AtMostOnce(t) && existing == Listed(t)
    requires forall id :: id in covered <==> exists k :: 0 <= k < |existing| && id in existing[k].1
    ensures Scanned(t, existing, covered) && forall todo :: Complete(t, covered, todo)
  {
    forall id | MadeFor(t, id)
      ensures id in covered
    {
      var i :| 0 <= i < |t| && t[i].origin == Some(id);
      assert id in existing[i].1;
    }
  }

  lemma NotCoveredBefore(t: seq<Issue>, existing: seq<(nat, set<Id>)>, covered: set<Id>, id: Id, x: Issue)
    requires Scanned(t, existing, covered) && id in x.covers
    ensures Scanned(t + [x], existing, covered)
    ensures Scanned(t + [x], existing + [(|t|, x.covers)], covered + {id})
  {
    var more := existing + [(|t|, x.covers)];
    assert id in more[|existing|].1;
    forall y | y in covered
      ensures exists k :: 0 <= k < |more| && y in more[k].1
    {
      var k :| 0 <= k < |existing| && y in existing[k].1;
      assert y in more[k].1;
    }
  }

  class Engine {
    const book: Book
    var disk: Option<State>                 // the checkpoint file
    var tracker: seq<Issue>                 // the external issue tracker
    var existing: seq<(nat, set<Id>)>       // issues of this run's scan: identifier and ids
    var covered: set<Id>
    ghost var entries: map<Id, nat>         // how often each note entered the pipeline

    ghost predicate WorldOk()
      reads this`tracker, this`disk
    {
      && AtMostOnce(tracker)
      && (disk.Some? ==> Disciplined(disk.value))
    }

    /** The scan of this run: every covered note has an issue in it, and an issue the engine made
        for a note that is still to be taken up is in it. */
    ghost predicate ScanOk(todo: set<Id>)
      reads this`tracker, this`existing, this`covered
    {
      Scanned(tracker, existing, covered) && Complete(tracker, covered, todo)
    }

    constructor ()
      ensures fresh(book) && book.s == FRESH_STATE && disk == None && tracker == []
    {
      book := new Book();
      disk, tracker, existing, covered, entries := None, [], [], {}, map[];
    }

    /** io.save: temporary file and rename, so the file holds the old or the new state. */
    method Save() returns (o: Outcome)
      modifies this`disk
      ensures disk == old(disk) || disk == Some(book.s)
      ensures o.Fine? ==> disk == Some(book.s)
      ensures !o.LoginLost?
    {
      o := *;
      if o.LoginLost? { o := Transient; }
      var renamed: bool := *;
      if o.Fine? || (o.Killed? && renamed) { disk := Some(book.s); }
    }

    /** fetch, download, analyze, judge: anything may happen, nothing here changes. */
    method Outside() returns (o: Outcome)
    {
      o := *;
    }

    method EnumerateNotes() returns (o: Outcome, candidates: seq<Id>)
      ensures Distinct(candidates)
    {
      o := *;
      candidates := *;
      if !Distinct(candidates) { candidates := []; }
    }

    /** covered_note_ids */
    method CoveredNoteIds(issues: seq<(nat, set<Id>)>) returns (ids: set<Id>)
      ensures forall id :: id in ids <==> exists k :: 0 <= k < |issues| && id in issues[k].1
    {
      ids := {};
      for i := 0 to |issues|
        invariant forall id :: id in ids <==> exists k :: 0 <= k < i && id in issues[k].1
      {
        ids := ids + issues[i].1;
      }
    }

    /** existing_issues and covered_note_ids. Others may have filed issues meanwhile; the scan
        is taken to be complete. */
    method Scan() returns (o: Outcome)
      requires WorldOk()
      modifies this`tracker, this`existing, this`covered
      ensures WorldOk() && old(tracker) <= tracker && Grows(old(tracker), tracker)
      ensures forall i :: |old(tracker)| <= i < |tracker| ==> tracker[i].origin.None?
      ensures o.Fine? ==> forall todo :: ScanOk(todo)
    {
      var foreign: seq<set<Id>> := *;
      ForeignKeeps(tracker, foreign);
      tracker := tracker + Foreign(foreign);
      o := *;
      existing := Listed(tracker);
      covered := CoveredNoteIds(existing);
      ListedIsComplete(tracker, existing, covered);
    }

    /** _find_identifier_for_note: the first scanned issue that mentions the note. */
    method FindIdentifier(id: Id) returns (r: Option<nat>)
      ensures r.Some? ==> exists k :: 0 <= k < |existing| && existing[k].0 == r.value && id in existing[k].1
      ensures r.None? ==> forall k :: 0 <= k < |existing| ==> id !in existing[k].1
    {
      for i := 0 to |existing|
        invariant forall k :: 0 <= k < i ==> id !in existing[k].1
      {
        if id in existing[i].1 { return Some(existing[i].0); }
      }
      return None;
    }

    /** create_issue: reconcile with the scan, else create. The request may fail or the process
        may die after the tracker has accepted it. */
    method CreateIssue(id: Id, ghost todo: set<Id>) returns (o: Outcome, issue: nat)
      requires WorldOk() && ScanOk(todo + {id})
      modifies this`tracker, this`existing, this`covered
      ensures WorldOk() && Grows(old(tracker), tracker) && |tracker| <= |old(tracker)| + 1
      ensures forall i :: |old(tracker)| <= i < |tracker| ==> tracker[i].origin == Some(id)
      ensures id in old(covered) ==> tracker == old(tracker)
      ensures id !in todo ==> ScanOk(todo)
      ensures o.Fine? ==> issue < |tracker| && id in tracker[issue].covers
      ensures o.Fine? && id !in old(covered) ==> issue == |old(tracker)| < |tracker|
      ensures !o.LoginLost?
    {
      issue := 0;
      if id in covered {
        var found := FindIdentifier(id);
        if found.Some? { return Fine, found.value; }
      }
      o := *;
      if o.LoginLost? { o := Transient; }
      var accepted: bool := *;
      if o.Fine? || accepted {
        var others: set<Id> := *;
        IssueKeeps(tracker, id, others, covered, todo);
        NotCoveredBefore(tracker, existing, covered, id, Issue({id} + others, Some(id), false, 0));
        issue := |tracker|;
        tracker := tracker + [Issue({id} + others, Some(id), false, 0)];
        if o.Fine? {
          covered := covered + {id};
          existing := existing + [(issue, {id} + others)];
        }
      }
    }

    /** attach_retention: skip when a retention comment is there, else post one. */
    method AttachRetention(issue: nat) returns (o: Outcome)
      requires WorldOk() && issue < |tracker|
      modifies this`tracker
      ensures WorldOk() && Grows(old(tracker), tracker)
      ensures tracker == old(tracker) || (!old(tracker)[issue].marked && tracker == Commented(old(tracker), issue))
      ensures o.Fine? ==> tracker[issue].marked
      ensures !o.LoginLost?
    {
      o := *;
      if o.LoginLost? { o := Transient; }
      var queried: bool := *;
      if !o.Fine? && !queried { return; }
      if tracker[issue].marked { return Fine; }
      var accepted: bool := *;
      if o.Fine? || accepted {
        tracker := Commented(tracker, issue);
      }
    }

    /** A note's pipeline under way: `s0` and `d0` are the state and the file when it began. */
    ghost predicate Going(s0: State, d0: Option<State>, id: Id, todo: set<Id>)
      reads this`tracker, this`disk, this`existing, this`covered, book
    {
      Moving(s0, d0, id, todo) && Disciplined(book.s)
    }

    /** The same between a change of the note in memory and its save. */
    ghost predicate Moving(s0: State, d0: Option<State>, id: Id, todo: set<Id>)
      reads this`tracker, this`disk, this`existing, this`covered, book
    {
      && Disciplined(s0) && id in s0.notes && !IsResolved(s0, id)
      && (d0.Some? ==> NotesOk(tracker, d0.value))
      && WorldOk() && NotesOk(tracker, book.s) && ScanOk(todo)
      && OnlyNote(s0, book.s, id)
      && book.s.notes[id].attempts == s0.notes[id].attempts
      && (disk == d0 || (disk.Some? && Onward(s0, disk.value) && NotesOk(tracker, disk.value)
                                && SameBatches(s0, disk.value)))
    }

    /** The save after a change of the note. */
    method SaveNote(id: Id, ghost s0: State, ghost d0: Option<State>, ghost todo: set<Id>) returns (o: Outcome)
      requires Moving(s0, d0, id, todo)
      modifies this`disk
      ensures Going(s0, d0, id, todo)
      ensures o.Fine? ==> disk == Some(book.s)
      ensures !o.LoginLost?
    {
      OnlyNoteKeeps(s0, book.s, id);
      o := Save();
    }

    /** One of the fetch, download and analyze blocks. */
    method Stage(id: Id, stage: Checkpoint.Stage, ghost s0: State, ghost d0: Option<State>, ghost todo: set<Id>)
      returns (o: Outcome)
      requires Going(s0, d0, id, todo) && !stage.Attached?
      modifies this`disk, book
      ensures Going(s0, d0, id, todo)
      ensures o.Fine? ==> book.s.notes[id] == WithStage(old(book.s).notes[id], stage)
    {
      if StageDone(book.s.notes[id], stage) { return Fine; }
      o := Outside();
      if !o.Fine? { return; }
      book.MarkStage(id, stage);
      o := SaveNote(id, s0, d0, todo);
    }

    method Judge(id: Id, ghost s0: State, ghost d0: Option<State>, ghost todo: set<Id>) returns (o: Outcome)
      requires Going(s0, d0, id, todo)
      modifies this`disk, book
      ensures Going(s0, d0, id, todo)
      ensures o.Fine? ==> book.s.notes[id] == old(book.s).notes[id].(useful := book.s.notes[id].useful, judged := true)
                          && book.s.notes[id].useful.Some?
    {
      if book.s.notes[id].useful.Some? { return Fine; }
      o := Outside();
      if !o.Fine? { return; }
      var useful: bool := *;
      book.SetJudgment(id, useful);
      o := SaveNote(id, s0, d0, todo);
    }

    method FileIssue(id: Id, ghost s0: State, ghost d0: Option<State>, ghost todo: set<Id>) returns (o: Outcome)
      requires Going(s0, d0, id, todo + {id}) && id !in todo
      modifies this`disk, this`tracker, this`existing, this`covered, book
      ensures Going(s0, d0, id, todo) && Grows(old(tracker), tracker)
      ensures o.Fine? ==> book.s.notes[id] == old(book.s).notes[id].(issueId := book.s.notes[id].issueId)
                          && (book.s.notes[id].useful == Some(true) ==> book.s.notes[id].issueId.Some?)
    {
      o := Fine;
      assert Going(s0, d0, id, todo);
      if book.s.notes[id].useful == Some(true) && book.s.notes[id].issueId.None? {
        ghost var t0 := tracker;
        var issue: nat;
        o, issue := CreateIssue(id, todo);
        StillGoing(t0, s0, d0);
        if !o.Fine? { return; }
        o := RecordIssue(id, issue, s0, d0, todo);
      }
    }

    /** The tracker grew: notes in memory and on disk still name the right issues. */
    lemma StillGoing(t0: seq<Issue>, s0: State, d0: Option<State>)
      requires Grows(t0, tracker)
      ensures NotesOk(t0, book.s) ==> NotesOk(tracker, book.s)
      ensures disk.Some? && NotesOk(t0, disk.value) ==> NotesOk(tracker, disk.value)
      ensures d0.Some? && NotesOk(t0, d0.value) ==> NotesOk(tracker, d0.value)
    {
    }

    method RecordIssue(id: Id, issue: nat, ghost s0: State, ghost d0: Option<State>, ghost todo: set<Id>)
      returns (o: Outcome)
      requires Going(s0, d0, id, todo) && issue < |tracker| && id in tracker[issue].covers
      requires !book.s.notes[id].attached
      modifies this`disk, book
      ensures Going(s0, d0, id, todo)
      ensures book.s.notes[id] == old(book.s).notes[id].(issueId := Some(issue))
    {
      book.MarkIssue(id, issue);
      o := SaveNote(id, s0, d0, todo);
    }

    method RecordAttached(id: Id, ghost s0: State, ghost d0: Option<State>, ghost todo: set<Id>) returns (o: Outcome)
      requires Going(s0, d0, id, todo)
      requires book.s.notes[id].issueId.Some? && tracker[book.s.notes[id].issueId.value].marked
      modifies this`disk, book
      ensures Going(s0, d0, id, todo)
      ensures book.s.notes[id] == WithStage(old(book.s).notes[id], Attached)
    {
      book.MarkStage(id, Attached);
      o := SaveNote(id, s0, d0, todo);
    }

    /** attach_retention while a note's pipeline is under way. */
    method Comment(id: Id, issue: nat, ghost s0: State, ghost d0: Option<State>, ghost todo: set<Id>)
      returns (o: Outcome)
      requires Going(s0, d0, id, todo) && issue < |tracker|
      modifies this`tracker
      ensures Going(s0, d0, id, todo) && Grows(old(tracker), tracker)
      ensures o.Fine? ==> tracker[issue].marked
    {
      ghost var t0 := tracker;
      o := AttachRetention(issue);
      StillGoing(t0, s0, d0);
    }

    method Attach(id: Id, ghost s0: State, ghost d0: Option<State>, ghost todo: set<Id>) returns (o: Outcome)
      requires Going(s0, d0, id, todo)
      modifies this`disk, this`tracker, book
      ensures Going(s0, d0, id, todo) && Grows(old(tracker), tracker)
      ensures o.Fine? ==> book.s.notes[id] == old(book.s).notes[id].(attached := book.s.notes[id].attached)
                          && (book.s.notes[id].useful == Some(true) ==> book.s.notes[id].attached)
    {
      o := Fine;
      var n := book.s.notes[id];
      if n.useful == Some(true) && !n.attached {
        if n.issueId.None? { return Transient; }
        o := AttachTo(id, n.issueId.value, s0, d0, todo);
      }
    }

    method AttachTo(id: Id, issue: nat, ghost s0: State, ghost d0: Option<State>, ghost todo: set<Id>)
      returns (o: Outcome)
      requires Going(s0, d0, id, todo) && book.s.notes[id].issueId == Some(issue)
      modifies this`disk, this`tracker, book
      ensures Going(s0, d0, id, todo) && Grows(old(tracker), tracker)
      ensures o.Fine? ==> book.s.notes[id] == old(book.s).notes[id].(attached := true)
    {
      o := Comment(id, issue, s0, d0, todo);
      if !o.Fine? { return; }
      o := RecordAttached(id, s0, d0, todo);
    }

    /** The per-note try block. */
    method Pipeline(id: Id, ghost s0: State, ghost d0: Option<State>, ghost todo: set<Id>) returns (o: Outcome)
      requires Going(s0, d0, id, todo + {id}) && id !in todo
      modifies this`disk, this`tracker, this`existing, this`covered, book
      ensures Going(s0, d0, id, todo) && Grows(old(tracker), tracker)
      ensures o.Fine? ==> disk == Some(book.s) && NoteDone(book.s.notes[id]) && book.s.notes[id].status == Done
    {
      o := ReadNote(id, s0, d0, todo + {id});
      if !o.Fine? { return; }
      o := FileAndAttach(id, s0, d0, todo);
      if !o.Fine? { return; }
      o := Close(id, if NoteDone(book.s.notes[id]) then Done else InProgress, s0, d0, todo);
    }

    /** Fetch, download, analyze and judge. */
    method ReadNote(id: Id, ghost s0: State, ghost d0: Option<State>, ghost todo: set<Id>) returns (o: Outcome)
      requires Going(s0, d0, id, todo)
      modifies this`disk, book
      ensures Going(s0, d0, id, todo)
      ensures o.Fine? ==> var n := book.s.notes[id];
                          n.fetched && n.downloaded && n.analyzed && n.judged && n.useful.Some?
    {
      o := Fetch(id, s0, d0, todo);
      if !o.Fine? { return; }
      o := AnalyzeAndJudge(id, s0, d0, todo);
    }

    method AnalyzeAndJudge(id: Id, ghost s0: State, ghost d0: Option<State>, ghost todo: set<Id>) returns (o: Outcome)
      requires Going(s0, d0, id, todo)
      modifies this`disk, book
      ensures Going(s0, d0, id, todo)
      ensures o.Fine? ==>
                var was, n := old(book.s).notes[id], book.s.notes[id];
                n.fetched == was.fetched && n.downloaded == was.downloaded && n.analyzed && n.judged && n.useful.Some?
    {
      o := Stage(id, Analyzed, s0, d0, todo);
      if !o.Fine? { return; }
      o := Judge(id, s0, d0, todo);
    }

    method Fetch(id: Id, ghost s0: State, ghost d0: Option<State>, ghost todo: set<Id>) returns (o: Outcome)
      requires Going(s0, d0, id, todo)
      modifies this`disk, book
      ensures Going(s0, d0, id, todo)
      ensures o.Fine? ==> book.s.notes[id].fetched && book.s.notes[id].downloaded
    {
      o := Stage(id, Fetched, s0, d0, todo);
      if !o.Fine? { return; }
      o := Stage(id, Downloaded, s0, d0, todo);
    }

    /** The issue and its retention comment, for a useful note. */
    method FileAndAttach(id: Id, ghost s0: State, ghost d0: Option<State>, ghost todo: set<Id>) returns (o: Outcome)
      requires Going(s0, d0, id, todo + {id}) && id !in todo
      modifies this`disk, this`tracker, this`existing, this`covered, book
      ensures Going(s0, d0, id, todo) && Grows(old(tracker), tracker)
      ensures o.Fine? ==> var was, n := old(book.s).notes[id], book.s.notes[id];
                          n == was.(issueId := n.issueId, attached := n.attached)
                          && (n.useful == Some(true) ==> n.issueId.Some? && n.attached)
    {
      o := FileIssue(id, s0, d0, todo);
      if !o.Fine? { return; }
      o := Attach(id, s0, d0, todo);
    }

    /** set_status followed by a save. */
    method Close(id: Id, status: NoteStatus, ghost s0: State, ghost d0: Option<State>, ghost todo: set<Id>)
      returns (o: Outcome)
      requires Going(s0, d0, id, todo)
      modifies this`disk, book
      ensures Going(s0, d0, id, todo)
      ensures book.s.notes[id] == old(book.s).notes[id].(status := status)
      ensures o.Fine? ==> disk == Some(book.s)
      ensures !o.LoginLost?
    {
      book.SetStatus(id, status);
      o := SaveNote(id, s0, d0, todo);
    }

    /** One unresolved note of the batch. */
    method ProcessNote(id: Id, maxAttempts: nat, ghost todo: set<Id>) returns (r: NoteEnd)
      requires WorldOk() && NotesOk(tracker, book.s) && (disk.Some? ==> NotesOk(tracker, disk.value))
      requires Disciplined(book.s) && id in book.s.notes && !IsResolved(book.s, id)
      requires ScanOk(todo + {id}) && id !in todo
      modifies this, book
      ensures WorldOk() && NotesOk(tracker, book.s) && (disk.Some? ==> NotesOk(tracker, disk.value))
      ensures Disciplined(book.s) && OnlyNote(old(book.s), book.s, id) && ScanOk(todo)
      ensures Grows(old(tracker), tracker)
      ensures old(book.s).notes[id].attempts <= book.s.notes[id].attempts
      ensures disk == old(disk)
              || (disk.Some? && Onward(old(book.s), disk.value) && SameBatches(old(book.s), disk.value))
      ensures !r.NoteAborted? && !r.NoteDead? ==>
                disk == Some(book.s) && Weight(book.s, id, maxAttempts) < Weight(old(book.s), id, maxAttempts)
      ensures r.Finished? ==> NoteDone(book.s.notes[id]) && book.s.notes[id].status == Done
      ensures r.GaveUp? ==> book.s.notes[id].status == Failed && book.s.notes[id].attempts > maxAttempts
      ensures Counted(old(entries), old(book.s), maxAttempts) ==> Counted(entries, book.s, maxAttempts)
    {
      ghost var before, counted := book.s, entries;
      var attempts := Bump(id, todo + {id});
      ghost var s0, d0 := book.s, disk;
      r := TakeUp(id, maxAttempts, s0, d0, todo);
      TakenUp(before, s0, book.s, id, maxAttempts);
      if Counted(counted, before, maxAttempts) { CountedTakenUp(counted, before, book.s, id, maxAttempts); }
      if disk != d0 { TakenUpKeeps(before, s0, disk.value, id); }
    }

    /** After the attempt was counted: give the note up beyond the cap, else enter the pipeline. */
    method TakeUp(id: Id, maxAttempts: nat, ghost s0: State, ghost d0: Option<State>, ghost todo: set<Id>)
      returns (r: NoteEnd)
      requires Going(s0, d0, id, todo + {id}) && id !in todo
      modifies this, book
      ensures Going(s0, d0, id, todo) && Grows(old(tracker), tracker)
      ensures s0.notes[id].attempts <= maxAttempts || IsResolved(book.s, id)
      ensures entries == if s0.notes[id].attempts <= maxAttempts then Enter(old(entries), id) else old(entries)
      ensures !r.NoteAborted? && !r.NoteDead? ==> disk == Some(book.s)
      ensures r.Finished? ==> NoteDone(book.s.notes[id]) && book.s.notes[id].status == Done
      ensures r.GaveUp? ==> book.s.notes[id].status == Failed && s0.notes[id].attempts > maxAttempts
    {
      assert book.s.notes[id].attempts == s0.notes[id].attempts;
      if book.s.notes[id].attempts > maxAttempts { r := GiveUp(id, s0, d0, todo); return; }
      entries := Enter(entries, id);
      r := TryNote(id, s0, d0, todo);
    }

    /** The attempt cap is exceeded: the note is failed for good. */
    method GiveUp(id: Id, ghost s0: State, ghost d0: Option<State>, ghost todo: set<Id>) returns (r: NoteEnd)
      requires Going(s0, d0, id, todo + {id}) && id !in todo
      modifies this`disk, book
      ensures Going(s0, d0, id, todo) && Grows(old(tracker), tracker)
      ensures IsResolved(book.s, id) && book.s.notes[id].status == Failed
      ensures r.GaveUp? || r.NoteAborted? || r.NoteDead?
      ensures !r.NoteAborted? && !r.NoteDead? ==> disk == Some(book.s)
    {
      var o := Close(id, Failed, s0, d0, todo);
      r := if o.Fine? then GaveUp else if o.Killed? then NoteDead else NoteAborted;
    }

    /** bump_attempt: the note is now under way. */
    method Bump(id: Id, ghost todo: set<Id>) returns (attempts: nat)
      requires WorldOk() && NotesOk(tracker, book.s) && (disk.Some? ==> NotesOk(tracker, disk.value))
      requires Disciplined(book.s) && id in book.s.notes && !IsResolved(book.s, id) && ScanOk(todo)
      modifies book
      ensures Going(book.s, disk, id, todo) && Bumped(old(book.s), book.s, id)
      ensures attempts == book.s.notes[id].attempts
    {
      ghost var before := book.s;
      attempts := book.BumpAttempt(id);
      OnlyNoteKeeps(before, book.s, id);
    }

    /** The try block and its handlers: a lost login and any other error leave the note pending. */
    method TryNote(id: Id, ghost s0: State, ghost d0: Option<State>, ghost todo: set<Id>) returns (r: NoteEnd)
      requires Going(s0, d0, id, todo + {id}) && id !in todo
      modifies this`disk, this`tracker, this`existing, this`covered, book
      ensures Going(s0, d0, id, todo) && Grows(old(tracker), tracker)
      ensures !r.NoteAborted? && !r.NoteDead? ==> disk == Some(book.s)
      ensures r.Finished? ==> NoteDone(book.s.notes[id]) && book.s.notes[id].status == Done
      ensures r.LeftPending? || r.NoteLogin? ==> book.s.notes[id].status == Pending
      ensures !r.GaveUp?
    {
      var o := Pipeline(id, s0, d0, todo);
      if o.Fine? { return Finished; }
      if o.Killed? { return NoteDead; }
      var saved := Close(id, Pending, s0, d0, todo);
      r := if saved.Killed? then NoteDead
           else if saved.Transient? then NoteAborted
           else if o.LoginLost? then NoteLogin else LeftPending;
    }

    /** What a run keeps, relative to the state `s0` and the file `d0` it began with. */
    ghost predicate RunOk(s0: State, d0: Option<State>)
      reads this`tracker, this`disk, book
    {
      && WorldOk() && NotesOk(tracker, book.s) && (disk.Some? ==> NotesOk(tracker, disk.value))
      && Disciplined(book.s) && Onward(s0, book.s)
      && (disk == d0 || (disk.Some? && Onward(s0, disk.value)))
    }

    /** The batches on disk are the ones in memory. */
    ghost predicate InStep()
      reads this`disk, book
    {
      disk.Some? && SameBatches(book.s, disk.value)
    }

    /** One turn of the loop over the batch: register the note, skip it when resolved, stop when
        the load gate says pause, else take it up. */
    method ProcessOne(id: Id, maxAttempts: nat, ghost ids: seq<Id>,
                      ghost s0: State, ghost d0: Option<State>, ghost todo: set<Id>)
      returns (end: Option<RunEnd>, took: bool)
      requires RunOk(s0, d0) && InStep() && ScanOk(todo + {id}) && id !in todo
      requires Distinct(ids) && id in ids
      modifies this, book
      ensures RunOk(s0, d0) && InStep() && ScanOk(todo) && SameBatches(old(book.s), book.s)
      ensures Onward(old(book.s), book.s) && Grows(old(tracker), tracker)
      ensures end.Some? ==> end.value.PausedByLoad? || end.value.LoginStop? || Lost(end.value)
      ensures end.Some? && !Lost(end.value) ==> disk == Some(book.s)
      ensures !took || end.None? || !Lost(end.value) ==> Advanced(old(book.s), book.s, ids, maxAttempts, took)
      ensures !took && end.None? ==> IsResolved(book.s, id)
      ensures end.Some? && end.value.LoginStop? ==> took
      ensures Counted(old(entries), old(book.s), maxAttempts) ==> Counted(entries, book.s, maxAttempts)
    {
      Register(id, ids, maxAttempts, s0, d0);
      if IsResolved(book.s, id) { return None, false; }
      var pause: bool := *;       // the load gate
      if pause {
        var o := Save();
        return Some(if o.Fine? then PausedByLoad else if o.Killed? then Dead else Aborted), false;
      }
      end := TakeTurn(id, maxAttempts, ids, s0, d0, todo);
      took := true;
    }

    /** An unresolved note that the load gate lets through. */
    method TakeTurn(id: Id, maxAttempts: nat, ghost ids: seq<Id>,
                    ghost s0: State, ghost d0: Option<State>, ghost todo: set<Id>)
      returns (end: Option<RunEnd>)
      requires RunOk(s0, d0) && InStep() && ScanOk(todo + {id}) && id !in todo
      requires Distinct(ids) && id in ids && id in book.s.notes && !IsResolved(book.s, id)
      modifies this, book
      ensures RunOk(s0, d0) && InStep() && ScanOk(todo) && SameBatches(old(book.s), book.s)
      ensures Onward(old(book.s), book.s) && Grows(old(tracker), tracker)
      ensures end.Some? ==> end.value.LoginStop? || Lost(end.value)
      ensures end.Some? && !Lost(end.value) ==> disk == Some(book.s)
      ensures end.None? || !Lost(end.value) ==> Advanced(old(book.s), book.s, ids, maxAttempts, true)
      ensures Counted(old(entries), old(book.s), maxAttempts) ==> Counted(entries, book.s, maxAttempts)
    {
      ghost var taken, was := book.s, disk;
      var r := ProcessNote(id, maxAttempts, todo);
      end := if r.NoteDead? then Some(Dead)
             else if r.NoteAborted? then Some(Aborted)
             else if r.NoteLogin? then Some(LoginStop) else None;
      NoteTaken(taken, book.s, ids, id, maxAttempts);
      OnwardChains(s0, taken, book.s);
      if disk != was { OnwardChains(s0, taken, disk.value); }
    }

    /** add_note within a run. */
    method Register(id: Id, ghost ids: seq<Id>, ghost maxAttempts: nat, ghost s0: State, ghost d0: Option<State>)
      requires RunOk(s0, d0)
      modifies book
      ensures RunOk(s0, d0) && SameBatches(old(book.s), book.s) && id in book.s.notes
      ensures Onward(old(book.s), book.s)
      ensures Measure(book.s, ids, maxAttempts) == Measure(old(book.s), ids, maxAttempts)
      ensures Counted(old(entries), old(book.s), maxAttempts) ==> Counted(entries, book.s, maxAttempts)
    {
      ghost var before := book.s;
      book.AddNote(id);
      NotesKeep(before, book.s.notes);
      SameMeasure(before, book.s, ids, maxAttempts);
    }

    /** The loop over the notes of batch `k`. `end` tells why it stopped early, if it did;
        `reached` whether an unresolved note was taken up. */
    method ProcessBatch(k: nat, maxAttempts: nat, ghost s0: State, ghost d0: Option<State>)
      returns (end: Option<RunEnd>, reached: bool)
      requires RunOk(s0, d0) && InStep() && k in book.s.batches
      requires ScanOk(Elems(book.s.batches[k].noteIds))
      modifies this, book
      ensures RunOk(s0, d0) && InStep() && SameBatches(old(book.s), book.s) && Grows(old(tracker), tracker)
      ensures end.Some? ==> end.value.PausedByLoad? || end.value.LoginStop? || Lost(end.value)
      ensures end.Some? && !Lost(end.value) ==> disk == Some(book.s)
      ensures end.Some? && end.value.LoginStop? ==> reached
      ensures !reached || end.None? || !Lost(end.value) ==>
                Advanced(old(book.s), book.s, book.s.batches[k].noteIds, maxAttempts, reached)
      ensures end.None? && !reached ==> forall id :: id in book.s.batches[k].noteIds ==> IsResolved(book.s, id)
      ensures Counted(old(entries), old(book.s), maxAttempts) ==> Counted(entries, book.s, maxAttempts)
    {
      var ids := book.s.batches[k].noteIds;
      reached := false;
      for i := 0 to |ids|
        invariant RunOk(s0, d0) && InStep() && SameBatches(old(book.s), book.s) && Grows(old(tracker), tracker)
        invariant ScanOk(Elems(ids[i..]))
        invariant Advanced(old(book.s), book.s, ids, maxAttempts, reached)
        invariant !reached ==> forall j :: 0 <= j < i ==> IsResolved(book.s, ids[j])
        invariant Counted(old(entries), old(book.s), maxAttempts) ==> Counted(entries, book.s, maxAttempts)
      {
        ElemsStep(ids, i);
        ghost var before := book.s;
        var took: bool;
        end, took := ProcessOne(ids[i], maxAttempts, ids, s0, d0, Elems(ids[i + 1..]));
        reached := reached || took;
        if end.Some? { return; }
        if !reached { StillResolved(before, book.s, ids, i); }
      }
      end := None;
    }

    /** Enumerate, scan, and pick or resume the batch; None when the run ends here. */
    method ChooseBatch(size: int) returns (end: Option<RunEnd>, k: nat)
      requires RunOk(book.s, disk)
      modifies this`tracker, this`existing, this`covered, book
      ensures RunOk(old(book.s), old(disk)) && Grows(old(tracker), tracker)
      ensures book.s.notes == old(book.s).notes && Stays(old(book.s), book.s, size)
      ensures end.Some? ==>
                book.s == old(book.s) && (end.value.NothingToDo? || end.value.AwaitingReview? || Lost(end.value))
      ensures end == Some(NothingToDo) ==> !Unreviewed(old(book.s))
      ensures end == Some(AwaitingReview) ==> AwaitsReview(book.s)
      ensures end.None? ==> Unreviewed(book.s) && k == book.s.nextBatch - 1 && ScanOk(Elems(book.s.batches[k].noteIds))
    {
      k := 0;
      var o, candidates := EnumerateNotes();
      if !o.Fine? { return Some(if o.Killed? then Dead else Aborted), k; }
      o := Scan();
      if !o.Fine? { return Some(if o.Killed? then Dead else Aborted), k; }
      end, k := PickOrResume(candidates, size, book.s, disk);
    }

    /** assign_next_batch on the candidates that no issue covers or that are known. */
    method PickOrResume(candidates: seq<Id>, size: int, ghost s0: State, ghost d0: Option<State>)
      returns (end: Option<RunEnd>, k: nat)
      requires RunOk(s0, d0) && Distinct(candidates) && forall todo :: ScanOk(todo)
      modifies book
      ensures RunOk(s0, d0)
      ensures book.s.notes == old(book.s).notes && Stays(old(book.s), book.s, size)
      ensures end.Some? ==> book.s == old(book.s) && (end.value.NothingToDo? || end.value.AwaitingReview?)
      ensures end == Some(NothingToDo) ==> !Unreviewed(old(book.s))
      ensures end == Some(AwaitingReview) ==> AwaitsReview(book.s)
      ensures end.None? ==> Unreviewed(book.s) && k == book.s.nextBatch - 1 && ScanOk(Elems(book.s.batches[k].noteIds))
    {
      var open := Candidates(candidates, covered, book.s.notes.Keys);
      CandidatesDistinct(candidates, covered, book.s.notes.Keys);
      FirstEligibleIsSound(book.s, open, size);
      ghost var before := book.s;
      var b: Option<Batch>;
      k, b := book.AssignNextBatch(open, size);
      if b.None? { return Some(NothingToDo), k; }
      if !LatestOpen(before) { OpenKeeps(before, FirstEligible(before, open, size)); }
      if b.value.status.Reported? { return Some(AwaitingReview), k; }
      end := None;
    }

    /** After the loop: report the batch when every note is resolved. */
    method Report(k: nat, ghost s0: State, ghost d0: Option<State>) returns (r: RunEnd)
      requires RunOk(s0, d0) && InStep() && Unreviewed(book.s) && k == book.s.nextBatch - 1
      modifies this`disk, book
      ensures RunOk(s0, d0) && SameLists(old(book.s), book.s) && disk.Some? && SameLists(old(book.s), disk.value)
      ensures book.s.notes == old(book.s).notes
      ensures r.Incomplete? || r.ReportedNow? || Lost(r)
      ensures !Lost(r) ==> disk == Some(book.s)
      ensures r.ReportedNow? ==> AwaitsReview(book.s)
      ensures r.Incomplete? ==>
                k in book.s.batches && exists id :: id in book.s.batches[k].noteIds && !IsResolved(book.s, id)
    {
      SameBatchesSameLists(book.s, disk.value);
      var ids := book.s.batches[k].noteIds;
      if UnfinishedIn(book.s, ids) != [] {
        var o := Save();
        return if o.Fine? then Incomplete else if o.Killed? then Dead else Aborted;
      }
      r := Deliver(k, s0, d0);
    }

    /** mark_batch within a run. */
    method Mark(k: nat, status: BatchStatus, ghost s0: State, ghost d0: Option<State>)
      requires RunOk(s0, d0) && Unreviewed(book.s) && k == book.s.nextBatch - 1
      requires status.Running? || (status.Reported? && UnfinishedIn(book.s, book.s.batches[k].noteIds) == [])
      modifies book
      ensures RunOk(s0, d0) && SameLists(old(book.s), book.s) && book.s.notes == old(book.s).notes
      ensures book.s.batches[k].status == status
    {
      var known := book.MarkBatch(k, status);
    }

    /** build_report and mark_batch(reported). */
    method Deliver(k: nat, ghost s0: State, ghost d0: Option<State>) returns (r: RunEnd)
      requires RunOk(s0, d0) && InStep() && Unreviewed(book.s) && k == book.s.nextBatch - 1
      requires UnfinishedIn(book.s, book.s.batches[k].noteIds) == []
      modifies this`disk, book
      ensures RunOk(s0, d0) && SameLists(old(book.s), book.s) && disk.Some? && SameLists(old(book.s), disk.value)
      ensures book.s.notes == old(book.s).notes
      ensures r.ReportedNow? || Lost(r)
      ensures r.ReportedNow? ==> disk == Some(book.s) && AwaitsReview(book.s)
    {
      SameBatchesSameLists(book.s, disk.value);
      var o := Outside();       // build_report
      if !o.Fine? { return if o.Killed? then Dead else Aborted; }
      Mark(k, Reported, s0, d0);
      o := Save();
      r := if o.Fine? then ReportedNow else if o.Killed? then Dead else Aborted;
    }

    /** No batch of `s0` is lost or changed, in memory or in the file. */
    ghost predicate BatchesStay(s0: State, d0: Option<State>, size: int)
      reads this`disk, book
    {
      Stays(s0, book.s, size) && (disk == d0 || (disk.Some? && Stays(s0, disk.value, size)))
    }

    /** run_batch: at most one batch, then stop. Whatever happens and wherever the process dies:
        at most one issue per note and one engine comment per issue, the batch discipline holds
        in memory and on disk, and no resolved note changes. A run that is neither killed nor
        aborted leaves its state on disk, and has made progress once it took a note up. */
    method RunBatch(size: int, maxAttempts: nat) returns (r: RunEnd, k: nat, reached: bool)
      requires RunOk(book.s, disk)
      modifies this, book
      ensures RunOk(old(book.s), old(disk)) && Grows(old(tracker), tracker)
      ensures BatchesStay(old(book.s), old(disk), size)
      ensures WorksOn(r) ==> disk == Some(book.s) && Unreviewed(book.s) && k == book.s.nextBatch - 1
      ensures !WorksOn(r) && !Lost(r) ==> disk == old(disk) && entries == old(entries)
      ensures r.NothingToDo? ==> !Unreviewed(old(book.s))
      ensures r.AwaitingReview? ==> AwaitsReview(old(book.s))
      ensures r.ReportedNow? ==> AwaitsReview(book.s)
      ensures r.Incomplete? || r.LoginStop? ==> reached
      ensures WorksOn(r) ==> Advanced(old(book.s), book.s, book.s.batches[k].noteIds, maxAttempts, reached)
      ensures Counted(old(entries), old(book.s), maxAttempts) ==> Counted(entries, book.s, maxAttempts)
    {
      ghost var s0, d0, t0, e0 := book.s, disk, tracker, entries;
      var end: Option<RunEnd>;
      end, k := StartBatch(size, maxAttempts);
      if end.Some? {
        r, reached := end.value, false;
      } else {
        r, reached := WorkOn(k, size, maxAttempts, s0, d0, t0, e0);
        assert !r.AwaitingReview? && !r.NothingToDo?;
      }
    }

    /** The rest of a run that began in `s0` with the file `d0`, the tracker `t0` and `e0`. */
    method WorkOn(k: nat, size: int, maxAttempts: nat, ghost s0: State, ghost d0: Option<State>,
                  ghost t0: seq<Issue>, ghost e0: map<Id, nat>)
      returns (r: RunEnd, reached: bool)
      requires RunOk(s0, d0) && Grows(t0, tracker)
      requires InStep() && Unreviewed(book.s) && k == book.s.nextBatch - 1 && BatchesStay(s0, d0, size)
      requires ScanOk(Elems(book.s.batches[k].noteIds))
      requires Measure(s0, book.s.batches[k].noteIds, maxAttempts)
               == Measure(book.s, book.s.batches[k].noteIds, maxAttempts)
      requires Counted(e0, s0, maxAttempts) ==> Counted(entries, book.s, maxAttempts)
      modifies this, book
      ensures RunOk(s0, d0) && Grows(t0, tracker)
      ensures BatchesStay(s0, d0, size)
      ensures WorksOn(r) || Lost(r)
      ensures WorksOn(r) ==> disk == Some(book.s) && Unreviewed(book.s) && k == book.s.nextBatch - 1
      ensures r.ReportedNow? ==> AwaitsReview(book.s)
      ensures r.Incomplete? || r.LoginStop? ==> reached
      ensures WorksOn(r) ==> Advanced(s0, book.s, book.s.batches[k].noteIds, maxAttempts, reached)
      ensures Counted(e0, s0, maxAttempts) ==> Counted(entries, book.s, maxAttempts)
    {
      ghost var started, t := book.s, tracker;
      r, reached := FinishBatch(k, maxAttempts, s0, d0);
      GrowsChains(t0, t, tracker);
      RunChains(s0, started, book.s, disk.value, k, size, maxAttempts);
    }

    /** Work on the running batch and report it when every note is resolved. */
    method FinishBatch(k: nat, maxAttempts: nat, ghost s0: State, ghost d0: Option<State>)
      returns (r: RunEnd, reached: bool)
      requires RunOk(s0, d0) && InStep() && Unreviewed(book.s) && k == book.s.nextBatch - 1
      requires ScanOk(Elems(book.s.batches[k].noteIds))
      modifies this, book
      ensures RunOk(s0, d0) && Grows(old(tracker), tracker)
      ensures SameLists(old(book.s), book.s) && disk.Some? && SameLists(old(book.s), disk.value)
      ensures WorksOn(r) || Lost(r)
      ensures WorksOn(r) ==> disk == Some(book.s)
      ensures r.ReportedNow? ==> AwaitsReview(book.s)
      ensures r.Incomplete? || r.LoginStop? ==> reached
      ensures WorksOn(r) ==> Advanced(old(book.s), book.s, old(book.s).batches[k].noteIds, maxAttempts, reached)
      ensures Counted(old(entries), old(book.s), maxAttempts) ==> Counted(entries, book.s, maxAttempts)
    {
      ghost var b0, e0 := book.s, entries;
      var end: Option<RunEnd>;
      end, reached := ProcessBatch(k, maxAttempts, s0, d0);
      r := Conclude(end, k, maxAttempts, s0, d0, b0, e0, reached);
    }

    /** The loop stopped early, or the batch may be reported. */
    method Conclude(end: Option<RunEnd>, k: nat, ghost maxAttempts: nat, ghost s0: State, ghost d0: Option<State>,
                    ghost b0: State, ghost e0: map<Id, nat>, ghost reached: bool)
      returns (r: RunEnd)
      requires RunOk(s0, d0) && InStep() && Unreviewed(b0) && k == b0.nextBatch - 1 && SameBatches(b0, book.s)
      requires end.Some? ==> end.value.PausedByLoad? || end.value.LoginStop? || Lost(end.value)
      requires end.Some? && !Lost(end.value) ==> disk == Some(book.s)
      requires end.Some? && end.value.LoginStop? ==> reached
      requires !reached || end.None? || !Lost(end.value) ==>
                 Advanced(b0, book.s, b0.batches[k].noteIds, maxAttempts, reached)
      requires end.None? && !reached ==> forall id :: id in b0.batches[k].noteIds ==> IsResolved(book.s, id)
      requires Counted(e0, b0, maxAttempts) ==> Counted(entries, book.s, maxAttempts)
      modifies this`disk, book
      ensures RunOk(s0, d0) && SameLists(b0, book.s) && disk.Some? && SameLists(b0, disk.value)
      ensures WorksOn(r) || Lost(r)
      ensures WorksOn(r) ==> disk == Some(book.s)
      ensures r.ReportedNow? ==> AwaitsReview(book.s)
      ensures r.Incomplete? || r.LoginStop? ==> reached
      ensures WorksOn(r) ==> Advanced(b0, book.s, b0.batches[k].noteIds, maxAttempts, reached)
      ensures Counted(e0, b0, maxAttempts) ==> Counted(entries, book.s, maxAttempts)
    {
      if end.Some? { return end.value; }
      r := ReportAfter(k, maxAttempts, s0, d0, b0, e0, reached);
    }

    /** The report, after work that began with the state `b0` and the counts `e0`. */
    method ReportAfter(k: nat, ghost maxAttempts: nat, ghost s0: State, ghost d0: Option<State>,
                       ghost b0: State, ghost e0: map<Id, nat>, ghost reached: bool)
      returns (r: RunEnd)
      requires RunOk(s0, d0) && InStep() && Unreviewed(b0) && k == b0.nextBatch - 1 && SameBatches(b0, book.s)
      requires Advanced(b0, book.s, b0.batches[k].noteIds, maxAttempts, reached)
      requires !reached ==> forall id :: id in b0.batches[k].noteIds ==> IsResolved(book.s, id)
      requires Counted(e0, b0, maxAttempts) ==> Counted(entries, book.s, maxAttempts)
      modifies this`disk, book
      ensures RunOk(s0, d0) && SameLists(b0, book.s) && disk.Some? && SameLists(b0, disk.value)
      ensures r.Incomplete? || r.ReportedNow? || Lost(r)
      ensures !Lost(r) ==> disk == Some(book.s)
      ensures r.ReportedNow? ==> AwaitsReview(book.s)
      ensures r.Incomplete? ==> reached
      ensures Advanced(b0, book.s, b0.batches[k].noteIds, maxAttempts, reached)
      ensures Counted(e0, b0, maxAttempts) ==> Counted(entries, book.s, maxAttempts)
    {
      ghost var before := book.s;
      r := Report(k, s0, d0);
      NotesDecide(before, book.s, b0.batches[k].noteIds, maxAttempts, entries);
      if r.Incomplete? {
        var id :| id in book.s.batches[k].noteIds && !IsResolved(book.s, id);
        assert id in b0.batches[k].noteIds && !IsResolved(before, id);
      }
    }

    /** Choose the batch and record that it is running. */
    method StartBatch(size: int, ghost maxAttempts: nat) returns (end: Option<RunEnd>, k: nat)
      requires RunOk(book.s, disk)
      modifies this`disk, this`tracker, this`existing, this`covered, book
      ensures RunOk(old(book.s), old(disk)) && Grows(old(tracker), tracker)
      ensures end.Some? ==> end.value.NothingToDo? || end.value.AwaitingReview? || Lost(end.value)
      ensures BatchesStay(old(book.s), old(disk), size)
      ensures end.Some? && !Lost(end.value) ==> disk == old(disk)
      ensures end.Some? && end.value.NothingToDo? ==> !Unreviewed(old(book.s))
      ensures end.Some? && end.value.AwaitingReview? ==> AwaitsReview(old(book.s))
      ensures end.None? ==> disk == Some(book.s) && Unreviewed(book.s) && k == book.s.nextBatch - 1
      ensures end.None? ==> ScanOk(Elems(book.s.batches[k].noteIds))
      ensures end.None? ==>
                Measure(book.s, book.s.batches[k].noteIds, maxAttempts)
                == Measure(old(book.s), book.s.batches[k].noteIds, maxAttempts)
      ensures Counted(old(entries), old(book.s), maxAttempts) ==> Counted(entries, book.s, maxAttempts)
    {
      ghost var s0, d0 := book.s, disk;
      end, k := ChooseBatch(size);
      if end.Some? { return; }
      end := RunIt(k, size, s0, d0);
      NotesDecide(s0, book.s, book.s.batches[k].noteIds, maxAttempts, entries);
    }

    /** mark_batch(running) and its save. */
    method RunIt(k: nat, size: int, ghost s0: State, ghost d0: Option<State>) returns (end: Option<RunEnd>)
      requires RunOk(s0, d0) && disk == d0 && Unreviewed(book.s) && k == book.s.nextBatch - 1 && Stays(s0, book.s, size)
      modifies this`disk, book
      ensures RunOk(s0, d0) && BatchesStay(s0, d0, size)
      ensures SameLists(old(book.s), book.s) && book.s.notes == old(book.s).notes
      ensures end.Some? ==> Lost(end.value)
      ensures end.None? ==> disk == Some(book.s) && Unreviewed(book.s)
    {
      ghost var chosen := book.s;
      Mark(k, Running, s0, d0);
      StaysSame(s0, chosen, book.s, size);
      var o := Save();
      end := if o.Fine? then None else Some(if o.Killed? then Dead else Aborted);
    }

    /** One command of the engine's program on a freshly started process: load the checkpoint (a
        corrupt one is dropped), then mark a batch reviewed or run a batch. However it ends, a
        checkpoint that was not dropped stays and goes onward. */
    method Command(size: int, maxAttempts: nat) returns (clean: bool, dropped: bool)
      requires WorldOk() && (disk.Some? ==> NotesOk(tracker, disk.value))
      modifies this, book
      ensures WorldOk() && (disk.Some? ==> NotesOk(tracker, disk.value)) && Grows(old(tracker), tracker)
      ensures clean && old(CountedOnDisk(maxAttempts)) ==> CountedOnDisk(maxAttempts)
      ensures clean ==> !dropped
      ensures !dropped && old(disk).Some? ==> disk.Some? && Onward(old(disk).value, disk.value)
    {
      dropped := *;
      if dropped { disk := None; }
      book.Load(if disk.Some? then disk.value else FRESH_STATE);
      var review: bool := *;
      if review {
        var k: nat := *;
        var known := book.MarkBatch(k, Reviewed);
        var o := Fine;
        if known { o := Save(); }
        clean := !dropped && o.Fine?;
      } else {
        var r, k, reached := RunBatch(size, maxAttempts);
        clean := !dropped && !Lost(r);
      }
    }

    /** One run of the program on the checkpoint as it is, with the latest batch unreviewed. */
    method RunProgram(size: int, maxAttempts: nat) returns (x: RunRecord)
      requires WorldOk() && disk.Some? && NotesOk(tracker, disk.value)
      requires Unreviewed(disk.value) && !AwaitsReview(disk.value)
      modifies this, book
      ensures WorldOk() && disk.Some? && NotesOk(tracker, disk.value)
      ensures Onward(old(disk).value, disk.value) && Stays(old(disk).value, disk.value, size)
      ensures x.end.ReportedNow? ==> AwaitsReview(disk.value)
      ensures var ids := old(disk).value.batches[old(disk).value.nextBatch - 1].noteIds;
              x.end.ReportedNow? || RunStep(old(disk).value, x, disk.value, ids, maxAttempts)
    {
      book.Load(disk.value);
      var r, k, reached := RunBatch(size, maxAttempts);
      x := RunRecord(r, reached);
    }

    /** Up to `limit` runs of the program, whatever fails, loses the login or is killed in them, on
        a batch that is open. Unless the batch ends up reported with every note resolved, there
        were at most (maxAttempts + 1) runs per note besides the idle ones. */
    method DriveBatch(size: int, maxAttempts: nat, limit: nat) returns (runs: seq<RunRecord>)
      requires WorldOk() && disk.Some? && NotesOk(tracker, disk.value) && Unreviewed(disk.value)
      modifies this, book
      ensures WorldOk() && disk.Some? && NotesOk(tracker, disk.value) && OnSameBatch(old(disk).value, disk.value)
      ensures var batch := old(disk).value.batches[old(disk).value.nextBatch - 1];
              if AwaitsReview(disk.value) then forall id :: id in batch.noteIds ==> IsResolved(disk.value, id)
              else |runs| == limit && limit <= IdleRuns(runs) + |batch.noteIds| * (maxAttempts + 1)
    {
      runs := [];
      ghost var first := disk.value;
      ghost var ids := first.batches[first.nextBatch - 1].noteIds;
      ghost var states := [first];
      while |runs| < limit
        invariant WorldOk() && disk.Some? && NotesOk(tracker, disk.value) && OnSameBatch(first, disk.value)
        invariant |runs| <= limit && Chained(states, runs, ids, maxAttempts) && states[|runs|] == disk.value
        decreases limit - |runs|
      {
        if AwaitsReview(disk.value) { return; }
        ghost var before := disk.value;
        var x := RunProgram(size, maxAttempts);
        StaysOnBatch(first, before, disk.value, size);
        if x.end.ReportedNow? {
          runs := runs + [x];
          return;
        }
        ChainGrows(states, runs, x, disk.value, ids, maxAttempts);
        runs, states := runs + [x], states + [disk.value];
      }
      RunsAreBounded(states, runs, ids, maxAttempts);
    }

    /** The attempts on disk account for every entry into the pipeline. */
    ghost predicate CountedOnDisk(maxAttempts: nat)
      reads this
    {
      Counted(entries, if disk.Some? then disk.value else FRESH_STATE, maxAttempts)
    }

    /** Any number of commands, each of which may be killed anywhere, and any number of dropped
        checkpoints. As long as all were clean, no note entered the pipeline more than
        maxAttempts times. */
    method Life(commands: nat, size: int, maxAttempts: nat) returns (allClean: bool)
      requires tracker == [] && disk == None && entries == map[]
      modifies this, book
      ensures AtMostOnce(tracker) && (disk.Some? ==> Disciplined(disk.value) && NotesOk(tracker, disk.value))
      ensures allClean ==> forall id :: id in entries ==> entries[id] <= maxAttempts
    {
      allClean := true;
      for i := 0 to commands
        invariant WorldOk() && (disk.Some? ==> NotesOk(tracker, disk.value))
        invariant allClean ==> CountedOnDisk(maxAttempts)
      {
        var clean, dropped := Command(size, maxAttempts);
        allClean := allClean && clean;
      }
    }
  }

  /** The latest batch of `a` is still the latest in `b`, with the same notes and not reviewed. */
  ghost predicate OnSameBatch(a: State, b: State)
    requires Unreviewed(a)
  {
    && Onward(a, b) && Unreviewed(b) && b.nextBatch == a.nextBatch
    && b.batches[b.nextBatch - 1].noteIds == a.batches[a.nextBatch - 1].noteIds
  }

  lemma StaysOnBatch(first: State, a: State, b: State, size: int)
    requires Unreviewed(first) && OnSameBatch(first, a) && Onward(a, b) && Stays(a, b, size)
    ensures OnSameBatch(first, b)
  {
    OnwardChains(first, a, b);
  }

  /** The run got as far as the loop over its batch and neither aborted nor died. */
  predicate WorksOn(r: RunEnd) {
    r.PausedByLoad? || r.Incomplete? || r.ReportedNow? || r.LoginStop?
  }

  /** The candidates a batch may be built from: not covered by an issue, or already registered. */
  function Candidates(ids: seq<Id>, covered: set<Id>, known: set<Id>): seq<Id> {
    if ids == [] then []
    else (if ids[0] !in covered || ids[0] in known then [ids[0]] else []) + Candidates(ids[1..], covered, known)
  }

  lemma {:induction false} CandidatesDistinct(ids: seq<Id>, covered: set<Id>, known: set<Id>)
    ensures forall id :: id in Candidates(ids, covered, known) <==> id in ids && (id !in covered || id in known)
    ensures Distinct(ids) ==> Distinct(Candidates(ids, covered, known))
  {
    if ids != [] {
      CandidatesDistinct(ids[1..], covered, known);
      assert Distinct(ids) ==> ids[0] !in ids[1..];
    }
  }

  ghost predicate SameBatches(a: State, b: State) {
    b.batches == a.batches && b.nextBatch == a.nextBatch
  }

  /** The same batches up to their status, and the same ones reviewed. */
  ghost predicate SameLists(a: State, b: State) {
    && b.nextBatch == a.nextBatch && b.batches.Keys == a.batches.Keys
    && forall k :: k in a.batches ==>
         && b.batches[k].noteIds == a.batches[k].noteIds
         && (b.batches[k].status.Reviewed? <==> a.batches[k].status.Reviewed?)
  }

  lemma SameBatchesSameLists(a: State, b: State)
    requires SameBatches(a, b)
    ensures SameLists(a, b) && SameLists(a, a)
  {
  }

  /** There is a latest batch and it is not reviewed. */
  predicate Unreviewed(s: State) {
    s.nextBatch > 0 && s.nextBatch - 1 in s.batches && !s.batches[s.nextBatch - 1].status.Reviewed?
  }

  /** The latest batch was reported and is not reviewed. */
  predicate AwaitsReview(s: State) {
    Unreviewed(s) && s.batches[s.nextBatch - 1].status.Reported?
  }

  /** From `a` to `b` no batch changes its notes, a new one is within the batch size, and a latest
      batch that is not reviewed stays the latest and stays so. */
  ghost predicate Stays(a: State, b: State, size: int) {
    && (forall k :: k in a.batches ==> k in b.batches && b.batches[k].noteIds == a.batches[k].noteIds)
    && (forall k :: k in b.batches && k !in a.batches ==> |b.batches[k].noteIds| <= Max(1, size))
    && (Unreviewed(a) ==> b.nextBatch == a.nextBatch && Unreviewed(b))
  }

  /** A batch was started and then worked on. */
  lemma RunChains(a: State, b: State, c: State, d: State, k: nat, size: int, m: nat)
    requires Stays(a, b, size) && SameLists(b, c) && SameLists(b, d) && Unreviewed(b) && k == b.nextBatch - 1
    requires Measure(a, b.batches[k].noteIds, m) == Measure(b, b.batches[k].noteIds, m)
    ensures Stays(a, c, size) && Stays(a, d, size) && Unreviewed(c) && k == c.nextBatch - 1
    ensures forall reached :: Advanced(b, c, b.batches[k].noteIds, m, reached)
                      ==> Advanced(a, c, c.batches[k].noteIds, m, reached)
  {
    StaysSame(a, b, c, size);
    StaysSame(a, b, d, size);
  }

  lemma StaysSame(a: State, b: State, c: State, size: int)
    requires Stays(a, b, size) && SameLists(b, c)
    ensures Stays(a, c, size) && (Unreviewed(b) ==> Unreviewed(c))
  {
  }

  ghost function Elems(ids: seq<Id>): set<Id> {
    set id | id in ids
  }

  lemma ElemsStep(ids: seq<Id>, i: nat)
    requires i < |ids| && Distinct(ids)
    ensures Elems(ids[i..]) == Elems(ids[i + 1..]) + {ids[i]} && ids[i] !in Elems(ids[i + 1..])
  {
    assert ids[i..] == [ids[i]] + ids[i + 1..];
  }

  lemma NoteTaken(a: State, b: State, ids: seq<Id>, id: Id, m: nat)
    requires Distinct(ids) && id in ids
    requires OnlyNote(a, b, id) && !IsResolved(a, id) && id in a.notes && a.notes[id].attempts <= b.notes[id].attempts
    ensures Onward(a, b)
    ensures Weight(b, id, m) < Weight(a, id, m) ==> Measure(b, ids, m) < Measure(a, ids, m)
  {
    if Weight(b, id, m) < Weight(a, id, m) { SmallerMeasure(a, b, ids, id, m); }
  }

  /** The run ended without leaving its state in the file. */
  predicate Lost(r: RunEnd) { r.Aborted? || r.Dead? }

  datatype NoteEnd = Finished | GaveUp | LeftPending | NoteLogin | NoteAborted | NoteDead

  predicate StageDone(n: Note, stage: Checkpoint.Stage) {
    match stage
    case Fetched => n.fetched
    case Downloaded => n.downloaded
    case Analyzed => n.analyzed
    case Attached => n.attached
  }
}
