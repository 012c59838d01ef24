/**
 The durable checkpoint of the deep-scan engine (checkpoint.py): per-note stages, batches, and
 the batch cursor.
 */
module Checkpoint {
  import opened Prelude

  type Id = nat

  datatype NoteStatus = Pending | InProgress | Done | Degraded | Skipped | Failed

  datatype Stage = Fetched | Downloaded | Analyzed | Attached

  datatype Note = Note(
    fetched: bool, downloaded: bool, analyzed: bool, judged: bool, attached: bool,
    issueId: Option<nat>,          // the issue stage is done exactly when there is an id
    useful: Option<bool>,
    status: NoteStatus,
    attempts: nat)

  datatype BatchStatus = Queued | Running | Reported | Reviewed

  datatype Batch = Batch(noteIds: seq<Id>, status: BatchStatus)

  datatype State = State(notes: map<Id, Note>, batches: map<nat, Batch>, nextBatch: nat)

  const FRESH_NOTE := Note(false, false, false, false, false, None, None, Pending, 0)
  const FRESH_STATE := State(map[], map[], 1)

  predicate TerminalStatus(st: NoteStatus) {
    st.Done? || st.Degraded? || st.Skipped? || st.Failed?
  }

  predicate NoteDone(n: Note) {
    && n.fetched && n.downloaded && n.analyzed && n.judged
    && (n.useful == Some(true) ==> n.issueId.Some? && n.attached)
  }

  predicate IsResolved(s: State, id: Id) {
    id in s.notes && (TerminalStatus(s.notes[id].status) || NoteDone(s.notes[id]))
  }

  function UnfinishedIn(s: State, ids: seq<Id>): (r: seq<Id>)
    ensures r == [] <==> forall id :: id in ids ==> IsResolved(s, id)
  {
    if ids == [] then []
    else (if IsResolved(s, ids[0]) then [] else [ids[0]]) + UnfinishedIn(s, ids[1..])
  }

  // ---------------------------------------------------------------- batch discipline

  predicate Distinct(ids: seq<Id>) {
    forall i, j :: 0 <= i < j < |ids| ==> ids[i] != ids[j]
  }

  predicate Apart(a: seq<Id>, b: seq<Id>) {
    forall id :: id in a ==> id !in b
  }

  /** Batches are numbered 1 to nextBatch-1 without gaps, all but the last are reviewed, their
      note lists are disjoint, and every note of a reported batch is resolved. */
  ghost predicate Disciplined(s: State) {
    && s.nextBatch >= 1
    && (forall k: nat :: k in s.batches <==> 1 <= k < s.nextBatch)
    && (forall k: nat :: k in s.batches && k < s.nextBatch - 1 ==> s.batches[k].status.Reviewed?)
    && (forall k: nat :: k in s.batches ==> Distinct(s.batches[k].noteIds) && s.batches[k].noteIds != [])
    && (forall j: nat, k: nat :: j in s.batches && k in s.batches && j != k ==>
          Apart(s.batches[j].noteIds, s.batches[k].noteIds))
    && (forall k: nat :: k in s.batches && s.batches[k].status.Reported? ==>
          forall id :: id in s.batches[k].noteIds ==> IsResolved(s, id))
  }

  predicate Assigned(s: State, id: Id) {
    exists k :: k in s.batches && id in s.batches[k].noteIds
  }

  /** A candidate that may go into a new batch. */
  predicate Eligible(s: State, id: Id) {
    !Assigned(s, id) && !IsResolved(s, id)
  }

  /** The eligible candidates, in order. */
  function Eligibles(s: State, ids: seq<Id>): seq<Id> {
    if ids == [] then []
    else (if Eligible(s, ids[0]) then [ids[0]] else []) + Eligibles(s, ids[1..])
  }

  lemma {:induction false} EligiblesExact(s: State, ids: seq<Id>)
    ensures forall id :: id in Eligibles(s, ids) <==> id in ids && Eligible(s, id)
    ensures Distinct(ids) ==> Distinct(Eligibles(s, ids))
  {
    if ids != [] {
      EligiblesExact(s, ids[1..]);
      assert Distinct(ids) ==> ids[0] !in ids[1..];
    }
  }

  lemma EligiblesStep(s: State, ids: seq<Id>, i: nat)
    requires i < |ids|
    ensures Eligibles(s, ids[i..]) == (if Eligible(s, ids[i]) then [ids[i]] else []) + Eligibles(s, ids[i + 1..])
  {
    assert ids[i..][1..] == ids[i + 1..];
  }

  /** The state dictionary, changed in place. */
  class Book {
    var s: State

    constructor ()
      ensures s == FRESH_STATE
    {
      s := FRESH_STATE;
    }

    method Load(state: State)
      modifies this
      ensures s == state
    {
      s := state;
    }

    method SetNote(id: Id, n: Note)
      modifies this
      ensures s == old(s).(notes := old(s).notes[id := n])
    {
      s := s.(notes := s.notes[id := n]);
    }

    /** Idempotent: an existing record keeps its progress. */
    method AddNote(id: Id)
      modifies this
      ensures id in old(s).notes ==> s == old(s)
      ensures id !in old(s).notes ==> s == old(s).(notes := old(s).notes[id := FRESH_NOTE])
    {
      if id !in s.notes { SetNote(id, FRESH_NOTE); }
    }

    method BumpAttempt(id: Id) returns (attempts: nat)
      requires id in s.notes
      modifies this
      ensures s == old(s).(notes := old(s).notes[id := old(s).notes[id].(attempts := attempts)])
      ensures attempts == old(s).notes[id].attempts + 1
    {
      attempts := s.notes[id].attempts + 1;
      SetNote(id, s.notes[id].(attempts := attempts));
    }

    method MarkStage(id: Id, stage: Stage)
      requires id in s.notes
      modifies this
      ensures s == old(s).(notes := old(s).notes[id := WithStage(old(s).notes[id], stage)])
    {
      var n := s.notes[id];
      match stage {
        case Fetched => n := n.(fetched := true);
        case Downloaded => n := n.(downloaded := true);
        case Analyzed => n := n.(analyzed := true);
        case Attached => n := n.(attached := true);
      }
      SetNote(id, n);
    }

    method MarkIssue(id: Id, issue: nat)
      requires id in s.notes
      modifies this
      ensures s == old(s).(notes := old(s).notes[id := old(s).notes[id].(issueId := Some(issue))])
    {
      SetNote(id, s.notes[id].(issueId := Some(issue)));
    }

    method SetJudgment(id: Id, useful: bool)
      requires id in s.notes
      modifies this
      ensures s == old(s).(notes := old(s).notes[id := old(s).notes[id].(useful := Some(useful), judged := true)])
    {
      SetNote(id, s.notes[id].(useful := Some(useful), judged := true));
    }

    method SetStatus(id: Id, status: NoteStatus)
      requires id in s.notes
      modifies this
      ensures s == old(s).(notes := old(s).notes[id := old(s).notes[id].(status := status)])
    {
      SetNote(id, s.notes[id].(status := status));
    }

    /** Marking an unknown batch raises KeyError: known is false and nothing changes. */
    method MarkBatch(k: nat, status: BatchStatus) returns (known: bool)
      modifies this
      ensures known <==> k in old(s).batches
      ensures known ==> s == old(s).(batches := old(s).batches[k := old(s).batches[k].(status := status)])
      ensures !known ==> s == old(s)
      ensures known && Disciplined(old(s)) && (status.Reviewed? || k == old(s).nextBatch - 1)
              && (status.Reported? ==> forall id :: id in old(s).batches[k].noteIds ==> IsResolved(old(s), id)) ==>
                Disciplined(s)
    {
      known := k in s.batches;
      MarkKeeps(s, k, status);
      if known { s := s.(batches := s.batches[k := s.batches[k].(status := status)]); }
    }

    /** The first eligible candidates, in order: at most `size`, but one even when size is not positive. */
    method Pick(candidates: seq<Id>, size: int) returns (picked: seq<Id>)
      ensures picked == FirstEligible(s, candidates, size)
    {
      ghost var eligible := Eligibles(s, candidates);
      picked := [];
      var i := 0;
      while i < |candidates|
        invariant 0 <= i <= |candidates|
        invariant |picked| < Max(1, size)
        invariant eligible == picked + Eligibles(s, candidates[i..])
      {
        EligiblesStep(s, candidates, i);
        if Eligible(s, candidates[i]) {
          picked := picked + [candidates[i]];
          if |picked| >= size { break; }
        }
        i := i + 1;
      }
    }

    /** Returns the latest batch while it is not reviewed, or opens a new one with the first
        eligible candidates, or reports that there is nothing to do. */
    method AssignNextBatch(candidates: seq<Id>, size: int) returns (k: nat, b: Option<Batch>)
      requires Disciplined(s)
      modifies this
      ensures LatestOpen(old(s)) ==> s == old(s) && k == s.nextBatch - 1 && b == Some(s.batches[k])
      ensures !LatestOpen(old(s)) ==>
                var picked := FirstEligible(old(s), candidates, size);
                if picked == [] then s == old(s) && b == None
                else k == old(s).nextBatch && b == Some(Batch(picked, Queued)) && s == Open(old(s), picked)
    {
      k := s.nextBatch;
      if k > 1 && !s.batches[k - 1].status.Reviewed? {
        k := k - 1;
        b := Some(s.batches[k]);
        return;
      }
      var picked := Pick(candidates, size);
      if picked == [] { return k, None; }
      b := Some(Batch(picked, Queued));
      s := s.(batches := s.batches[k := b.value], nextBatch := k + 1);
    }
  }

  /** The latest batch exists and has not been reviewed. */
  predicate LatestOpen(s: State)
    requires forall k: nat :: 1 <= k < s.nextBatch ==> k in s.batches
  {
    s.nextBatch > 1 && !s.batches[s.nextBatch - 1].status.Reviewed?
  }

  function FirstEligible(s: State, candidates: seq<Id>, size: int): seq<Id> {
    var eligible := Eligibles(s, candidates);
    eligible[..Min(|eligible|, Max(1, size))]
  }

  /** A new batch holds distinct, unassigned, unresolved candidates, no more than its size (but
      one when the size is not positive), and is empty only when no candidate is eligible. */
  lemma FirstEligibleIsSound(s: State, candidates: seq<Id>, size: int)
    ensures var r := FirstEligible(s, candidates, size);
            && |r| <= Max(1, size)
            && (forall id :: id in r ==> id in candidates && Eligible(s, id))
            && (Distinct(candidates) ==> Distinct(r))
            && (r == [] ==> forall id :: id in candidates ==> !Eligible(s, id))
  {
    EligiblesExact(s, candidates);
    var eligible := Eligibles(s, candidates);
    assert forall id :: id in FirstEligible(s, candidates, size) ==> id in eligible;
  }

  function Open(s: State, ids: seq<Id>): State {
    s.(batches := s.batches[s.nextBatch := Batch(ids, Queued)], nextBatch := s.nextBatch + 1)
  }

  /** Opening a batch of eligible candidates after a review keeps the discipline. */
  lemma OpenKeeps(s: State, ids: seq<Id>)
    requires Disciplined(s) && !LatestOpen(s)
    requires Distinct(ids) && ids != [] && forall id :: id in ids ==> !Assigned(s, id)
    ensures Disciplined(Open(s, ids))
  {
  }

  lemma MarkKeeps(s: State, k: nat, status: BatchStatus)
    ensures k in s.batches && Disciplined(s) && (status.Reviewed? || k == s.nextBatch - 1)
            && (status.Reported? ==> forall id :: id in s.batches[k].noteIds ==> IsResolved(s, id)) ==>
              Disciplined(s.(batches := s.batches[k := s.batches[k].(status := status)]))
  {
  }

  /** Changing notes keeps the discipline as long as no resolved note becomes unresolved. */
  lemma NotesKeep(s: State, notes: map<Id, Note>)
    requires Disciplined(s)
    requires forall id :: IsResolved(s, id) ==> IsResolved(s.(notes := notes), id)
    ensures Disciplined(s.(notes := notes))
  {
  }

  function WithStage(n: Note, stage: Stage): Note {
    match stage
    case Fetched => n.(fetched := true)
    case Downloaded => n.(downloaded := true)
    case Analyzed => n.(analyzed := true)
    case Attached => n.(attached := true)
  }
}
