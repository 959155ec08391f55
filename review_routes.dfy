/** The weekly-review routes: one progress record per user, read (and
    created on first read), overwritten field by field, restarted, and
    advanced one checklist step at a time. */
module ReviewRoutes {
  import opened Wrappers
  import opened GtdTypes
  import opened DocStore

  /** A field of a stored review document may be missing: `$set` with an
      upsert writes only the fields the request supplies. */
  datatype Field<T> = Absent | Present(value: T)

  datatype ReviewDoc = ReviewDoc(
    lastReviewDate: Field<Option<Timestamp>>,
    currentStep: Field<int>,
    completedSteps: Field<seq<bool>>)

  /** The body of `PUT /`: any of the three fields. */
  datatype ReviewPatch = ReviewPatch(
    lastReviewDate: Update<Option<Timestamp>>,
    currentStep: Update<int>,
    completedSteps: Update<seq<bool>>)

  /** Seven unchecked steps. */
  function Unchecked(): (s: seq<bool>)
    ensures |s| == 7 && forall j :: 0 <= j < |s| ==> !s[j]
  {
    [false, false, false, false, false, false, false]
  }

  /** `DEFAULT_REVIEW`. */
  function DefaultReview(): ReviewDoc
  {
    ReviewDoc(Present(None), Present(0), Present(Unchecked()))
  }

  /** The document a fresh upsert starts from. */
  const NoFields := ReviewDoc(Absent, Absent, Absent)

  /** `$set`: every supplied field replaces the stored one (or creates it). */
  function ApplySet(doc: ReviewDoc, p: ReviewPatch): (r: ReviewDoc)
    ensures p.lastReviewDate.Keep? ==> r.lastReviewDate == doc.lastReviewDate
    ensures p.lastReviewDate.Set? ==> r.lastReviewDate == Present(p.lastReviewDate.value)
    ensures p.currentStep.Keep? ==> r.currentStep == doc.currentStep
    ensures p.currentStep.Set? ==> r.currentStep == Present(p.currentStep.value)
    ensures p.completedSteps.Keep? ==> r.completedSteps == doc.completedSteps
    ensures p.completedSteps.Set? ==> r.completedSteps == Present(p.completedSteps.value)
  {
    ReviewDoc(
      if p.lastReviewDate.Set? then Present(p.lastReviewDate.value) else doc.lastReviewDate,
      if p.currentStep.Set? then Present(p.currentStep.value) else doc.currentStep,
      if p.completedSteps.Set? then Present(p.completedSteps.value) else doc.completedSteps)
  }

  /** The reply `PUT /` shapes: a missing field reads as `null`, `0` or
      seven unchecked steps. */
  function Shape(doc: ReviewDoc): (r: ReviewProgress)
    ensures doc.lastReviewDate.Present? ==> r.lastReviewDate == doc.lastReviewDate.value
    ensures doc.lastReviewDate.Absent? ==> r.lastReviewDate.None?
    ensures r.currentStep == (if doc.currentStep.Present? then doc.currentStep.value else 0)
    ensures r.completedSteps == (if doc.completedSteps.Present? then doc.completedSteps.value else Unchecked())
  {
    ReviewProgress(
      if doc.lastReviewDate.Present? then doc.lastReviewDate.value else None,
      if doc.currentStep.Present? then doc.currentStep.value else 0,
      if doc.completedSteps.Present? then doc.completedSteps.value else Unchecked())
  }

  /** The default record has one entry per checklist step, and shapes to
      the same progress whether it is stored or missing altogether. */
  lemma DefaultReviewFitsChecklist()
    ensures DefaultReview().completedSteps.Present?
    ensures |DefaultReview().completedSteps.value| == |ReviewSteps|
    ensures Shape(DefaultReview()) == Shape(NoFields) == ReviewProgress(None, 0, Unchecked())
  {
  }

  /** `newCompletedSteps[step] = true` on a copy: sets the entry, and when
      the index is past the end the array grows, the gap reading as
      unchecked. */
  function Checked(s: seq<bool>, step: nat): (r: seq<bool>)
    ensures |r| == if step < |s| then |s| else step + 1
    ensures r[step]
    ensures forall j :: 0 <= j < |s| && j != step ==> r[j] == s[j]
    ensures forall j :: |s| <= j < |r| && j != step ==> !r[j]
  {
    if step < |s| then s[step := true]
    else s + seq(step - |s|, _ => false) + [true]
  }

  /** Checking a step that is already checked changes nothing; checking it
      twice is the same as checking it once. */
  lemma CheckedIdempotent(s: seq<bool>, step: nat)
    ensures step < |s| && s[step] ==> Checked(s, step) == s
    ensures Checked(Checked(s, step), step) == Checked(s, step)
  {
    var once := Checked(s, step);
    assert Checked(once, step) == once[step := true];
  }

  /** The copy-then-assign of the step handler, on an array. */
  method CopyAndCheck(s: seq<bool>, step: nat) returns (a: array<bool>)
    ensures fresh(a)
    ensures a[..] == Checked(s, step)
  {
    var n := if step < |s| then |s| else step + 1;
    a := new bool[n];
    var i := 0;
    while i < n
      invariant 0 <= i <= n
      invariant forall j :: 0 <= j < i ==> a[j] == (if j < |s| then s[j] else false)
    {
      a[i] := if i < |s| then s[i] else false;
      i := i + 1;
    }
    a[step] := true;
    assert a[..] == Checked(s, step);
  }

  /** The stored document after checking `step`. */
  function AfterStep(doc: ReviewDoc, step: nat): (r: ReviewDoc)
    requires doc.completedSteps.Present?
    ensures r.lastReviewDate == doc.lastReviewDate
    ensures r.currentStep == Present(step + 1)
    ensures r.completedSteps == Present(Checked(doc.completedSteps.value, step))
  {
    doc.(currentStep := Present(step + 1), completedSteps := Present(Checked(doc.completedSteps.value, step)))
  }

  /** The handler does not require `step` to be the current one: the
      pointer can move backwards, and repeating a step leaves the record as
      the first time. */
  lemma StepOrderNotEnforced(doc: ReviewDoc, step: nat)
    requires doc.completedSteps.Present?
    ensures AfterStep(AfterStep(doc, step), step) == AfterStep(doc, step)
    ensures doc.currentStep.Present? && doc.currentStep.value > step + 1 ==>
      AfterStep(doc, step).currentStep.value < doc.currentStep.value
  {
    CheckedIdempotent(doc.completedSteps.value, step);
  }

  /** A record with seven entries keeps seven entries through any valid
      step, and checking the seven steps one after another, in any
      record with seven entries, leaves every step checked. */
  lemma SevenStepsComplete(s: seq<bool>)
    requires |s| == 7
    ensures forall step :: 0 <= step <= 6 ==> |Checked(s, step)| == 7
    ensures var t := Checked(Checked(Checked(Checked(Checked(Checked(Checked(s, 0), 1), 2), 3), 4), 5), 6);
      |t| == 7 && forall j :: 0 <= j < 7 ==> t[j]
  {
  }

  /** The review collection: at most one record per user. */
  class ReviewCollection {
    var records: map<UserId, ReviewDoc>

    constructor ()
      ensures records == map[]
    {
      records := map[];
    }

    /** `GET /`: the stored record's raw fields, or, when the user has none,
        the default, which is stored. */
    method Get(uid: UserId, storeUp: bool) returns (r: Reply<ReviewDoc>)
      modifies this
      ensures !storeUp ==> r == Fail(InternalError) && records == old(records)
      ensures storeUp && uid in old(records) ==> r == Ok(old(records)[uid]) && records == old(records)
      ensures storeUp && uid !in old(records) ==>
        r == Ok(DefaultReview()) && records == old(records)[uid := DefaultReview()]
    {
      if !storeUp {
        return Fail(InternalError);
      }
      if uid !in records {
        records := records[uid := DefaultReview()];
        return Ok(DefaultReview());
      }
      r := Ok(records[uid]);
    }

    /** `PUT /`: `$set` with an upsert, replying with the shaped record. */
    method Put(uid: UserId, p: ReviewPatch, storeUp: bool) returns (r: Reply<ReviewProgress>)
      modifies this
      ensures !storeUp ==> r == Fail(InternalError) && records == old(records)
      ensures storeUp ==>
        var stored := ApplySet(if uid in old(records) then old(records)[uid] else NoFields, p);
        records == old(records)[uid := stored] && r == Ok(Shape(stored))
    {
      if !storeUp {
        return Fail(InternalError);
      }
      var base := if uid in records then records[uid] else NoFields;
      var stored := ApplySet(base, p);
      records := records[uid := stored];
      r := Ok(Shape(stored));
    }

    /** `POST /start`: whatever was stored, the review restarts at `now`
        with step 0 and nothing checked. */
    method Start(uid: UserId, now: Timestamp, storeUp: bool) returns (r: Reply<ReviewProgress>)
      modifies this
      ensures !storeUp ==> r == Fail(InternalError) && records == old(records)
      ensures storeUp ==>
        && records == old(records)[uid := ReviewDoc(Present(Some(now)), Present(0), Present(Unchecked()))]
        && r == Ok(ReviewProgress(Some(now), 0, Unchecked()))
    {
      if !storeUp {
        return Fail(InternalError);
      }
      var restart := ReviewPatch(Set(Some(now)), Set(0), Set(Unchecked()));
      var base := if uid in records then records[uid] else NoFields;
      records := records[uid := ApplySet(base, restart)];
      r := Ok(ReviewProgress(Some(now), 0, Unchecked()));
    }

    /** `POST /step/:step`. `step` is `None` when the path segment is not a
        number. 400 for a missing or out-of-range step and 404 for a user
        with no record, both changing nothing; a record without a
        `completedSteps` field cannot be copied and answers 500. Otherwise
        the step is checked and the pointer moves to the next step. */
    method CompleteStep(uid: UserId, step: Option<int>, storeUp: bool) returns (r: Reply<ReviewDoc>)
      modifies this
      ensures step.None? || step.value < 0 || step.value > 6 ==> r == Fail(BadRequest) && records == old(records)
      ensures step.Some? && 0 <= step.value <= 6 && !storeUp ==> r == Fail(InternalError) && records == old(records)
      ensures step.Some? && 0 <= step.value <= 6 && storeUp && uid !in old(records) ==>
        r == Fail(NotFound) && records == old(records)
      ensures step.Some? && 0 <= step.value <= 6 && storeUp && uid in old(records) && old(records)[uid].completedSteps.Absent? ==>
        r == Fail(InternalError) && records == old(records)
      ensures step.Some? && 0 <= step.value <= 6 && storeUp && uid in old(records) && old(records)[uid].completedSteps.Present? ==>
        && records == old(records)[uid := AfterStep(old(records)[uid], step.value)]
        && r == Ok(AfterStep(old(records)[uid], step.value))
    {
      if step.None? || step.value < 0 || step.value > 6 {
        return Fail(BadRequest);
      }
      if !storeUp {
        return Fail(InternalError);
      }
      if uid !in records {
        return Fail(NotFound);
      }
      var doc := records[uid];
      if doc.completedSteps.Absent? {
        return Fail(InternalError);
      }
      var copy := CopyAndCheck(doc.completedSteps.value, step.value);
      var updated := doc.(currentStep := Present(step.value + 1), completedSteps := Present(copy[..]));
      records := records[uid := updated];
      r := Ok(updated);
    }
  }
}
