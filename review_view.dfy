/** The weekly-review screen: progress over the seven-step checklist, the
    Start/Reset choice, which checkboxes can be ticked, and the overview
    counts. */
module ReviewView {
  import opened Wrappers
  import opened GtdTypes
  import opened SeqOps
  import opened GtdStore
  import ReviewRoutes

  /** `completedSteps.filter(Boolean).length`. */
  function CheckedCount(r: ReviewProgress): (n: nat)
    ensures n <= |r.completedSteps|
  {
    Count(r.completedSteps, (b: bool) => b)
  }

  /** `isComplete`: as many checked steps as the checklist has. */
  predicate IsComplete(r: ReviewProgress)
  {
    CheckedCount(r) == |ReviewSteps|
  }

  /** `review.lastReviewDate` is truthy: set, and not the time 0. */
  predicate Started(r: ReviewProgress)
  {
    r.lastReviewDate.Some? && r.lastReviewDate.value != 0
  }

  /** With the usual seven entries, the review is complete exactly when
      every step is checked. */
  lemma CompleteIffAllChecked(r: ReviewProgress)
    requires |r.completedSteps| == |ReviewSteps|
    ensures IsComplete(r) <==> forall j :: 0 <= j < |r.completedSteps| ==> r.completedSteps[j]
  {
    CountAll(r.completedSteps, (b: bool) => b);
  }

  /** The header button: Start when no review is under way or the last one
      is complete, Reset otherwise. */
  function HeaderCall(r: ReviewProgress): (call: StoreCall)
    ensures call == StartReview <==> !Started(r) || IsComplete(r)
    ensures call == ResetReview <==> Started(r) && !IsComplete(r)
  {
    if !Started(r) || IsComplete(r) then StartReview else ResetReview
  }

  /** Entry `i` of `completedSteps`; past the end it is `undefined`, which
      reads as unchecked. */
  predicate StepChecked(r: ReviewProgress, i: nat)
  {
    i < |r.completedSteps| && r.completedSteps[i]
  }

  /** A checkbox is enabled when a review is under way and the step is not
      past the current one. */
  predicate StepEnabled(r: ReviewProgress, i: nat)
  {
    Started(r) && i <= r.currentStep
  }

  /** Ticking checkbox `i` of the checklist: the list is hidden once the
      review is complete, a disabled box raises no event, and an already
      checked step issues no call. */
  function OnCheck(r: ReviewProgress, i: nat): (calls: seq<StoreCall>)
    requires i < |ReviewSteps|
    ensures calls == [] || calls == [CompleteReviewStep(i)]
    ensures calls != [] <==> !IsComplete(r) && StepEnabled(r, i) && !StepChecked(r, i)
  {
    if IsComplete(r) || !StepEnabled(r, i) || StepChecked(r, i) then [] else [CompleteReviewStep(i)]
  }

  /** A review taken in order: the steps before the current one are
      checked and the rest are not. */
  ghost predicate InOrder(r: ReviewProgress)
  {
    && |r.completedSteps| == |ReviewSteps|
    && 0 <= r.currentStep <= |ReviewSteps|
    && forall j :: 0 <= j < |r.completedSteps| ==> (r.completedSteps[j] <==> j < r.currentStep)
  }

  /** The server puts no order on the steps, but the checklist does: from
      a review taken in order, the only step that can be ticked is the
      current one, the server accepts it, and the record it answers is still
      in order. */
  lemma GatingKeepsOrder(r: ReviewProgress, i: nat)
    requires i < |ReviewSteps|
    requires InOrder(r) && OnCheck(r, i) != []
    ensures i == r.currentStep && 0 <= i <= 6
    ensures InOrder(ReviewProgress(r.lastReviewDate, i + 1, ReviewRoutes.Checked(r.completedSteps, i)))
  {
    assert !r.completedSteps[i];
    var after := ReviewRoutes.Checked(r.completedSteps, i);
    assert forall j :: 0 <= j < |after| ==> (after[j] <==> j < i + 1);
  }

  /** A freshly started review is in order and not complete, and the
      header then offers Reset. */
  lemma StartedReviewInOrder(now: Timestamp)
    requires now != 0
    ensures InOrder(ReviewProgress(Some(now), 0, ReviewRoutes.Unchecked()))
    ensures !IsComplete(ReviewProgress(Some(now), 0, ReviewRoutes.Unchecked()))
    ensures HeaderCall(ReviewProgress(Some(now), 0, ReviewRoutes.Unchecked())) == ResetReview
  {
    var r := ReviewProgress(Some(now), 0, ReviewRoutes.Unchecked());
    CompleteIffAllChecked(r);
    assert !r.completedSteps[0];
  }

  /** The overview counts. */
  datatype Stats = Stats(
    inbox: nat,
    activeProjects: nat,
    pendingActions: nat,
    completedActions: nat,
    waitingFor: nat,
    somedayMaybe: nat)

  function ReviewStats(inbox: seq<InboxItem>, projects: seq<Project>, actions: seq<Action>,
                       waitingFor: seq<WaitingFor>, somedayMaybe: seq<SomedayMaybe>): (s: Stats)
    ensures s.inbox == Count(inbox, (x: InboxItem) => !x.processed) <= |inbox|
    ensures s.activeProjects == Count(projects, (p: Project) => p.status == Active) <= |projects|
    ensures s.pendingActions == Count(actions, (a: Action) => !a.completed)
    ensures s.completedActions == Count(actions, (a: Action) => a.completed)
    ensures s.pendingActions + s.completedActions == |actions|
    ensures s.waitingFor == |waitingFor| && s.somedayMaybe == |somedayMaybe|
  {
    CountComplement(actions, (a: Action) => a.completed, (a: Action) => !a.completed);
    Stats(
      Count(inbox, (x: InboxItem) => !x.processed),
      Count(projects, (p: Project) => p.status == Active),
      Count(actions, (a: Action) => !a.completed),
      Count(actions, (a: Action) => a.completed),
      |waitingFor|,
      |somedayMaybe|)
  }
}
