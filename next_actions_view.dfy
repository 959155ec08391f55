/** The next-actions screen: the context tabs with their badges, the
    "show completed" switch, the pending count, the lookups each row makes,
    and the add-action form. */
module NextActionsView {
  import opened Wrappers
  import opened GtdTypes
  import opened Text
  import opened SeqOps
  import opened GtdStore
  import ProjectsView

  function IsPending(a: Action): bool { !a.completed }

  function ContextOf(a: Action): Context { a.context }

  /** The test `filteredActions` applies; `active` is `None` for the "all"
      tab. */
  function Shown(showCompleted: bool, active: Option<Context>): (p: Action -> bool)
    ensures forall a :: p(a) == ((showCompleted || !a.completed) && (active.None? || a.context == active.value))
  {
    (a: Action) => (showCompleted || !a.completed) && (active.None? || a.context == active.value)
  }

  /** `filteredActions`: an action is listed exactly when it is unfinished
      or finished ones are shown, and it is in the chosen context or the
      "all" tab is open; the list keeps the store's order. */
  function FilteredActions(actions: seq<Action>, showCompleted: bool, active: Option<Context>): (r: seq<Action>)
    ensures forall i :: 0 <= i < |r| ==> r[i] in actions
    ensures forall i :: 0 <= i < |r| ==> (showCompleted || !r[i].completed) && (active.None? || r[i].context == active.value)
    ensures forall i :: 0 <= i < |actions| ==>
      ((showCompleted || !actions[i].completed) && (active.None? || actions[i].context == active.value) ==> actions[i] in r)
    ensures showCompleted && active.None? ==> r == actions
  {
    var p := Shown(showCompleted, active);
    if showCompleted && active.None? then FilterAll(actions, p); Filter(actions, p)
    else Filter(actions, p)
  }

  /** `pendingCount`, also the badge of the "all" tab. */
  function PendingCount(actions: seq<Action>): (n: nat)
    ensures n <= |actions|
  {
    Count(actions, IsPending)
  }

  function PendingIn(c: Context): (p: Action -> bool)
    ensures forall a :: p(a) == (!a.completed && a.context == c)
  {
    (a: Action) => !a.completed && a.context == c
  }

  /** The badge of each context tab, in table order: the unfinished actions
      in that context. */
  function ContextBadges(actions: seq<Action>): (r: seq<nat>)
    ensures |r| == |Contexts|
    ensures forall i :: 0 <= i < |r| ==> r[i] <= PendingCount(actions)
  {
    var r := seq(|Contexts|, i requires 0 <= i < |Contexts| => Count(actions, PendingIn(Contexts[i].value)));
    assert forall i :: 0 <= i < |r| ==> r[i] <= PendingCount(actions) by {
      forall i | 0 <= i < |r| ensures r[i] <= PendingCount(actions) {
        CountMonotone(actions, PendingIn(Contexts[i].value), IsPending);
      }
    }
    r
  }

  /** Two tests that agree everywhere count the same. */
  lemma CountSame<T>(s: seq<T>, p: T -> bool, q: T -> bool)
    requires forall x :: p(x) == q(x)
    ensures Count(s, p) == Count(s, q)
  {
    CountMonotone(s, p, q);
    CountMonotone(s, q, p);
  }

  /** Each context badge is the length of the list its tab shows while
      finished actions are hidden, and the six badges add up to the
      pending count on the "all" tab. */
  lemma ContextBadgesAddUp(actions: seq<Action>)
    ensures forall i :: 0 <= i < |Contexts| ==>
      ContextBadges(actions)[i] == |FilteredActions(actions, false, Some(Contexts[i].value))|
    ensures Sum(ContextBadges(actions)) == PendingCount(actions)
  {
    var badges := ContextBadges(actions);
    var pending := Filter(actions, IsPending);
    forall i | 0 <= i < |Contexts|
      ensures badges[i] == |FilteredActions(actions, false, Some(Contexts[i].value))|
      ensures badges[i] == KeyCounts(pending, ContextOf, ContextValues())[i]
    {
      var c := Contexts[i].value;
      CountSame(actions, PendingIn(c), Shown(false, Some(c)));
      CountOfFilter(actions, IsPending, HasKey(ContextOf, c), PendingIn(c));
    }
    assert badges == KeyCounts(pending, ContextOf, ContextValues());
    ContextsTable();
    SumKeyCountsIsLength(pending, ContextOf, ContextValues());
  }

  function InfoValue(info: ContextInfo): Context { info.value }

  /** `getContextInfo`: the table row for the context, falling back to the
      sixth row (`@anywhere`) when none matches. */
  function GetContextInfo(c: Context): (r: ContextInfo)
    ensures r in Contexts
    ensures Find(Contexts, HasKey(InfoValue, c)).None? ==> r == Contexts[5]
    ensures Find(Contexts, HasKey(InfoValue, c)).Some? ==> r.value == c
  {
    match Find(Contexts, HasKey(InfoValue, c))
    case Some(info) => info
    case None => Contexts[5]
  }

  /** Every context has its row, so the fallback is never taken and each
      action is shown with the title and emoji of its own context. */
  lemma ContextInfoNeverFallsBack(c: Context)
    ensures GetContextInfo(c).value == c
  {
    ContextsTable();
    var vs := ContextValues();
    assert c in vs;
    var k :| 0 <= k < |vs| && vs[k] == c;
    assert HasKey(InfoValue, c)(Contexts[k]);
  }

  /** `getProjectName`: nothing for an action without a project (a null or
      empty id), otherwise the name of the first project with that id, if
      the cache still holds one. */
  function GetProjectName(projects: seq<Project>, pid: Option<Id>): (r: Option<string>)
    ensures pid.None? || pid.value == "" ==> r.None?
    ensures pid.Some? && pid.value != "" ==>
      (r.None? <==> forall i :: 0 <= i < |projects| ==> projects[i].id != pid.value)
    ensures r.Some? ==> exists i :: 0 <= i < |projects| && projects[i].id == pid.value && projects[i].name == r.value
  {
    if pid.None? || pid.value == "" then None
    else
      match Find(projects, HasKey(ProjectId, pid.value))
      case Some(p) => Some(p.name)
      case None => None
  }

  /** The projects the form offers to file an action under: the active
      ones. */
  function ProjectChoices(projects: seq<Project>): (r: seq<Project>)
    ensures forall i :: 0 <= i < |r| ==> r[i] in projects && r[i].status == Active
    ensures forall i :: 0 <= i < |projects| && projects[i].status == Active ==> projects[i] in r
  {
    ProjectsView.FilteredProjects(projects, Some(Active))
  }

  /** Ticking one action's box (the store's toggle, over a list of distinct
      ids) moves exactly that action in or out of the pending count. */
  lemma {:induction false} ToggleMovesPendingCount(actions: seq<Action>, k: nat)
    requires DistinctIds(actions, ActionId)
    requires k < |actions|
    ensures var after := Replaced(actions, ActionId, actions[k].id, ToggleAction);
      PendingCount(after) == if actions[k].completed then PendingCount(actions) + 1 else PendingCount(actions) - 1
  {
    var id := actions[k].id;
    var after := Replaced(actions, ActionId, id, ToggleAction);
    var pre, post := actions[..k], actions[k + 1..];
    assert after == pre + [ToggleAction(actions[k])] + post by {
      forall i | 0 <= i < |actions| && i != k ensures after[i] == actions[i] {
        assert ActionId(actions[i]) != id;
      }
    }
    assert actions == pre + [actions[k]] + post;
    CountAppend(pre + [ToggleAction(actions[k])], post, IsPending);
    CountAppend(pre, [ToggleAction(actions[k])], IsPending);
    CountAppend(pre + [actions[k]], post, IsPending);
    CountAppend(pre, [actions[k]], IsPending);
  }

  class NextActionsScreen {
    var actionContent: string
    var actionContext: Context
    var actionProjectId: Option<Id>
    var actionDueDate: Option<Timestamp>
    var showCompleted: bool
    var activeContext: Option<Context>

    /** The screen opens on the "all" tab with finished actions hidden. */
    constructor ()
      ensures actionContent == "" && actionContext == Anywhere && actionProjectId.None? && actionDueDate.None?
      ensures !showCompleted && activeContext.None?
    {
      actionContent, actionContext, actionProjectId, actionDueDate := "", Anywhere, None, None;
      showCompleted, activeContext := false, None;
    }

    /** `handleAddAction`: a non-blank text becomes an action with the
        chosen context, project and due date, and the form goes back to
        its defaults (`@anywhere`, no project, no date). */
    method HandleAddAction() returns (calls: seq<StoreCall>)
      modifies this
      ensures !IsFilled(old(actionContent)) ==>
        && calls == [] && actionContent == old(actionContent) && actionContext == old(actionContext)
        && actionProjectId == old(actionProjectId) && actionDueDate == old(actionDueDate)
      ensures IsFilled(old(actionContent)) ==>
        && calls == [AddAction(Trim(old(actionContent)), old(actionContext), old(actionProjectId), old(actionDueDate))]
        && actionContent == "" && actionContext == Anywhere && actionProjectId.None? && actionDueDate.None?
      ensures showCompleted == old(showCompleted) && activeContext == old(activeContext)
    {
      if !IsFilled(actionContent) {
        return [];
      }
      calls := [AddAction(Trim(actionContent), actionContext, actionProjectId, actionDueDate)];
      actionContent, actionContext, actionProjectId, actionDueDate := "", Anywhere, None, None;
    }
  }
}
