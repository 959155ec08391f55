/** The client-side store: a cache of the six collections plus loading
    flags. Every mutation first calls the API and only then changes the
    cache; when the call fails the cache is left as it was and the error is
    rethrown. The API's answers are parameters here (`Result` values), and
    each method returns the requests it sent, in order, and the error it
    rethrew, if any. */
module GtdStore {
  import opened Wrappers
  import opened GtdTypes
  import opened SeqOps
  import Api

  /** `initialReview`: no review started, step 0, seven unchecked steps. */
  function InitialReview(): (r: ReviewProgress)
    ensures r.lastReviewDate.None? && r.currentStep == 0
    ensures |r.completedSteps| == |ReviewSteps| && forall j :: 0 <= j < |r.completedSteps| ==> !r.completedSteps[j]
  {
    ReviewProgress(None, 0, [false, false, false, false, false, false, false])
  }

  /** Everything the store holds. */
  datatype StoreState = StoreState(
    inbox: seq<InboxItem>,
    projects: seq<Project>,
    actions: seq<Action>,
    waitingFor: seq<WaitingFor>,
    somedayMaybe: seq<SomedayMaybe>,
    review: ReviewProgress,
    isLoading: bool,
    isInitialized: bool)

  /** The answers of the six reads of the initial load; `review` is `None`
      when the review reply carries no record. */
  datatype Loaded = Loaded(
    inbox: seq<InboxItem>,
    projects: seq<Project>,
    actions: seq<Action>,
    waitingFor: seq<WaitingFor>,
    somedayMaybe: seq<SomedayMaybe>,
    review: Option<ReviewProgress>)

  function InboxId(x: InboxItem): Id { x.id }
  function ProjectId(x: Project): Id { x.id }
  function ActionId(x: Action): Id { x.id }
  function WaitingId(x: WaitingFor): Id { x.id }
  function SomedayId(x: SomedayMaybe): Id { x.id }

  /** No two cached records of a list share an id. */
  ghost predicate DistinctIds<T>(s: seq<T>, idOf: T -> Id)
  {
    forall i, j :: 0 <= i < j < |s| ==> idOf(s[i]) != idOf(s[j])
  }

  /** `s.filter(x => x.id !== id)`. */
  function Without<T>(s: seq<T>, idOf: T -> Id, id: Id): (r: seq<T>)
    ensures forall i :: 0 <= i < |r| ==> idOf(r[i]) != id && r[i] in s
    ensures forall i :: 0 <= i < |s| && idOf(s[i]) != id ==> s[i] in r
    ensures multiset(r) <= multiset(s)
  {
    Filter(s, (x: T) => idOf(x) != id)
  }

  /** `s.map(x => x.id === id ? f(x) : x)`. */
  function Replaced<T>(s: seq<T>, idOf: T -> Id, id: Id, f: T -> T): (r: seq<T>)
    ensures |r| == |s|
    ensures forall i :: 0 <= i < |s| && idOf(s[i]) != id ==> r[i] == s[i]
    ensures forall i :: 0 <= i < |s| && idOf(s[i]) == id ==> r[i] == f(s[i])
  {
    MapWhere(s, (x: T) => idOf(x) == id, f)
  }

  /** The id being removed is present once in a list of distinct ids: the
      filter takes out exactly that record and keeps the order of the rest. */
  lemma WithoutRemovesOne<T>(s: seq<T>, idOf: T -> Id, id: Id, k: nat)
    requires DistinctIds(s, idOf)
    requires k < |s| && idOf(s[k]) == id
    ensures Without(s, idOf, id) == s[..k] + s[k + 1..]
    ensures |Without(s, idOf, id)| == |s| - 1
  {
    FilterDropsOne(s, k, (x: T) => idOf(x) != id);
  }

  /** A replacement that keeps ids keeps the ids distinct. */
  lemma ReplacedKeepsIds<T>(s: seq<T>, idOf: T -> Id, id: Id, f: T -> T)
    requires forall x :: idOf(f(x)) == idOf(x)
    ensures forall i :: 0 <= i < |s| ==> idOf(Replaced(s, idOf, id, f)[i]) == idOf(s[i])
    ensures DistinctIds(s, idOf) ==> DistinctIds(Replaced(s, idOf, id, f), idOf)
  {
    var r := Replaced(s, idOf, id, f);
    assert forall i :: 0 <= i < |s| ==> idOf(r[i]) == idOf(s[i]);
  }

  /** `{ ...item, processed: true }`. */
  function MarkProcessed(x: InboxItem): (r: InboxItem)
    ensures r.processed && r.id == x.id && r.content == x.content && r.createdAt == x.createdAt
  {
    x.(processed := true)
  }

  /** `{ ...project, ...updates }`: every field `updates` supplies takes
      its value, every other field keeps the record's; `updates` never
      holds `id` or `createdAt`. */
  function PatchProject(x: Project, u: ProjectPatch): (r: Project)
    ensures r.id == x.id && r.createdAt == x.createdAt
    ensures u.name.Set? ==> r.name == u.name.value
    ensures u.name.Keep? ==> r.name == x.name
    ensures u.description.Set? ==> r.description == u.description.value
    ensures u.description.Keep? ==> r.description == x.description
    ensures u.status.Set? ==> r.status == u.status.value
    ensures u.status.Keep? ==> r.status == x.status
    ensures u == ProjectPatch(Keep, Keep, Keep) ==> r == x
  {
    Project(x.id, u.name.ApplyTo(x.name), u.description.ApplyTo(x.description), u.status.ApplyTo(x.status), x.createdAt)
  }

  function PatchAction(x: Action, u: ActionPatch): (r: Action)
    ensures r.id == x.id && r.createdAt == x.createdAt
    ensures u.content.Set? ==> r.content == u.content.value
    ensures u.content.Keep? ==> r.content == x.content
    ensures u.projectId.Set? ==> r.projectId == u.projectId.value
    ensures u.projectId.Keep? ==> r.projectId == x.projectId
    ensures u.context.Set? ==> r.context == u.context.value
    ensures u.context.Keep? ==> r.context == x.context
    ensures u.dueDate.Set? ==> r.dueDate == u.dueDate.value
    ensures u.dueDate.Keep? ==> r.dueDate == x.dueDate
    ensures u.completed.Set? ==> r.completed == u.completed.value
    ensures u.completed.Keep? ==> r.completed == x.completed
    ensures u == ActionPatch(Keep, Keep, Keep, Keep, Keep) ==> r == x
  {
    Action(x.id, u.content.ApplyTo(x.content), u.projectId.ApplyTo(x.projectId), u.context.ApplyTo(x.context),
      u.dueDate.ApplyTo(x.dueDate), u.completed.ApplyTo(x.completed), x.createdAt)
  }

  function PatchWaiting(x: WaitingFor, u: WaitingForPatch): (r: WaitingFor)
    ensures r.id == x.id && r.createdAt == x.createdAt
    ensures u.content.Set? ==> r.content == u.content.value
    ensures u.content.Keep? ==> r.content == x.content
    ensures u.person.Set? ==> r.person == u.person.value
    ensures u.person.Keep? ==> r.person == x.person
    ensures u.projectId.Set? ==> r.projectId == u.projectId.value
    ensures u.projectId.Keep? ==> r.projectId == x.projectId
    ensures u.expectedDate.Set? ==> r.expectedDate == u.expectedDate.value
    ensures u.expectedDate.Keep? ==> r.expectedDate == x.expectedDate
    ensures u.completed.Set? ==> r.completed == u.completed.value
    ensures u.completed.Keep? ==> r.completed == x.completed
    ensures u == WaitingForPatch(Keep, Keep, Keep, Keep, Keep) ==> r == x
  {
    WaitingFor(x.id, u.content.ApplyTo(x.content), u.person.ApplyTo(x.person), u.projectId.ApplyTo(x.projectId),
      u.expectedDate.ApplyTo(x.expectedDate), u.completed.ApplyTo(x.completed), x.createdAt)
  }

  function PatchSomeday(x: SomedayMaybe, u: SomedayPatch): (r: SomedayMaybe)
    ensures r.id == x.id && r.createdAt == x.createdAt
    ensures u.content.Set? ==> r.content == u.content.value
    ensures u.content.Keep? ==> r.content == x.content
    ensures u.category.Set? ==> r.category == u.category.value
    ensures u.category.Keep? ==> r.category == x.category
    ensures u == SomedayPatch(Keep, Keep) ==> r == x
  {
    SomedayMaybe(x.id, u.content.ApplyTo(x.content), u.category.ApplyTo(x.category), x.createdAt)
  }

  function ToggleAction(x: Action): (r: Action)
    ensures r.completed != x.completed && r.(completed := x.completed) == x
  {
    x.(completed := !x.completed)
  }

  function ToggleWaiting(x: WaitingFor): (r: WaitingFor)
    ensures r.completed != x.completed && r.(completed := x.completed) == x
  {
    x.(completed := !x.completed)
  }

  /** Toggling the same record twice gives back the list it started from. */
  lemma {:induction false} ToggleTwiceRestores(s: seq<Action>, id: Id)
    ensures Replaced(Replaced(s, ActionId, id, ToggleAction), ActionId, id, ToggleAction) == s
  {
    var once := Replaced(s, ActionId, id, ToggleAction);
    var twice := Replaced(once, ActionId, id, ToggleAction);
    forall i | 0 <= i < |s|
      ensures twice[i] == s[i]
    {
      assert ActionId(once[i]) == ActionId(s[i]);
    }
  }

  /** The cascade of a project delete, on the cached actions. */
  function UnlinkedActions(s: seq<Action>, pid: Id): (r: seq<Action>)
    ensures |r| == |s|
    ensures forall i :: 0 <= i < |s| ==> r[i].projectId != Some(pid)
    ensures forall i :: 0 <= i < |s| ==> r[i].id == s[i].id && r[i] == (if s[i].projectId == Some(pid) then s[i].(projectId := None) else s[i])
  {
    seq(|s|, i requires 0 <= i < |s| => if s[i].projectId == Some(pid) then s[i].(projectId := None) else s[i])
  }

  function UnlinkedWaiting(s: seq<WaitingFor>, pid: Id): (r: seq<WaitingFor>)
    ensures |r| == |s|
    ensures forall i :: 0 <= i < |s| ==> r[i].projectId != Some(pid)
    ensures forall i :: 0 <= i < |s| ==> r[i].id == s[i].id && r[i] == (if s[i].projectId == Some(pid) then s[i].(projectId := None) else s[i])
  {
    seq(|s|, i requires 0 <= i < |s| => if s[i].projectId == Some(pid) then s[i].(projectId := None) else s[i])
  }

  /** The cache appends a created record at the end, while the server
      lists newest first: once a record newer than the cache's first one is
      added, the cache is no longer in the server's order. */
  lemma AppendBreaksNewestFirst<T>(s: seq<T>, x: T, timeOf: T -> Timestamp)
    requires s != [] && timeOf(x) > timeOf(s[0])
    ensures !(forall i, j :: 0 <= i < j < |s + [x]| ==> timeOf((s + [x])[i]) >= timeOf((s + [x])[j]))
  {
    assert (s + [x])[0] == s[0] && (s + [x])[|s|] == x;
  }

  /** A call a view makes on the store, with the arguments it passes; an
      optional parameter the view leaves out reads as its default. */
  datatype StoreCall =
    | AddToInbox(content: string)
    | ProcessInboxItem(id: Id)
    | DeleteInboxItem(id: Id)
    | AddProject(name: string, description: Option<string>)
    | UpdateProject(id: Id, projectPatch: ProjectPatch)
    | DeleteProject(id: Id)
    | AddAction(content: string, context: Context, projectId: Option<Id>, dueDate: Option<Timestamp>)
    | UpdateAction(id: Id, actionPatch: ActionPatch)
    | ToggleActionComplete(id: Id)
    | DeleteAction(id: Id)
    | AddWaitingFor(content: string, person: string, projectId: Option<Id>, expectedDate: Option<Timestamp>)
    | UpdateWaitingFor(id: Id, waitingPatch: WaitingForPatch)
    | ToggleWaitingForComplete(id: Id)
    | DeleteWaitingFor(id: Id)
    | AddSomedayMaybe(content: string, category: SomedayCategory)
    | UpdateSomedayMaybe(id: Id, somedayPatch: SomedayPatch)
    | DeleteSomedayMaybe(id: Id)
    | MoveSomedayToAction(id: Id, context: Context, projectId: Option<Id>)
    | MoveSomedayToWaitingFor(id: Id, person: string, expectedDate: Option<Timestamp>)
    | StartReview
    | CompleteReviewStep(step: int)
    | ResetReview

  class Store {
    var inbox: seq<InboxItem>
    var projects: seq<Project>
    var actions: seq<Action>
    var waitingFor: seq<WaitingFor>
    var somedayMaybe: seq<SomedayMaybe>
    var review: ReviewProgress
    var isLoading: bool
    var isInitialized: bool

    ghost function State(): StoreState
      reads this
    {
      StoreState(inbox, projects, actions, waitingFor, somedayMaybe, review, isLoading, isInitialized)
    }

    constructor ()
      ensures State() == StoreState([], [], [], [], [], InitialReview(), false, false)
    {
      inbox, projects, actions, waitingFor, somedayMaybe := [], [], [], [], [];
      review := InitialReview();
      isLoading, isInitialized := false, false;
    }

    /** `initializeData`: nothing once initialised; otherwise the six reads,
        then every collection replaced by the server's answer, or, on
        failure, only the loading flag reset (the error is swallowed). */
    method InitializeData(res: Result<Loaded>) returns (sent: seq<Api.ApiRequest>)
      modifies this
      ensures old(isInitialized) ==> sent == [] && State() == old(State())
      ensures !old(isInitialized) ==> sent == Api.InitialLoad
      ensures !old(isInitialized) && res.Success? ==>
        State() == StoreState(res.value.inbox, res.value.projects, res.value.actions, res.value.waitingFor,
          res.value.somedayMaybe, if res.value.review.Some? then res.value.review.value else InitialReview(), false, true)
      ensures !old(isInitialized) && res.Failure? ==> State() == old(State()).(isLoading := false)
    {
      if isInitialized {
        return [];
      }
      isLoading := true;
      sent := Api.InitialLoad;
      if res.Failure? {
        isLoading := false;
        return;
      }
      var data := res.value;
      inbox, projects, actions, waitingFor, somedayMaybe := data.inbox, data.projects, data.actions, data.waitingFor, data.somedayMaybe;
      review := if data.review.Some? then data.review.value else InitialReview();
      isInitialized, isLoading := true, false;
    }

    /** `addToInbox`: the created item is appended. */
    method AddToInbox(content: string, res: Result<InboxItem>) returns (sent: seq<Api.ApiRequest>, thrown: Option<string>)
      modifies this
      ensures sent == [Api.AddInboxItem(content)]
      ensures res.Success? ==> thrown.None? && State() == old(State()).(inbox := old(inbox) + [res.value])
      ensures res.Failure? ==> thrown == Some(res.message) && State() == old(State())
    {
      sent := [Api.AddInboxItem(content)];
      if res.Failure? {
        return sent, Some(res.message);
      }
      inbox := inbox + [res.value];
      thrown := None;
    }

    /** `processInboxItem`: the item with that id is marked processed. */
    method ProcessInboxItem(id: Id, res: Result<()>) returns (sent: seq<Api.ApiRequest>, thrown: Option<string>)
      modifies this
      ensures sent == [Api.UpdateInboxItem(id, InboxPatch(Keep, Set(true)))]
      ensures res.Success? ==> thrown.None? && State() == old(State()).(inbox := Replaced(old(inbox), InboxId, id, MarkProcessed))
      ensures res.Failure? ==> thrown == Some(res.message) && State() == old(State())
    {
      sent := [Api.UpdateInboxItem(id, InboxPatch(Keep, Set(true)))];
      if res.Failure? {
        return sent, Some(res.message);
      }
      inbox := Replaced(inbox, InboxId, id, MarkProcessed);
      thrown := None;
    }

    method DeleteInboxItem(id: Id, res: Result<()>) returns (sent: seq<Api.ApiRequest>, thrown: Option<string>)
      modifies this
      ensures sent == [Api.DeleteInboxItem(id)]
      ensures res.Success? ==> thrown.None? && State() == old(State()).(inbox := Without(old(inbox), InboxId, id))
      ensures res.Failure? ==> thrown == Some(res.message) && State() == old(State())
    {
      sent := [Api.DeleteInboxItem(id)];
      if res.Failure? {
        return sent, Some(res.message);
      }
      inbox := Without(inbox, InboxId, id);
      thrown := None;
    }

    /** `addProject`: the description defaults to `''`; answers the new
        project's id. */
    method AddProject(name: string, description: Option<string>, res: Result<Project>)
      returns (sent: seq<Api.ApiRequest>, thrown: Option<string>, newId: Option<Id>)
      modifies this
      ensures sent == [Api.AddProject(name, if description.Some? then description.value else "")]
      ensures res.Success? ==> (thrown.None? && newId == Some(res.value.id)
        && State() == old(State()).(projects := old(projects) + [res.value]))
      ensures res.Failure? ==> thrown == Some(res.message) && newId.None? && State() == old(State())
    {
      sent := [Api.AddProject(name, if description.Some? then description.value else "")];
      if res.Failure? {
        return sent, Some(res.message), None;
      }
      projects := projects + [res.value];
      thrown, newId := None, Some(res.value.id);
    }

    method UpdateProject(id: Id, u: ProjectPatch, res: Result<()>) returns (sent: seq<Api.ApiRequest>, thrown: Option<string>)
      modifies this
      ensures sent == [Api.UpdateProject(id, u)]
      ensures res.Success? ==> (thrown.None?
        && State() == old(State()).(projects := Replaced(old(projects), ProjectId, id, (x: Project) => PatchProject(x, u))))
      ensures res.Failure? ==> thrown == Some(res.message) && State() == old(State())
    {
      sent := [Api.UpdateProject(id, u)];
      if res.Failure? {
        return sent, Some(res.message);
      }
      projects := Replaced(projects, ProjectId, id, (x: Project) => PatchProject(x, u));
      thrown := None;
    }

    /** `deleteProject`: the project leaves the cache and the cached
        actions and waiting-for items that pointed at it lose the link;
        none of them is removed. */
    method DeleteProject(id: Id, res: Result<()>) returns (sent: seq<Api.ApiRequest>, thrown: Option<string>)
      modifies this
      ensures sent == [Api.DeleteProject(id)]
      ensures res.Success? ==> thrown.None? && State() == old(State()).(
        projects := Without(old(projects), ProjectId, id),
        actions := UnlinkedActions(old(actions), id),
        waitingFor := UnlinkedWaiting(old(waitingFor), id))
      ensures res.Failure? ==> thrown == Some(res.message) && State() == old(State())
    {
      sent := [Api.DeleteProject(id)];
      if res.Failure? {
        return sent, Some(res.message);
      }
      projects := Without(projects, ProjectId, id);
      actions := UnlinkedActions(actions, id);
      waitingFor := UnlinkedWaiting(waitingFor, id);
      thrown := None;
    }

    /** `addAction`: project and due date default to `null`. */
    method AddAction(content: string, context: Context, projectId: Option<Id>, dueDate: Option<Timestamp>, res: Result<Action>)
      returns (sent: seq<Api.ApiRequest>, thrown: Option<string>)
      modifies this
      ensures sent == [Api.AddAction(content, context, projectId, dueDate)]
      ensures res.Success? ==> thrown.None? && State() == old(State()).(actions := old(actions) + [res.value])
      ensures res.Failure? ==> thrown == Some(res.message) && State() == old(State())
    {
      sent := [Api.AddAction(content, context, projectId, dueDate)];
      if res.Failure? {
        return sent, Some(res.message);
      }
      actions := actions + [res.value];
      thrown := None;
    }

    method UpdateAction(id: Id, u: ActionPatch, res: Result<()>) returns (sent: seq<Api.ApiRequest>, thrown: Option<string>)
      modifies this
      ensures sent == [Api.UpdateAction(id, u)]
      ensures res.Success? ==> (thrown.None?
        && State() == old(State()).(actions := Replaced(old(actions), ActionId, id, (x: Action) => PatchAction(x, u))))
      ensures res.Failure? ==> thrown == Some(res.message) && State() == old(State())
    {
      sent := [Api.UpdateAction(id, u)];
      if res.Failure? {
        return sent, Some(res.message);
      }
      actions := Replaced(actions, ActionId, id, (x: Action) => PatchAction(x, u));
      thrown := None;
    }

    /** `toggleActionComplete`: nothing for an id the cache does not hold;
        otherwise the server is sent the flipped flag and the cached
        record's flag flips. */
    method ToggleActionComplete(id: Id, res: Result<()>) returns (sent: seq<Api.ApiRequest>, thrown: Option<string>)
      modifies this
      ensures Find(old(actions), (a: Action) => a.id == id).None? ==> sent == [] && thrown.None? && State() == old(State())
      ensures Find(old(actions), (a: Action) => a.id == id).Some? ==>
        var a := Find(old(actions), (a: Action) => a.id == id).value;
        sent == [Api.UpdateAction(id, ActionPatch(Keep, Keep, Keep, Keep, Set(!a.completed)))]
      ensures Find(old(actions), (a: Action) => a.id == id).Some? && res.Success? ==>
        thrown.None? && State() == old(State()).(actions := Replaced(old(actions), ActionId, id, ToggleAction))
      ensures Find(old(actions), (a: Action) => a.id == id).Some? && res.Failure? ==>
        thrown == Some(res.message) && State() == old(State())
    {
      var found := Find(actions, (a: Action) => a.id == id);
      if found.None? {
        return [], None;
      }
      sent := [Api.UpdateAction(id, ActionPatch(Keep, Keep, Keep, Keep, Set(!found.value.completed)))];
      if res.Failure? {
        return sent, Some(res.message);
      }
      actions := Replaced(actions, ActionId, id, ToggleAction);
      thrown := None;
    }

    method DeleteAction(id: Id, res: Result<()>) returns (sent: seq<Api.ApiRequest>, thrown: Option<string>)
      modifies this
      ensures sent == [Api.DeleteAction(id)]
      ensures res.Success? ==> thrown.None? && State() == old(State()).(actions := Without(old(actions), ActionId, id))
      ensures res.Failure? ==> thrown == Some(res.message) && State() == old(State())
    {
      sent := [Api.DeleteAction(id)];
      if res.Failure? {
        return sent, Some(res.message);
      }
      actions := Without(actions, ActionId, id);
      thrown := None;
    }

    method AddWaitingFor(content: string, person: string, projectId: Option<Id>, expectedDate: Option<Timestamp>,
                         res: Result<WaitingFor>) returns (sent: seq<Api.ApiRequest>, thrown: Option<string>)
      modifies this
      ensures sent == [Api.AddWaitingFor(content, person, projectId, expectedDate)]
      ensures res.Success? ==> thrown.None? && State() == old(State()).(waitingFor := old(waitingFor) + [res.value])
      ensures res.Failure? ==> thrown == Some(res.message) && State() == old(State())
    {
      sent := [Api.AddWaitingFor(content, person, projectId, expectedDate)];
      if res.Failure? {
        return sent, Some(res.message);
      }
      waitingFor := waitingFor + [res.value];
      thrown := None;
    }

    method UpdateWaitingFor(id: Id, u: WaitingForPatch, res: Result<()>) returns (sent: seq<Api.ApiRequest>, thrown: Option<string>)
      modifies this
      ensures sent == [Api.UpdateWaitingFor(id, u)]
      ensures res.Success? ==> (thrown.None?
        && State() == old(State()).(waitingFor := Replaced(old(waitingFor), WaitingId, id, (x: WaitingFor) => PatchWaiting(x, u))))
      ensures res.Failure? ==> thrown == Some(res.message) && State() == old(State())
    {
      sent := [Api.UpdateWaitingFor(id, u)];
      if res.Failure? {
        return sent, Some(res.message);
      }
      waitingFor := Replaced(waitingFor, WaitingId, id, (x: WaitingFor) => PatchWaiting(x, u));
      thrown := None;
    }

    method DeleteWaitingFor(id: Id, res: Result<()>) returns (sent: seq<Api.ApiRequest>, thrown: Option<string>)
      modifies this
      ensures sent == [Api.DeleteWaitingFor(id)]
      ensures res.Success? ==> thrown.None? && State() == old(State()).(waitingFor := Without(old(waitingFor), WaitingId, id))
      ensures res.Failure? ==> thrown == Some(res.message) && State() == old(State())
    {
      sent := [Api.DeleteWaitingFor(id)];
      if res.Failure? {
        return sent, Some(res.message);
      }
      waitingFor := Without(waitingFor, WaitingId, id);
      thrown := None;
    }

    method ToggleWaitingForComplete(id: Id, res: Result<()>) returns (sent: seq<Api.ApiRequest>, thrown: Option<string>)
      modifies this
      ensures Find(old(waitingFor), (w: WaitingFor) => w.id == id).None? ==> sent == [] && thrown.None? && State() == old(State())
      ensures Find(old(waitingFor), (w: WaitingFor) => w.id == id).Some? ==>
        var w := Find(old(waitingFor), (w: WaitingFor) => w.id == id).value;
        sent == [Api.UpdateWaitingFor(id, WaitingForPatch(Keep, Keep, Keep, Keep, Set(!w.completed)))]
      ensures Find(old(waitingFor), (w: WaitingFor) => w.id == id).Some? && res.Success? ==>
        thrown.None? && State() == old(State()).(waitingFor := Replaced(old(waitingFor), WaitingId, id, ToggleWaiting))
      ensures Find(old(waitingFor), (w: WaitingFor) => w.id == id).Some? && res.Failure? ==>
        thrown == Some(res.message) && State() == old(State())
    {
      var found := Find(waitingFor, (w: WaitingFor) => w.id == id);
      if found.None? {
        return [], None;
      }
      sent := [Api.UpdateWaitingFor(id, WaitingForPatch(Keep, Keep, Keep, Keep, Set(!found.value.completed)))];
      if res.Failure? {
        return sent, Some(res.message);
      }
      waitingFor := Replaced(waitingFor, WaitingId, id, ToggleWaiting);
      thrown := None;
    }

    method AddSomedayMaybe(content: string, category: SomedayCategory, res: Result<SomedayMaybe>)
      returns (sent: seq<Api.ApiRequest>, thrown: Option<string>)
      modifies this
      ensures sent == [Api.AddSomedayMaybe(content, category)]
      ensures res.Success? ==> thrown.None? && State() == old(State()).(somedayMaybe := old(somedayMaybe) + [res.value])
      ensures res.Failure? ==> thrown == Some(res.message) && State() == old(State())
    {
      sent := [Api.AddSomedayMaybe(content, category)];
      if res.Failure? {
        return sent, Some(res.message);
      }
      somedayMaybe := somedayMaybe + [res.value];
      thrown := None;
    }

    method UpdateSomedayMaybe(id: Id, u: SomedayPatch, res: Result<()>) returns (sent: seq<Api.ApiRequest>, thrown: Option<string>)
      modifies this
      ensures sent == [Api.UpdateSomedayMaybe(id, u)]
      ensures res.Success? ==> (thrown.None?
        && State() == old(State()).(somedayMaybe := Replaced(old(somedayMaybe), SomedayId, id, (x: SomedayMaybe) => PatchSomeday(x, u))))
      ensures res.Failure? ==> thrown == Some(res.message) && State() == old(State())
    {
      sent := [Api.UpdateSomedayMaybe(id, u)];
      if res.Failure? {
        return sent, Some(res.message);
      }
      somedayMaybe := Replaced(somedayMaybe, SomedayId, id, (x: SomedayMaybe) => PatchSomeday(x, u));
      thrown := None;
    }

    method DeleteSomedayMaybe(id: Id, res: Result<()>) returns (sent: seq<Api.ApiRequest>, thrown: Option<string>)
      modifies this
      ensures sent == [Api.DeleteSomedayMaybe(id)]
      ensures res.Success? ==> thrown.None? && State() == old(State()).(somedayMaybe := Without(old(somedayMaybe), SomedayId, id))
      ensures res.Failure? ==> thrown == Some(res.message) && State() == old(State())
    {
      sent := [Api.DeleteSomedayMaybe(id)];
      if res.Failure? {
        return sent, Some(res.message);
      }
      somedayMaybe := Without(somedayMaybe, SomedayId, id);
      thrown := None;
    }

    /** `moveSomedayToAction`: nothing for an id the cache does not hold;
        otherwise the action is created from the item's content, then the
        item is deleted, and only when both calls succeed does the cache
        change. A failed delete leaves the new action on the server but not
        in the cache. */
    method MoveSomedayToAction(id: Id, context: Context, projectId: Option<Id>, added: Result<Action>, deleted: Result<()>)
      returns (sent: seq<Api.ApiRequest>, thrown: Option<string>)
      modifies this
      ensures Find(old(somedayMaybe), (x: SomedayMaybe) => x.id == id).None? ==>
        sent == [] && thrown.None? && State() == old(State())
      ensures Find(old(somedayMaybe), (x: SomedayMaybe) => x.id == id).Some? ==>
        var item := Find(old(somedayMaybe), (x: SomedayMaybe) => x.id == id).value;
        sent == [Api.AddAction(item.content, context, projectId, None)] + (if added.Success? then [Api.DeleteSomedayMaybe(id)] else [])
      ensures Find(old(somedayMaybe), (x: SomedayMaybe) => x.id == id).Some? && added.Success? && deleted.Success? ==>
        thrown.None? && State() == old(State()).(
          somedayMaybe := Without(old(somedayMaybe), SomedayId, id),
          actions := old(actions) + [added.value])
      ensures Find(old(somedayMaybe), (x: SomedayMaybe) => x.id == id).Some? && (added.Failure? || deleted.Failure?) ==>
        thrown.Some? && State() == old(State())
    {
      var found := Find(somedayMaybe, (x: SomedayMaybe) => x.id == id);
      if found.None? {
        return [], None;
      }
      sent := [Api.AddAction(found.value.content, context, projectId, None)];
      if added.Failure? {
        return sent, Some(added.message);
      }
      sent := sent + [Api.DeleteSomedayMaybe(id)];
      if deleted.Failure? {
        return sent, Some(deleted.message);
      }
      somedayMaybe := Without(somedayMaybe, SomedayId, id);
      actions := actions + [added.value];
      thrown := None;
    }

    /** `moveSomedayToWaitingFor`: as above, with a waiting-for item that
        has no project. */
    method MoveSomedayToWaitingFor(id: Id, person: string, expectedDate: Option<Timestamp>, added: Result<WaitingFor>,
                                   deleted: Result<()>) returns (sent: seq<Api.ApiRequest>, thrown: Option<string>)
      modifies this
      ensures Find(old(somedayMaybe), (x: SomedayMaybe) => x.id == id).None? ==>
        sent == [] && thrown.None? && State() == old(State())
      ensures Find(old(somedayMaybe), (x: SomedayMaybe) => x.id == id).Some? ==>
        var item := Find(old(somedayMaybe), (x: SomedayMaybe) => x.id == id).value;
        sent == [Api.AddWaitingFor(item.content, person, None, expectedDate)] + (if added.Success? then [Api.DeleteSomedayMaybe(id)] else [])
      ensures Find(old(somedayMaybe), (x: SomedayMaybe) => x.id == id).Some? && added.Success? && deleted.Success? ==>
        thrown.None? && State() == old(State()).(
          somedayMaybe := Without(old(somedayMaybe), SomedayId, id),
          waitingFor := old(waitingFor) + [added.value])
      ensures Find(old(somedayMaybe), (x: SomedayMaybe) => x.id == id).Some? && (added.Failure? || deleted.Failure?) ==>
        thrown.Some? && State() == old(State())
    {
      var found := Find(somedayMaybe, (x: SomedayMaybe) => x.id == id);
      if found.None? {
        return [], None;
      }
      sent := [Api.AddWaitingFor(found.value.content, person, None, expectedDate)];
      if added.Failure? {
        return sent, Some(added.message);
      }
      sent := sent + [Api.DeleteSomedayMaybe(id)];
      if deleted.Failure? {
        return sent, Some(deleted.message);
      }
      somedayMaybe := Without(somedayMaybe, SomedayId, id);
      waitingFor := waitingFor + [added.value];
      thrown := None;
    }

    /** `startReview`: the cache takes the review the server answers. */
    method StartReview(res: Result<ReviewProgress>) returns (sent: seq<Api.ApiRequest>, thrown: Option<string>)
      modifies this
      ensures sent == [Api.StartReview]
      ensures res.Success? ==> thrown.None? && State() == old(State()).(review := res.value)
      ensures res.Failure? ==> thrown == Some(res.message) && State() == old(State())
    {
      sent := [Api.StartReview];
      if res.Failure? {
        return sent, Some(res.message);
      }
      review := res.value;
      thrown := None;
    }

    method CompleteReviewStep(step: int, res: Result<ReviewProgress>) returns (sent: seq<Api.ApiRequest>, thrown: Option<string>)
      modifies this
      ensures sent == [Api.CompleteReviewStep(step)]
      ensures res.Success? ==> thrown.None? && State() == old(State()).(review := res.value)
      ensures res.Failure? ==> thrown == Some(res.message) && State() == old(State())
    {
      sent := [Api.CompleteReviewStep(step)];
      if res.Failure? {
        return sent, Some(res.message);
      }
      review := res.value;
      thrown := None;
    }

    /** `resetReview`: the server is sent `initialReview`, and the cache
        takes it too. */
    method ResetReview(res: Result<()>) returns (sent: seq<Api.ApiRequest>, thrown: Option<string>)
      modifies this
      ensures sent == [Api.UpdateReview(InitialReview())]
      ensures res.Success? ==> thrown.None? && State() == old(State()).(review := InitialReview())
      ensures res.Failure? ==> thrown == Some(res.message) && State() == old(State())
    {
      sent := [Api.UpdateReview(InitialReview())];
      if res.Failure? {
        return sent, Some(res.message);
      }
      review := InitialReview();
      thrown := None;
    }
  }
}
