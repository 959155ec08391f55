/** The projects screen: the status filter and its badges, each project's
    own actions and waiting-fors with its progress, and the forms that add
    and edit projects and add items to a project. */
module ProjectsView {
  import opened Wrappers
  import opened GtdTypes
  import opened Text
  import opened SeqOps
  import opened GtdStore

  function StatusOf(p: Project): ProjectStatus { p.status }

  /** The status buttons after "all", in the order they are shown. */
  const StatusTabs: seq<ProjectStatus> := [Active, OnHold, Completed]

  /** `filteredProjects`: `statusFilter` is `None` for "all". */
  function FilteredProjects(projects: seq<Project>, statusFilter: Option<ProjectStatus>): (r: seq<Project>)
    ensures statusFilter.None? ==> r == projects
    ensures forall i :: 0 <= i < |r| ==> r[i] in projects && (statusFilter.None? || r[i].status == statusFilter.value)
    ensures forall i :: 0 <= i < |projects| && (statusFilter.None? || projects[i].status == statusFilter.value) ==>
      projects[i] in r
  {
    if statusFilter.None? then projects else Filter(projects, HasKey(StatusOf, statusFilter.value))
  }

  function StatusCounts(projects: seq<Project>): (r: seq<nat>)
    ensures |r| == |StatusTabs|
  {
    KeyCounts(projects, StatusOf, StatusTabs)
  }

  /** Each status badge is the number of projects that button shows, and
      the three badges add up to the "all" badge. */
  lemma StatusBadgesAddUp(projects: seq<Project>)
    ensures forall i :: 0 <= i < |StatusTabs| ==>
      StatusCounts(projects)[i] == |FilteredProjects(projects, Some(StatusTabs[i]))|
    ensures Sum(StatusCounts(projects)) == |projects|
  {
    forall x: Project ensures StatusOf(x) in StatusTabs {
      match x.status
      case Active => assert StatusTabs[0] == Active;
      case OnHold => assert StatusTabs[1] == OnHold;
      case Completed => assert StatusTabs[2] == Completed;
    }
    SumKeyCountsIsLength(projects, StatusOf, StatusTabs);
  }

  function LinkedAction(pid: Id): (p: Action -> bool)
    ensures forall a :: p(a) == (a.projectId == Some(pid))
  {
    (a: Action) => a.projectId == Some(pid)
  }

  function LinkedWaiting(pid: Id): (p: WaitingFor -> bool)
    ensures forall w :: p(w) == (w.projectId == Some(pid))
  {
    (w: WaitingFor) => w.projectId == Some(pid)
  }

  /** `getProjectActions`: the actions filed under the project, in list
      order. */
  function ProjectActions(actions: seq<Action>, pid: Id): (r: seq<Action>)
    ensures forall i :: 0 <= i < |r| ==> r[i] in actions && r[i].projectId == Some(pid)
    ensures forall i :: 0 <= i < |actions| && actions[i].projectId == Some(pid) ==> actions[i] in r
  {
    Filter(actions, LinkedAction(pid))
  }

  /** `getProjectWaitingFor`. */
  function ProjectWaiting(waiting: seq<WaitingFor>, pid: Id): (r: seq<WaitingFor>)
    ensures forall i :: 0 <= i < |r| ==> r[i] in waiting && r[i].projectId == Some(pid)
    ensures forall i :: 0 <= i < |waiting| && waiting[i].projectId == Some(pid) ==> waiting[i] in r
  {
    Filter(waiting, LinkedWaiting(pid))
  }

  function IsDone(a: Action): bool { a.completed }

  /** A finished action of the project. */
  function DoneIn(pid: Id): (p: Action -> bool)
    ensures forall a :: p(a) == (a.projectId == Some(pid) && a.completed)
  {
    (a: Action) => a.projectId == Some(pid) && a.completed
  }

  /** The "done / total" line of a project card: the number of the
      project's actions that are finished, out of all of its actions. */
  function Progress(actions: seq<Action>, pid: Id): (r: (nat, nat))
    ensures r.0 == Count(actions, DoneIn(pid))
    ensures r.1 == Count(actions, LinkedAction(pid)) == |ProjectActions(actions, pid)|
    ensures r.0 <= r.1
  {
    var mine := ProjectActions(actions, pid);
    CountOfFilter(actions, LinkedAction(pid), IsDone, DoneIn(pid));
    (|Filter(mine, IsDone)|, |mine|)
  }

  /** Once the store has deleted a project and cleared its links, the card
      of that project would list nothing, and the cards of every other
      project list exactly what they listed before. */
  lemma UnlinkEmptiesOnlyThatProject(actions: seq<Action>, waiting: seq<WaitingFor>, pid: Id, other: Id)
    requires other != pid
    ensures ProjectActions(UnlinkedActions(actions, pid), pid) == []
    ensures ProjectWaiting(UnlinkedWaiting(waiting, pid), pid) == []
    ensures ProjectActions(UnlinkedActions(actions, pid), other) == ProjectActions(actions, other)
    ensures ProjectWaiting(UnlinkedWaiting(waiting, pid), other) == ProjectWaiting(waiting, other)
  {
    var ua := UnlinkedActions(actions, pid);
    var uw := UnlinkedWaiting(waiting, pid);
    FilterNone(ua, LinkedAction(pid));
    FilterNone(uw, LinkedWaiting(pid));
    FilterSameKept(actions, ua, LinkedAction(other));
    FilterSameKept(waiting, uw, LinkedWaiting(other));
  }

  /** The store call behind a card's status buttons. */
  function SetStatusCall(p: Project, s: ProjectStatus): (c: StoreCall)
    ensures c.UpdateProject? && c.id == p.id
    ensures PatchProject(p, c.projectPatch) == p.(status := s)
  {
    UpdateProject(p.id, ProjectPatch(Keep, Keep, Set(s)))
  }

  /** `newActionContent[pid]?.trim()` and its kin: a per-project field
      nobody has typed in reads as blank. */
  function FieldOf(m: map<Id, string>, pid: Id): (s: string)
    ensures pid !in m ==> s == ""
    ensures pid in m ==> s == Trim(m[pid])
  {
    if pid in m then Trim(m[pid]) else ""
  }

  /** A per-project field counts as filled exactly when something other
      than white space was typed into it, and then it is sent without its
      surrounding white space. */
  lemma FieldFilledIffTyped(m: map<Id, string>, pid: Id)
    ensures FieldOf(m, pid) != "" <==> pid in m && IsFilled(m[pid])
    ensures FieldOf(m, pid) != "" ==> !IsSpace(FieldOf(m, pid)[0]) && !IsSpace(FieldOf(m, pid)[|FieldOf(m, pid)| - 1])
  {
  }

  class ProjectsScreen {
    var editProjectId: Option<Id>
    var projectName: string
    var projectDescription: string
    var statusFilter: Option<ProjectStatus>
    var newActionContent: map<Id, string>
    var newActionContext: map<Id, Context>
    var newWaitingContent: map<Id, string>
    var newWaitingPerson: map<Id, string>

    /** The screen opens on the active projects. */
    constructor ()
      ensures editProjectId.None? && projectName == "" && projectDescription == "" && statusFilter == Some(Active)
      ensures newActionContent == map[] && newActionContext == map[]
      ensures newWaitingContent == map[] && newWaitingPerson == map[]
    {
      editProjectId, projectName, projectDescription, statusFilter := None, "", "", Some(Active);
      newActionContent, newActionContext := map[], map[];
      newWaitingContent, newWaitingPerson := map[], map[];
    }

    /** `handleAddProject`: a non-blank name creates a project with the
        trimmed name and description, then the form is cleared. */
    method HandleAddProject() returns (calls: seq<StoreCall>)
      modifies this
      ensures !IsFilled(old(projectName)) ==>
        calls == [] && projectName == old(projectName) && projectDescription == old(projectDescription)
      ensures IsFilled(old(projectName)) ==>
        && calls == [AddProject(Trim(old(projectName)), Some(Trim(old(projectDescription))))]
        && projectName == "" && projectDescription == ""
      ensures editProjectId == old(editProjectId) && statusFilter == old(statusFilter)
      ensures newActionContent == old(newActionContent) && newActionContext == old(newActionContext)
      ensures newWaitingContent == old(newWaitingContent) && newWaitingPerson == old(newWaitingPerson)
    {
      if !IsFilled(projectName) {
        return [];
      }
      calls := [AddProject(Trim(projectName), Some(Trim(projectDescription)))];
      projectName, projectDescription := "", "";
    }

    /** `openEditDialog`: loads the project with that id into the form; an
        id not in the list leaves everything as it was. */
    method OpenEditDialog(projects: seq<Project>, id: Id)
      modifies this
      ensures Find(projects, HasKey(ProjectId, id)).None? ==>
        editProjectId == old(editProjectId) && projectName == old(projectName) && projectDescription == old(projectDescription)
      ensures Find(projects, HasKey(ProjectId, id)).Some? ==>
        && editProjectId == Some(id)
        && projectName == Find(projects, HasKey(ProjectId, id)).value.name
        && projectDescription == Find(projects, HasKey(ProjectId, id)).value.description
      ensures statusFilter == old(statusFilter)
      ensures newActionContent == old(newActionContent) && newActionContext == old(newActionContext)
      ensures newWaitingContent == old(newWaitingContent) && newWaitingPerson == old(newWaitingPerson)
    {
      var found := Find(projects, HasKey(ProjectId, id));
      if found.Some? {
        projectName, projectDescription, editProjectId := found.value.name, found.value.description, Some(id);
      }
    }

    /** `handleEditProject`: sends the trimmed name and description as a
        patch that leaves the status alone, then closes the form. */
    method HandleEditProject() returns (calls: seq<StoreCall>)
      modifies this
      ensures old(editProjectId).None? || !IsFilled(old(projectName)) ==>
        && calls == [] && editProjectId == old(editProjectId)
        && projectName == old(projectName) && projectDescription == old(projectDescription)
      ensures old(editProjectId).Some? && IsFilled(old(projectName)) ==>
        && calls == [UpdateProject(old(editProjectId).value,
                                   ProjectPatch(Set(Trim(old(projectName))), Set(Trim(old(projectDescription))), Keep))]
        && editProjectId.None? && projectName == "" && projectDescription == ""
      ensures statusFilter == old(statusFilter)
      ensures newActionContent == old(newActionContent) && newActionContext == old(newActionContext)
      ensures newWaitingContent == old(newWaitingContent) && newWaitingPerson == old(newWaitingPerson)
    {
      if editProjectId.None? || !IsFilled(projectName) {
        return [];
      }
      calls := [UpdateProject(editProjectId.value, ProjectPatch(Set(Trim(projectName)), Set(Trim(projectDescription)), Keep))];
      editProjectId, projectName, projectDescription := None, "", "";
    }

    /** `handleAddAction`: the project's own text field, trimmed, becomes an
        action of that project with no due date, in the context picked for
        it or `@anywhere`; only that project's text field is cleared. */
    method HandleAddAction(pid: Id) returns (calls: seq<StoreCall>)
      modifies this
      ensures FieldOf(old(newActionContent), pid) == "" ==> calls == [] && newActionContent == old(newActionContent)
      ensures FieldOf(old(newActionContent), pid) != "" ==>
        && calls == [AddAction(FieldOf(old(newActionContent), pid),
                               if pid in old(newActionContext) then old(newActionContext)[pid] else Anywhere,
                               Some(pid), None)]
        && newActionContent == old(newActionContent)[pid := ""]
      ensures newActionContext == old(newActionContext)
      ensures editProjectId == old(editProjectId) && projectName == old(projectName)
      ensures projectDescription == old(projectDescription) && statusFilter == old(statusFilter)
      ensures newWaitingContent == old(newWaitingContent) && newWaitingPerson == old(newWaitingPerson)
    {
      var content := FieldOf(newActionContent, pid);
      if content == "" {
        return [];
      }
      var context := if pid in newActionContext then newActionContext[pid] else Anywhere;
      calls := [AddAction(content, context, Some(pid), None)];
      newActionContent := newActionContent[pid := ""];
    }

    /** `handleAddWaitingFor`: needs both the project's text and person
        fields; clears only those two. */
    method HandleAddWaitingFor(pid: Id) returns (calls: seq<StoreCall>)
      modifies this
      ensures FieldOf(old(newWaitingContent), pid) == "" || FieldOf(old(newWaitingPerson), pid) == "" ==>
        calls == [] && newWaitingContent == old(newWaitingContent) && newWaitingPerson == old(newWaitingPerson)
      ensures FieldOf(old(newWaitingContent), pid) != "" && FieldOf(old(newWaitingPerson), pid) != "" ==>
        && calls == [AddWaitingFor(FieldOf(old(newWaitingContent), pid), FieldOf(old(newWaitingPerson), pid), Some(pid), None)]
        && newWaitingContent == old(newWaitingContent)[pid := ""]
        && newWaitingPerson == old(newWaitingPerson)[pid := ""]
      ensures newActionContent == old(newActionContent) && newActionContext == old(newActionContext)
      ensures editProjectId == old(editProjectId) && projectName == old(projectName)
      ensures projectDescription == old(projectDescription) && statusFilter == old(statusFilter)
    {
      var content := FieldOf(newWaitingContent, pid);
      var person := FieldOf(newWaitingPerson, pid);
      if content == "" || person == "" {
        return [];
      }
      calls := [AddWaitingFor(content, person, Some(pid), None)];
      newWaitingContent := newWaitingContent[pid := ""];
      newWaitingPerson := newWaitingPerson[pid := ""];
    }
  }
}
