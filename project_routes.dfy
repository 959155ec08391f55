/** The projects collection's routes. Deleting a project also unlinks the
    caller's actions and waiting-for items from it. */
module ProjectRoutes {
  import opened Wrappers
  import opened GtdTypes
  import opened Text
  import opened SeqOps
  import opened DocStore
  import CrudRoutes
  import ActionRoutes
  import WaitingForRoutes

  datatype ProjectFields = ProjectFields(name: string, description: string, status: ProjectStatus)

  datatype CreateRequest = CreateRequest(name: Option<string>, description: Option<string>)

  function View(d: Doc<ProjectFields>): (item: Project)
    ensures item.id == d.id && item.createdAt == d.createdAt
    ensures item.name == d.body.name && item.description == d.body.description && item.status == d.body.status
  {
    Project(d.id, d.body.name, d.body.description, d.body.status, d.createdAt)
  }

  /** What `POST /` stores: nothing when `name` is falsy; otherwise the
      name, the description (`''` when none is sent) and status `active`. */
  function NewFields(req: CreateRequest): (f: Option<ProjectFields>)
    ensures f.None? <==> !Truthy(req.name)
    ensures f.Some? ==> f.value.name == req.name.value && f.value.status == Active
    ensures f.Some? ==> f.value.description == (if req.description.Some? then req.description.value else "")
  {
    if !Truthy(req.name) then None
    else Some(ProjectFields(req.name.value, if req.description.Some? then req.description.value else "", Active))
  }

  function Merge(p: ProjectPatch): ProjectFields -> ProjectFields
  {
    (f: ProjectFields) => ProjectFields(p.name.ApplyTo(f.name), p.description.ApplyTo(f.description), p.status.ApplyTo(f.status))
  }

  /** `$set: updates` replaces exactly the supplied fields and keeps the
      others, so an empty update leaves a document as it was. */
  lemma MergeReplacesSupplied(p: ProjectPatch, f: ProjectFields)
    ensures p.name.Set? ==> Merge(p)(f).name == p.name.value
    ensures p.name.Keep? ==> Merge(p)(f).name == f.name
    ensures p.description.Set? ==> Merge(p)(f).description == p.description.value
    ensures p.description.Keep? ==> Merge(p)(f).description == f.description
    ensures p.status.Set? ==> Merge(p)(f).status == p.status.value
    ensures p.status.Keep? ==> Merge(p)(f).status == f.status
    ensures p == ProjectPatch(Keep, Keep, Keep) ==> Merge(p)(f) == f
  {
  }

  /** `GET /`: exactly the caller's projects, newest first. */
  method List(c: Collection<ProjectFields>, uid: UserId, storeUp: bool) returns (r: Reply<seq<Project>>)
    ensures !storeUp ==> r == Fail(InternalError)
    ensures storeUp ==> r.Ok? && |r.body| == Count(c.docs, Owner(uid))
    ensures storeUp ==> forall i, j :: 0 <= i < j < |r.body| ==> r.body[i].createdAt >= r.body[j].createdAt
    ensures storeUp ==> forall i :: 0 <= i < |r.body| ==>
      exists k :: 0 <= k < |c.docs| && c.docs[k].userId == uid && r.body[i] == View(c.docs[k])
    ensures storeUp ==> forall k :: 0 <= k < |c.docs| && c.docs[k].userId == uid ==> View(c.docs[k]) in r.body
  {
    CrudRoutes.ListingNewestFirst(c.docs, uid, View, (x: Project) => x.createdAt);
    r := CrudRoutes.List(c, uid, View, storeUp);
  }

  /** `POST /`. */
  method Create(c: Collection<ProjectFields>, uid: UserId, req: CreateRequest, newId: Id, now: Timestamp,
                echoNow: Timestamp, storeUp: bool) returns (r: Reply<Project>)
    requires c.Valid()
    modifies c
    ensures c.Valid()
    ensures !Truthy(req.name) ==> r == Fail(BadRequest) && c.docs == old(c.docs)
    ensures Truthy(req.name) ==> (r.Created? <==> storeUp && !IdInUse(old(c.docs), newId))
    ensures Truthy(req.name) && r.Created? ==>
      c.docs == old(c.docs) + [Doc(newId, uid, now, NewFields(req).value)]
      && r.body == View(Doc(newId, uid, echoNow, NewFields(req).value))
    ensures Truthy(req.name) && !r.Created? ==> r == Fail(InternalError) && c.docs == old(c.docs)
  {
    var fields := NewFields(req);
    if fields.None? {
      return Fail(BadRequest);
    }
    r := CrudRoutes.Insert(c, Doc(newId, uid, now, fields.value), View(Doc(newId, uid, echoNow, fields.value)), storeUp);
  }

  /** `PATCH /:id`. */
  method Update(c: Collection<ProjectFields>, id: Id, uid: UserId, p: ProjectPatch, storeUp: bool)
    returns (r: Reply<Project>)
    requires c.Valid()
    modifies c
    ensures c.Valid()
    ensures !storeUp ==> r == Fail(InternalError) && c.docs == old(c.docs)
    ensures storeUp && FirstMatch(old(c.docs), id, uid).None? ==> r == Fail(NotFound) && c.docs == old(c.docs)
    ensures storeUp && FirstMatch(old(c.docs), id, uid).Some? ==>
      c.docs == UpdateMatching(old(c.docs), id, uid, Merge(p))
      && r == Ok(View(FirstMatch(old(c.docs), id, uid).value.(body := Merge(p)(FirstMatch(old(c.docs), id, uid).value.body))))
  {
    r := CrudRoutes.Update(c, id, uid, Merge(p), View, storeUp);
  }

  /** The caller's actions after the cascade of deleting project `pid`. */
  function UnlinkActions(docs: seq<Doc<ActionRoutes.ActionFields>>, uid: UserId, pid: Id): seq<Doc<ActionRoutes.ActionFields>>
  {
    UpdateOwnedWhere(docs, uid, ActionRoutes.Linked(pid), ActionRoutes.Unlink)
  }

  function UnlinkWaiting(docs: seq<Doc<WaitingForRoutes.WaitingFields>>, uid: UserId, pid: Id): seq<Doc<WaitingForRoutes.WaitingFields>>
  {
    UpdateOwnedWhere(docs, uid, WaitingForRoutes.Linked(pid), WaitingForRoutes.Unlink)
  }

  /** The cascade keeps every action: the caller's actions that pointed at
      the project now have no project and are otherwise as they were, every
      other action is untouched, and none of the caller's actions points at
      the project any more. */
  lemma UnlinkActionsKeepsRecords(docs: seq<Doc<ActionRoutes.ActionFields>>, uid: UserId, pid: Id)
    ensures |UnlinkActions(docs, uid, pid)| == |docs|
    ensures forall i :: 0 <= i < |docs| ==>
      var a, b := docs[i], UnlinkActions(docs, uid, pid)[i];
      if a.userId == uid && a.body.projectId == Some(pid) then b == a.(body := a.body.(projectId := None))
      else b == a
    ensures forall i :: 0 <= i < |docs| && UnlinkActions(docs, uid, pid)[i].userId == uid ==>
      UnlinkActions(docs, uid, pid)[i].body.projectId != Some(pid)
  {
    var after := UnlinkActions(docs, uid, pid);
    forall i | 0 <= i < |docs|
      ensures var a := docs[i]; after[i] == if a.userId == uid && a.body.projectId == Some(pid)
        then a.(body := a.body.(projectId := None)) else a
    {
      assert ActionRoutes.Linked(pid)(docs[i].body) == (docs[i].body.projectId == Some(pid));
    }
  }

  lemma UnlinkWaitingKeepsRecords(docs: seq<Doc<WaitingForRoutes.WaitingFields>>, uid: UserId, pid: Id)
    ensures |UnlinkWaiting(docs, uid, pid)| == |docs|
    ensures forall i :: 0 <= i < |docs| ==>
      var a, b := docs[i], UnlinkWaiting(docs, uid, pid)[i];
      if a.userId == uid && a.body.projectId == Some(pid) then b == a.(body := a.body.(projectId := None))
      else b == a
    ensures forall i :: 0 <= i < |docs| && UnlinkWaiting(docs, uid, pid)[i].userId == uid ==>
      UnlinkWaiting(docs, uid, pid)[i].body.projectId != Some(pid)
  {
    var after := UnlinkWaiting(docs, uid, pid);
    forall i | 0 <= i < |docs|
      ensures var a := docs[i]; after[i] == if a.userId == uid && a.body.projectId == Some(pid)
        then a.(body := a.body.(projectId := None)) else a
    {
      assert WaitingForRoutes.Linked(pid)(docs[i].body) == (docs[i].body.projectId == Some(pid));
    }
  }

  /** `DELETE /:id`: 404 and no cascade when the caller has no such
      project; otherwise the project is removed, then the caller's actions
      and then waiting-for items are unlinked from it. Each step is its own
      store call, so a failure part-way answers 500 with the earlier steps
      already done. */
  method Delete(projects: Collection<ProjectFields>, actions: Collection<ActionRoutes.ActionFields>,
                waiting: Collection<WaitingForRoutes.WaitingFields>, id: Id, uid: UserId,
                deleteUp: bool, actionsUp: bool, waitingUp: bool) returns (r: Reply<()>)
    requires projects.Valid() && actions.Valid() && waiting.Valid()
    modifies projects, actions, waiting
    ensures projects.Valid() && actions.Valid() && waiting.Valid()
    ensures !deleteUp || FirstMatch(old(projects.docs), id, uid).None? ==>
      && r == Fail(if deleteUp then NotFound else InternalError)
      && projects.docs == old(projects.docs) && actions.docs == old(actions.docs) && waiting.docs == old(waiting.docs)
    ensures deleteUp && FirstMatch(old(projects.docs), id, uid).Some? ==>
      && projects.docs == DeleteMatching(old(projects.docs), id, uid)
      && actions.docs == (if actionsUp then UnlinkActions(old(actions.docs), uid, id) else old(actions.docs))
      && waiting.docs == (if actionsUp && waitingUp then UnlinkWaiting(old(waiting.docs), uid, id) else old(waiting.docs))
      && r == (if actionsUp && waitingUp then Ok(()) else Fail(InternalError))
  {
    r := CrudRoutes.Delete(projects, id, uid, deleteUp);
    if !r.Ok? {
      return;
    }
    var unlinked := actions.UpdateMany(uid, ActionRoutes.Linked(id), ActionRoutes.Unlink, actionsUp);
    if unlinked.Failure? {
      return Fail(InternalError);
    }
    unlinked := waiting.UpdateMany(uid, WaitingForRoutes.Linked(id), WaitingForRoutes.Unlink, waitingUp);
    if unlinked.Failure? {
      return Fail(InternalError);
    }
  }
}
