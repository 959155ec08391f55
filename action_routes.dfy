/** The actions collection's routes: next actions, each with a context,
    an optional project and an optional due date. */
module ActionRoutes {
  import opened Wrappers
  import opened GtdTypes
  import opened Text
  import opened SeqOps
  import opened DocStore
  import CrudRoutes

  datatype ActionFields = ActionFields(
    content: string,
    context: Context,
    projectId: Option<Id>,
    dueDate: Option<Timestamp>,
    completed: bool)

  /** The body of `POST /`; `None` is a field left out. The destructuring
      defaults replace only a missing field, so an explicit `null` context
      would be stored as `null`; that body is outside this model. */
  datatype CreateRequest = CreateRequest(
    content: Option<string>,
    context: Option<Context>,
    projectId: Option<Id>,
    dueDate: Option<Timestamp>)

  function View(d: Doc<ActionFields>): (item: Action)
    ensures item.id == d.id && item.createdAt == d.createdAt
    ensures item.content == d.body.content && item.context == d.body.context
    ensures item.projectId == d.body.projectId && item.dueDate == d.body.dueDate
    ensures item.completed == d.body.completed
  {
    Action(d.id, d.body.content, d.body.projectId, d.body.context, d.body.dueDate, d.body.completed, d.createdAt)
  }

  /** What `POST /` stores: nothing when `content` is falsy; otherwise the
      content, the context (default `@anywhere`), the project and due date
      as sent (default `null`), not completed. */
  function NewFields(req: CreateRequest): (f: Option<ActionFields>)
    ensures f.None? <==> !Truthy(req.content)
    ensures f.Some? ==> f.value.content == req.content.value && !f.value.completed
    ensures f.Some? ==> f.value.context == (if req.context.Some? then req.context.value else Anywhere)
    ensures f.Some? ==> f.value.projectId == req.projectId && f.value.dueDate == req.dueDate
  {
    if !Truthy(req.content) then None
    else
      var context := if req.context.Some? then req.context.value else Anywhere;
      Some(ActionFields(req.content.value, context, req.projectId, req.dueDate, false))
  }

  function Merge(p: ActionPatch): ActionFields -> ActionFields
  {
    (f: ActionFields) => ActionFields(
      p.content.ApplyTo(f.content),
      p.context.ApplyTo(f.context),
      p.projectId.ApplyTo(f.projectId),
      p.dueDate.ApplyTo(f.dueDate),
      p.completed.ApplyTo(f.completed))
  }

  /** `$set: updates` replaces exactly the supplied fields and keeps the
      others, so an empty update leaves a document as it was. */
  lemma MergeReplacesSupplied(p: ActionPatch, f: ActionFields)
    ensures p.content.Set? ==> Merge(p)(f).content == p.content.value
    ensures p.content.Keep? ==> Merge(p)(f).content == f.content
    ensures p.context.Set? ==> Merge(p)(f).context == p.context.value
    ensures p.context.Keep? ==> Merge(p)(f).context == f.context
    ensures p.projectId.Set? ==> Merge(p)(f).projectId == p.projectId.value
    ensures p.projectId.Keep? ==> Merge(p)(f).projectId == f.projectId
    ensures p.dueDate.Set? ==> Merge(p)(f).dueDate == p.dueDate.value
    ensures p.dueDate.Keep? ==> Merge(p)(f).dueDate == f.dueDate
    ensures p.completed.Set? ==> Merge(p)(f).completed == p.completed.value
    ensures p.completed.Keep? ==> Merge(p)(f).completed == f.completed
    ensures p == ActionPatch(Keep, Keep, Keep, Keep, Keep) ==> Merge(p)(f) == f
  {
  }

  /** `GET /`: exactly the caller's actions, newest first. */
  method List(c: Collection<ActionFields>, uid: UserId, storeUp: bool) returns (r: Reply<seq<Action>>)
    ensures !storeUp ==> r == Fail(InternalError)
    ensures storeUp ==> r.Ok? && |r.body| == Count(c.docs, Owner(uid))
    ensures storeUp ==> forall i, j :: 0 <= i < j < |r.body| ==> r.body[i].createdAt >= r.body[j].createdAt
    ensures storeUp ==> forall i :: 0 <= i < |r.body| ==>
      exists k :: 0 <= k < |c.docs| && c.docs[k].userId == uid && r.body[i] == View(c.docs[k])
    ensures storeUp ==> forall k :: 0 <= k < |c.docs| && c.docs[k].userId == uid ==> View(c.docs[k]) in r.body
  {
    CrudRoutes.ListingNewestFirst(c.docs, uid, View, (x: Action) => x.createdAt);
    r := CrudRoutes.List(c, uid, View, storeUp);
  }

  /** `POST /`: 400 and nothing stored for falsy content; otherwise the
      action is stored under the caller with its defaults, stamped `now`,
      and echoed with the second clock reading `echoNow`. */
  method Create(c: Collection<ActionFields>, uid: UserId, req: CreateRequest, newId: Id, now: Timestamp,
                echoNow: Timestamp, storeUp: bool) returns (r: Reply<Action>)
    requires c.Valid()
    modifies c
    ensures c.Valid()
    ensures !Truthy(req.content) ==> r == Fail(BadRequest) && c.docs == old(c.docs)
    ensures Truthy(req.content) ==> (r.Created? <==> storeUp && !IdInUse(old(c.docs), newId))
    ensures Truthy(req.content) && r.Created? ==>
      c.docs == old(c.docs) + [Doc(newId, uid, now, NewFields(req).value)]
      && r.body == View(Doc(newId, uid, echoNow, NewFields(req).value))
    ensures Truthy(req.content) && !r.Created? ==> r == Fail(InternalError) && c.docs == old(c.docs)
  {
    var fields := NewFields(req);
    if fields.None? {
      return Fail(BadRequest);
    }
    r := CrudRoutes.Insert(c, Doc(newId, uid, now, fields.value), View(Doc(newId, uid, echoNow, fields.value)), storeUp);
  }

  /** `PATCH /:id`. */
  method Update(c: Collection<ActionFields>, id: Id, uid: UserId, p: ActionPatch, storeUp: bool) returns (r: Reply<Action>)
    requires c.Valid()
    modifies c
    ensures c.Valid()
    ensures !storeUp ==> r == Fail(InternalError) && c.docs == old(c.docs)
    ensures storeUp && FirstMatch(old(c.docs), id, uid).None? ==> r == Fail(NotFound) && c.docs == old(c.docs)
    ensures storeUp && FirstMatch(old(c.docs), id, uid).Some? ==>
      c.docs == UpdateMatching(old(c.docs), id, uid, Merge(p))
      && r == Ok(View(FirstMatch(old(c.docs), id, uid).value.(body := Merge(p)(FirstMatch(old(c.docs), id, uid).value.body))))
  {
    r := CrudRoutes.Update(c, id, uid, Merge(p), View, storeUp);
  }

  /** `DELETE /:id`. */
  method Delete(c: Collection<ActionFields>, id: Id, uid: UserId, storeUp: bool) returns (r: Reply<()>)
    requires c.Valid()
    modifies c
    ensures c.Valid()
    ensures !storeUp ==> r == Fail(InternalError) && c.docs == old(c.docs)
    ensures storeUp && FirstMatch(old(c.docs), id, uid).None? ==> r == Fail(NotFound) && c.docs == old(c.docs)
    ensures storeUp && FirstMatch(old(c.docs), id, uid).Some? ==> r == Ok(()) && c.docs == DeleteMatching(old(c.docs), id, uid)
  {
    r := CrudRoutes.Delete(c, id, uid, storeUp);
  }

  /** The `updateMany` a project delete issues: the caller's actions linked
      to `pid` are unlinked. */
  function Linked(pid: Id): ActionFields -> bool
  {
    (f: ActionFields) => f.projectId == Some(pid)
  }

  function Unlink(f: ActionFields): ActionFields
  {
    f.(projectId := None)
  }
}
