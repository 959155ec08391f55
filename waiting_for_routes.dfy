/** The waiting-for collection's routes: things delegated to a person,
    each with an optional project and an optional expected date. */
module WaitingForRoutes {
  import opened Wrappers
  import opened GtdTypes
  import opened Text
  import opened SeqOps
  import opened DocStore
  import CrudRoutes

  /** `completed` may be missing from a stored document; the handlers
      report it as `false` then. */
  datatype WaitingFields = WaitingFields(
    content: string,
    person: string,
    projectId: Option<Id>,
    expectedDate: Option<Timestamp>,
    completed: Option<bool>)

  datatype CreateRequest = CreateRequest(
    content: Option<string>,
    person: Option<string>,
    projectId: Option<Id>,
    expectedDate: Option<Timestamp>)

  /** `completed ?? false`. */
  function CompletedOrFalse(completed: Option<bool>): (b: bool)
    ensures b <==> completed == Some(true)
  {
    if completed.Some? then completed.value else false
  }

  function View(d: Doc<WaitingFields>): (item: WaitingFor)
    ensures item.id == d.id && item.createdAt == d.createdAt
    ensures item.content == d.body.content && item.person == d.body.person
    ensures item.projectId == d.body.projectId && item.expectedDate == d.body.expectedDate
    ensures item.completed <==> d.body.completed == Some(true)
  {
    WaitingFor(d.id, d.body.content, d.body.person, d.body.projectId, d.body.expectedDate,
      CompletedOrFalse(d.body.completed), d.createdAt)
  }

  /** What `POST /` stores: nothing unless both `content` and `person` are
      truthy; otherwise both, the project and date as sent (default
      `null`), and `completed: false`. */
  function NewFields(req: CreateRequest): (f: Option<WaitingFields>)
    ensures f.None? <==> !Truthy(req.content) || !Truthy(req.person)
    ensures f.Some? ==> f.value.content == req.content.value && f.value.person == req.person.value
    ensures f.Some? ==> f.value.projectId == req.projectId && f.value.expectedDate == req.expectedDate
    ensures f.Some? ==> f.value.completed == Some(false)
  {
    if !Truthy(req.content) || !Truthy(req.person) then None
    else Some(WaitingFields(req.content.value, req.person.value, req.projectId, req.expectedDate, Some(false)))
  }

  function Merge(p: WaitingForPatch): WaitingFields -> WaitingFields
  {
    (f: WaitingFields) => WaitingFields(
      p.content.ApplyTo(f.content),
      p.person.ApplyTo(f.person),
      p.projectId.ApplyTo(f.projectId),
      p.expectedDate.ApplyTo(f.expectedDate),
      if p.completed.Set? then Some(p.completed.value) else f.completed)
  }

  /** `$set: updates` replaces exactly the supplied fields and keeps the
      others, so an empty update leaves a document as it was. */
  lemma MergeReplacesSupplied(p: WaitingForPatch, f: WaitingFields)
    ensures p.content.Set? ==> Merge(p)(f).content == p.content.value
    ensures p.content.Keep? ==> Merge(p)(f).content == f.content
    ensures p.person.Set? ==> Merge(p)(f).person == p.person.value
    ensures p.person.Keep? ==> Merge(p)(f).person == f.person
    ensures p.projectId.Set? ==> Merge(p)(f).projectId == p.projectId.value
    ensures p.projectId.Keep? ==> Merge(p)(f).projectId == f.projectId
    ensures p.expectedDate.Set? ==> Merge(p)(f).expectedDate == p.expectedDate.value
    ensures p.expectedDate.Keep? ==> Merge(p)(f).expectedDate == f.expectedDate
    ensures p.completed.Set? ==> Merge(p)(f).completed == Some(p.completed.value)
    ensures p.completed.Keep? ==> Merge(p)(f).completed == f.completed
    ensures p == WaitingForPatch(Keep, Keep, Keep, Keep, Keep) ==> Merge(p)(f) == f
  {
  }

  /** A document stored by `POST /` reads back as not completed, and after
      a merge `completed` reads as the value supplied, or as before. */
  lemma CompletedReadsBack(req: CreateRequest, p: WaitingForPatch, d: Doc<WaitingFields>)
    requires NewFields(req).Some?
    ensures !View(d.(body := NewFields(req).value)).completed
    ensures View(d.(body := Merge(p)(d.body))).completed == p.completed.ApplyTo(View(d).completed)
  {
  }

  /** `GET /`: exactly the caller's items, newest first. */
  method List(c: Collection<WaitingFields>, uid: UserId, storeUp: bool) returns (r: Reply<seq<WaitingFor>>)
    ensures !storeUp ==> r == Fail(InternalError)
    ensures storeUp ==> r.Ok? && |r.body| == Count(c.docs, Owner(uid))
    ensures storeUp ==> forall i, j :: 0 <= i < j < |r.body| ==> r.body[i].createdAt >= r.body[j].createdAt
    ensures storeUp ==> forall i :: 0 <= i < |r.body| ==>
      exists k :: 0 <= k < |c.docs| && c.docs[k].userId == uid && r.body[i] == View(c.docs[k])
    ensures storeUp ==> forall k :: 0 <= k < |c.docs| && c.docs[k].userId == uid ==> View(c.docs[k]) in r.body
  {
    CrudRoutes.ListingNewestFirst(c.docs, uid, View, (x: WaitingFor) => x.createdAt);
    r := CrudRoutes.List(c, uid, View, storeUp);
  }

  /** `POST /`: 400 and nothing stored unless content and person are
      truthy; otherwise stored under the caller, stamped `now`, echoed with
      the second clock reading `echoNow`. */
  method Create(c: Collection<WaitingFields>, uid: UserId, req: CreateRequest, newId: Id, now: Timestamp,
                echoNow: Timestamp, storeUp: bool) returns (r: Reply<WaitingFor>)
    requires c.Valid()
    modifies c
    ensures c.Valid()
    ensures (!Truthy(req.content) || !Truthy(req.person)) ==> r == Fail(BadRequest) && c.docs == old(c.docs)
    ensures NewFields(req).Some? ==> (r.Created? <==> storeUp && !IdInUse(old(c.docs), newId))
    ensures NewFields(req).Some? && r.Created? ==>
      c.docs == old(c.docs) + [Doc(newId, uid, now, NewFields(req).value)]
      && r.body == View(Doc(newId, uid, echoNow, NewFields(req).value))
    ensures NewFields(req).Some? && !r.Created? ==> r == Fail(InternalError) && c.docs == old(c.docs)
  {
    var fields := NewFields(req);
    if fields.None? {
      return Fail(BadRequest);
    }
    r := CrudRoutes.Insert(c, Doc(newId, uid, now, fields.value), View(Doc(newId, uid, echoNow, fields.value)), storeUp);
  }

  /** `PATCH /:id`. */
  method Update(c: Collection<WaitingFields>, id: Id, uid: UserId, p: WaitingForPatch, storeUp: bool)
    returns (r: Reply<WaitingFor>)
    requires c.Valid()
    modifies c
    ensures c.Valid()
    ensures !storeUp ==> r == Fail(InternalError) && c.docs == old(c.docs)
    ensures storeUp && FirstMatch(old(c.docs), id, uid).None? ==> r == Fail(NotFound) && c.docs == old(c.docs)
    ensures storeUp && FirstMatch(old(c.docs), id, uid).Some? ==>
      c.docs == UpdateMatching(old(c.docs), id, uid, Merge(p))
      && r == Ok(View(FirstMatch(old(c.docs), id, uid).value.(body := Merge(p)(FirstMatch(old(c.docs), id, uid).value.body))))
  {
    r := CrudRoutes.Update(c, id, uid, Merge(p), View, storeUp);
  }

  /** `DELETE /:id`. */
  method Delete(c: Collection<WaitingFields>, id: Id, uid: UserId, storeUp: bool) returns (r: Reply<()>)
    requires c.Valid()
    modifies c
    ensures c.Valid()
    ensures !storeUp ==> r == Fail(InternalError) && c.docs == old(c.docs)
    ensures storeUp && FirstMatch(old(c.docs), id, uid).None? ==> r == Fail(NotFound) && c.docs == old(c.docs)
    ensures storeUp && FirstMatch(old(c.docs), id, uid).Some? ==> r == Ok(()) && c.docs == DeleteMatching(old(c.docs), id, uid)
  {
    r := CrudRoutes.Delete(c, id, uid, storeUp);
  }

  function Linked(pid: Id): WaitingFields -> bool
  {
    (f: WaitingFields) => f.projectId == Some(pid)
  }

  function Unlink(f: WaitingFields): WaitingFields
  {
    f.(projectId := None)
  }
}
