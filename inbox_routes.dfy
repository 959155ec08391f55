/** The inbox collection's routes: capture a thought, list what is
    captured, mark it processed, remove it. */
module InboxRoutes {
  import opened Wrappers
  import opened GtdTypes
  import opened Text
  import opened SeqOps
  import opened DocStore
  import CrudRoutes

  /** The fields an inbox document stores besides its id, owner and time. */
  datatype InboxFields = InboxFields(content: string, processed: bool)

  /** The body of `POST /`: `content` is missing, or a string. */
  datatype CreateRequest = CreateRequest(content: Option<string>)

  /** The JSON item the handlers answer for a stored document. */
  function View(d: Doc<InboxFields>): (item: InboxItem)
    ensures item.id == d.id && item.createdAt == d.createdAt
    ensures item.content == d.body.content && item.processed == d.body.processed
  {
    InboxItem(d.id, d.body.content, d.createdAt, d.body.processed)
  }

  /** What `POST /` stores: nothing when `content` is falsy, otherwise the
      content, unprocessed. */
  function NewFields(req: CreateRequest): (f: Option<InboxFields>)
    ensures f.None? <==> !Truthy(req.content)
    ensures f.Some? ==> f.value.content == req.content.value && !f.value.processed
  {
    if !Truthy(req.content) then None else Some(InboxFields(req.content.value, false))
  }

  /** `$set: updates`: the supplied fields replace the stored ones. */
  function Merge(p: InboxPatch): InboxFields -> InboxFields
  {
    (f: InboxFields) => InboxFields(p.content.ApplyTo(f.content), p.processed.ApplyTo(f.processed))
  }

  /** The merge replaces exactly the supplied fields, and an empty update
      leaves a document as it was. */
  lemma MergeReplacesSupplied(p: InboxPatch, f: InboxFields)
    ensures Merge(p)(f).content == (if p.content.Set? then p.content.value else f.content)
    ensures Merge(p)(f).processed == (if p.processed.Set? then p.processed.value else f.processed)
    ensures p == InboxPatch(Keep, Keep) ==> Merge(p)(f) == f
  {
  }

  /** `GET /`: exactly the caller's items, newest first. */
  method List(c: Collection<InboxFields>, uid: UserId, storeUp: bool) returns (r: Reply<seq<InboxItem>>)
    ensures !storeUp ==> r == Fail(InternalError)
    ensures storeUp ==> r.Ok? && |r.body| == Count(c.docs, Owner(uid))
    ensures storeUp ==> forall i, j :: 0 <= i < j < |r.body| ==> r.body[i].createdAt >= r.body[j].createdAt
    ensures storeUp ==> forall i :: 0 <= i < |r.body| ==>
      exists k :: 0 <= k < |c.docs| && c.docs[k].userId == uid && r.body[i] == View(c.docs[k])
    ensures storeUp ==> forall k :: 0 <= k < |c.docs| && c.docs[k].userId == uid ==> View(c.docs[k]) in r.body
  {
    CrudRoutes.ListingNewestFirst(c.docs, uid, View, (x: InboxItem) => x.createdAt);
    r := CrudRoutes.List(c, uid, View, storeUp);
  }

  /** `POST /`: 400 and nothing stored for falsy content; otherwise the
      item is stored unprocessed under the caller, stamped `now`, and echoed
      with a second clock reading `echoNow`. */
  method Create(c: Collection<InboxFields>, uid: UserId, req: CreateRequest, newId: Id, now: Timestamp,
                echoNow: Timestamp, storeUp: bool) returns (r: Reply<InboxItem>)
    requires c.Valid()
    modifies c
    ensures c.Valid()
    ensures !Truthy(req.content) ==> r == Fail(BadRequest) && c.docs == old(c.docs)
    ensures Truthy(req.content) ==> (r.Created? <==> storeUp && !IdInUse(old(c.docs), newId))
    ensures Truthy(req.content) && r.Created? ==>
      c.docs == old(c.docs) + [Doc(newId, uid, now, InboxFields(req.content.value, false))]
      && r.body == InboxItem(newId, req.content.value, echoNow, false)
    ensures Truthy(req.content) && !r.Created? ==> r == Fail(InternalError) && c.docs == old(c.docs)
  {
    var fields := NewFields(req);
    if fields.None? {
      return Fail(BadRequest);
    }
    var d := Doc(newId, uid, now, fields.value);
    r := CrudRoutes.Insert(c, d, InboxItem(newId, fields.value.content, echoNow, false), storeUp);
  }

  /** `PATCH /:id`. */
  method Update(c: Collection<InboxFields>, id: Id, uid: UserId, p: InboxPatch, storeUp: bool) returns (r: Reply<InboxItem>)
    requires c.Valid()
    modifies c
    ensures c.Valid()
    ensures !storeUp ==> r == Fail(InternalError) && c.docs == old(c.docs)
    ensures storeUp && FirstMatch(old(c.docs), id, uid).None? ==> r == Fail(NotFound) && c.docs == old(c.docs)
    ensures storeUp && FirstMatch(old(c.docs), id, uid).Some? ==>
      c.docs == UpdateMatching(old(c.docs), id, uid, Merge(p))
      && r.Ok? && r.body.id == id && r.body.createdAt == FirstMatch(old(c.docs), id, uid).value.createdAt
      && r.body.content == p.content.ApplyTo(FirstMatch(old(c.docs), id, uid).value.body.content)
      && r.body.processed == p.processed.ApplyTo(FirstMatch(old(c.docs), id, uid).value.body.processed)
  {
    r := CrudRoutes.Update(c, id, uid, Merge(p), View, storeUp);
  }

  /** `DELETE /:id`. */
  method Delete(c: Collection<InboxFields>, id: Id, uid: UserId, storeUp: bool) returns (r: Reply<()>)
    requires c.Valid()
    modifies c
    ensures c.Valid()
    ensures !storeUp ==> r == Fail(InternalError) && c.docs == old(c.docs)
    ensures storeUp && FirstMatch(old(c.docs), id, uid).None? ==> r == Fail(NotFound) && c.docs == old(c.docs)
    ensures storeUp && FirstMatch(old(c.docs), id, uid).Some? ==> r == Ok(()) && c.docs == DeleteMatching(old(c.docs), id, uid)
  {
    r := CrudRoutes.Delete(c, id, uid, storeUp);
  }
}
