/** The someday/maybe collection's routes: ideas parked by category. */
module SomedayRoutes {
  import opened Wrappers
  import opened GtdTypes
  import opened Text
  import opened SeqOps
  import opened DocStore
  import CrudRoutes

  datatype SomedayFields = SomedayFields(content: string, category: SomedayCategory)

  datatype CreateRequest = CreateRequest(content: Option<string>, category: Option<SomedayCategory>)

  function View(d: Doc<SomedayFields>): (item: SomedayMaybe)
    ensures item.id == d.id && item.createdAt == d.createdAt
    ensures item.content == d.body.content && item.category == d.body.category
  {
    SomedayMaybe(d.id, d.body.content, d.body.category, d.createdAt)
  }

  /** What `POST /` stores: nothing when `content` is falsy; otherwise the
      content and the category, `other` when none is sent. */
  function NewFields(req: CreateRequest): (f: Option<SomedayFields>)
    ensures f.None? <==> !Truthy(req.content)
    ensures f.Some? ==> f.value.content == req.content.value
    ensures f.Some? ==> f.value.category == (if req.category.Some? then req.category.value else Other)
  {
    if !Truthy(req.content) then None
    else Some(SomedayFields(req.content.value, if req.category.Some? then req.category.value else Other))
  }

  function Merge(p: SomedayPatch): SomedayFields -> SomedayFields
  {
    (f: SomedayFields) => SomedayFields(p.content.ApplyTo(f.content), p.category.ApplyTo(f.category))
  }

  /** `$set: updates` replaces exactly the supplied fields and keeps the
      others, so an empty update leaves a document as it was. */
  lemma MergeReplacesSupplied(p: SomedayPatch, f: SomedayFields)
    ensures p.content.Set? ==> Merge(p)(f).content == p.content.value
    ensures p.content.Keep? ==> Merge(p)(f).content == f.content
    ensures p.category.Set? ==> Merge(p)(f).category == p.category.value
    ensures p.category.Keep? ==> Merge(p)(f).category == f.category
    ensures p == SomedayPatch(Keep, Keep) ==> Merge(p)(f) == f
  {
  }

  /** `GET /`: exactly the caller's items, newest first. */
  method List(c: Collection<SomedayFields>, uid: UserId, storeUp: bool) returns (r: Reply<seq<SomedayMaybe>>)
    ensures !storeUp ==> r == Fail(InternalError)
    ensures storeUp ==> r.Ok? && |r.body| == Count(c.docs, Owner(uid))
    ensures storeUp ==> forall i, j :: 0 <= i < j < |r.body| ==> r.body[i].createdAt >= r.body[j].createdAt
    ensures storeUp ==> forall i :: 0 <= i < |r.body| ==>
      exists k :: 0 <= k < |c.docs| && c.docs[k].userId == uid && r.body[i] == View(c.docs[k])
    ensures storeUp ==> forall k :: 0 <= k < |c.docs| && c.docs[k].userId == uid ==> View(c.docs[k]) in r.body
  {
    CrudRoutes.ListingNewestFirst(c.docs, uid, View, (x: SomedayMaybe) => x.createdAt);
    r := CrudRoutes.List(c, uid, View, storeUp);
  }

  /** `POST /`. */
  method Create(c: Collection<SomedayFields>, uid: UserId, req: CreateRequest, newId: Id, now: Timestamp,
                echoNow: Timestamp, storeUp: bool) returns (r: Reply<SomedayMaybe>)
    requires c.Valid()
    modifies c
    ensures c.Valid()
    ensures !Truthy(req.content) ==> r == Fail(BadRequest) && c.docs == old(c.docs)
    ensures Truthy(req.content) ==> (r.Created? <==> storeUp && !IdInUse(old(c.docs), newId))
    ensures Truthy(req.content) && r.Created? ==>
      c.docs == old(c.docs) + [Doc(newId, uid, now, NewFields(req).value)]
      && r.body == View(Doc(newId, uid, echoNow, NewFields(req).value))
    ensures Truthy(req.content) && !r.Created? ==> r == Fail(InternalError) && c.docs == old(c.docs)
  {
    var fields := NewFields(req);
    if fields.None? {
      return Fail(BadRequest);
    }
    r := CrudRoutes.Insert(c, Doc(newId, uid, now, fields.value), View(Doc(newId, uid, echoNow, fields.value)), storeUp);
  }

  /** `PATCH /:id`. */
  method Update(c: Collection<SomedayFields>, id: Id, uid: UserId, p: SomedayPatch, storeUp: bool)
    returns (r: Reply<SomedayMaybe>)
    requires c.Valid()
    modifies c
    ensures c.Valid()
    ensures !storeUp ==> r == Fail(InternalError) && c.docs == old(c.docs)
    ensures storeUp && FirstMatch(old(c.docs), id, uid).None? ==> r == Fail(NotFound) && c.docs == old(c.docs)
    ensures storeUp && FirstMatch(old(c.docs), id, uid).Some? ==>
      c.docs == UpdateMatching(old(c.docs), id, uid, Merge(p))
      && r == Ok(View(FirstMatch(old(c.docs), id, uid).value.(body := Merge(p)(FirstMatch(old(c.docs), id, uid).value.body))))
  {
    r := CrudRoutes.Update(c, id, uid, Merge(p), View, storeUp);
  }

  /** `DELETE /:id`. */
  method Delete(c: Collection<SomedayFields>, id: Id, uid: UserId, storeUp: bool) returns (r: Reply<()>)
    requires c.Valid()
    modifies c
    ensures c.Valid()
    ensures !storeUp ==> r == Fail(InternalError) && c.docs == old(c.docs)
    ensures storeUp && FirstMatch(old(c.docs), id, uid).None? ==> r == Fail(NotFound) && c.docs == old(c.docs)
    ensures storeUp && FirstMatch(old(c.docs), id, uid).Some? ==> r == Ok(()) && c.docs == DeleteMatching(old(c.docs), id, uid)
  {
    r := CrudRoutes.Delete(c, id, uid, storeUp);
  }
}
