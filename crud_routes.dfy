/** The four handlers every owner-scoped collection route repeats (list,
    create, update, delete), written once over the document store. Each
    route module supplies its own field record, its validation and
    defaults, its `$set` merge and its JSON view of a document. */
module CrudRoutes {
  import opened Wrappers
  import opened GtdTypes
  import opened SeqOps
  import opened DocStore

  /** The `items` array of a list reply: the view of every document the
      caller owns, in the order `find(...).sort({ createdAt: -1 })` gives. */
  function Listing<R, T>(docs: seq<Doc<R>>, uid: UserId, view: Doc<R> -> T): (r: seq<T>)
    ensures |r| == Count(docs, Owner(uid))
    ensures forall i :: 0 <= i < |r| ==> exists k :: 0 <= k < |docs| && docs[k].userId == uid && r[i] == view(docs[k])
  {
    var s := FindSorted(docs, uid);
    assert |s| == |multiset(s)| == |OwnedBy(docs, uid)|;
    var r := seq(|s|, i requires 0 <= i < |s| => view(s[i]));
    forall i | 0 <= i < |r|
      ensures exists k :: 0 <= k < |docs| && docs[k].userId == uid && r[i] == view(docs[k])
    {
      var k :| 0 <= k < |docs| && docs[k] == s[i];
      assert r[i] == view(docs[k]);
    }
    r
  }

  /** When the view keeps `createdAt`, the listed items are newest first,
      and every document the caller owns is listed. */
  lemma ListingNewestFirst<R, T>(docs: seq<Doc<R>>, uid: UserId, view: Doc<R> -> T, timeOf: T -> Timestamp)
    requires forall d :: timeOf(view(d)) == d.createdAt
    ensures forall i, j :: 0 <= i < j < |Listing(docs, uid, view)| ==>
      timeOf(Listing(docs, uid, view)[i]) >= timeOf(Listing(docs, uid, view)[j])
    ensures forall k :: 0 <= k < |docs| && docs[k].userId == uid ==> view(docs[k]) in Listing(docs, uid, view)
  {
    var s := FindSorted(docs, uid);
    var r := Listing(docs, uid, view);
    assert forall i :: 0 <= i < |r| ==> r[i] == view(s[i]);
    forall k | 0 <= k < |docs| && docs[k].userId == uid
      ensures view(docs[k]) in r
    {
      var i :| 0 <= i < |s| && s[i] == docs[k];
      assert r[i] == view(docs[k]);
    }
  }

  /** `GET /`: the listing, or 500 when the store fails. */
  method List<R, T>(c: Collection<R>, uid: UserId, view: Doc<R> -> T, storeUp: bool) returns (r: Reply<seq<T>>)
    ensures storeUp ==> r == Ok(Listing(c.docs, uid, view))
    ensures !storeUp ==> r == Fail(InternalError)
  {
    var found := c.FindByOwner(uid, storeUp);
    if found.Failure? {
      return Fail(InternalError);
    }
    r := Ok(seq(|found.value|, i requires 0 <= i < |found.value| => view(found.value[i])));
  }

  /** The insert half of `POST /`, once the request has passed validation:
      201 with the echoed item, or 500 and nothing stored. */
  method Insert<R, T>(c: Collection<R>, d: Doc<R>, echo: T, storeUp: bool) returns (r: Reply<T>)
    requires c.Valid()
    modifies c
    ensures c.Valid()
    ensures r.Created? <==> storeUp && !IdInUse(old(c.docs), d.id)
    ensures r.Created? ==> r.body == echo && c.docs == old(c.docs) + [d]
    ensures !r.Created? ==> r == Fail(InternalError) && c.docs == old(c.docs)
  {
    var inserted := c.InsertOne(d, storeUp);
    if inserted.Failure? {
      return Fail(InternalError);
    }
    r := Created(echo);
  }

  /** `PATCH /:id`: merges the request into the caller's document with that
      id and answers its view, or 404 and no change when there is none. */
  method Update<R, T>(c: Collection<R>, id: Id, uid: UserId, merge: R -> R, view: Doc<R> -> T, storeUp: bool)
    returns (r: Reply<T>)
    requires c.Valid()
    modifies c
    ensures c.Valid()
    ensures !storeUp ==> r == Fail(InternalError) && c.docs == old(c.docs)
    ensures storeUp && FirstMatch(old(c.docs), id, uid).None? ==> r == Fail(NotFound) && c.docs == old(c.docs)
    ensures storeUp && FirstMatch(old(c.docs), id, uid).Some? ==>
      c.docs == UpdateMatching(old(c.docs), id, uid, merge)
      && r == Ok(view(FirstMatch(old(c.docs), id, uid).value.(body := merge(FirstMatch(old(c.docs), id, uid).value.body))))
  {
    ghost var before := c.docs;
    UpdateChangesOnlyMatch(before, id, uid, merge);
    var result := c.FindOneAndUpdate(id, uid, merge, storeUp);
    if result.Failure? {
      return Fail(InternalError);
    }
    if result.value.None? {
      return Fail(NotFound);
    }
    UpdatedIsFirstMatch(before, id, uid, merge);
    r := Ok(view(result.value.value));
  }

  /** `findOneAndUpdate` hands back the first match with the merge applied. */
  lemma UpdatedIsFirstMatch<R>(docs: seq<Doc<R>>, id: Id, uid: UserId, merge: R -> R)
    requires FirstMatch(docs, id, uid).Some?
    ensures FirstMatch(UpdateMatching(docs, id, uid, merge), id, uid)
      == Some(FirstMatch(docs, id, uid).value.(body := merge(FirstMatch(docs, id, uid).value.body)))
  {
    var after := UpdateMatching(docs, id, uid, merge);
    var k := IndexOf(docs, Matching(id, uid));
    assert forall j :: 0 <= j < |docs| ==> (Matching(id, uid)(after[j]) <==> Matching(id, uid)(docs[j]));
    IndexOfSameTests(docs, after, Matching(id, uid));
  }

  /** Two lists whose elements pass the same test position by position have
      their first passing element at the same index. */
  lemma {:induction false} IndexOfSameTests<T>(s: seq<T>, t: seq<T>, p: T -> bool)
    requires |s| == |t|
    requires forall j :: 0 <= j < |s| ==> (p(s[j]) <==> p(t[j]))
    ensures IndexOf(s, p) == IndexOf(t, p)
  {
    if s != [] && !p(s[0]) {
      IndexOfSameTests(s[1..], t[1..], p);
    }
  }

  /** `DELETE /:id`: removes the caller's document with that id, or answers
      404 and removes nothing when there is none. */
  method Delete<R>(c: Collection<R>, id: Id, uid: UserId, storeUp: bool) returns (r: Reply<()>)
    requires c.Valid()
    modifies c
    ensures c.Valid()
    ensures !storeUp ==> r == Fail(InternalError) && c.docs == old(c.docs)
    ensures storeUp && FirstMatch(old(c.docs), id, uid).None? ==> r == Fail(NotFound) && c.docs == old(c.docs)
    ensures storeUp && FirstMatch(old(c.docs), id, uid).Some? ==> r == Ok(()) && c.docs == DeleteMatching(old(c.docs), id, uid)
  {
    ghost var before := c.docs;
    DeleteRemovesExactly(before, id, uid);
    var deleted := c.DeleteOne(id, uid, storeUp);
    if deleted.Failure? {
      return Fail(InternalError);
    }
    if deleted.value == 0 {
      return Fail(NotFound);
    }
    r := Ok(());
  }
}
