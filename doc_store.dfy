/** The document store the route handlers talk to, reduced to what the
    handlers use: one collection per record kind, each a list of owned
    documents in insertion order, with the queries `find(...).sort(...)`,
    `insertOne`, `findOneAndUpdate`, `deleteOne` and `updateMany`, and the
    HTTP reply every handler turns their outcome into. */
module DocStore {
  import opened Wrappers
  import opened GtdTypes
  import opened SeqOps

  /** A stored document: the id the store assigned, the owner, the creation
      time, and the fields of the collection. */
  datatype Doc<R> = Doc(id: Id, userId: UserId, createdAt: Timestamp, body: R)

  datatype HttpError = BadRequest | NotFound | InternalError

  /** What a handler answers: a 200 or 201 body, or an error status. */
  datatype Reply<T> = Ok(body: T) | Created(body: T) | Fail(error: HttpError)

  function Status<T>(r: Reply<T>): int
  {
    match r
    case Ok(_) => 200
    case Created(_) => 201
    case Fail(BadRequest) => 400
    case Fail(NotFound) => 404
    case Fail(InternalError) => 500
  }

  /** The `_id` index: no two documents of a collection share an id. */
  ghost predicate UniqueIds<R>(docs: seq<Doc<R>>)
  {
    forall i, j :: 0 <= i < j < |docs| ==> docs[i].id != docs[j].id
  }

  predicate IdInUse<R>(docs: seq<Doc<R>>, id: Id)
  {
    exists i | 0 <= i < |docs| :: docs[i].id == id
  }

  /** The filter `{ _id: id, userId }` every update and delete uses. */
  predicate Matches<R>(d: Doc<R>, id: Id, uid: UserId)
  {
    d.id == id && d.userId == uid
  }

  function Matching<R>(id: Id, uid: UserId): Doc<R> -> bool
  {
    (d: Doc<R>) => Matches(d, id, uid)
  }

  /** The filter `{ userId }` as a test on one document. */
  function Owner<R>(uid: UserId): Doc<R> -> bool
  {
    (d: Doc<R>) => d.userId == uid
  }

  /** The documents that survive `deleteOne({ _id: id, userId })`. */
  function Unmatched<R>(id: Id, uid: UserId): Doc<R> -> bool
  {
    (d: Doc<R>) => !Matches(d, id, uid)
  }

  /** The filter `{ userId }`. */
  function OwnedBy<R>(docs: seq<Doc<R>>, uid: UserId): seq<Doc<R>>
  {
    Filter(docs, Owner(uid))
  }

  /** The order `sort({ createdAt: -1 })` produces. */
  predicate NewestFirst<R>(docs: seq<Doc<R>>)
  {
    forall i, j :: 0 <= i < j < |docs| ==> docs[i].createdAt >= docs[j].createdAt
  }

  /** The tail of a newest-first list is newest first. */
  lemma NewestFirstTail<R>(docs: seq<Doc<R>>)
    requires docs != [] && NewestFirst(docs)
    ensures NewestFirst(docs[1..])
  {
    var t := docs[1..];
    forall i, j | 0 <= i < j < |t|
      ensures t[i].createdAt >= t[j].createdAt
    {
      assert t[i] == docs[i + 1] && t[j] == docs[j + 1];
    }
  }

  /** A document at least as new as the head of a newest-first list can go
      in front of it. */
  lemma NewestFirstCons<R>(d: Doc<R>, docs: seq<Doc<R>>)
    requires NewestFirst(docs)
    requires docs == [] || d.createdAt >= docs[0].createdAt
    ensures NewestFirst([d] + docs)
  {
    var r := [d] + docs;
    forall i, j | 0 <= i < j < |r|
      ensures r[i].createdAt >= r[j].createdAt
    {
      assert r[j] == docs[j - 1];
      if i == 0 {
        assert docs[0].createdAt >= docs[j - 1].createdAt;
      } else {
        assert r[i] == docs[i - 1];
      }
    }
  }

  /** The step of `InsertByDate` that keeps the head: the head of a
      newest-first list, put back in front of the tail with `d` inserted. */
  lemma InsertBehindHead<R>(d: Doc<R>, docs: seq<Doc<R>>, rest: seq<Doc<R>>)
    requires docs != [] && NewestFirst(docs) && docs[0].createdAt >= d.createdAt
    requires NewestFirst(rest) && multiset(rest) == multiset(docs[1..]) + multiset{d}
    requires rest != [] && (rest[0] == d || (|docs| > 1 && rest[0] == docs[1]))
    ensures NewestFirst([docs[0]] + rest)
    ensures multiset([docs[0]] + rest) == multiset(docs) + multiset{d}
  {
    assert docs == [docs[0]] + docs[1..];
    NewestFirstCons(docs[0], rest);
  }

  /** Places `d` into a newest-first list, after the documents that are at
      least as new. */
  function InsertByDate<R>(d: Doc<R>, docs: seq<Doc<R>>): (r: seq<Doc<R>>)
    requires NewestFirst(docs)
    ensures NewestFirst(r)
    ensures multiset(r) == multiset(docs) + multiset{d}
    ensures r[0] == d || (docs != [] && r[0] == docs[0])
  {
    if docs == [] then [d]
    else if docs[0].createdAt >= d.createdAt then
      NewestFirstTail(docs);
      var rest := InsertByDate(d, docs[1..]);
      InsertBehindHead(d, docs, rest);
      [docs[0]] + rest
    else
      NewestFirstCons(d, docs);
      [d] + docs
  }

  /** `sort({ createdAt: -1 })`: a newest-first permutation. */
  function SortNewestFirst<R>(docs: seq<Doc<R>>): (r: seq<Doc<R>>)
    ensures NewestFirst(r)
    ensures multiset(r) == multiset(docs)
  {
    if docs == [] then []
    else
      assert docs == [docs[0]] + docs[1..];
      InsertByDate(docs[0], SortNewestFirst(docs[1..]))
  }

  /** `find({ userId }).sort({ createdAt: -1 })`: exactly the caller's
      documents, each as often as it is stored, newest first. */
  function FindSorted<R>(docs: seq<Doc<R>>, uid: UserId): (r: seq<Doc<R>>)
    ensures NewestFirst(r)
    ensures multiset(r) == multiset(OwnedBy(docs, uid))
    ensures forall i :: 0 <= i < |r| ==> r[i] in docs && r[i].userId == uid
    ensures forall i :: 0 <= i < |docs| && docs[i].userId == uid ==> docs[i] in r
  {
    var owned := OwnedBy(docs, uid);
    var r := SortNewestFirst(owned);
    forall i | 0 <= i < |r|
      ensures r[i] in docs && r[i].userId == uid
    {
      assert r[i] in multiset(owned);
      var j :| 0 <= j < |owned| && owned[j] == r[i];
    }
    forall i | 0 <= i < |docs| && docs[i].userId == uid
      ensures docs[i] in r
    {
      assert Owner(uid)(docs[i]);
      assert docs[i] in multiset(r);
    }
    r
  }

  /** `deleteOne({ _id: id, userId })`: the collection without the caller's
      document with that id. */
  function DeleteMatching<R>(docs: seq<Doc<R>>, id: Id, uid: UserId): seq<Doc<R>>
  {
    Filter(docs, Unmatched(id, uid))
  }

  /** `findOneAndUpdate({ _id: id, userId }, { $set: ... })`: the caller's
      document with that id gets `merge` applied to its fields. */
  function UpdateMatching<R>(docs: seq<Doc<R>>, id: Id, uid: UserId, merge: R -> R): seq<Doc<R>>
  {
    MapWhere(docs, Matching(id, uid), (d: Doc<R>) => d.(body := merge(d.body)))
  }

  /** The selector of `updateMany({ userId, ...sel })`. */
  function OwnedWhere<R>(uid: UserId, sel: R -> bool): Doc<R> -> bool
  {
    (d: Doc<R>) => d.userId == uid && sel(d.body)
  }

  /** `$set` applied to a document's fields. */
  function WithBody<R>(f: R -> R): Doc<R> -> Doc<R>
  {
    (d: Doc<R>) => d.(body := f(d.body))
  }

  /** `updateMany({ userId, ...sel }, { $set: ... })`: every document of the
      caller whose fields pass `sel` gets `f` applied to its fields; ids,
      owners and creation times are kept, and no other user's documents
      change. */
  function UpdateOwnedWhere<R>(docs: seq<Doc<R>>, uid: UserId, sel: R -> bool, f: R -> R): (r: seq<Doc<R>>)
    ensures |r| == |docs|
    ensures forall i :: 0 <= i < |docs| ==>
      r[i].id == docs[i].id && r[i].userId == docs[i].userId && r[i].createdAt == docs[i].createdAt
    ensures forall i :: 0 <= i < |docs| && docs[i].userId == uid && sel(docs[i].body) ==> r[i].body == f(docs[i].body)
    ensures forall i :: 0 <= i < |docs| && !(docs[i].userId == uid && sel(docs[i].body)) ==> r[i] == docs[i]
    ensures forall other :: other != uid ==> OwnedBy(r, other) == OwnedBy(docs, other)
  {
    OthersUntouched(docs, uid, sel, f);
    MapWhere(docs, OwnedWhere(uid, sel), WithBody(f))
  }

  /** Rewriting one owner's selected documents leaves every other owner's
      documents as they were. */
  lemma OthersUntouched<R>(docs: seq<Doc<R>>, uid: UserId, sel: R -> bool, f: R -> R)
    ensures forall other :: other != uid ==>
      OwnedBy(MapWhere(docs, OwnedWhere(uid, sel), WithBody(f)), other) == OwnedBy(docs, other)
  {
    forall other | other != uid
      ensures OwnedBy(MapWhere(docs, OwnedWhere(uid, sel), WithBody(f)), other) == OwnedBy(docs, other)
    {
      FilterMapWhere(docs, OwnedWhere(uid, sel), WithBody(f), Owner(other));
    }
  }

  /** The document `findOneAndUpdate` returns with `returnDocument: 'after'`. */
  function FirstMatch<R>(docs: seq<Doc<R>>, id: Id, uid: UserId): Option<Doc<R>>
  {
    SeqOps.Find(docs, Matching(id, uid))
  }

  /** Inserting a document adds it to its owner's listing and leaves every
      other user's listing exactly as it was. */
  lemma InsertThenFind<R>(docs: seq<Doc<R>>, d: Doc<R>, uid: UserId)
    ensures uid == d.userId ==> multiset(FindSorted(docs + [d], uid)) == multiset(FindSorted(docs, uid)) + multiset{d}
    ensures uid != d.userId ==> FindSorted(docs + [d], uid) == FindSorted(docs, uid)
  {
    FilterAppend(docs, [d], Owner(uid));
    assert [d][1..] == [];
    if uid == d.userId {
      assert OwnedBy(docs + [d], uid) == OwnedBy(docs, uid) + [d];
    } else {
      assert OwnedBy(docs + [d], uid) == OwnedBy(docs, uid);
    }
  }

  /** A delete never touches another user's documents: their listing is the
      same list afterwards. */
  lemma DeleteIsolation<R>(docs: seq<Doc<R>>, id: Id, uid: UserId, other: UserId)
    requires other != uid
    ensures OwnedBy(DeleteMatching(docs, id, uid), other) == OwnedBy(docs, other)
    ensures FindSorted(DeleteMatching(docs, id, uid), other) == FindSorted(docs, other)
  {
    FilterFilter(docs, Unmatched(id, uid), Owner(other));
  }

  /** A delete removes exactly the matching document: nothing when no
      document of the caller has that id, otherwise that one document and
      no other. */
  lemma DeleteRemovesExactly<R>(docs: seq<Doc<R>>, id: Id, uid: UserId)
    requires UniqueIds(docs)
    ensures FirstMatch(docs, id, uid).None? ==> DeleteMatching(docs, id, uid) == docs
    ensures FirstMatch(docs, id, uid).Some? ==>
      multiset(DeleteMatching(docs, id, uid)) == multiset(docs) - multiset{FirstMatch(docs, id, uid).value}
    ensures forall i :: 0 <= i < |DeleteMatching(docs, id, uid)| ==> !Matches(DeleteMatching(docs, id, uid)[i], id, uid)
  {
    var del := DeleteMatching(docs, id, uid);
    assert forall i :: 0 <= i < |del| ==> Unmatched(id, uid)(del[i]);
    var k := IndexOf(docs, Matching(id, uid));
    if k == |docs| {
      FilterAll(docs, Unmatched(id, uid));
    } else {
      DeleteAt(docs, id, uid, k);
      RemoveAtMultiset(docs, k);
    }
  }

  /** Cutting out position `k` takes one copy of that element out of the
      multiset. */
  lemma RemoveAtMultiset<T>(s: seq<T>, k: nat)
    requires k < |s|
    ensures multiset(s[..k] + s[k + 1..]) == multiset(s) - multiset{s[k]}
  {
    assert s == s[..k] + [s[k]] + s[k + 1..];
  }

  /** The one matching document at `k` is the only one a delete takes out. */
  lemma DeleteAt<R>(docs: seq<Doc<R>>, id: Id, uid: UserId, k: nat)
    requires UniqueIds(docs)
    requires k < |docs| && Matches(docs[k], id, uid)
    requires forall j :: 0 <= j < k ==> !Matches(docs[j], id, uid)
    ensures DeleteMatching(docs, id, uid) == docs[..k] + docs[k + 1..]
  {
    FilterDropsOne(docs, k, Unmatched(id, uid));
  }

  /** An update never touches another user's documents. */
  lemma UpdateIsolation<R>(docs: seq<Doc<R>>, id: Id, uid: UserId, merge: R -> R, other: UserId)
    requires other != uid
    ensures OwnedBy(UpdateMatching(docs, id, uid, merge), other) == OwnedBy(docs, other)
  {
    FilterMapWhere(docs, Matching(id, uid), (d: Doc<R>) => d.(body := merge(d.body)),
      Owner(other));
  }

  /** An update with no matching document changes nothing; with one, it
      changes only that document's fields (never an id, owner or creation
      time), so the id index still holds. */
  lemma UpdateChangesOnlyMatch<R>(docs: seq<Doc<R>>, id: Id, uid: UserId, merge: R -> R)
    requires UniqueIds(docs)
    ensures FirstMatch(docs, id, uid).None? ==> UpdateMatching(docs, id, uid, merge) == docs
    ensures UniqueIds(UpdateMatching(docs, id, uid, merge))
    ensures |UpdateMatching(docs, id, uid, merge)| == |docs|
    ensures forall i :: 0 <= i < |docs| ==>
      var n := UpdateMatching(docs, id, uid, merge)[i];
      && n.id == docs[i].id && n.userId == docs[i].userId && n.createdAt == docs[i].createdAt
      && (Matches(docs[i], id, uid) ==> n.body == merge(docs[i].body))
      && (!Matches(docs[i], id, uid) ==> n == docs[i])
  {
    var r := UpdateMatching(docs, id, uid, merge);
    if FirstMatch(docs, id, uid).None? {
      assert forall i :: 0 <= i < |docs| ==> r[i] == docs[i];
    }
  }

  /** One collection of the store. */
  class Collection<R> {
    var docs: seq<Doc<R>>

    ghost predicate Valid()
      reads this
    {
      UniqueIds(docs)
    }

    constructor ()
      ensures Valid() && docs == []
    {
      docs := [];
    }

    /** `find({ userId }).sort({ createdAt: -1 }).toArray()`; fails when the
        store is unreachable. */
    method FindByOwner(uid: UserId, storeUp: bool) returns (r: Result<seq<Doc<R>>>)
      ensures storeUp ==> r == Success(FindSorted(docs, uid))
      ensures !storeUp ==> r.Failure?
    {
      if !storeUp {
        return Failure("store unavailable");
      }
      r := Success(FindSorted(docs, uid));
    }

    /** `insertOne(d)`: appends the document, or fails (duplicate `_id`, or
        the store is unreachable) and changes nothing. */
    method InsertOne(d: Doc<R>, storeUp: bool) returns (r: Result<Id>)
      requires Valid()
      modifies this
      ensures Valid()
      ensures r.Success? <==> storeUp && !IdInUse(old(docs), d.id)
      ensures r.Success? ==> r.value == d.id && docs == old(docs) + [d]
      ensures r.Failure? ==> docs == old(docs)
    {
      if !storeUp || IdInUse(docs, d.id) {
        return Failure("insert failed");
      }
      docs := docs + [d];
      r := Success(d.id);
    }

    /** `findOneAndUpdate({ _id: id, userId }, { $set }, { returnDocument:
        'after' })`: the updated document, or nothing when none matches. */
    method FindOneAndUpdate(id: Id, uid: UserId, merge: R -> R, storeUp: bool) returns (r: Result<Option<Doc<R>>>)
      requires Valid()
      modifies this
      ensures Valid()
      ensures storeUp ==> docs == UpdateMatching(old(docs), id, uid, merge) && r == Success(FirstMatch(docs, id, uid))
      ensures !storeUp ==> docs == old(docs) && r.Failure?
    {
      if !storeUp {
        return Failure("update failed");
      }
      UpdateChangesOnlyMatch(docs, id, uid, merge);
      docs := UpdateMatching(docs, id, uid, merge);
      r := Success(FirstMatch(docs, id, uid));
    }

    /** `deleteOne({ _id: id, userId })`, answering the `deletedCount`. */
    method DeleteOne(id: Id, uid: UserId, storeUp: bool) returns (r: Result<nat>)
      requires Valid()
      modifies this
      ensures Valid()
      ensures storeUp ==> docs == DeleteMatching(old(docs), id, uid)
      ensures storeUp ==> r == Success(if FirstMatch(old(docs), id, uid).Some? then 1 else 0)
      ensures !storeUp ==> docs == old(docs) && r.Failure?
    {
      if !storeUp {
        return Failure("delete failed");
      }
      var count := if FirstMatch(docs, id, uid).Some? then 1 else 0;
      DeleteRemovesExactly(docs, id, uid);
      DeleteKeepsUnique(docs, id, uid);
      docs := DeleteMatching(docs, id, uid);
      r := Success(count);
    }

    /** `updateMany({ userId, ...sel }, { $set })`. */
    method UpdateMany(uid: UserId, sel: R -> bool, f: R -> R, storeUp: bool) returns (r: Result<()>)
      requires Valid()
      modifies this
      ensures Valid()
      ensures storeUp ==> docs == UpdateOwnedWhere(old(docs), uid, sel, f) && r.Success?
      ensures !storeUp ==> docs == old(docs) && r.Failure?
    {
      if !storeUp {
        return Failure("update failed");
      }
      docs := UpdateOwnedWhere(docs, uid, sel, f);
      r := Success(());
    }
  }

  /** Removing documents keeps the id index. */
  lemma DeleteKeepsUnique<R>(docs: seq<Doc<R>>, id: Id, uid: UserId)
    requires UniqueIds(docs)
    ensures UniqueIds(DeleteMatching(docs, id, uid))
  {
    FilterKeepsUnique(docs, Unmatched(id, uid));
  }

  /** The tail of a list with unique ids has unique ids, none of them the
      head's. */
  lemma UniqueTail<R>(docs: seq<Doc<R>>)
    requires docs != [] && UniqueIds(docs)
    ensures UniqueIds(docs[1..])
    ensures forall i :: 0 <= i < |docs[1..]| ==> docs[1..][i].id != docs[0].id
  {
    var t := docs[1..];
    forall i, j | 0 <= i < j < |t|
      ensures t[i].id != t[j].id
    {
      assert t[i] == docs[i + 1] && t[j] == docs[j + 1];
    }
    forall i | 0 <= i < |t|
      ensures t[i].id != docs[0].id
    {
      assert t[i] == docs[i + 1];
    }
  }

  /** A document whose id is new can go in front of a list with unique
      ids. */
  lemma UniqueCons<R>(d: Doc<R>, docs: seq<Doc<R>>)
    requires UniqueIds(docs)
    requires forall i :: 0 <= i < |docs| ==> docs[i].id != d.id
    ensures UniqueIds([d] + docs)
  {
    var r := [d] + docs;
    forall i, j | 0 <= i < j < |r|
      ensures r[i].id != r[j].id
    {
      assert r[j] == docs[j - 1];
      if i > 0 {
        assert r[i] == docs[i - 1];
      }
    }
  }

  lemma {:induction false} FilterKeepsUnique<R>(docs: seq<Doc<R>>, keep: Doc<R> -> bool)
    requires UniqueIds(docs)
    ensures UniqueIds(Filter(docs, keep))
  {
    if docs != [] {
      var t := docs[1..];
      UniqueTail(docs);
      FilterKeepsUnique(t, keep);
      var rest := Filter(t, keep);
      if keep(docs[0]) {
        forall i | 0 <= i < |rest|
          ensures rest[i].id != docs[0].id
        {
          var k :| 0 <= k < |t| && t[k] == rest[i];
        }
        UniqueCons(docs[0], rest);
        assert Filter(docs, keep) == [docs[0]] + rest;
      } else {
        assert Filter(docs, keep) == rest;
      }
    }
  }
}
