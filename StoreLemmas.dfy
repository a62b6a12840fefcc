/**
 * Properties of the bug upsert and of closure by absence: ids stay unique,
 * flags are never cleared, and what the collection holds for each fetched id
 * after an upsert.
 */
module StoreLemmas {
  import opened Wrappers
  import opened BugModel
  import opened MongoStore

  /** `s[j]` is the first record with its id, the one every lookup by id finds. */
  predicate IsFirst(s: seq<Bug>, j: int)
    requires 0 <= j < |s|
  {
    forall k :: 0 <= k < j ==> s[k].id != s[j].id
  }

  /** The last fetched bug with this id: the one whose fields a repeated id leaves behind. */
  function LastWithId(xs: seq<Bug>, id: int): (b: Bug)
    requires id in Ids(xs)
    ensures b in xs && b.id == id
    ensures exists k :: 0 <= k < |xs| && xs[k] == b && forall m :: k < m < |xs| ==> xs[m].id != id
    decreases |xs|
  {
    var n := |xs| - 1;
    if xs[n].id == id then xs[n]
    else
      assert Ids(xs[..n]) == Ids(xs)[..n];
      var b := LastWithId(xs[..n], id);
      ghost var k :| 0 <= k < n && xs[..n][k] == b && forall m :: k < m < n ==> xs[..n][m].id != id;
      assert xs[k] == b && forall m :: k < m < |xs| ==> xs[m].id != id;
      b
  }

  /** Stored records keep their position and id, flags are never cleared, appended records have new ids. */
  ghost predicate StoredKept(bugs: seq<Bug>, r: seq<Bug>) {
    && |bugs| <= |r|
    && (forall j :: 0 <= j < |bugs| ==> r[j].id == bugs[j].id)
    && (forall j :: 0 <= j < |bugs| && bugs[j].isNotified ==> r[j].isNotified)
    && (forall j :: |bugs| <= j < |r| ==> r[j].id !in Ids(bugs))
  }

  /** Every fetched id is stored. */
  ghost predicate FetchedStored(xs: seq<Bug>, r: seq<Bug>) {
    forall k :: 0 <= k < |xs| ==> xs[k].id in Ids(r)
  }

  /** The first record of each fetched id carries the fields of the last fetched bug with that id. */
  ghost predicate FetchedFields(xs: seq<Bug>, r: seq<Bug>) {
    forall j :: 0 <= j < |r| && IsFirst(r, j) && r[j].id in Ids(xs) ==>
      Content(r[j]) == Content(LastWithId(xs, r[j].id))
  }

  /** Every record that is not the first of a fetched id is the old record at its position. */
  ghost predicate RestUnchanged(bugs: seq<Bug>, xs: seq<Bug>, r: seq<Bug>) {
    forall j :: 0 <= j < |r| && !(IsFirst(r, j) && r[j].id in Ids(xs)) ==> j < |bugs| && r[j] == bugs[j]
  }

  /**
   * What an upsert of `xs` into `bugs` produced as `r`:
   * stored records keep their position and id, flags are never cleared,
   * records are appended only for ids not stored before, every fetched id is
   * stored afterwards, the first record for a fetched id carries the fields
   * of the last fetched bug with that id, and every other record is the old one.
   */
  ghost predicate UpsertShape(bugs: seq<Bug>, xs: seq<Bug>, r: seq<Bug>) {
    StoredKept(bugs, r) && FetchedStored(xs, r) && FetchedFields(xs, r) && RestUnchanged(bugs, xs, r)
  }

  lemma LastWithIdAppend(xs0: seq<Bug>, x: Bug, id: int)
    requires id in Ids(xs0 + [x])
    ensures id == x.id ==> LastWithId(xs0 + [x], id) == x
    ensures id != x.id ==> id in Ids(xs0) && LastWithId(xs0 + [x], id) == LastWithId(xs0, id)
  {
    var xs := xs0 + [x];
    assert xs[..|xs| - 1] == xs0;
    assert Ids(xs) == Ids(xs0) + [x.id];
  }

  /** The fetched ids after one more fetched bug: the old ones and the new bug's. */
  lemma IdsAppend(xs0: seq<Bug>, x: Bug)
    ensures forall id :: id in Ids(xs0 + [x]) <==> id in Ids(xs0) || id == x.id
  {
    assert Ids(xs0 + [x]) == Ids(xs0) + [x.id];
  }

  /** Two collections with the same ids at every position agree on which records come first. */
  lemma SameIdsSameFirst(r0: seq<Bug>, r: seq<Bug>)
    requires |r| == |r0| && forall k :: 0 <= k < |r| ==> r[k].id == r0[k].id
    ensures forall j :: 0 <= j < |r| ==> IsFirst(r, j) == IsFirst(r0, j)
    ensures Ids(r) == Ids(r0)
  {
  }

  /** One more fetched bug keeps the shape. */
  lemma UpsertShapeStep(bugs: seq<Bug>, xs: seq<Bug>, r0: seq<Bug>)
    requires xs != [] && UpsertShape(bugs, xs[..|xs| - 1], r0)
    ensures UpsertShape(bugs, xs, UpsertOne(r0, xs[|xs| - 1]))
  {
    var xs0, x := xs[..|xs| - 1], xs[|xs| - 1];
    assert xs0 + [x] == xs;
    match FindById(r0, x.id)
    case None => UpsertShapeAppend(bugs, xs0, x, r0);
    case Some(i) => UpsertShapeReplace(bugs, xs0, x, r0, i);
  }

  /** The step that appends a bug whose id is not stored yet. */
  lemma UpsertShapeAppend(bugs: seq<Bug>, xs0: seq<Bug>, x: Bug, r0: seq<Bug>)
    requires UpsertShape(bugs, xs0, r0)
    requires x.id !in Ids(r0)
    ensures UpsertShape(bugs, xs0 + [x], r0 + [x])
  {
    var r := r0 + [x];
    AppendFirsts(r0, x);
    AppendKeepsStored(bugs, r0, x);
    AppendStoresFetched(xs0, r0, x);
    AppendFetchedFields(xs0, r0, x);
    AppendRestUnchanged(bugs, xs0, r0, x);
  }

  /** Appending a new id: the old records keep being first or not, and the new one is first. */
  lemma AppendFirsts(r0: seq<Bug>, x: Bug)
    requires x.id !in Ids(r0)
    ensures forall j :: 0 <= j < |r0| ==> IsFirst(r0 + [x], j) == IsFirst(r0, j) && r0[j].id != x.id
    ensures IsFirst(r0 + [x], |r0|)
  {
    var r := r0 + [x];
    forall j | 0 <= j < |r0|
      ensures IsFirst(r, j) == IsFirst(r0, j) && r0[j].id != x.id
    {
      assert Ids(r0)[j] == r0[j].id;
      assert forall k :: 0 <= k < j ==> r[k] == r0[k];
    }
  }

  lemma AppendKeepsStored(bugs: seq<Bug>, r0: seq<Bug>, x: Bug)
    requires StoredKept(bugs, r0) && x.id !in Ids(r0)
    ensures StoredKept(bugs, r0 + [x])
  {
    forall m | 0 <= m < |bugs| ensures bugs[m].id != x.id {
      assert Ids(r0)[m] == r0[m].id;
    }
  }

  lemma AppendStoresFetched(xs0: seq<Bug>, r0: seq<Bug>, x: Bug)
    requires FetchedStored(xs0, r0)
    ensures FetchedStored(xs0 + [x], r0 + [x])
  {
    var xs, r := xs0 + [x], r0 + [x];
    assert Ids(r) == Ids(r0) + [x.id];
    forall k | 0 <= k < |xs| ensures xs[k].id in Ids(r) {
      if k < |xs0| {
        assert xs[k] == xs0[k];
      }
    }
  }

  lemma AppendFetchedFields(xs0: seq<Bug>, r0: seq<Bug>, x: Bug)
    requires FetchedFields(xs0, r0)
    requires forall j :: 0 <= j < |r0| ==> IsFirst(r0 + [x], j) == IsFirst(r0, j) && r0[j].id != x.id
    ensures FetchedFields(xs0 + [x], r0 + [x])
  {
    var xs, r := xs0 + [x], r0 + [x];
    IdsAppend(xs0, x);
    forall j | 0 <= j < |r| && IsFirst(r, j) && r[j].id in Ids(xs)
      ensures Content(r[j]) == Content(LastWithId(xs, r[j].id))
    {
      LastWithIdAppend(xs0, x, r[j].id);
    }
  }

  lemma AppendRestUnchanged(bugs: seq<Bug>, xs0: seq<Bug>, r0: seq<Bug>, x: Bug)
    requires RestUnchanged(bugs, xs0, r0)
    requires forall j :: 0 <= j < |r0| ==> IsFirst(r0 + [x], j) == IsFirst(r0, j) && r0[j].id != x.id
    requires IsFirst(r0 + [x], |r0|)
    ensures RestUnchanged(bugs, xs0 + [x], r0 + [x])
  {
    var xs, r := xs0 + [x], r0 + [x];
    IdsAppend(xs0, x);
    forall j | 0 <= j < |r| && !(IsFirst(r, j) && r[j].id in Ids(xs))
      ensures j < |bugs| && r[j] == bugs[j]
    {
      assert j < |r0| && r[j] == r0[j];
    }
  }

  /** The step that replaces the first stored record `r0[i]` with the id of `x`. */
  lemma UpsertShapeReplace(bugs: seq<Bug>, xs0: seq<Bug>, x: Bug, r0: seq<Bug>, i: nat)
    requires UpsertShape(bugs, xs0, r0)
    requires FindById(r0, x.id) == Some(i)
    ensures UpsertShape(bugs, xs0 + [x], r0[i := ReplaceStored(r0[i], x)])
  {
    var r := r0[i := ReplaceStored(r0[i], x)];
    SameIdsSameFirst(r0, r);
    ReplaceKeepsStored(bugs, r0, x, i);
    assert FetchedStored(xs0 + [x], r) by {
      AppendStoresFetched(xs0, r0, x);
      assert Ids(r0 + [x]) == Ids(r0) + [x.id];
    }
    ReplaceFetchedFields(xs0, r0, x, i);
    ReplaceRestUnchanged(bugs, xs0, r0, x, i);
  }

  lemma ReplaceKeepsStored(bugs: seq<Bug>, r0: seq<Bug>, x: Bug, i: nat)
    requires StoredKept(bugs, r0) && i < |r0| && r0[i].id == x.id
    ensures StoredKept(bugs, r0[i := ReplaceStored(r0[i], x)])
  {
    SameIdsSameFirst(r0, r0[i := ReplaceStored(r0[i], x)]);
  }

  lemma ReplaceFetchedFields(xs0: seq<Bug>, r0: seq<Bug>, x: Bug, i: nat)
    requires FetchedFields(xs0, r0)
    requires FindById(r0, x.id) == Some(i)
    ensures FetchedFields(xs0 + [x], r0[i := ReplaceStored(r0[i], x)])
  {
    var xs, r := xs0 + [x], r0[i := ReplaceStored(r0[i], x)];
    SameIdsSameFirst(r0, r);
    IdsAppend(xs0, x);
    forall j | 0 <= j < |r| && IsFirst(r, j) && r[j].id in Ids(xs)
      ensures Content(r[j]) == Content(LastWithId(xs, r[j].id))
    {
      LastWithIdAppend(xs0, x, r[j].id);
      if j != i {
        assert r[j] == r0[j];
        assert r[i].id == r[j].id ==> i < j;
      }
    }
  }

  lemma ReplaceRestUnchanged(bugs: seq<Bug>, xs0: seq<Bug>, r0: seq<Bug>, x: Bug, i: nat)
    requires RestUnchanged(bugs, xs0, r0)
    requires FindById(r0, x.id) == Some(i)
    ensures RestUnchanged(bugs, xs0 + [x], r0[i := ReplaceStored(r0[i], x)])
  {
    var xs, r := xs0 + [x], r0[i := ReplaceStored(r0[i], x)];
    SameIdsSameFirst(r0, r);
    IdsAppend(xs0, x);
    forall j | 0 <= j < |r| && !(IsFirst(r, j) && r[j].id in Ids(xs))
      ensures j < |bugs| && r[j] == bugs[j]
    {
      assert j != i;
      assert r[j] == r0[j];
    }
  }

  /** Every upsert has the shape described by `UpsertShape`. */
  lemma {:induction false} UpsertAllShape(bugs: seq<Bug>, xs: seq<Bug>)
    ensures UpsertShape(bugs, xs, UpsertAll(bugs, xs))
    decreases |xs|
  {
    if xs == [] {
      assert Ids(xs) == [];
    } else {
      UpsertAllShape(bugs, xs[..|xs| - 1]);
      UpsertShapeStep(bugs, xs, UpsertAll(bugs, xs[..|xs| - 1]));
    }
  }

  /**
   * When ids are unique, a fetched bug whose id is stored at `i` replaces that
   * record: the fetched fields, the stored document key, and the carried flag.
   */
  lemma UpsertReplacesStoredRecord(bugs: seq<Bug>, fetched: Bug, i: nat)
    requires Distinct(Ids(bugs))
    requires i < |bugs| && bugs[i].id == fetched.id
    ensures UpsertOne(bugs, fetched) == bugs[i := ReplaceStored(bugs[i], fetched)]
    ensures UpsertOne(bugs, fetched)[i].isNotified ==
              ((bugs[i].state != fetched.state && bugs[i].state.Rank() > InProgress.Rank()
                && fetched.state.Rank() <= InProgress.Rank()) || bugs[i].isNotified)
  {
    assert Ids(bugs)[i] == fetched.id;
    var k := FindById(bugs, fetched.id).value;
    assert Ids(bugs)[k] == fetched.id;
  }

  /** When stored ids are unique they stay unique, even if the fetched list repeats an id. */
  lemma UpsertKeepsIdsUnique(bugs: seq<Bug>, xs: seq<Bug>)
    requires Distinct(Ids(bugs))
    ensures Distinct(Ids(UpsertAll(bugs, xs)))
  {
    var r := UpsertAll(bugs, xs);
    UpsertAllShape(bugs, xs);
    forall i, j | 0 <= i < j < |r| ensures Ids(r)[i] != Ids(r)[j] {
      if j < |bugs| {
        assert Ids(bugs)[i] != Ids(bugs)[j];
      } else {
        assert IsFirst(r, j);
      }
    }
  }

  /** The upsert never clears a stored flag, and stored records keep their position and id. */
  lemma UpsertNeverClearsNotified(bugs: seq<Bug>, xs: seq<Bug>)
    ensures |UpsertAll(bugs, xs)| >= |bugs|
    ensures forall j :: 0 <= j < |bugs| ==>
              UpsertAll(bugs, xs)[j].id == bugs[j].id
              && (bugs[j].isNotified ==> UpsertAll(bugs, xs)[j].isNotified)
  {
    UpsertAllShape(bugs, xs);
  }

  /** After the upsert every fetched id is stored. */
  lemma UpsertStoresEveryFetchedId(bugs: seq<Bug>, xs: seq<Bug>)
    ensures forall k :: 0 <= k < |xs| ==> xs[k].id in Ids(UpsertAll(bugs, xs))
  {
    UpsertAllShape(bugs, xs);
  }

  /** `bugs` already holds, as first record for each fetched id, a record with that bug's fields. */
  ghost predicate Reflects(bugs: seq<Bug>, xs: seq<Bug>) {
    forall k :: 0 <= k < |xs| ==>
      match FindById(bugs, xs[k].id)
      case Some(j) => Content(bugs[j]) == Content(xs[k])
      case None => false
  }

  /** Upserting bugs the collection already reflects changes nothing, flags included. */
  lemma {:induction false} UpsertOfReflectedIsIdentity(bugs: seq<Bug>, xs: seq<Bug>)
    requires Reflects(bugs, xs)
    ensures UpsertAll(bugs, xs) == bugs
    decreases |xs|
  {
    if xs != [] {
      var n := |xs| - 1;
      assert Reflects(bugs, xs[..n]) by {
        forall k | 0 <= k < n ensures xs[..n][k] == xs[k] { }
      }
      UpsertOfReflectedIsIdentity(bugs, xs[..n]);
      var x := xs[n];
      var j := FindById(bugs, x.id).value;
      assert Content(bugs[j]) == Content(x);
      assert ReplaceStored(bugs[j], x) == bugs[j];
    }
  }

  /** Closing the same absent ids twice is closing them once. */
  lemma CloseAbsentIdempotent(bugs: seq<Bug>, keepIds: seq<int>)
    ensures CloseAbsent(CloseAbsent(bugs, keepIds), keepIds) == CloseAbsent(bugs, keepIds)
  {
  }

  /** The notification lookup gives the same answer whatever id it is asked for. */
  lemma NotificationLookupIgnoresId(notifications: seq<Notification>, a: Guid, b: Guid)
    ensures GetNotificationById(notifications, a) == GetNotificationById(notifications, b)
  {
  }

  /**
   * Asking for the second of two unsent notifications yields the first one,
   * which may belong to another user and list other bugs.
   */
  lemma NotificationLookupReturnsFirstUnsent(first: Notification, second: Notification)
    requires !first.isSent && !second.isSent
    ensures GetNotificationById([first, second], second.id) == Some(first)
  {
    var ns := [first, second];
    assert SentFlags(ns)[0] == false;
  }
}
