/**
 * The document store: three collections (users, bugs, notifications) and the
 * operations the bot performs on them. Queries are functions over the
 * collections; the updates are methods of `MongoDbContext`, each specified
 * by a function on the collection it rewrites.
 *
 * Every `Find(...).FirstOrDefault()`, `UpdateOne` and `ReplaceOne` acts on the
 * first matching document in collection order, so all of them are modelled
 * with `IndexOf`, the first match.
 */
module MongoStore {
  import opened Wrappers
  import opened BugModel
  import opened Sequences

  // ---------------------------------------------------------------- bugs

  /** The position of the first stored bug with this id (the lookup of the bug upsert). */
  function FindById(bugs: seq<Bug>, id: int): (r: Option<nat>)
    ensures r.None? <==> id !in Ids(bugs)
    ensures r.Some? ==> r.value < |bugs| && bugs[r.value].id == id
    ensures r.Some? ==> forall k :: 0 <= k < r.value ==> bugs[k].id != id
  {
    var r := IndexOf(Ids(bugs), id);
    assert r.Some? ==> forall k :: 0 <= k < r.value ==> Ids(bugs)[..r.value][k] == bugs[k].id;
    r
  }

  /**
   * The `IsNotified` value a replaced record gets: a move from above
   * `InProgress` down to `InProgress` or `New` counts as already notified,
   * and a flag once set stays set.
   */
  function CarriedFlag(stored: Bug, fetched: Bug): (r: bool)
    ensures stored.isNotified ==> r
    ensures r <==> stored.isNotified || (stored.state.Rank() >= 2 && fetched.state.Rank() <= 1)
  {
    (stored.state != fetched.state && stored.state.Rank() > InProgress.Rank()
       && fetched.state.AtMost(InProgress))
    || stored.isNotified
  }

  /**
   * The record that replaces a stored bug: the fetched one, keeping the stored
   * document key. Its flag is set exactly when it was set before or the state
   * regressed from past `InProgress` to `New`/`InProgress` (the inequality
   * test of the source is implied by the two rank tests).
   */
  function ReplaceStored(stored: Bug, fetched: Bug): (r: Bug)
    ensures Content(r) == Content(fetched)
    ensures r.objectId == stored.objectId
    ensures r.isNotified <==> stored.isNotified || (stored.state.Rank() >= 2 && fetched.state.Rank() <= 1)
  {
    fetched.(objectId := stored.objectId, isNotified := CarriedFlag(stored, fetched))
  }

  /** One iteration of the bug upsert: insert the fetched bug, or replace the first record with its id. */
  function UpsertOne(bugs: seq<Bug>, fetched: Bug): (r: seq<Bug>)
    ensures fetched.id !in Ids(bugs) ==> r == bugs + [fetched]
    ensures fetched.id in Ids(bugs) ==> |r| == |bugs| && Ids(r) == Ids(bugs)
  {
    match FindById(bugs, fetched.id)
    case None => bugs + [fetched]
    case Some(i) =>
      var r := bugs[i := ReplaceStored(bugs[i], fetched)];
      assert Ids(r) == Ids(bugs);
      r
  }

  /** The bug collection after upserting the fetched bugs one after another, in list order. */
  function UpsertAll(bugs: seq<Bug>, fetched: seq<Bug>): (r: seq<Bug>)
    ensures Ids(bugs) <= Ids(r)
    ensures |r| <= |bugs| + |fetched|
    decreases |fetched|
  {
    if fetched == [] then bugs
    else
      var prev := UpsertAll(bugs, fetched[..|fetched| - 1]);
      var x := fetched[|fetched| - 1];
      var r := UpsertOne(prev, x);
      assert Ids(prev) <= Ids(r) by {
        if x.id !in Ids(prev) {
          assert Ids(r) == Ids(prev) + [x.id];
        }
      }
      r
  }

  /**
   * Closure by absence: every record whose id is not in `keepIds`, whoever owns
   * it, becomes `Done` and notified; every other record is left as it is.
   */
  function CloseAbsent(bugs: seq<Bug>, keepIds: seq<int>): (r: seq<Bug>)
    ensures |r| == |bugs| && Ids(r) == Ids(bugs)
    ensures forall i :: 0 <= i < |bugs| && bugs[i].id in keepIds ==> r[i] == bugs[i]
    ensures forall i :: 0 <= i < |bugs| && bugs[i].id !in keepIds ==>
              r[i].state == Done && r[i].isNotified && r[i].(state := bugs[i].state, isNotified := bugs[i].isNotified) == bugs[i]
  {
    seq(|bugs|, i requires 0 <= i < |bugs| =>
      if bugs[i].id in keepIds then bugs[i] else bugs[i].(state := Done, isNotified := true))
  }

  /** Every record whose id is listed gets its flag set, whoever owns it; nothing else changes. */
  function MarkNotified(bugs: seq<Bug>, bugIds: seq<int>): (r: seq<Bug>)
    ensures |r| == |bugs| && Ids(r) == Ids(bugs)
    ensures forall i :: 0 <= i < |bugs| ==>
              r[i].isNotified == (bugs[i].isNotified || bugs[i].id in bugIds)
              && r[i].(isNotified := bugs[i].isNotified) == bugs[i]
  {
    seq(|bugs|, i requires 0 <= i < |bugs| =>
      if bugs[i].id in bugIds then bugs[i].(isNotified := true) else bugs[i])
  }

  // ---------------------------------------------------------------- queries

  /** Non-decreasing by state rank. */
  predicate SortedByState(s: seq<Bug>) {
    forall i, j :: 0 <= i < j < |s| ==> s[i].state.Rank() <= s[j].state.Rank()
  }

  /** Inserts `b` into a sorted sequence, before the first element whose rank is at least `b`'s. */
  function InsertByState(b: Bug, s: seq<Bug>): (r: seq<Bug>)
    requires SortedByState(s)
    ensures SortedByState(r)
    ensures |r| == |s| + 1 && (r[0] == b || (s != [] && r[0] == s[0]))
  {
    if s == [] || b.state.Rank() <= s[0].state.Rank() then
      ConsSorted(b, s);
      [b] + s
    else
      var tail := InsertByState(b, s[1..]);
      assert tail[0] == b || tail[0] == s[1];
      ConsSorted(s[0], tail);
      [s[0]] + tail
  }

  /** Inserting adds `b` and loses nothing. */
  lemma {:induction false} InsertByStatePermutes(b: Bug, s: seq<Bug>)
    requires SortedByState(s)
    ensures multiset(InsertByState(b, s)) == multiset(s) + multiset{b}
    decreases |s|
  {
    if s != [] && b.state.Rank() > s[0].state.Rank() {
      InsertByStatePermutes(b, s[1..]);
      assert s == [s[0]] + s[1..];
    }
  }

  /** A bug ranked at most the head of a sorted sequence can go in front of it. */
  lemma ConsSorted(x: Bug, t: seq<Bug>)
    requires SortedByState(t) && (t != [] ==> x.state.Rank() <= t[0].state.Rank())
    ensures SortedByState([x] + t)
  {
    var r := [x] + t;
    forall i, j | 0 <= i < j < |r| ensures r[i].state.Rank() <= r[j].state.Rank() {
      assert r[j] == t[j - 1];
      if i > 0 {
        assert r[i] == t[i - 1];
      } else {
        assert t[0].state.Rank() <= t[j - 1].state.Rank();
      }
    }
  }

  /** The ascending sort on `State`: sorted, and a permutation of its input. */
  function SortByState(s: seq<Bug>): (r: seq<Bug>)
    ensures SortedByState(r)
    ensures multiset(r) == multiset(s)
  {
    if s == [] then []
    else
      assert s == [s[0]] + s[1..];
      InsertByStatePermutes(s[0], SortByState(s[1..]));
      InsertByState(s[0], SortByState(s[1..]))
  }

  /** All of a user's bugs with state at most `Done` (that is, all of them), by ascending state. */
  function GetUserOpenBugs(bugs: seq<Bug>, telegramUserId: int): (r: seq<Bug>)
    ensures SortedByState(r)
    ensures forall b :: multiset(r)[b] == if OwnedBy(b, telegramUserId) then multiset(bugs)[b] else 0
  {
    SortByState(Filter(bugs, (b: Bug) => OwnedBy(b, telegramUserId) && b.state.AtMost(Done)))
  }

  /** A user's bugs among the listed ids, by ascending state; never another user's bug. */
  function GetUserBugsByIds(bugs: seq<Bug>, telegramUserId: int, bugIds: seq<int>): (r: seq<Bug>)
    ensures SortedByState(r)
    ensures forall b :: multiset(r)[b] == if OwnedBy(b, telegramUserId) && b.id in bugIds then multiset(bugs)[b] else 0
    ensures forall k :: 0 <= k < |r| ==> OwnedBy(r[k], telegramUserId) && r[k].id in bugIds
  {
    SortByState(Filter(bugs, (b: Bug) => OwnedBy(b, telegramUserId) && b.id in bugIds))
  }

  /** A bug the dispatch loop still has to announce to its owner: actionable and not yet notified. */
  predicate Actionable(b: Bug, telegramUserId: int) {
    OwnedBy(b, telegramUserId) && b.state.AtMost(InProgress) && !b.isNotified
  }

  /** A user's actionable un-notified bugs, by ascending state. */
  function GetUserNotNotifiedBugs(bugs: seq<Bug>, telegramUserId: int): (r: seq<Bug>)
    ensures SortedByState(r)
    ensures forall b :: multiset(r)[b] == if Actionable(b, telegramUserId) then multiset(bugs)[b] else 0
    ensures r == [] <==> forall i :: 0 <= i < |bugs| ==> !Actionable(bugs[i], telegramUserId)
  {
    var r := SortByState(Filter(bugs, (b: Bug) => Actionable(b, telegramUserId)));
    forall i | 0 <= i < |bugs| && Actionable(bugs[i], telegramUserId)
      ensures bugs[i] in r
    {
      assert bugs[i] in multiset(bugs);
      assert multiset(r)[bugs[i]] > 0;
    }
    assert r != [] ==> r[0] in multiset(r);
    r
  }

  // ---------------------------------------------------------------- notifications

  /** The send flags of a collection of notifications, in order. */
  function SentFlags(notifications: seq<Notification>): (r: seq<bool>)
    ensures |r| == |notifications|
    ensures forall i :: 0 <= i < |notifications| ==> r[i] == notifications[i].isSent
  {
    seq(|notifications|, i requires 0 <= i < |notifications| => notifications[i].isSent)
  }

  /**
   * The lookup behind the callback button. The filter is on `IsSent == false`
   * only: the requested id is not used, and the first unsent notification,
   * of any user, comes back.
   */
  function GetNotificationById(notifications: seq<Notification>, notificationId: Guid): (r: Option<Notification>)
    ensures r.None? <==> forall i :: 0 <= i < |notifications| ==> notifications[i].isSent
    ensures r.Some? ==> exists i :: 0 <= i < |notifications| && notifications[i] == r.value
                                   && !r.value.isSent
                                   && forall k :: 0 <= k < i ==> notifications[k].isSent
  {
    match IndexOf(SentFlags(notifications), false)
    case None => None
    case Some(i) =>
      assert forall k :: 0 <= k < i ==> SentFlags(notifications)[..i][k] == notifications[k].isSent;
      Some(notifications[i])
  }

  /** Sets the send flag of the first notification with the given id; nothing else changes. */
  function SetSent(notifications: seq<Notification>, notificationId: Guid, isSent: bool): (r: seq<Notification>)
    ensures |r| == |notifications|
    ensures notificationId !in NotificationIds(notifications) ==> r == notifications
    ensures forall i :: 0 <= i < |notifications| ==> r[i].(isSent := notifications[i].isSent) == notifications[i]
    ensures forall i :: 0 <= i < |notifications| && r[i] != notifications[i] ==>
              notifications[i].id == notificationId && r[i].isSent == isSent
    ensures match IndexOf(NotificationIds(notifications), notificationId)
            case Some(i) => r[i].isSent == isSent && forall k :: 0 <= k < |r| && k != i ==> r[k] == notifications[k]
            case None => r == notifications
  {
    match IndexOf(NotificationIds(notifications), notificationId)
    case None => notifications
    case Some(i) => notifications[i := notifications[i].(isSent := isSent)]
  }

  // ---------------------------------------------------------------- users

  /**
   * The user upsert: a user with a new messenger id is appended; otherwise only
   * the login of the first record with that id changes.
   */
  function UpsertUser(users: seq<User>, user: User): (r: seq<User>)
    ensures user.telegramUserId !in UserIds(users) ==> r == users + [user]
    ensures user.telegramUserId in UserIds(users) ==>
              |r| == |users| && UserIds(r) == UserIds(users)
              && forall i :: 0 <= i < |users| ==> r[i].(tpUserLogin := users[i].tpUserLogin) == users[i]
    ensures forall i :: 0 <= i < |users| && r[i] != users[i] ==>
              users[i].telegramUserId == user.telegramUserId && user.telegramUserId !in UserIds(users)[..i]
    ensures match IndexOf(UserIds(r), user.telegramUserId)
            case Some(i) => r[i].tpUserLogin == user.tpUserLogin
            case None => false
  {
    match IndexOf(UserIds(users), user.telegramUserId)
    case None =>
      assert UserIds(users + [user]) == UserIds(users) + [user.telegramUserId];
      users + [user]
    case Some(i) =>
      var r := users[i := users[i].(tpUserLogin := user.tpUserLogin)];
      assert UserIds(r) == UserIds(users);
      r
  }

  // ---------------------------------------------------------------- the store

  /** The store: its three collections, each in insertion order. */
  class MongoDbContext {
    var users: seq<User>
    var bugs: seq<Bug>
    var notifications: seq<Notification>

    constructor ()
      ensures users == [] && bugs == [] && notifications == []
    {
      users, bugs, notifications := [], [], [];
    }

    /** `InsertOrUpdateUser`: insert a new subscriber or update the login of the existing one. */
    method InsertOrUpdateUser(user: User)
      modifies this`users
      ensures users == UpsertUser(old(users), user)
      ensures |users| >= |old(users)|
    {
      var found := IndexOf(UserIds(users), user.telegramUserId);
      if found.None? {
        users := users + [user];
      } else {
        var i := found.value;
        users := users[i := users[i].(tpUserLogin := user.tpUserLogin)];
      }
    }

    /** `InsertOrUpdateBugs`: for each fetched bug in turn, insert it or replace the first record with its id. */
    method InsertOrUpdateBugs(fetched: seq<Bug>)
      modifies this`bugs
      ensures bugs == UpsertAll(old(bugs), fetched)
    {
      var i := 0;
      while i < |fetched|
        invariant 0 <= i <= |fetched|
        invariant bugs == UpsertAll(old(bugs), fetched[..i])
      {
        var bug := fetched[i];
        var dbBug := FindById(bugs, bug.id);
        if dbBug.None? {
          bugs := bugs + [bug];
        } else {
          var k := dbBug.value;
          bugs := bugs[k := bug.(objectId := bugs[k].objectId, isNotified := CarriedFlag(bugs[k], bug))];
        }
        assert fetched[..i + 1][..i] == fetched[..i];
        i := i + 1;
      }
      assert fetched[..i] == fetched;
    }

    /** `UpdateExistingBugsExeptNew`: close every record, of any owner, whose id the fetched list lacks. */
    method UpdateExistingBugsExeptNew(newBugs: seq<Bug>)
      modifies this`bugs
      ensures bugs == CloseAbsent(old(bugs), Ids(newBugs))
      ensures forall i :: 0 <= i < |bugs| && bugs[i].id !in Ids(newBugs) ==> bugs[i].state == Done && bugs[i].isNotified
      ensures forall i :: 0 <= i < |bugs| && bugs[i].id in Ids(newBugs) ==> bugs[i] == old(bugs)[i]
    {
      bugs := CloseAbsent(bugs, Ids(newBugs));
    }

    /** `InsertNotification`: first flag every listed bug, whoever owns it, then append the notification. */
    method InsertNotification(notification: Notification)
      modifies this`bugs, this`notifications
      ensures bugs == MarkNotified(old(bugs), notification.bugIds)
      ensures notifications == old(notifications) + [notification]
    {
      bugs := MarkNotified(bugs, notification.bugIds);
      notifications := notifications + [notification];
    }

    /** `UpdateNotificationIsSent`: set the flag of the first notification with the same id. */
    method UpdateNotificationIsSent(notification: Notification, isSent: bool)
      modifies this`notifications
      ensures notifications == SetSent(old(notifications), notification.id, isSent)
    {
      var found := IndexOf(NotificationIds(notifications), notification.id);
      if found.Some? {
        var i := found.value;
        notifications := notifications[i := notifications[i].(isSent := isSent)];
      }
    }
  }
}
