/**
 * The persisted records of the bug tracker: bugs with their ranked lifecycle
 * state, subscribed users and the notifications sent to them.
 */
module BugModel {
  import opened Wrappers

  /**
   * The lifecycle of a bug. The store compares states only through their
   * integer values (`Rank`), so `Rank` is the single comparison basis for
   * both "still open" (at most `Done`) and "actionable" (at most `InProgress`).
   */
  datatype BugState = New | InProgress | Implemented | Reviewed | Verifying | Done {

    /** The integer value the enum assigns to the state. */
    function Rank(): (r: nat)
      ensures r <= 5
      ensures r == 5 <==> this == Done
      ensures r <= 1 <==> this == New || this == InProgress
    {
      match this
      case New => 0
      case InProgress => 1
      case Implemented => 2
      case Reviewed => 3
      case Verifying => 4
      case Done => 5
    }

    /** `this <= other` on the enum's integer values. */
    predicate AtMost(other: BugState) {
      Rank() <= other.Rank()
    }
  }

  /** The state an integer value converts to, as the ticket-source reader's cast does. */
  function StateOfRank(k: nat): (s: BugState)
    requires k <= 5
    ensures s.Rank() == k
  {
    if k == 0 then New
    else if k == 1 then InProgress
    else if k == 2 then Implemented
    else if k == 3 then Reviewed
    else if k == 4 then Verifying
    else Done
  }

  /** The enum values are strictly increasing in declaration order. */
  lemma RanksIncrease()
    ensures New.Rank() < InProgress.Rank() < Implemented.Rank()
    ensures Implemented.Rank() < Reviewed.Rank() < Verifying.Rank() < Done.Rank()
  {
  }

  /** Converting a state to its integer value and back gives the state again. */
  lemma StateOfRankRoundTrip(s: BugState)
    ensures StateOfRank(s.Rank()) == s
  {
  }

  /** The store's document key; opaque here. */
  type ObjectId = nat

  /**
   * A bug record. `id` is the ticket source's bug number; `telegramUserId`
   * is nullable (`int?`); `isNotified` defaults to false on a freshly built record.
   */
  datatype Bug = Bug(
    objectId: ObjectId,
    id: int,
    name: string,
    state: BugState,
    url: string,
    telegramUserId: Option<int>,
    isNotified: bool)

  /** A subscriber: the chat to write to, the messenger user id (the key) and the ticket-source login. */
  datatype User = User(chatId: int, telegramUserId: int, tpUserLogin: string)

  /** A GUID, represented by its canonical textual form. */
  type Guid = string

  /** A batch of bug ids announced to one user in one message. */
  datatype Notification = Notification(id: Guid, telegramUserId: int, bugIds: seq<int>, isSent: bool)

  /** The owner filter of every per-user query: a bug without owner matches no user. */
  predicate OwnedBy(b: Bug, telegramUserId: int) {
    b.telegramUserId == Some(telegramUserId)
  }

  /** The fields the ticket source supplies: everything but the document key and the notified flag. */
  function Content(b: Bug): Bug {
    b.(objectId := 0, isNotified := false)
  }

  /** The bug ids of a collection, in order. */
  function Ids(bugs: seq<Bug>): (r: seq<int>)
    ensures |r| == |bugs|
    ensures forall i :: 0 <= i < |bugs| ==> r[i] == bugs[i].id
  {
    seq(|bugs|, i requires 0 <= i < |bugs| => bugs[i].id)
  }

  /** The messenger user ids of a collection of users, in order. */
  function UserIds(users: seq<User>): (r: seq<int>)
    ensures |r| == |users|
    ensures forall i :: 0 <= i < |users| ==> r[i] == users[i].telegramUserId
  {
    seq(|users|, i requires 0 <= i < |users| => users[i].telegramUserId)
  }

  /** The ids of a collection of notifications, in order. */
  function NotificationIds(notifications: seq<Notification>): (r: seq<Guid>)
    ensures |r| == |notifications|
    ensures forall i :: 0 <= i < |notifications| ==> r[i] == notifications[i].id
  {
    seq(|notifications|, i requires 0 <= i < |notifications| => notifications[i].id)
  }

  /** No value occurs twice. */
  predicate Distinct<T(==)>(s: seq<T>) {
    forall i, j :: 0 <= i < j < |s| ==> s[i] != s[j]
  }
}
