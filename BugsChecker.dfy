/**
 * One pass of the dispatch loop: for every subscriber in store order, fetch
 * the ticket-source snapshot, merge it into the store, close what it lacks,
 * select the subscriber's un-notified actionable bugs and, if there are any,
 * record a notification and send a summary message. A single exception
 * handler encloses the whole pass, so a failure for one subscriber abandons
 * the rest of the pass.
 */
module BugsChecker {
  import opened Wrappers
  import opened BugModel
  import opened MongoStore
  import opened Gateway
  import opened Text

  /**
   * What the ticket-source query promises about a user's snapshot: states
   * `New` to `Verifying` only, every bug owned by the user, no flag set.
   */
  predicate TicketSourceSnapshot(snapshot: seq<Bug>, telegramUserId: int) {
    forall k :: 0 <= k < |snapshot| ==>
      snapshot[k].state.AtMost(Verifying) && OwnedBy(snapshot[k], telegramUserId) && !snapshot[k].isNotified
  }

  /**
   * The outcome of the calls one user's step makes outside the store: the
   * ticket-source query (`None` when it throws) and the message send.
   */
  datatype ExternalCalls = ExternalCalls(fetched: Option<seq<Bug>>, sendSucceeds: bool)

  /**
   * Upsert the snapshot, then close every record whose id it lacks. Stored
   * ids keep their positions, and at most one record is added per snapshot bug.
   */
  function Reconcile(bugs: seq<Bug>, snapshot: seq<Bug>): (r: seq<Bug>)
    ensures Ids(bugs) <= Ids(r)
    ensures |r| <= |bugs| + |snapshot|
  {
    CloseAbsent(UpsertAll(bugs, snapshot), Ids(snapshot))
  }

  datatype StepResult = StepResult(bugs: seq<Bug>, notifications: seq<Notification>, created: Option<Notification>)

  /** The store writes of one user's step; `notificationId` is the fresh GUID the step would use. */
  function UserStep(bugs: seq<Bug>, notifications: seq<Notification>, user: User,
                    snapshot: seq<Bug>, notificationId: Guid): (r: StepResult)
    ensures r.created.None? ==> r.notifications == notifications
    ensures r.created.Some? ==>
              && r.notifications == notifications + [r.created.value]
              && r.created.value == Notification(notificationId, user.telegramUserId, r.created.value.bugIds, false)
              && r.created.value.bugIds != []
  {
    var reconciled := Reconcile(bugs, snapshot);
    var selected := GetUserNotNotifiedBugs(reconciled, user.telegramUserId);
    if selected == [] then StepResult(reconciled, notifications, None)
    else
      var n := Notification(notificationId, user.telegramUserId, Ids(selected), false);
      StepResult(MarkNotified(reconciled, n.bugIds), notifications + [n], Some(n))
  }

  /** The summary message announcing a notification to a user. */
  function Summary(user: User, n: Notification): (r: Outgoing)
    ensures r.NewBugsSummary? && r.chatId == user.chatId && r.bugCount == |n.bugIds|
    ensures r.callbackData == CallbackData(n.id)
    ensures '|' !in n.id ==> Split(r.callbackData, '|') == [NotificationBugsCommand, n.id]
  {
    NewBugsSummary(user.chatId, |n.bugIds|, CallbackData(n.id))
  }

  datatype TickOutcome = TickOutcome(bugs: seq<Bug>, notifications: seq<Notification>,
                                     outbox: seq<Outgoing>, abandoned: bool)

  /** The effect of the pass over `users`, given each user's external outcomes and fresh GUID. */
  function RunUsers(bugs: seq<Bug>, notifications: seq<Notification>, users: seq<User>,
                    calls: seq<ExternalCalls>, notificationIds: seq<Guid>): (r: TickOutcome)
    requires |calls| == |users| && |notificationIds| == |users|
    ensures |r.outbox| <= |users|
    ensures notifications <= r.notifications
    decreases |users|
  {
    if users == [] then TickOutcome(bugs, notifications, [], false)
    else
      match calls[0].fetched
      case None => TickOutcome(bugs, notifications, [], true)
      case Some(snapshot) =>
        var step := UserStep(bugs, notifications, users[0], snapshot, notificationIds[0]);
        match step.created
        case None => RunUsers(step.bugs, step.notifications, users[1..], calls[1..], notificationIds[1..])
        case Some(n) =>
          if !calls[0].sendSucceeds then TickOutcome(step.bugs, step.notifications, [], true)
          else
            var rest := RunUsers(step.bugs, step.notifications, users[1..], calls[1..], notificationIds[1..]);
            rest.(outbox := [Summary(users[0], n)] + rest.outbox)
  }

  /**
   * One iteration of the checker's endless loop. `calls[i]` and
   * `notificationIds[i]` stand for the ticket-source query, the message send
   * and `Guid.NewGuid()` of the i-th stored user.
   */
  method Tick(store: MongoDbContext, calls: seq<ExternalCalls>, notificationIds: seq<Guid>)
    returns (outbox: seq<Outgoing>, abandoned: bool)
    requires |calls| == |store.users| && |notificationIds| == |store.users|
    modifies store`bugs, store`notifications
    ensures store.users == old(store.users)
    ensures TickOutcome(store.bugs, store.notifications, outbox, abandoned)
            == RunUsers(old(store.bugs), old(store.notifications), old(store.users), calls, notificationIds)
  {
    var dbUsers := store.users;
    ghost var spec := RunUsers(store.bugs, store.notifications, dbUsers, calls, notificationIds);
    outbox, abandoned := [], false;
    var i := 0;
    assert dbUsers[0..] == dbUsers && calls[0..] == calls && notificationIds[0..] == notificationIds;
    while i < |dbUsers| && !abandoned
      invariant 0 <= i <= |dbUsers| && store.users == dbUsers
      invariant !abandoned ==> spec == Prepend(outbox, RunUsers(store.bugs, store.notifications, dbUsers[i..], calls[i..], notificationIds[i..]))
      invariant abandoned ==> spec == TickOutcome(store.bugs, store.notifications, outbox, true)
    {
      outbox, abandoned := DispatchUser(store, dbUsers, calls, notificationIds, i, outbox);
      i := i + 1;
    }
  }

  /**
   * The body of the user loop for the i-th user, `outbox` holding what the
   * pass has sent so far. `abandoned` is set when the ticket-source query or
   * the send throws, which ends the pass; the pass's effect from this user on
   * is then complete, and otherwise it continues from the next user.
   */
  method DispatchUser(store: MongoDbContext, users: seq<User>, calls: seq<ExternalCalls>, notificationIds: seq<Guid>,
                      i: nat, outbox: seq<Outgoing>)
    returns (outbox': seq<Outgoing>, abandoned: bool)
    requires |calls| == |users| && |notificationIds| == |users| && i < |users|
    modifies store`bugs, store`notifications
    ensures abandoned ==>
              Prepend(outbox, RunUsers(old(store.bugs), old(store.notifications), users[i..], calls[i..], notificationIds[i..]))
              == TickOutcome(store.bugs, store.notifications, outbox', true)
    ensures !abandoned ==>
              Prepend(outbox, RunUsers(old(store.bugs), old(store.notifications), users[i..], calls[i..], notificationIds[i..]))
              == Prepend(outbox', RunUsers(store.bugs, store.notifications, users[i + 1..], calls[i + 1..], notificationIds[i + 1..]))
  {
    outbox' := outbox;
    if calls[i].fetched.None? {
      // the ticket-source query threw: the handler ends the pass
      RunUsersFetchFailed(store.bugs, store.notifications, users, calls, notificationIds, i);
      return outbox', true;
    }
    ghost var bugs0, notes0 := store.bugs, store.notifications;
    var created := CheckUser(store, users[i], calls[i].fetched.value, notificationIds[i]);
    RunUsersAdvance(bugs0, notes0, users, calls, notificationIds, i, store.bugs, store.notifications, created);
    if created.None? {
      return outbox', false;
    }
    if !calls[i].sendSucceeds {
      // the send threw after the notification was stored: the handler ends the pass
      return outbox', true;
    }
    ghost var tail := RunUsers(store.bugs, store.notifications, users[i + 1..], calls[i + 1..], notificationIds[i + 1..]);
    PrependTwice(outbox, [Summary(users[i], created.value)], tail);
    outbox' := outbox + [Summary(users[i], created.value)];
    abandoned := false;
  }

  /**
   * The store writes of one iteration of the user loop: upsert the fetched
   * bugs, close the absent ones, select the user's actionable bugs and, if
   * there are any, store a notification for them.
   */
  method CheckUser(store: MongoDbContext, dbUser: User, tpUserBugs: seq<Bug>, notificationId: Guid)
    returns (created: Option<Notification>)
    modifies store`bugs, store`notifications
    ensures StepResult(store.bugs, store.notifications, created)
            == UserStep(old(store.bugs), old(store.notifications), dbUser, tpUserBugs, notificationId)
  {
    store.InsertOrUpdateBugs(tpUserBugs);
    store.UpdateExistingBugsExeptNew(tpUserBugs);

    var notNotifiedBugs := GetUserNotNotifiedBugs(store.bugs, dbUser.telegramUserId);
    if notNotifiedBugs == [] {
      return None;
    }

    var notification := Notification(notificationId, dbUser.telegramUserId, Ids(notNotifiedBugs), false);
    store.InsertNotification(notification);
    created := Some(notification);
  }

  /** A failed ticket-source query for the i-th user ends the pass there. */
  lemma RunUsersFetchFailed(bugs: seq<Bug>, notifications: seq<Notification>, users: seq<User>,
                            calls: seq<ExternalCalls>, notificationIds: seq<Guid>, i: nat)
    requires |calls| == |users| && |notificationIds| == |users| && i < |users|
    requires calls[i].fetched.None?
    ensures RunUsers(bugs, notifications, users[i..], calls[i..], notificationIds[i..])
            == TickOutcome(bugs, notifications, [], true)
  {
    assert calls[i..][0] == calls[i];
  }

  /** The pass from the i-th user on, once that user's step has produced `bugs'`, `notifications'` and `created`. */
  lemma RunUsersAdvance(bugs: seq<Bug>, notifications: seq<Notification>, users: seq<User>,
                        calls: seq<ExternalCalls>, notificationIds: seq<Guid>, i: nat,
                        bugs': seq<Bug>, notifications': seq<Notification>, created: Option<Notification>)
    requires |calls| == |users| && |notificationIds| == |users| && i < |users|
    requires calls[i].fetched.Some?
    requires StepResult(bugs', notifications', created)
             == UserStep(bugs, notifications, users[i], calls[i].fetched.value, notificationIds[i])
    ensures RunUsers(bugs, notifications, users[i..], calls[i..], notificationIds[i..])
            == if created.None? then RunUsers(bugs', notifications', users[i + 1..], calls[i + 1..], notificationIds[i + 1..])
               else if !calls[i].sendSucceeds then TickOutcome(bugs', notifications', [], true)
               else Prepend([Summary(users[i], created.value)],
                            RunUsers(bugs', notifications', users[i + 1..], calls[i + 1..], notificationIds[i + 1..]))
  {
    assert users[i..][0] == users[i] && users[i..][1..] == users[i + 1..];
    assert calls[i..][0] == calls[i] && calls[i..][1..] == calls[i + 1..];
    assert notificationIds[i..][0] == notificationIds[i] && notificationIds[i..][1..] == notificationIds[i + 1..];
  }

  /** A pass's outcome preceded by messages already sent. */
  function Prepend(sent: seq<Outgoing>, o: TickOutcome): TickOutcome {
    o.(outbox := sent + o.outbox)
  }

  lemma PrependTwice(a: seq<Outgoing>, b: seq<Outgoing>, o: TickOutcome)
    ensures Prepend(a, Prepend(b, o)) == Prepend(a + b, o)
  {
    assert a + (b + o.outbox) == (a + b) + o.outbox;
  }
}
