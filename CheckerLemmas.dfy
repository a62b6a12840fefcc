/**
 * What one subscriber's step and a whole pass of the dispatch loop guarantee:
 * the notification covers exactly the actionable bugs, a bug is announced at
 * most once, repeating a step on the same snapshot announces nothing, ids and
 * flags are preserved, and a failure abandons the rest of the pass.
 */
module CheckerLemmas {
  import opened Wrappers
  import opened BugModel
  import opened MongoStore
  import opened StoreLemmas
  import opened Gateway
  import opened BugsChecker

  /**
   * The ids of a user's selection are exactly the ids of the user's
   * actionable records.
   */
  lemma SelectionIds(bugs: seq<Bug>, telegramUserId: int)
    ensures var ids := Ids(GetUserNotNotifiedBugs(bugs, telegramUserId));
            && (forall j :: 0 <= j < |bugs| && Actionable(bugs[j], telegramUserId) ==> bugs[j].id in ids)
            && (forall k :: 0 <= k < |ids| ==>
                  exists j :: 0 <= j < |bugs| && bugs[j].id == ids[k] && Actionable(bugs[j], telegramUserId))
  {
    SelectionCoversActionable(bugs, telegramUserId);
    SelectionOnlyActionable(bugs, telegramUserId);
  }

  lemma SelectionCoversActionable(bugs: seq<Bug>, telegramUserId: int)
    ensures forall j :: 0 <= j < |bugs| && Actionable(bugs[j], telegramUserId) ==>
              bugs[j].id in Ids(GetUserNotNotifiedBugs(bugs, telegramUserId))
  {
    var sel := GetUserNotNotifiedBugs(bugs, telegramUserId);
    forall j | 0 <= j < |bugs| && Actionable(bugs[j], telegramUserId)
      ensures bugs[j].id in Ids(sel)
    {
      assert bugs[j] in multiset(bugs);
      assert bugs[j] in multiset(sel);
      var k :| 0 <= k < |sel| && sel[k] == bugs[j];
      assert Ids(sel)[k] == bugs[j].id;
    }
  }

  lemma SelectionOnlyActionable(bugs: seq<Bug>, telegramUserId: int)
    ensures var ids := Ids(GetUserNotNotifiedBugs(bugs, telegramUserId));
            forall k :: 0 <= k < |ids| ==>
              exists j :: 0 <= j < |bugs| && bugs[j].id == ids[k] && Actionable(bugs[j], telegramUserId)
  {
    var sel := GetUserNotNotifiedBugs(bugs, telegramUserId);
    forall k | 0 <= k < |Ids(sel)|
      ensures exists j :: 0 <= j < |bugs| && bugs[j].id == Ids(sel)[k] && Actionable(bugs[j], telegramUserId)
    {
      assert sel[k] in multiset(sel);
      assert sel[k] in multiset(bugs);
      var j :| 0 <= j < |bugs| && bugs[j] == sel[k];
      assert bugs[j].id == Ids(sel)[k];
    }
  }

  /**
   * The step creates a notification exactly when the reconciled store holds
   * an actionable bug of the user; the notification is the user's, unsent,
   * uses the fresh id, lists every actionable bug's id and nothing else, and
   * is the only record added to the log.
   */
  lemma StepNotificationContents(bugs: seq<Bug>, notifications: seq<Notification>, user: User,
                                 snapshot: seq<Bug>, notificationId: Guid, rec: seq<Bug>, r: StepResult)
    requires rec == Reconcile(bugs, snapshot)
    requires r == UserStep(bugs, notifications, user, snapshot, notificationId)
    ensures r.created.None? <==> forall j :: 0 <= j < |rec| ==> !Actionable(rec[j], user.telegramUserId)
    ensures r.created.None? ==> r.bugs == rec && r.notifications == notifications
    ensures r.created.Some? ==>
              && r.notifications == notifications + [r.created.value]
              && r.bugs == MarkNotified(rec, r.created.value.bugIds)
              && r.created.value.id == notificationId
              && r.created.value.telegramUserId == user.telegramUserId
              && !r.created.value.isSent
    ensures r.created.Some? ==>
              forall j :: 0 <= j < |rec| && Actionable(rec[j], user.telegramUserId) ==>
                rec[j].id in r.created.value.bugIds
    ensures r.created.Some? ==>
              forall k :: 0 <= k < |r.created.value.bugIds| ==>
                exists j :: 0 <= j < |rec| && rec[j].id == r.created.value.bugIds[k]
                            && Actionable(rec[j], user.telegramUserId)
    ensures r.created.Some? ==> r.created.value.bugIds == Ids(GetUserNotNotifiedBugs(rec, user.telegramUserId))
  {
    SelectionIds(rec, user.telegramUserId);
  }

  /**
   * At most once: after the step the user has no actionable bug left, so an
   * immediate re-selection is empty, and every bug the notification lists is
   * flagged.
   */
  lemma StepAtMostOnce(bugs: seq<Bug>, notifications: seq<Notification>, user: User,
                       snapshot: seq<Bug>, notificationId: Guid, r: StepResult)
    requires r == UserStep(bugs, notifications, user, snapshot, notificationId)
    ensures forall j :: 0 <= j < |r.bugs| ==> !Actionable(r.bugs[j], user.telegramUserId)
    ensures GetUserNotNotifiedBugs(r.bugs, user.telegramUserId) == []
    ensures r.created.Some? ==>
              forall j :: 0 <= j < |r.bugs| && r.bugs[j].id in r.created.value.bugIds ==> r.bugs[j].isNotified
  {
    var rec := Reconcile(bugs, snapshot);
    StepNotificationContents(bugs, notifications, user, snapshot, notificationId, rec, r);
    if r.created.Some? {
      MarkingSilencesUser(rec, r.created.value.bugIds, user.telegramUserId);
    }
    assert forall j :: 0 <= j < |r.bugs| ==> !Actionable(r.bugs[j], user.telegramUserId);
  }

  /** Flagging every id of a user's actionable records leaves the user nothing actionable. */
  lemma MarkingSilencesUser(bugs: seq<Bug>, bugIds: seq<int>, telegramUserId: int)
    requires forall j :: 0 <= j < |bugs| && Actionable(bugs[j], telegramUserId) ==> bugs[j].id in bugIds
    ensures var marked := MarkNotified(bugs, bugIds);
            && (forall j :: 0 <= j < |marked| ==> !Actionable(marked[j], telegramUserId))
            && (forall j :: 0 <= j < |marked| && marked[j].id in bugIds ==> marked[j].isNotified)
  {
    var marked := MarkNotified(bugs, bugIds);
    assert forall j :: 0 <= j < |marked| ==> marked[j].id == bugs[j].id by {
      assert Ids(marked) == Ids(bugs);
      forall j | 0 <= j < |marked| ensures marked[j].id == bugs[j].id {
        assert Ids(marked)[j] == Ids(bugs)[j];
      }
    }
  }

  /** `LastWithId` of a list with distinct ids is the one bug with that id. */
  lemma {:induction false} LastWithIdOfDistinct(xs: seq<Bug>, k: nat)
    requires Distinct(Ids(xs)) && k < |xs|
    ensures xs[k].id in Ids(xs) && LastWithId(xs, xs[k].id) == xs[k]
    decreases |xs|
  {
    var ids := Ids(xs);
    assert ids[k] == xs[k].id;
    var n := |xs| - 1;
    if k < n {
      assert ids[k] != ids[n];
      var ys := xs[..n];
      assert Ids(ys) == ids[..n];
      assert ys[k] == xs[k];
      LastWithIdOfDistinct(ys, k);
    }
  }

  /**
   * Reconciling an unchanged snapshot a second time changes no record, flags
   * included, provided the snapshot lists each id once.
   */
  lemma ReconcileIdempotent(bugs: seq<Bug>, snapshot: seq<Bug>)
    requires Distinct(Ids(snapshot))
    ensures Reconcile(Reconcile(bugs, snapshot), snapshot) == Reconcile(bugs, snapshot)
  {
    var u1 := UpsertAll(bugs, snapshot);
    var c1 := Reconcile(bugs, snapshot);
    ReconciledReflects(bugs, snapshot);
    UpsertOfReflectedIsIdentity(c1, snapshot);
    CloseAbsentIdempotent(u1, Ids(snapshot));
  }

  /** A snapshot listing each id once is reflected by the store reconciled with it. */
  lemma ReconciledReflects(bugs: seq<Bug>, snapshot: seq<Bug>)
    requires Distinct(Ids(snapshot))
    ensures Reflects(Reconcile(bugs, snapshot), snapshot)
  {
    var u1 := UpsertAll(bugs, snapshot);
    UpsertAllShape(bugs, snapshot);
    forall k | 0 <= k < |snapshot|
      ensures match FindById(Reconcile(bugs, snapshot), snapshot[k].id)
              case Some(j) => Content(Reconcile(bugs, snapshot)[j]) == Content(snapshot[k])
              case None => false
    {
      ReflectedAt(snapshot, u1, k);
    }
  }

  /** The first record of the k-th snapshot id, after the upsert and the closure, has that bug's fields. */
  lemma ReflectedAt(snapshot: seq<Bug>, u1: seq<Bug>, k: nat)
    requires Distinct(Ids(snapshot)) && k < |snapshot|
    requires FetchedStored(snapshot, u1) && FetchedFields(snapshot, u1)
    ensures var c1 := CloseAbsent(u1, Ids(snapshot));
            match FindById(c1, snapshot[k].id)
            case Some(j) => Content(c1[j]) == Content(snapshot[k])
            case None => false
  {
    var c1 := CloseAbsent(u1, Ids(snapshot));
    var id := snapshot[k].id;
    assert id in Ids(c1);
    var j := FindById(c1, id).value;
    assert forall m :: 0 <= m < |c1| ==> c1[m].id == u1[m].id by {
      forall m | 0 <= m < |c1| ensures c1[m].id == u1[m].id {
        assert Ids(c1)[m] == Ids(u1)[m];
      }
    }
    assert IsFirst(u1, j);
    assert Ids(snapshot)[k] == id;
    LastWithIdOfDistinct(snapshot, k);
    assert c1[j] == u1[j];
  }


  /**
   * A collection that matches an upsert's result record by record in ids, and
   * in fields wherever the id is fetched, stores every fetched id and holds
   * the last fetched fields in the first record of each fetched id.
   */
  lemma ReflectsUpsert(bugs: seq<Bug>, snapshot: seq<Bug>, b1: seq<Bug>)
    requires |b1| == |UpsertAll(bugs, snapshot)|
    requires forall j :: 0 <= j < |b1| ==>
               b1[j].id == UpsertAll(bugs, snapshot)[j].id
               && (b1[j].id in Ids(snapshot) ==> Content(b1[j]) == Content(UpsertAll(bugs, snapshot)[j]))
    ensures forall k :: 0 <= k < |snapshot| ==> snapshot[k].id in Ids(b1)
    ensures forall j :: 0 <= j < |b1| && IsFirst(b1, j) && b1[j].id in Ids(snapshot) ==>
              Content(b1[j]) == Content(LastWithId(snapshot, b1[j].id))
  {
    var u1 := UpsertAll(bugs, snapshot);
    UpsertAllShape(bugs, snapshot);
    forall k | 0 <= k < |snapshot| ensures snapshot[k].id in Ids(b1) {
      var m :| 0 <= m < |u1| && Ids(u1)[m] == snapshot[k].id;
      assert Ids(b1)[m] == snapshot[k].id;
    }
    forall j | 0 <= j < |b1| && IsFirst(b1, j) && b1[j].id in Ids(snapshot)
      ensures Content(b1[j]) == Content(LastWithId(snapshot, b1[j].id))
    {
      assert IsFirst(u1, j);
    }
  }

  /**
   * After reconciling a snapshot, and after flagging any ids on top, every
   * snapshot id is stored, and the first record of each snapshot id has the
   * fields of the snapshot's last bug with that id.
   */
  lemma ReconciledReflectsSnapshot(bugs: seq<Bug>, snapshot: seq<Bug>, markIds: seq<int>, b1: seq<Bug>)
    requires b1 == Reconcile(bugs, snapshot) || b1 == MarkNotified(Reconcile(bugs, snapshot), markIds)
    ensures forall k :: 0 <= k < |snapshot| ==> snapshot[k].id in Ids(b1)
    ensures forall j :: 0 <= j < |b1| && IsFirst(b1, j) && b1[j].id in Ids(snapshot) ==>
              Content(b1[j]) == Content(LastWithId(snapshot, b1[j].id))
  {
    var u1 := UpsertAll(bugs, snapshot);
    var rec := Reconcile(bugs, snapshot);
    forall j | 0 <= j < |rec| ensures rec[j].id == u1[j].id {
      assert Ids(rec)[j] == Ids(u1)[j];
    }
    forall j | 0 <= j < |b1| ensures b1[j].id == rec[j].id && Content(b1[j]) == Content(rec[j]) {
      if b1 != rec {
        assert b1[j].(isNotified := rec[j].isNotified) == rec[j];
      }
    }
    forall j | 0 <= j < |b1|
      ensures b1[j].id == u1[j].id
      ensures b1[j].id in Ids(snapshot) ==> Content(b1[j]) == Content(u1[j])
    {
      if u1[j].id in Ids(snapshot) {
        assert rec[j] == u1[j];
      }
    }
    ReflectsUpsert(bugs, snapshot, b1);
  }

  /**
   * Reconciling a snapshot into a store that already reflects it leaves no
   * actionable record where there was none.
   */
  lemma ReconcileReflectedStaysQuiet(b1: seq<Bug>, snapshot: seq<Bug>, telegramUserId: int)
    requires forall j :: 0 <= j < |b1| ==> !Actionable(b1[j], telegramUserId)
    requires forall k :: 0 <= k < |snapshot| ==> snapshot[k].id in Ids(b1)
    requires forall j :: 0 <= j < |b1| && IsFirst(b1, j) && b1[j].id in Ids(snapshot) ==>
               Content(b1[j]) == Content(LastWithId(snapshot, b1[j].id))
    ensures forall j :: 0 <= j < |Reconcile(b1, snapshot)| ==> !Actionable(Reconcile(b1, snapshot)[j], telegramUserId)
  {
    UpsertOfReflectedStaysQuiet(b1, snapshot, telegramUserId);
  }

  /** The upsert half of `ReconcileReflectedStaysQuiet`. */
  lemma UpsertOfReflectedStaysQuiet(b1: seq<Bug>, snapshot: seq<Bug>, telegramUserId: int)
    requires forall j :: 0 <= j < |b1| ==> !Actionable(b1[j], telegramUserId)
    requires forall k :: 0 <= k < |snapshot| ==> snapshot[k].id in Ids(b1)
    requires forall j :: 0 <= j < |b1| && IsFirst(b1, j) && b1[j].id in Ids(snapshot) ==>
               Content(b1[j]) == Content(LastWithId(snapshot, b1[j].id))
    ensures forall j :: 0 <= j < |UpsertAll(b1, snapshot)| ==> !Actionable(UpsertAll(b1, snapshot)[j], telegramUserId)
  {
    var u2 := UpsertAll(b1, snapshot);
    UpsertAllShape(b1, snapshot);
    forall j | 0 <= j < |u2| && IsFirst(u2, j) && u2[j].id in Ids(snapshot)
      ensures !Actionable(u2[j], telegramUserId)
    {
      var m :| 0 <= m < |snapshot| && Ids(snapshot)[m] == u2[j].id;
      assert snapshot[m].id in Ids(b1);
      assert j < |b1|;
      assert IsFirst(b1, j);
      assert Content(u2[j]) == Content(b1[j]);
    }
  }


  /**
   * Running a user's step a second time on the same snapshot creates no
   * notification, whatever the store held and whatever the snapshot repeats.
   */
  lemma RepeatedStepIsQuiet(bugs: seq<Bug>, notifications: seq<Notification>, user: User,
                            snapshot: seq<Bug>, firstId: Guid, secondId: Guid)
    ensures var first := UserStep(bugs, notifications, user, snapshot, firstId);
            UserStep(first.bugs, first.notifications, user, snapshot, secondId).created.None?
  {
    var first := UserStep(bugs, notifications, user, snapshot, firstId);
    StepAtMostOnce(bugs, notifications, user, snapshot, firstId, first);
    ReconciledReflectsSnapshot(bugs, snapshot, if first.created.Some? then first.created.value.bugIds else [], first.bugs);
    ReconcileReflectedStaysQuiet(first.bugs, snapshot, user.telegramUserId);
  }

  /**
   * Reconciling one user's snapshot closes and flags every stored record
   * whose id the snapshot lacks, whoever owns it.
   */
  lemma ReconcileClosesEveryOwnersAbsentBugs(bugs: seq<Bug>, snapshot: seq<Bug>)
    ensures |Reconcile(bugs, snapshot)| >= |bugs|
    ensures forall j :: 0 <= j < |bugs| && bugs[j].id !in Ids(snapshot) ==>
              Reconcile(bugs, snapshot)[j].state == Done && Reconcile(bugs, snapshot)[j].isNotified
  {
    var u1 := UpsertAll(bugs, snapshot);
    UpsertNeverClearsNotified(bugs, snapshot);
    var rec := Reconcile(bugs, snapshot);
    forall j | 0 <= j < |bugs| && bugs[j].id !in Ids(snapshot)
      ensures rec[j].state == Done && rec[j].isNotified
    {
      assert u1[j].id == bugs[j].id;
    }
  }

  /**
   * With a snapshot that keeps the ticket-source query's promise, the
   * reconciled store mirrors it: among the records a lookup by id finds, those
   * still open are exactly those whose id the snapshot lists, and those are
   * owned by the user.
   */
  lemma ReconcileMirrorsSnapshot(bugs: seq<Bug>, snapshot: seq<Bug>, telegramUserId: int)
    requires TicketSourceSnapshot(snapshot, telegramUserId)
    ensures var rec := Reconcile(bugs, snapshot);
            forall j :: 0 <= j < |rec| && IsFirst(rec, j) ==>
              && (rec[j].state != Done <==> rec[j].id in Ids(snapshot))
              && (rec[j].id in Ids(snapshot) ==> OwnedBy(rec[j], telegramUserId))
  {
    var u1 := UpsertAll(bugs, snapshot);
    UpsertAllShape(bugs, snapshot);
    var rec := Reconcile(bugs, snapshot);
    forall j | 0 <= j < |rec| ensures rec[j].id == u1[j].id {
      assert Ids(rec)[j] == Ids(u1)[j];
    }
    forall j | 0 <= j < |rec| && IsFirst(rec, j) && rec[j].id in Ids(snapshot)
      ensures rec[j].state != Done && OwnedBy(rec[j], telegramUserId)
    {
      assert rec[j] == u1[j];
      assert IsFirst(u1, j);
      var b := LastWithId(snapshot, rec[j].id);
      var k :| 0 <= k < |snapshot| && snapshot[k] == b;
      assert Content(rec[j]) == Content(b);
    }
  }

  /** One step keeps bug ids unique. */
  lemma StepKeepsIdsUnique(bugs: seq<Bug>, notifications: seq<Notification>, user: User,
                           snapshot: seq<Bug>, notificationId: Guid)
    requires Distinct(Ids(bugs))
    ensures Distinct(Ids(UserStep(bugs, notifications, user, snapshot, notificationId).bugs))
  {
    UpsertKeepsIdsUnique(bugs, snapshot);
  }

  /** One step keeps every stored record at its position with its id and never clears a flag. */
  lemma StepNeverClearsNotified(bugs: seq<Bug>, notifications: seq<Notification>, user: User,
                                snapshot: seq<Bug>, notificationId: Guid)
    ensures var r := UserStep(bugs, notifications, user, snapshot, notificationId).bugs;
            |r| >= |bugs|
            && forall j :: 0 <= j < |bugs| ==> r[j].id == bugs[j].id && (bugs[j].isNotified ==> r[j].isNotified)
  {
    UpsertNeverClearsNotified(bugs, snapshot);
    var u1 := UpsertAll(bugs, snapshot);
    assert forall j :: 0 <= j < |u1| ==> Reconcile(bugs, snapshot)[j].id == u1[j].id;
  }

  /** A whole pass keeps bug ids unique. */
  lemma {:induction false} TickKeepsIdsUnique(bugs: seq<Bug>, notifications: seq<Notification>, users: seq<User>,
                                              calls: seq<ExternalCalls>, notificationIds: seq<Guid>)
    requires |calls| == |users| && |notificationIds| == |users|
    requires Distinct(Ids(bugs))
    ensures Distinct(Ids(RunUsers(bugs, notifications, users, calls, notificationIds).bugs))
    decreases |users|
  {
    if users != [] && calls[0].fetched.Some? {
      var step := UserStep(bugs, notifications, users[0], calls[0].fetched.value, notificationIds[0]);
      StepKeepsIdsUnique(bugs, notifications, users[0], calls[0].fetched.value, notificationIds[0]);
      TickKeepsIdsUnique(step.bugs, step.notifications, users[1..], calls[1..], notificationIds[1..]);
    }
  }

  /** A whole pass keeps every stored record at its position with its id and never clears a flag. */
  lemma {:induction false} TickNeverClearsNotified(bugs: seq<Bug>, notifications: seq<Notification>, users: seq<User>,
                                                   calls: seq<ExternalCalls>, notificationIds: seq<Guid>)
    requires |calls| == |users| && |notificationIds| == |users|
    ensures var r := RunUsers(bugs, notifications, users, calls, notificationIds).bugs;
            |r| >= |bugs|
            && forall j :: 0 <= j < |bugs| ==> r[j].id == bugs[j].id && (bugs[j].isNotified ==> r[j].isNotified)
    decreases |users|
  {
    if users != [] && calls[0].fetched.Some? {
      var step := UserStep(bugs, notifications, users[0], calls[0].fetched.value, notificationIds[0]);
      StepNeverClearsNotified(bugs, notifications, users[0], calls[0].fetched.value, notificationIds[0]);
      TickNeverClearsNotified(step.bugs, step.notifications, users[1..], calls[1..], notificationIds[1..]);
    }
  }

  /**
   * The notification log of a pass outcome `o` that started from
   * `notifications`: the old log is kept as a prefix, each summary sent
   * announces the new notification at the same position (its bug count and
   * its callback payload), at most one new notification (the one whose send
   * failed) has no summary and none when the pass ran to the end, and every
   * new notification is unsent and lists at least one bug.
   */
  ghost predicate LogShape(notifications: seq<Notification>, o: TickOutcome) {
    && |notifications| + |o.outbox| <= |o.notifications| <= |notifications| + |o.outbox| + 1
    && o.notifications[..|notifications|] == notifications
    && (!o.abandoned ==> |o.notifications| == |notifications| + |o.outbox|)
    && (forall j :: 0 <= j < |o.outbox| ==>
          && o.outbox[j].NewBugsSummary?
          && o.outbox[j].bugCount == |o.notifications[|notifications| + j].bugIds|
          && o.outbox[j].callbackData == CallbackData(o.notifications[|notifications| + j].id))
    && (forall j :: |notifications| <= j < |o.notifications| ==>
          !o.notifications[j].isSent && o.notifications[j].bugIds != [])
  }

  /** Sending the summary of `n` in front of the rest of a pass that started after `n` was stored. */
  lemma LogShapeSent(notifications: seq<Notification>, n: Notification, user: User, rest: TickOutcome)
    requires LogShape(notifications + [n], rest)
    requires !n.isSent && n.bugIds != []
    ensures LogShape(notifications, rest.(outbox := [Summary(user, n)] + rest.outbox))
  {
    var o := rest.(outbox := [Summary(user, n)] + rest.outbox);
    assert rest.notifications[..|notifications| + 1] == notifications + [n];
    assert o.notifications[|notifications|] == n;
    assert o.notifications[..|notifications|] == notifications by {
      assert o.notifications[..|notifications|] == rest.notifications[..|notifications| + 1][..|notifications|];
    }
    forall j | 0 <= j < |o.outbox|
      ensures o.outbox[j].NewBugsSummary?
      ensures o.outbox[j].bugCount == |o.notifications[|notifications| + j].bugIds|
      ensures o.outbox[j].callbackData == CallbackData(o.notifications[|notifications| + j].id)
    {
      if j > 0 {
        assert o.outbox[j] == rest.outbox[j - 1];
        assert |notifications| + j == |notifications + [n]| + (j - 1);
      }
    }
  }

  /** The pass ends with `n` stored and its summary unsent. */
  lemma LogShapeSendFailed(notifications: seq<Notification>, n: Notification, bugs: seq<Bug>)
    requires !n.isSent && n.bugIds != []
    ensures LogShape(notifications, TickOutcome(bugs, notifications + [n], [], true))
  {
    assert (notifications + [n])[..|notifications|] == notifications;
  }

  /** A pass only appends to the notification log, in the shape `LogShape` describes. */
  lemma {:induction false} TickNotificationLog(bugs: seq<Bug>, notifications: seq<Notification>, users: seq<User>,
                                               calls: seq<ExternalCalls>, notificationIds: seq<Guid>)
    requires |calls| == |users| && |notificationIds| == |users|
    ensures LogShape(notifications, RunUsers(bugs, notifications, users, calls, notificationIds))
    decreases |users|
  {
    if users == [] || calls[0].fetched.None? {
      assert notifications[..|notifications|] == notifications;
    } else {
      var step := UserStep(bugs, notifications, users[0], calls[0].fetched.value, notificationIds[0]);
      TickNotificationLog(step.bugs, step.notifications, users[1..], calls[1..], notificationIds[1..]);
      if step.created.Some? {
        var rest := RunUsers(step.bugs, step.notifications, users[1..], calls[1..], notificationIds[1..]);
        if calls[0].sendSucceeds {
          LogShapeSent(notifications, step.created.value, users[0], rest);
        } else {
          LogShapeSendFailed(notifications, step.created.value, step.bugs);
        }
      }
    }
  }

  /** Notification ids are unique, and those past `from` are drawn from `freshIds`. */
  ghost predicate IdsFrom(ns: seq<Notification>, from: nat, freshIds: seq<Guid>) {
    Distinct(NotificationIds(ns)) && forall j :: from <= j < |ns| ==> ns[j].id in freshIds
  }

  /** GUIDs fresh for a log whose ids are unique: distinct, and none used by a stored notification. */
  ghost predicate FreshFor(ns: seq<Notification>, freshIds: seq<Guid>) {
    && Distinct(NotificationIds(ns)) && Distinct(freshIds)
    && forall k :: 0 <= k < |freshIds| ==> freshIds[k] !in NotificationIds(ns)
  }

  /** Storing a notification with the first fresh id keeps ids unique; the remaining ids stay fresh. */
  lemma FreshIdStep(notifications: seq<Notification>, n: Notification, notificationIds: seq<Guid>)
    requires |notificationIds| > 0 && n.id == notificationIds[0] && FreshFor(notifications, notificationIds)
    ensures FreshFor(notifications + [n], notificationIds[1..])
  {
    var ns := notifications + [n];
    assert NotificationIds(ns) == NotificationIds(notifications) + [n.id];
    forall i, j | 0 <= i < j < |ns| ensures NotificationIds(ns)[i] != NotificationIds(ns)[j] {
      if j == |notifications| {
        assert NotificationIds(notifications)[i] == NotificationIds(ns)[i];
      }
    }
    forall k | 0 <= k < |notificationIds[1..]|
      ensures notificationIds[1..][k] !in NotificationIds(ns)
    {
      assert notificationIds[1..][k] == notificationIds[k + 1] != notificationIds[0];
    }
  }

  /** Dropping an unused fresh id leaves the others fresh. */
  lemma FreshTail(ns: seq<Notification>, notificationIds: seq<Guid>)
    requires |notificationIds| > 0 && FreshFor(ns, notificationIds)
    ensures FreshFor(ns, notificationIds[1..])
  {
    assert forall k :: 0 <= k < |notificationIds[1..]| ==> notificationIds[1..][k] == notificationIds[k + 1];
  }

  /** New ids drawn from the tail of the fresh ids are drawn from all of them. */
  lemma IdsFromFreshTail(ns: seq<Notification>, from: nat, notificationIds: seq<Guid>)
    requires |notificationIds| > 0 && IdsFrom(ns, from, notificationIds[1..])
    ensures IdsFrom(ns, from, notificationIds)
  {
    assert forall x :: x in notificationIds[1..] ==> x in notificationIds;
  }

  /** A pass that ends right after storing `n`, which uses the first fresh id. */
  lemma IdsFromSendFailed(notifications: seq<Notification>, n: Notification, notificationIds: seq<Guid>)
    requires |notificationIds| > 0 && n.id == notificationIds[0] && FreshFor(notifications + [n], notificationIds[1..])
    ensures IdsFrom(notifications + [n], |notifications|, notificationIds)
  {
    assert (notifications + [n])[|notifications|] == n;
  }

  /** Widening the fresh ids from the tail to the whole list, one stored notification earlier. */
  lemma IdsFromWiden(ns: seq<Notification>, from: nat, notificationIds: seq<Guid>)
    requires |notificationIds| > 0 && from < |ns| && ns[from].id == notificationIds[0]
    requires IdsFrom(ns, from + 1, notificationIds[1..])
    ensures IdsFrom(ns, from, notificationIds)
  {
    forall j | from <= j < |ns| ensures ns[j].id in notificationIds {
      if j > from {
        assert ns[j].id in notificationIds[1..];
      }
    }
  }

  /** A log that starts with `notifications + [n]`, `n` using the first fresh id. */
  lemma IdsFromAppended(notifications: seq<Notification>, n: Notification, ns: seq<Notification>,
                        notificationIds: seq<Guid>)
    requires |notificationIds| > 0 && n.id == notificationIds[0]
    requires |notifications| < |ns| && ns[..|notifications| + 1] == notifications + [n]
    requires IdsFrom(ns, |notifications| + 1, notificationIds[1..])
    ensures IdsFrom(ns, |notifications|, notificationIds)
  {
    assert ns[|notifications|] == ns[..|notifications| + 1][|notifications|];
    IdsFromWiden(ns, |notifications|, notificationIds);
  }

  /**
   * Fresh, distinct GUIDs that no stored notification uses keep notification
   * ids unique across the pass, and every new notification uses one of them.
   */
  lemma {:induction false} TickNotificationIdsUnique(bugs: seq<Bug>, notifications: seq<Notification>, users: seq<User>,
                                                     calls: seq<ExternalCalls>, notificationIds: seq<Guid>)
    requires |calls| == |users| && |notificationIds| == |users|
    requires FreshFor(notifications, notificationIds)
    ensures IdsFrom(RunUsers(bugs, notifications, users, calls, notificationIds).notifications,
                    |notifications|, notificationIds)
    decreases |users|
  {
    if users != [] && calls[0].fetched.Some? {
      var step := UserStep(bugs, notifications, users[0], calls[0].fetched.value, notificationIds[0]);
      var rest := RunUsers(step.bugs, step.notifications, users[1..], calls[1..], notificationIds[1..]);
      if step.created.None? {
        FreshTail(notifications, notificationIds);
        TickNotificationIdsUnique(step.bugs, step.notifications, users[1..], calls[1..], notificationIds[1..]);
        IdsFromFreshTail(rest.notifications, |notifications|, notificationIds);
      } else {
        FreshIdStep(notifications, step.created.value, notificationIds);
        if calls[0].sendSucceeds {
          TickNotificationIdsUnique(step.bugs, step.notifications, users[1..], calls[1..], notificationIds[1..]);
          TickNotificationLog(step.bugs, step.notifications, users[1..], calls[1..], notificationIds[1..]);
          IdsFromAppended(notifications, step.created.value, rest.notifications, notificationIds);
        } else {
          IdsFromSendFailed(notifications, step.created.value, notificationIds);
        }
      }
    }
  }

  /**
   * A failed ticket-source query for the k-th user ends the pass: the outcome
   * is abandoned, and it does not depend on the users after k or on their
   * external outcomes.
   */
  lemma {:induction false} FetchFailureSkipsRemainingUsers(
    bugs: seq<Bug>, notifications: seq<Notification>, users: seq<User>, calls: seq<ExternalCalls>,
    notificationIds: seq<Guid>, k: nat, otherUsers: seq<User>, otherCalls: seq<ExternalCalls>, otherIds: seq<Guid>)
    requires |calls| == |users| && |notificationIds| == |users| && k < |users|
    requires calls[k].fetched.None?
    requires |otherCalls| == |otherUsers| && |otherIds| == |otherUsers|
    ensures RunUsers(bugs, notifications, users, calls, notificationIds).abandoned
    ensures RunUsers(bugs, notifications, users, calls, notificationIds)
            == RunUsers(bugs, notifications, users[..k + 1] + otherUsers, calls[..k + 1] + otherCalls,
                        notificationIds[..k + 1] + otherIds)
    decreases k
  {
    var users' := users[..k + 1] + otherUsers;
    var calls' := calls[..k + 1] + otherCalls;
    var ids' := notificationIds[..k + 1] + otherIds;
    assert users'[0] == users[0] && calls'[0] == calls[0] && ids'[0] == notificationIds[0];
    if k > 0 && calls[0].fetched.Some? {
      assert users'[1..] == users[1..][..k] + otherUsers;
      assert calls'[1..] == calls[1..][..k] + otherCalls;
      assert ids'[1..] == notificationIds[1..][..k] + otherIds;
      var step := UserStep(bugs, notifications, users[0], calls[0].fetched.value, notificationIds[0]);
      FetchFailureSkipsRemainingUsers(step.bugs, step.notifications, users[1..], calls[1..], notificationIds[1..],
                                      k - 1, otherUsers, otherCalls, otherIds);
    }
  }

  /** A pass is abandoned only when some user's ticket-source query or summary send failed. */
  lemma {:induction false} AbandonedOnlyOnFailure(bugs: seq<Bug>, notifications: seq<Notification>, users: seq<User>,
                                                  calls: seq<ExternalCalls>, notificationIds: seq<Guid>)
    requires |calls| == |users| && |notificationIds| == |users|
    ensures RunUsers(bugs, notifications, users, calls, notificationIds).abandoned ==>
              exists i :: 0 <= i < |users| && (calls[i].fetched.None? || !calls[i].sendSucceeds)
    decreases |users|
  {
    if users != [] && calls[0].fetched.Some? {
      var step := UserStep(bugs, notifications, users[0], calls[0].fetched.value, notificationIds[0]);
      if step.created.None? || calls[0].sendSucceeds {
        var rest := RunUsers(step.bugs, step.notifications, users[1..], calls[1..], notificationIds[1..]);
        AbandonedOnlyOnFailure(step.bugs, step.notifications, users[1..], calls[1..], notificationIds[1..]);
        if rest.abandoned {
          var i :| 0 <= i < |users| - 1 && (calls[1..][i].fetched.None? || !calls[1..][i].sendSucceeds);
          assert calls[1..][i] == calls[i + 1];
        }
      }
    }
  }

  /**
   * With a single subscriber whose snapshot did not change, the second pass
   * records no notification, sends nothing and runs to the end.
   */
  lemma SecondTickIsQuiet(bugs: seq<Bug>, notifications: seq<Notification>, user: User, snapshot: seq<Bug>,
                          firstCalls: ExternalCalls, secondCalls: ExternalCalls, firstId: Guid, secondId: Guid)
    requires firstCalls.fetched == Some(snapshot) && secondCalls.fetched == Some(snapshot)
    ensures var first := RunUsers(bugs, notifications, [user], [firstCalls], [firstId]);
            var second := RunUsers(first.bugs, first.notifications, [user], [secondCalls], [secondId]);
            second.notifications == first.notifications && second.outbox == [] && !second.abandoned
  {
    var step := UserStep(bugs, notifications, user, snapshot, firstId);
    RepeatedStepIsQuiet(bugs, notifications, user, snapshot, firstId, secondId);
    assert [user][1..] == [] && [firstCalls][1..] == [] && [firstId][1..] == [];
    assert [secondCalls][1..] == [] && [secondId][1..] == [];
    assert RunUsers(step.bugs, step.notifications, [], [], []) == TickOutcome(step.bugs, step.notifications, [], false);
    var first := RunUsers(bugs, notifications, [user], [firstCalls], [firstId]);
    assert first.bugs == step.bugs && first.notifications == step.notifications;
  }

  // ---------------------------------------------------------------- at most once, across users and passes

  /** The ids a notification lists. */
  ghost function Listed(n: Notification): set<int> {
    set id | id in n.bugIds
  }

  /** The ids listed by any notification of a log. */
  ghost function ListedIds(ns: seq<Notification>): set<int> {
    set j, id | 0 <= j < |ns| && id in ns[j].bugIds :: id
  }

  /** Every id of `ids` is stored, and every record carrying one is flagged. */
  ghost predicate Silenced(bugs: seq<Bug>, ids: set<int>) {
    && (forall id :: id in ids ==> id in Ids(bugs))
    && (forall j :: 0 <= j < |bugs| && bugs[j].id in ids ==> bugs[j].isNotified)
  }

  /** No two notifications of the log list a common id. */
  ghost predicate AnnouncedOnce(ns: seq<Notification>) {
    forall j, k, id :: 0 <= j < k < |ns| && id in ns[j].bugIds ==> id !in ns[k].bugIds
  }

  /** Reconciling a snapshot keeps silenced ids stored and their records flagged. */
  lemma ReconcileKeepsSilenced(bugs: seq<Bug>, snapshot: seq<Bug>, ids: set<int>)
    requires Silenced(bugs, ids)
    ensures Silenced(Reconcile(bugs, snapshot), ids)
  {
    var u1 := UpsertAll(bugs, snapshot);
    UpsertAllShape(bugs, snapshot);
    var rec := Reconcile(bugs, snapshot);
    forall j | 0 <= j < |rec| ensures rec[j].id == u1[j].id {
      assert Ids(rec)[j] == Ids(u1)[j];
    }
    forall id | id in ids ensures id in Ids(rec) {
      var m :| 0 <= m < |bugs| && Ids(bugs)[m] == id;
      assert Ids(rec)[m] == id;
    }
    assert forall j :: 0 <= j < |rec| && rec[j].id in ids ==> rec[j].isNotified;
  }

  /** Flagging more ids keeps silenced ids stored and their records flagged. */
  lemma MarkKeepsSilenced(bugs: seq<Bug>, bugIds: seq<int>, ids: set<int>)
    requires Silenced(bugs, ids)
    ensures Silenced(MarkNotified(bugs, bugIds), ids)
  {
    var marked := MarkNotified(bugs, bugIds);
    forall j | 0 <= j < |marked| ensures marked[j].id == bugs[j].id {
      assert Ids(marked)[j] == Ids(bugs)[j];
    }
  }

  /**
   * One step over a store in which `ids` are silenced: they stay silenced, the
   * notification the step creates lists none of them, and the ids it lists
   * are silenced too.
   */
  lemma StepKeepsSilenced(bugs: seq<Bug>, notifications: seq<Notification>, user: User,
                          snapshot: seq<Bug>, notificationId: Guid, ids: set<int>)
    requires Silenced(bugs, ids)
    ensures var r := UserStep(bugs, notifications, user, snapshot, notificationId);
            && Silenced(r.bugs, ids)
            && (r.created.Some? ==> Listed(r.created.value) !! ids && Silenced(r.bugs, Listed(r.created.value)))
  {
    var rec := Reconcile(bugs, snapshot);
    var r := UserStep(bugs, notifications, user, snapshot, notificationId);
    ReconcileKeepsSilenced(bugs, snapshot, ids);
    if r.created.Some? {
      var n := r.created.value;
      StepNotificationContents(bugs, notifications, user, snapshot, notificationId, rec, r);
      StepAtMostOnce(bugs, notifications, user, snapshot, notificationId, r);
      MarkKeepsSilenced(rec, n.bugIds, ids);
      forall id | id in Listed(n) ensures id !in ids && id in Ids(r.bugs) {
        var k :| 0 <= k < |n.bugIds| && n.bugIds[k] == id;
        var j :| 0 <= j < |rec| && rec[j].id == id && Actionable(rec[j], user.telegramUserId);
        assert Ids(r.bugs)[j] == Ids(rec)[j];
      }
    }
  }

  /** The silenced ids of one store together with those of another. */
  lemma SilencedUnion(bugs: seq<Bug>, a: set<int>, b: set<int>)
    requires Silenced(bugs, a) && Silenced(bugs, b)
    ensures Silenced(bugs, a + b)
  {
  }

  /** A log with one more notification lists its ids besides the old ones. */
  lemma ListedIdsAppend(ns: seq<Notification>, n: Notification)
    ensures ListedIds(ns + [n]) == ListedIds(ns) + Listed(n)
  {
    var ns' := ns + [n];
    forall id | id in ListedIds(ns') ensures id in ListedIds(ns) + Listed(n) {
      var j :| 0 <= j < |ns'| && id in ns'[j].bugIds;
      if j < |ns| {
        assert ns'[j] == ns[j];
      }
    }
    forall id | id in ListedIds(ns) ensures id in ListedIds(ns') {
      var j :| 0 <= j < |ns| && id in ns[j].bugIds;
      assert ns'[j] == ns[j];
    }
    forall id | id in Listed(n) ensures id in ListedIds(ns') {
      assert ns'[|ns|] == n;
    }
  }

  /**
   * At most once, for one pass: when every stored record whose id is in `ids`
   * is flagged (and each such id is stored), no notification the pass creates
   * lists an id of `ids`, and afterwards those ids are still silenced.
   */
  lemma {:induction false} PassListsNoneOf(bugs: seq<Bug>, notifications: seq<Notification>, users: seq<User>,
                                           calls: seq<ExternalCalls>, notificationIds: seq<Guid>, ids: set<int>)
    requires |calls| == |users| && |notificationIds| == |users|
    requires Silenced(bugs, ids)
    ensures var o := RunUsers(bugs, notifications, users, calls, notificationIds);
            && Silenced(o.bugs, ids)
            && forall k :: |notifications| <= k < |o.notifications| ==> Listed(o.notifications[k]) !! ids
    decreases |users|
  {
    var o := RunUsers(bugs, notifications, users, calls, notificationIds);
    if users == [] || calls[0].fetched.None? {
      return;
    }
    var step := UserStep(bugs, notifications, users[0], calls[0].fetched.value, notificationIds[0]);
    StepKeepsSilenced(bugs, notifications, users[0], calls[0].fetched.value, notificationIds[0], ids);
    if step.created.Some? && !calls[0].sendSucceeds {
      return;
    }
    PassListsNoneOf(step.bugs, step.notifications, users[1..], calls[1..], notificationIds[1..], ids);
    if step.created.Some? {
      TickNotificationLog(step.bugs, step.notifications, users[1..], calls[1..], notificationIds[1..]);
      assert o.notifications[|notifications|] == o.notifications[..|step.notifications|][|notifications|];
    }
  }

  /**
   * A store and log in which every listed id is silenced and no two
   * notifications share an id stay so across a pass. Since the store and the
   * log start empty, no bug id is ever listed by two notifications, within a
   * pass or across passes.
   */
  lemma {:induction false} PassAnnouncesOnce(bugs: seq<Bug>, notifications: seq<Notification>, users: seq<User>,
                                             calls: seq<ExternalCalls>, notificationIds: seq<Guid>)
    requires |calls| == |users| && |notificationIds| == |users|
    requires Silenced(bugs, ListedIds(notifications)) && AnnouncedOnce(notifications)
    ensures var o := RunUsers(bugs, notifications, users, calls, notificationIds);
            Silenced(o.bugs, ListedIds(o.notifications)) && AnnouncedOnce(o.notifications)
    decreases |users|
  {
    if users == [] || calls[0].fetched.None? {
      return;
    }
    var step := UserStep(bugs, notifications, users[0], calls[0].fetched.value, notificationIds[0]);
    StepKeepsSilenced(bugs, notifications, users[0], calls[0].fetched.value, notificationIds[0], ListedIds(notifications));
    if step.created.Some? {
      var n := step.created.value;
      ListedIdsAppend(notifications, n);
      SilencedUnion(step.bugs, ListedIds(notifications), Listed(n));
      AppendKeepsAnnouncedOnce(notifications, n);
    }
    if step.created.None? || calls[0].sendSucceeds {
      PassAnnouncesOnce(step.bugs, step.notifications, users[1..], calls[1..], notificationIds[1..]);
    }
  }

  /** Appending a notification that lists no id listed before keeps the log's ids announced once. */
  lemma AppendKeepsAnnouncedOnce(ns: seq<Notification>, n: Notification)
    requires AnnouncedOnce(ns) && Listed(n) !! ListedIds(ns)
    ensures AnnouncedOnce(ns + [n])
  {
    var ns' := ns + [n];
    forall j, k, id | 0 <= j < k < |ns'| && id in ns'[j].bugIds ensures id !in ns'[k].bugIds {
      assert ns'[j] == ns[j];
      if k == |ns| {
        assert id in ListedIds(ns);
      } else {
        assert ns'[k] == ns[k];
      }
    }
  }

  /** A fresh store with an empty log has nothing listed and nothing announced twice. */
  lemma EmptyStoreAnnouncesNothing()
    ensures Silenced([], ListedIds([])) && AnnouncedOnce([])
  {
  }

  /**
   * Two passes in a row, each over any users and outcomes, from a store and
   * log in the state `PassAnnouncesOnce` keeps: the second pass appends to the
   * log the first left, and no id listed by any notification of either pass
   * is listed again.
   */
  lemma TwoPassesAnnounceOnce(bugs: seq<Bug>, notifications: seq<Notification>,
                              users1: seq<User>, calls1: seq<ExternalCalls>, ids1: seq<Guid>, first: TickOutcome,
                              users2: seq<User>, calls2: seq<ExternalCalls>, ids2: seq<Guid>, second: TickOutcome)
    requires |calls1| == |users1| && |ids1| == |users1| && |calls2| == |users2| && |ids2| == |users2|
    requires Silenced(bugs, ListedIds(notifications)) && AnnouncedOnce(notifications)
    requires first == RunUsers(bugs, notifications, users1, calls1, ids1)
    requires second == RunUsers(first.bugs, first.notifications, users2, calls2, ids2)
    ensures notifications <= first.notifications <= second.notifications
    ensures AnnouncedOnce(second.notifications)
  {
    PassAnnouncesOnce(bugs, notifications, users1, calls1, ids1);
    PassAnnouncesOnce(first.bugs, first.notifications, users2, calls2, ids2);
  }
}
