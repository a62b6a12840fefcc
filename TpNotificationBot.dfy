/**
 * The bot's inbound handlers: text messages (staleness check, trimming,
 * command routing, registration) and button presses (payload parsing,
 * the notification's bug list, the acknowledgement). Messenger sends are
 * recorded as the list of outgoing messages a handler produces; the
 * ticket-source login check and GUID parsing are parameters.
 */
module TpNotificationBot {
  import opened Wrappers
  import opened BugModel
  import opened Text
  import opened MongoStore
  import opened Gateway

  /** A message older than this many seconds is dropped. */
  const TimeoutSeconds: int := 10

  const StartCommand: string := "/start"
  const AllBugsCommand: string := "/all_bugs"
  const UnsubscribeCommand: string := "/unsubscribe"

  /** An inbound text message; `text` is `None` for messages without text, times are in seconds. */
  datatype TextMessage = TextMessage(text: Option<string>, date: int, chatId: int, fromId: int)

  /** A button press: its id, its payload, the sender and the chat of the message carrying the button. */
  datatype CallbackQuery = CallbackQuery(id: string, data: Option<string>, fromId: int, messageChatId: int)

  datatype Command = Start | AllBugs | Unsubscribe | Register(login: string)

  /** The command a trimmed text selects: an exact keyword, or else a registration with the text as login. */
  function Route(text: string): (c: Command)
    ensures c == Start <==> text == StartCommand
    ensures c == AllBugs <==> text == AllBugsCommand
    ensures c == Unsubscribe <==> text == UnsubscribeCommand
    ensures c.Register? ==> c.login == text
  {
    if text == StartCommand then Start
    else if text == AllBugsCommand then AllBugs
    else if text == UnsubscribeCommand then Unsubscribe
    else Register(text)
  }

  /** The keyword of a command other than a registration. */
  function Keyword(c: Command): string
    requires !c.Register?
  {
    match c
    case Start => StartCommand
    case AllBugs => AllBugsCommand
    case Unsubscribe => UnsubscribeCommand
  }

  /** A keyword surrounded by any white space still selects its command. */
  lemma PaddedKeywordRoutes(pre: string, c: Command, post: string)
    requires !c.Register? && AllWhiteSpace(pre) && AllWhiteSpace(post)
    ensures Route(Trim(pre + Keyword(c) + post)) == c
  {
    TrimPadded(pre, Keyword(c), post);
  }

  /**
   * Registration: a login the ticket source knows is stored for the sender
   * (a new subscriber, or a new login for a known one) and confirmed; an
   * unknown login is rejected, followed by the start prompt, and nothing is
   * stored.
   */
  method RegisterUser(store: MongoDbContext, chatId: int, fromId: int, login: string, tpUserExists: string -> bool)
    returns (sent: seq<Outgoing>)
    modifies store`users
    ensures tpUserExists(login) ==>
              store.users == UpsertUser(old(store.users), User(chatId, fromId, login))
              && sent == [Subscribed(chatId, login)]
    ensures !tpUserExists(login) ==>
              store.users == old(store.users) && sent == [UnknownLogin(chatId, login), StartPrompt(chatId)]
  {
    if tpUserExists(login) {
      store.InsertOrUpdateUser(User(chatId, fromId, login));
      sent := [Subscribed(chatId, login)];
      return;
    }
    sent := [UnknownLogin(chatId, login), StartPrompt(chatId)];
  }

  /**
   * A text message at time `now`. A message without text, or more than
   * `TimeoutSeconds` old, is dropped silently. Otherwise the trimmed text is
   * routed: the start prompt, the sender's open bugs, unsubscription, or a
   * registration attempt with the text as login.
   */
  method OnMessage(store: MongoDbContext, msg: TextMessage, now: int, tpUserExists: string -> bool)
    returns (sent: seq<Outgoing>)
    modifies store`users
    ensures msg.text.None? || now - msg.date > TimeoutSeconds ==> sent == [] && store.users == old(store.users)
    ensures msg.text.Some? && now - msg.date <= TimeoutSeconds ==>
              match Route(Trim(msg.text.value))
              case Start => sent == [StartPrompt(msg.chatId)] && store.users == old(store.users)
              case AllBugs =>
                sent == BugsMessages(msg.chatId, GetUserOpenBugs(store.bugs, msg.fromId))
                && store.users == old(store.users)
              case Unsubscribe => sent == [] && store.users == old(store.users)
              case Register(login) =>
                if tpUserExists(login) then
                  store.users == UpsertUser(old(store.users), User(msg.chatId, msg.fromId, login))
                  && sent == [Subscribed(msg.chatId, login)]
                else
                  store.users == old(store.users) && sent == [UnknownLogin(msg.chatId, login), StartPrompt(msg.chatId)]
  {
    if msg.text.None? || now - msg.date > TimeoutSeconds {
      return [];
    }
    var text := Trim(msg.text.value);
    match Route(text)
    case Start =>
      sent := [StartPrompt(msg.chatId)];
    case AllBugs =>
      var userOpenBugs := GetUserOpenBugs(store.bugs, msg.fromId);
      sent := BugsMessages(msg.chatId, userOpenBugs);
    case Unsubscribe =>
      sent := [];
    case Register(login) =>
      sent := RegisterUser(store, msg.chatId, msg.fromId, login, tpUserExists);
  }

  /** What a button payload asks for. */
  datatype CallbackAction =
    /** Return without acknowledging the press. */
    | Ignore
    /** Acknowledge the press and do nothing else. */
    | Acknowledge
    /** Show the bug list of a notification, then acknowledge. */
    | ShowNotification(notificationId: Guid)

  /**
   * The decision on a payload: a missing or white-space payload, and a
   * `/notification_bugs` payload without a second field or with an
   * unparsable one, are ignored; any other first field is only acknowledged.
   */
  function ParseCallback(data: Option<string>, tryParseGuid: string -> Option<Guid>): (a: CallbackAction)
    ensures data.None? || AllWhiteSpace(data.value) ==> a.Ignore?
    ensures data.Some? && !AllWhiteSpace(data.value) ==>
              var fields := Split(data.value, '|');
              && (fields[0] != NotificationBugsCommand ==> a.Acknowledge?)
              && (fields[0] == NotificationBugsCommand ==>
                    if |fields| < 2 || tryParseGuid(fields[1]).None? then a.Ignore?
                    else a == ShowNotification(tryParseGuid(fields[1]).value))
  {
    if data.None? || AllWhiteSpace(data.value) then Ignore
    else
      var fields := Split(data.value, '|');
      if fields[0] != NotificationBugsCommand then Acknowledge
      else if |fields| < 2 then Ignore
      else match tryParseGuid(fields[1])
        case None => Ignore
        case Some(id) => ShowNotification(id)
  }

  /**
   * The payload the dispatch loop puts on a summary's button is handled as a
   * request for the notification its id field parses to, whenever the id
   * holds no `|` and parses; when parsing gives the id back, that is the
   * notification the button was built for.
   */
  lemma CallbackPayloadRoundTrip(notificationId: Guid, tryParseGuid: string -> Option<Guid>)
    requires '|' !in notificationId && tryParseGuid(notificationId).Some?
    ensures ParseCallback(Some(CallbackData(notificationId)), tryParseGuid)
            == ShowNotification(tryParseGuid(notificationId).value)
    ensures tryParseGuid(notificationId) == Some(notificationId) ==>
              ParseCallback(Some(CallbackData(notificationId)), tryParseGuid) == ShowNotification(notificationId)
  {
    var data := CallbackData(notificationId);
    assert data[0] == NotificationBugsCommand[0] == '/';
    assert !IsWhiteSpace(data[0]);
  }

  /**
   * A button press. An ignored payload produces nothing, not even the
   * acknowledgement. Otherwise the acknowledgement is sent last; before it,
   * for a notification payload, the sender's bugs among the looked-up
   * notification's bug ids, or nothing when the lookup finds no notification
   * (the failure is swallowed). Only the sender's own bugs are ever shown.
   */
  method OnCallbackQuery(store: MongoDbContext, query: CallbackQuery, tryParseGuid: string -> Option<Guid>)
    returns (sent: seq<Outgoing>)
    ensures ParseCallback(query.data, tryParseGuid).Ignore? <==> sent == []
    ensures ParseCallback(query.data, tryParseGuid).Acknowledge? ==> sent == [CallbackAnswer(query.id)]
    ensures ParseCallback(query.data, tryParseGuid).ShowNotification? ==>
              match GetNotificationById(store.notifications, ParseCallback(query.data, tryParseGuid).notificationId)
              case None => sent == [CallbackAnswer(query.id)]
              case Some(n) =>
                sent == BugsMessages(query.messageChatId, GetUserBugsByIds(store.bugs, query.fromId, n.bugIds))
                        + [CallbackAnswer(query.id)]
    ensures sent != [] ==> sent[|sent| - 1] == CallbackAnswer(query.id)
    ensures forall k :: 0 <= k < |sent| && sent[k].BugCard? ==> OwnedBy(sent[k].bug, query.fromId)
  {
    if query.data.None? || AllWhiteSpace(query.data.value) {
      return [];
    }
    sent := [];
    var callbackCommandData := Split(query.data.value, '|');
    if callbackCommandData[0] == NotificationBugsCommand {
      if |callbackCommandData| < 2 {
        return [];
      }
      var parsed := tryParseGuid(callbackCommandData[1]);
      if parsed.None? {
        return [];
      }
      var notification := GetNotificationById(store.notifications, parsed.value);
      // a missing notification is dereferenced and throws; the handler swallows it
      if notification.Some? {
        var notificationBugs := GetUserBugsByIds(store.bugs, query.fromId, notification.value.bugIds);
        sent := BugsMessages(query.messageChatId, notificationBugs);
        CardsOwnedBy(query.messageChatId, notificationBugs, query.fromId);
      }
    }
    sent := sent + [CallbackAnswer(query.id)];
  }

  /** A bug list built from one user's bugs shows no card of another user. */
  lemma CardsOwnedBy(chatId: int, bugs: seq<Bug>, telegramUserId: int)
    requires forall k :: 0 <= k < |bugs| ==> OwnedBy(bugs[k], telegramUserId)
    ensures var sent := BugsMessages(chatId, bugs);
            forall k :: 0 <= k < |sent| && sent[k].BugCard? ==> OwnedBy(sent[k].bug, telegramUserId)
  {
    var sent := BugsMessages(chatId, bugs);
    forall k | 0 <= k < |sent| && sent[k].BugCard? ensures OwnedBy(sent[k].bug, telegramUserId) {
      assert sent[k] == BugCard(chatId, bugs[k - 1]);
    }
  }
}
