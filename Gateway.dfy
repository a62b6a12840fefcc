/**
 * The messages the bot hands to the messenger. Text and button markup are not
 * modelled; each message records its chat and the data its text is built from.
 */
module Gateway {
  import opened BugModel
  import opened Text

  datatype Outgoing =
    /** "new bugs (count)" with a button carrying `callbackData`. */
    | NewBugsSummary(chatId: int, bugCount: nat, callbackData: string)
    /** The prompt asking for a ticket-source login. */
    | StartPrompt(chatId: int)
    /** The confirmation of a successful registration. */
    | Subscribed(chatId: int, login: string)
    /** The rejection of an unknown login. */
    | UnknownLogin(chatId: int, login: string)
    /** The heading of a bug list. */
    | BugsHeader(chatId: int)
    /** One bug of a list, with a link button to its page. */
    | BugCard(chatId: int, bug: Bug)
    /** The acknowledgement of a button press. */
    | CallbackAnswer(queryId: string)

  /** The command word of the button that opens a notification's bug list. */
  const NotificationBugsCommand: string := "/notification_bugs"

  /** The button payload for a notification: the command word, `|`, and the notification id. */
  function CallbackData(notificationId: Guid): (r: string)
    ensures '|' !in notificationId ==> Split(r, '|') == [NotificationBugsCommand, notificationId]
  {
    assert '|' !in NotificationBugsCommand;
    SplitPrefix(NotificationBugsCommand, notificationId, '|');
    NotificationBugsCommand + "|" + notificationId
  }

  /** A bug list as sent: a heading, then one message per bug in list order. */
  function BugsMessages(chatId: int, bugs: seq<Bug>): (r: seq<Outgoing>)
    ensures |r| == |bugs| + 1 && r[0] == BugsHeader(chatId)
    ensures forall k :: 0 <= k < |bugs| ==> r[k + 1] == BugCard(chatId, bugs[k])
  {
    [BugsHeader(chatId)] + seq(|bugs|, k requires 0 <= k < |bugs| => BugCard(chatId, bugs[k]))
  }
}
