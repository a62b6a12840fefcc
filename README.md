# TelegramTpBugNotification in Dafny

This project is a Dafny model of the bug-notification bot. Each minute the bot's
dispatch loop does the following for every subscriber:

- fetches the subscriber's open bugs from the ticket source (TargetProcess);
- merges them into a document store;
- closes the stored bugs that the fetch no longer lists;
- selects the subscriber's un-notified bugs in state `New` or `InProgress`;
- records them in a notification and sends a summary message with a button.

A press on the button shows the bug list. Text messages register a
ticket-source login or list a subscriber's open bugs.

The modules follow the program:

- `BugModel` covers the records: `Bug`, with its `BugState` ranked 0..5, plus
  `User` and `Notification`.
- `MongoStore` covers the store.
  - Its queries are functions over the collections.
  - Its updates are methods of the class `MongoDbContext`, whose three
    collections are `seq` fields.
  - Each update is specified by a function on the collection it rewrites:
    `UpsertAll`, `CloseAbsent`, `MarkNotified`, `SetSent` and `UpsertUser`.
- `StoreLemmas` covers what the bug upsert guarantees.
  - `UpsertShape` characterises any upsert result.
  - Its corollaries cover unique ids, flags never cleared, and every fetched
    id stored.
  - Upserting bugs the store already reflects changes nothing, and closing
    twice is closing once.
- `BugsChecker` covers one pass of the dispatch loop.
  - `UserStep` is one subscriber's store writes.
  - `RunUsers` is the whole pass, including the exception handler around the
    loop.
  - `Tick` is the loop itself, as a method proved equal to `RunUsers`.
  - `DispatchUser` is the loop body, and `CheckUser` the store writes in it.
- `CheckerLemmas` covers what a step and a pass guarantee:
  - the notification lists exactly the actionable bugs;
  - a bug is announced at most once, within one pass and across passes;
  - repeating a step on the same snapshot is quiet;
  - reconciliation is idempotent for snapshots that list each id once;
  - ids stay unique and flags stay set;
  - the notification log and the sent summaries correspond one to one,
    except the single notification a failed send leaves unsummarised;
  - a fetch failure abandons the rest of the pass.
- `Text` covers .NET `Trim`, as a forward and a backward index scan, and `Split`.
- `Gateway` covers the outgoing messages.
- `TpNotificationBot` covers the message and button handlers.

External calls become parameters of the model:

- The ticket-source query becomes `ExternalCalls.fetched`, where `None` means
  the query threw.
- A message send becomes `ExternalCalls.sendSucceeds`.
- `Guid.NewGuid` becomes a list of fresh ids.
- `Guid.TryParse` becomes a function parameter.
- The login check becomes a function parameter.
- The clock becomes integer seconds.

The model follows the code as written, including where the code does less than
its design intends:

- A bug is matched by its numeric id only, not by id and owner.
- Closure by absence closes every owner's bugs missing from one subscriber's
  fetch.
- `InsertNotification` flags listed ids of every owner.
- `GetNotificationById` ignores the requested id and returns the first unsent
  notification.
- A single exception handler encloses the whole user loop, so one failure
  abandons the rest of the pass. It does not skip only that user.
- A button press whose payload is malformed is not acknowledged.

## Model

| member | source | states |
|---|---|---|
| BugModel.BugState.Rank | TelegramTpBugNotification/Db/Models/Bug.cs:23-31 | ranks are 0..5; only `Done` has rank 5; exactly `New` and `InProgress` have rank at most 1 |
| BugModel.RanksIncrease | TelegramTpBugNotification/Db/Models/Bug.cs:23-31 | the states are strictly increasing in declaration order |
| BugModel.StateOfRank | TelegramTpBugNotification/Db/SQL/SqlDbContext.cs:101 | casting an integer 0..5 to a state gives the state with that value |
| BugModel.StateOfRankRoundTrip | TelegramTpBugNotification/Db/Models/Bug.cs:23-31 | casting a state's value back gives the same state |
| MongoStore.FindById | TelegramTpBugNotification/Db/Mongo/MongoDbContext.cs:61-62 | the lookup finds the first stored bug with the id; `None` exactly when no stored bug has it |
| MongoStore.CarriedFlag | TelegramTpBugNotification/Db/Mongo/MongoDbContext.cs:71-73 | a set flag stays set; the flag is set iff it was set or the state fell from rank 2 or more to rank 1 or less, the source's inequality test being implied by the two rank tests |
| MongoStore.UpsertOne | TelegramTpBugNotification/Db/Mongo/MongoDbContext.cs:59-76 | a bug with an unknown id is appended exactly as fetched; a known id keeps the length and every record's id in place |
| MongoStore.UpsertAll | TelegramTpBugNotification/Db/Mongo/MongoDbContext.cs:57-78 | the old id list is a prefix of the new one, so stored records keep their position and id, and at most one record is added per fetched bug |
| MongoStore.ReplaceStored | TelegramTpBugNotification/Db/Mongo/MongoDbContext.cs:68-76 | the replacing record has the fetched fields and the stored document key; its flag is set iff it was set or the state fell from above `InProgress` to `InProgress`/`New` |
| MongoStore.CloseAbsent | TelegramTpBugNotification/Db/Mongo/MongoDbContext.cs:80-86 | records whose id is not kept become `Done` and notified, whoever owns them, with no other field changed; the rest are unchanged |
| MongoStore.MarkNotified | TelegramTpBugNotification/Db/Mongo/MongoDbContext.cs:128-130 | a record's flag becomes old flag or id listed, for every owner; nothing else changes |
| MongoStore.SortByState | TelegramTpBugNotification/Db/Mongo/MongoDbContext.cs:97 | the result is sorted ascending by state and is a permutation of the input |
| MongoStore.InsertByState | TelegramTpBugNotification/Db/Mongo/MongoDbContext.cs:97 | inserting into a sorted sequence keeps it sorted, adds one element, and puts either the new bug or the old head first |
| MongoStore.InsertByStatePermutes | TelegramTpBugNotification/Db/Mongo/MongoDbContext.cs:97 | the insertion adds the new bug and loses no element |
| MongoStore.GetUserOpenBugs | TelegramTpBugNotification/Db/Mongo/MongoDbContext.cs:88-99 | sorted by state; holds each of the user's bugs as often as stored and no other bug (`<= Done` admits every state) |
| MongoStore.GetUserBugsByIds | TelegramTpBugNotification/Db/Mongo/MongoDbContext.cs:101-111 | sorted by state; holds exactly the user's bugs whose id is listed, with their multiplicity; never another user's bug |
| MongoStore.GetUserNotNotifiedBugs | TelegramTpBugNotification/Db/Mongo/MongoDbContext.cs:113-124 | sorted by state; holds exactly the user's un-notified `New`/`InProgress` bugs; empty iff there are none |
| MongoStore.GetNotificationById | TelegramTpBugNotification/Db/Mongo/MongoDbContext.cs:135-140 | `None` iff every notification is sent; otherwise the first unsent one, whatever id was asked for |
| MongoStore.SetSent | TelegramTpBugNotification/Db/Mongo/MongoDbContext.cs:148-153 | the first notification with the id gets the requested flag and every other notification is unchanged; only records with the id can change, and only in their flag; an unknown id changes nothing |
| MongoStore.UpsertUser | TelegramTpBugNotification/Db/Mongo/MongoDbContext.cs:34-50 | a new user id is appended; otherwise ids and length are kept, only the first record with the id may change, and only in its login; afterwards the lookup by the user id finds the new login |
| MongoStore.MongoDbContext.constructor | TelegramTpBugNotification/Db/Mongo/MongoDbContext.cs:29-32 | the store starts with empty collections |
| MongoStore.MongoDbContext.InsertOrUpdateUser | TelegramTpBugNotification/Db/Mongo/MongoDbContext.cs:34-50 | the users collection becomes `UpsertUser` of the old one; it never shrinks |
| MongoStore.MongoDbContext.InsertOrUpdateBugs | TelegramTpBugNotification/Db/Mongo/MongoDbContext.cs:57-78 | the loop inserts or replaces one fetched bug at a time; the bugs collection becomes `UpsertAll(old bugs, fetched)` |
| MongoStore.MongoDbContext.UpdateExistingBugsExeptNew | TelegramTpBugNotification/Db/Mongo/MongoDbContext.cs:80-86 | bugs whose id is absent from the list become `Done` and notified; the others are unchanged |
| MongoStore.MongoDbContext.InsertNotification | TelegramTpBugNotification/Db/Mongo/MongoDbContext.cs:126-133 | first the listed bugs are flagged, then the notification is appended |
| MongoStore.MongoDbContext.UpdateNotificationIsSent | TelegramTpBugNotification/Db/Mongo/MongoDbContext.cs:148-153 | the notifications collection becomes `SetSent` of the old one |
| StoreLemmas.LastWithId | TelegramTpBugNotification/Db/Mongo/MongoDbContext.cs:59-76 | for a repeated id, the fetched bug whose fields the upsert leaves behind is one with that id that no later fetched bug shares |
| StoreLemmas.UpsertShapeStep | TelegramTpBugNotification/Db/Mongo/MongoDbContext.cs:59-76 | one more fetched bug preserves the upsert characterisation |
| StoreLemmas.UpsertShapeAppend | TelegramTpBugNotification/Db/Mongo/MongoDbContext.cs:64-67 | inserting an unknown id preserves the characterisation |
| StoreLemmas.UpsertShapeReplace | TelegramTpBugNotification/Db/Mongo/MongoDbContext.cs:68-76 | replacing the first record with the id preserves the characterisation |
| StoreLemmas.UpsertAllShape | TelegramTpBugNotification/Db/Mongo/MongoDbContext.cs:57-78 | after the upsert, see (1) below |
| StoreLemmas.UpsertReplacesStoredRecord | TelegramTpBugNotification/Db/Mongo/MongoDbContext.cs:68-76 | when ids are unique, the record with the id is replaced in place, with the flag formula of the source |
| StoreLemmas.UpsertKeepsIdsUnique | TelegramTpBugNotification/Db/Mongo/MongoDbContext.cs:57-78 | unique stored ids stay unique, even if the fetched list repeats an id |
| StoreLemmas.UpsertNeverClearsNotified | TelegramTpBugNotification/Db/Mongo/MongoDbContext.cs:71-73 | stored records keep position and id, and a set flag stays set |
| StoreLemmas.UpsertStoresEveryFetchedId | TelegramTpBugNotification/Db/Mongo/MongoDbContext.cs:57-78 | every fetched id is stored afterwards |
| StoreLemmas.UpsertOfReflectedIsIdentity | TelegramTpBugNotification/Db/Mongo/MongoDbContext.cs:68-76 | upserting bugs whose fields are already stored changes nothing, flags included |
| StoreLemmas.CloseAbsentIdempotent | TelegramTpBugNotification/Db/Mongo/MongoDbContext.cs:80-86 | closing the same absent ids twice is closing them once |
| StoreLemmas.NotificationLookupIgnoresId | TelegramTpBugNotification/Db/Mongo/MongoDbContext.cs:135-140 | the lookup's answer does not depend on the requested id |
| StoreLemmas.NotificationLookupReturnsFirstUnsent | TelegramTpBugNotification/Db/Mongo/MongoDbContext.cs:135-140 | asking for the second of two unsent notifications returns the first |
| Gateway.BugsMessages | TelegramTpBugNotification/Bots/TpNotificationBot.cs:156-171 | a heading, then one card per bug in list order, all to the given chat |
| Gateway.CallbackData | TelegramTpBugNotification/Scheduled/BugsChecker.cs:52 | for an id without `\|`, the button payload splits at `\|` into the command word and the id |
| BugsChecker.UserStep | TelegramTpBugNotification/Scheduled/BugsChecker.cs:28-45 | the log is unchanged when nothing is created; otherwise exactly one unsent notification is appended, with the fresh id, the user's id and at least one bug |
| BugsChecker.Reconcile | TelegramTpBugNotification/Scheduled/BugsChecker.cs:29-30 | the old id list is a prefix of the new one, and at most one record is added per snapshot bug |
| BugsChecker.Summary | TelegramTpBugNotification/Scheduled/BugsChecker.cs:47-52 | the summary goes to the user's chat, reports the number of listed bugs, and carries the payload of the notification id, which splits back into command word and id |
| BugsChecker.RunUsers | TelegramTpBugNotification/Scheduled/BugsChecker.cs:23-58 | a pass sends at most one summary per user and keeps the old notification log as a prefix |
| BugsChecker.Tick | TelegramTpBugNotification/Scheduled/BugsChecker.cs:23-58 | the loop over stored users leaves users unchanged; the new bugs, notifications, sent summaries and the abandoned flag equal `RunUsers` of the old state |
| BugsChecker.DispatchUser | TelegramTpBugNotification/Scheduled/BugsChecker.cs:26-58 | one pass of the user loop body: when a fetch or a send fails the rest of the pass is complete; otherwise the pass continues from the next user with the outbox extended |
| BugsChecker.CheckUser | TelegramTpBugNotification/Scheduled/BugsChecker.cs:28-45 | the store writes of one user (upsert, closure, selection, notification) leave the collections and the created notification exactly as `UserStep` describes |
| BugsChecker.RunUsersFetchFailed | TelegramTpBugNotification/Scheduled/BugsChecker.cs:28 | a failed ticket-source query ends the pass there, abandoned, with nothing more sent |
| BugsChecker.RunUsersAdvance | TelegramTpBugNotification/Scheduled/BugsChecker.cs:28-53 | after one user's step the pass continues with the next user, ends abandoned if the send fails, or prepends that user's summary |
| CheckerLemmas.SelectionIds | TelegramTpBugNotification/Scheduled/BugsChecker.cs:32-42 | the selected ids are exactly the ids of the user's actionable records |
| CheckerLemmas.SelectionCoversActionable | TelegramTpBugNotification/Scheduled/BugsChecker.cs:32-42 | every actionable record's id is among the selected ids |
| CheckerLemmas.SelectionOnlyActionable | TelegramTpBugNotification/Scheduled/BugsChecker.cs:32-42 | every selected id belongs to an actionable record |
| CheckerLemmas.StepNotificationContents | TelegramTpBugNotification/Scheduled/BugsChecker.cs:32-45 | see (2) below |
| CheckerLemmas.StepAtMostOnce | TelegramTpBugNotification/Scheduled/BugsChecker.cs:32-45 | after a step the user has no actionable bug, a re-selection is empty, and every listed bug is flagged |
| CheckerLemmas.MarkingSilencesUser | TelegramTpBugNotification/Db/Mongo/MongoDbContext.cs:126-133 | flagging the ids of all of a user's actionable records leaves the user nothing actionable, and every listed record flagged |
| CheckerLemmas.ReconcileIdempotent | TelegramTpBugNotification/Scheduled/BugsChecker.cs:29-30 | reconciling the same snapshot twice equals reconciling it once, when the snapshot lists each id once |
| CheckerLemmas.ReconciledReflects | TelegramTpBugNotification/Scheduled/BugsChecker.cs:29-30 | a snapshot listing each id once is reflected by the reconciled store: the first record of each of its ids has that bug's fields |
| CheckerLemmas.ReflectedAt | TelegramTpBugNotification/Db/Mongo/MongoDbContext.cs:57-86 | after the upsert and the closure, the first record of a snapshot id has the fields of the snapshot's bug with that id |
| CheckerLemmas.ReflectsUpsert | TelegramTpBugNotification/Db/Mongo/MongoDbContext.cs:57-78 | a collection matching an upsert result in ids, and in fields for fetched ids, stores every fetched id with the last fetched fields |
| CheckerLemmas.ReconciledReflectsSnapshot | TelegramTpBugNotification/Scheduled/BugsChecker.cs:29-45 | after reconciling, and after flagging on top, the first record of each snapshot id has the snapshot's fields |
| CheckerLemmas.ReconcileReflectedStaysQuiet | TelegramTpBugNotification/Scheduled/BugsChecker.cs:29-32 | reconciling a snapshot the store already reflects creates no actionable record |
| CheckerLemmas.UpsertOfReflectedStaysQuiet | TelegramTpBugNotification/Db/Mongo/MongoDbContext.cs:57-78 | upserting a snapshot into a store that reflects it and has nothing actionable for the user leaves nothing actionable |
| CheckerLemmas.RepeatedStepIsQuiet | TelegramTpBugNotification/Scheduled/BugsChecker.cs:28-45 | a second step on the same snapshot creates no notification, even if the snapshot repeats ids |
| CheckerLemmas.ReconcileClosesEveryOwnersAbsentBugs | TelegramTpBugNotification/Scheduled/BugsChecker.cs:29-30 | every stored record whose id the user's snapshot lacks becomes `Done` and notified, whoever owns it |
| CheckerLemmas.ReconcileMirrorsSnapshot | TelegramTpBugNotification/Scheduled/BugsChecker.cs:28-30 | for a snapshot that meets the ticket-source contract, see (3) below |
| CheckerLemmas.StepKeepsIdsUnique | TelegramTpBugNotification/Scheduled/BugsChecker.cs:29-45 | one step keeps bug ids unique |
| CheckerLemmas.StepNeverClearsNotified | TelegramTpBugNotification/Scheduled/BugsChecker.cs:29-45 | one step keeps each record's position and id, and never clears a flag |
| CheckerLemmas.TickKeepsIdsUnique | TelegramTpBugNotification/Scheduled/BugsChecker.cs:23-58 | a whole pass keeps bug ids unique |
| CheckerLemmas.TickNeverClearsNotified | TelegramTpBugNotification/Scheduled/BugsChecker.cs:23-58 | a whole pass keeps each record's position and id, and never clears a flag |
| CheckerLemmas.LogShapeSent | TelegramTpBugNotification/Scheduled/BugsChecker.cs:45-52 | a summary sent after its notification was stored keeps the log and outbox in correspondence |
| CheckerLemmas.LogShapeSendFailed | TelegramTpBugNotification/Scheduled/BugsChecker.cs:45-58 | a failed send leaves one stored notification without a summary |
| CheckerLemmas.TickNotificationLog | TelegramTpBugNotification/Scheduled/BugsChecker.cs:38-58 | see (4) below |
| CheckerLemmas.FreshIdStep | TelegramTpBugNotification/Scheduled/BugsChecker.cs:40 | storing a notification with a fresh id keeps notification ids unique |
| CheckerLemmas.IdsFromWiden | TelegramTpBugNotification/Scheduled/BugsChecker.cs:40 | a new notification with the first fresh id extends the fresh-id invariant by one |
| CheckerLemmas.FreshTail | TelegramTpBugNotification/Scheduled/BugsChecker.cs:40 | a user who gets no notification leaves the remaining GUIDs fresh |
| CheckerLemmas.IdsFromFreshTail | TelegramTpBugNotification/Scheduled/BugsChecker.cs:40 | ids drawn from the later GUIDs are drawn from all of them |
| CheckerLemmas.IdsFromSendFailed | TelegramTpBugNotification/Scheduled/BugsChecker.cs:45-58 | a pass that ends after storing a notification with the first GUID keeps ids unique and drawn from the GUIDs |
| CheckerLemmas.IdsFromAppended | TelegramTpBugNotification/Scheduled/BugsChecker.cs:40-45 | a log that starts with the stored notification keeps the fresh-id invariant one position earlier |
| CheckerLemmas.TickNotificationIdsUnique | TelegramTpBugNotification/Scheduled/BugsChecker.cs:38-45 | with fresh, distinct GUIDs, notification ids stay unique and every new one is one of the GUIDs |
| CheckerLemmas.FetchFailureSkipsRemainingUsers | TelegramTpBugNotification/Scheduled/BugsChecker.cs:23-58 | a fetch failure for user k abandons the pass, and the outcome does not depend on the users after k |
| CheckerLemmas.AbandonedOnlyOnFailure | TelegramTpBugNotification/Scheduled/BugsChecker.cs:23-58 | a pass is abandoned only when some user's ticket-source query or summary send failed |
| CheckerLemmas.SecondTickIsQuiet | TelegramTpBugNotification/Scheduled/BugsChecker.cs:21-53 | for one subscriber and an unchanged snapshot, the second pass stores no notification, sends nothing and completes |
| CheckerLemmas.ReconcileKeepsSilenced | TelegramTpBugNotification/Scheduled/BugsChecker.cs:29-30 | reconciling keeps every silenced id stored and every record carrying one flagged |
| CheckerLemmas.MarkKeepsSilenced | TelegramTpBugNotification/Db/Mongo/MongoDbContext.cs:128-130 | flagging more ids keeps silenced ids stored and their records flagged |
| CheckerLemmas.StepKeepsSilenced | TelegramTpBugNotification/Scheduled/BugsChecker.cs:28-45 | see (8) below |
| CheckerLemmas.SilencedUnion | TelegramTpBugNotification/Scheduled/BugsChecker.cs:28-45 | ids silenced separately are silenced together |
| CheckerLemmas.ListedIdsAppend | TelegramTpBugNotification/Scheduled/BugsChecker.cs:38-45 | appending a notification adds exactly its ids to those listed by the log |
| CheckerLemmas.PassListsNoneOf | TelegramTpBugNotification/Scheduled/BugsChecker.cs:23-58 | if every stored record whose id is in a set is flagged and each such id is stored, no notification the pass creates lists an id of the set, and the set stays silenced |
| CheckerLemmas.AppendKeepsAnnouncedOnce | TelegramTpBugNotification/Scheduled/BugsChecker.cs:38-45 | a notification listing no id listed before keeps every id listed by at most one notification |
| CheckerLemmas.PassAnnouncesOnce | TelegramTpBugNotification/Scheduled/BugsChecker.cs:23-58 | see (9) below |
| CheckerLemmas.EmptyStoreAnnouncesNothing | TelegramTpBugNotification/Db/Mongo/MongoDbContext.cs:29-32 | an empty store and log satisfy the invariant of `PassAnnouncesOnce` |
| CheckerLemmas.TwoPassesAnnounceOnce | TelegramTpBugNotification/Scheduled/BugsChecker.cs:21-60 | across two passes of the loop the log only grows, and no bug id is listed by two notifications |
| Text.Trim | TelegramTpBugNotification/Bots/TpNotificationBot.cs:55 | the result is a slice of the input with only white space cut on each side, and it neither starts nor ends with white space |
| Text.WhiteSpaceRange | TelegramTpBugNotification/Bots/TpNotificationBot.cs:55 | among ASCII characters exactly the space and tab to carriage return are white space; every other white-space character lies between U+0085 and U+3000 |
| Text.TrimStartIndex | TelegramTpBugNotification/Bots/TpNotificationBot.cs:55 | the forward scan stops at the first non-white-space character, having passed only white space |
| Text.TrimEndIndex | TelegramTpBugNotification/Bots/TpNotificationBot.cs:55 | the backward scan stops after the last non-white-space character, not before the start index, having passed only white space |
| Text.TrimStartIndexPadded | TelegramTpBugNotification/Bots/TpNotificationBot.cs:55 | the forward scan stops exactly at the end of leading white space |
| Text.TrimEndIndexPadded | TelegramTpBugNotification/Bots/TpNotificationBot.cs:55 | the backward scan stops exactly at the start of trailing white space |
| Text.TrimPadded | TelegramTpBugNotification/Bots/TpNotificationBot.cs:55 | trimming any white-space padding around a word gives the word back |
| Text.TrimIdempotent | TelegramTpBugNotification/Bots/TpNotificationBot.cs:55 | trimming twice is trimming once |
| Text.Split | TelegramTpBugNotification/Bots/TpNotificationBot.cs:95 | at least one field, none holding the separator; input without the separator gives one field |
| Text.JoinSplit | TelegramTpBugNotification/Bots/TpNotificationBot.cs:95 | joining the fields of a split restores the input |
| Text.SplitJoin | TelegramTpBugNotification/Bots/TpNotificationBot.cs:95 | splitting joined separator-free fields gives the fields back |
| Text.SplitPrefix | TelegramTpBugNotification/Bots/TpNotificationBot.cs:95 | a separator-free word, then the separator, splits into that word followed by the fields of the rest |
| TpNotificationBot.Route | TelegramTpBugNotification/Bots/TpNotificationBot.cs:59-78 | each of the three keywords, matched exactly, selects its command; any other text is a registration with that text as login |
| TpNotificationBot.PaddedKeywordRoutes | TelegramTpBugNotification/Bots/TpNotificationBot.cs:55-61 | a keyword with any white-space padding still selects its command |
| TpNotificationBot.RegisterUser | TelegramTpBugNotification/Bots/TpNotificationBot.cs:130-154 | a known login is upserted and confirmed; an unknown one stores nothing and sends the rejection, then the start prompt |
| TpNotificationBot.OnMessage | TelegramTpBugNotification/Bots/TpNotificationBot.cs:47-84 | see (5) below |
| TpNotificationBot.ParseCallback | TelegramTpBugNotification/Bots/TpNotificationBot.cs:88-103 | see (6) below |
| TpNotificationBot.CallbackPayloadRoundTrip | TelegramTpBugNotification/Scheduled/BugsChecker.cs:52 | the button payload of a notification id without `\|` is handled as a request for the notification its id field parses to; when parsing gives the id back, for that very notification |
| TpNotificationBot.OnCallbackQuery | TelegramTpBugNotification/Bots/TpNotificationBot.cs:86-121 | see (7) below |
| TpNotificationBot.CardsOwnedBy | TelegramTpBugNotification/Bots/TpNotificationBot.cs:156-171 | a bug list built from one user's bugs shows no card of another user |

Notes on the longer rows:

1. `StoreLemmas.UpsertAllShape`:
   - stored records keep their position and id;
   - flags are never cleared;
   - a record is appended only for an unknown id;
   - every fetched id is stored;
   - the first record of a fetched id has the last fetched fields;
   - every other record is unchanged.
2. `CheckerLemmas.StepNotificationContents`:
   - a notification is created iff the reconciled store holds an actionable
     bug of the user;
   - it is the user's, unsent, and uses the fresh id;
   - it lists every actionable id and nothing else;
   - its ids are those of the selection, in the selection's order (ascending
     state), one per selected record;
   - it is appended to the log after the flags are set.
3. `CheckerLemmas.ReconcileMirrorsSnapshot`: among the records a lookup by id
   finds, exactly those whose id the snapshot lists are open, and those
   belong to the user.
4. `CheckerLemmas.TickNotificationLog`:
   - the old log is kept as a prefix;
   - the i-th summary reports the bug count and the callback payload of the
     i-th new notification;
   - at most one new notification has no summary, and none does when the pass
     completes;
   - every new notification is unsent and non-empty.
5. `TpNotificationBot.OnMessage`:
   - a message with no text, or more than 10 seconds old, sends nothing and
     stores nothing;
   - otherwise the trimmed text selects one of these effects:
     - `/start` sends the start prompt;
     - `/all_bugs` sends the sender's open bugs;
     - `/unsubscribe` does nothing;
     - any other text is handled as `RegisterUser`.
6. `TpNotificationBot.ParseCallback`, on the payload split at `|`:
   - missing or white-space data is ignored;
   - a first field other than `/notification_bugs` is only acknowledged;
   - a `/notification_bugs` payload with no second field, or with one that
     does not parse, is ignored;
   - otherwise the parsed id is shown.
7. `TpNotificationBot.OnCallbackQuery`:
   - an ignored payload sends nothing, not even the acknowledgement;
   - otherwise the acknowledgement comes last;
   - for a notification, the acknowledgement is preceded by the sender's bugs
     among that notification's ids, or by nothing when the lookup finds no
     notification;
   - a card never shows another user's bug.
8. `CheckerLemmas.StepKeepsSilenced`, for a set of ids that are stored and
   whose records are all flagged:
   - after the step they still are;
   - the notification the step creates lists none of them;
   - the ids it lists are stored and all their records flagged.
9. `CheckerLemmas.PassAnnouncesOnce`: if every id listed by the log is stored
   with all its records flagged, and no two notifications share an id, both
   still hold after a pass. An empty store and log start in this state, so no
   bug id is ever listed by two notifications, within one pass or across
   passes.

## Left out

- The SQL queries are not modelled. `CheckTpUserExists` is an arbitrary
  function parameter. `GetTpUserOpenBugs` is represented only by its contract,
  `BugsChecker.TicketSourceSnapshot`:
  - states `New` to `Verifying`;
  - owned by the subscriber;
  - flag clear.

  The developer-role, feature and date filters are not modelled.
- `Program.cs` and `TelegramBotManager.cs` (configuration, client set-up,
  start-up) are not part of this model.
- The endless loop, the one-minute sleep, `Task.Factory.StartNew` and the
  races between `async void` handlers and the checker are not modelled. The
  model covers one pass of the loop and one inbound event at a time.
- Store operations are assumed never to throw. Only the ticket-source query
  and the summary send can fail, and both failures are parameters of the pass.
- The sends inside the message and button handlers are assumed to succeed.
- A thrown `CheckTpUserExists` or store call inside a handler is not
  modelled.
- Message text, HTML formatting and button markup are not modelled. An
  outgoing message records its chat and the data its text is built from.
- `UnsubscribeUser` is called for `/unsubscribe` but is not defined in the
  store class, so it is not part of this model. `OnMessage` gives that
  command no effect.
- `GetNotSentNotifications` is not modelled. It discards its result and has
  no effect.
- `GetUsers` is not modelled as its own function. `Tick` reads the users
  collection directly.
- Mongo `ObjectId` generation on insert is not modelled. A fetched bug is
  stored with the key it carries.
- Ties in the state sort are not pinned down. The model sorts stably, but
  every contract says only "sorted by state and a permutation", because the
  database leaves the tie order unspecified.
- `TpNotificationBot.OnMessage`: staleness is compared in whole seconds. The
  source compares a fractional `TotalSeconds`, so a message between 10 and 11
  seconds old is handled here but dropped by the source.
- `TpNotificationBot.OnCallbackQuery`: the chat the bug list goes to is a
  field of the query. The case where the button's message is missing, which
  throws in the source and is swallowed, is not modelled.
- `CheckerLemmas.ReconcileIdempotent` requires the snapshot to list each id
  once. With a repeated id, a second pass can set a flag the first pass left
  clear, so the unrestricted claim is false.
