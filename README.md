# Notification store of a banking notifications app, in Dafny

The app keeps an in-memory store of notifications shown to the user. This
project models two versions of that store and the relative-time label of the
notification list. Each store is a Dafny class whose methods update its fields
in place.

- `NotificationStore.Store` models the current store. It holds:
  - the visible list and its cached unread count;
  - a pending list of server and programmed notifications, which only a
    pull-to-refresh makes visible;
  - the "new notifications" banner flag, the load guard, the time of the last
    refresh and the handles of the two periodic timers.

  Its operations:
  - add, mark one read, mark all read, delete, clear;
  - programmed arrivals, deduplicated by payload identifier;
  - simulated server notifications;
  - the banner rules and the refresh;
  - the guarded load and the deferred startup step;
  - reconciliation with the notifications the platform is presenting. A
    presented notification is already known when an entry has the same
    payload identifier, or the same title less than 3000 ms apart.
- `EarlyNotificationStore.Store` models the earlier store. It holds only the
  visible list, the count and the loaded flag. Its load is unguarded: every
  load reinstalls the demo list. Its reconciliation recognises a presented
  notification by title alone, within 10000 ms, and only against the visible
  list.
- `NotificationsScreen.FormatTime` models the label beside each entry: "Ahora"
  under a minute, then whole minutes, hours or days.

Shared pieces:
- `NotificationTypes` holds the records and the truthiness helpers.
- `NotificationLists` holds the pure list transforms both stores use (map,
  filter, count, reverse) and the lemmas about them.

Both stores keep one invariant through every operation. The cached count
equals the number of unread visible entries, and ids are unique. In the
current store, pending entries are also all unread, disjoint from the visible
ones by id, and the banner is up only when something is pending.

Inputs the source takes from the environment become parameters:
- the clock (`now`, and the `bootTime` at which the demo list is stamped);
- the generated ids, each required to be fresh;
- the type drawn at random and the random transaction amount text;
- the list the platform presents.

The dismissal the current store requests from the platform becomes a
returned flag.

## Model

| member | source | states |
|---|---|---|
| NotificationTypes.Materialize | src/store/useNotificationStore.ts:193-198 | the record added is the draft with the given id and time stamp, unread |
| NotificationTypes.TruthyString | src/store/useNotificationStore.ts:121 | an optional text is truthy when it is present and not empty |
| NotificationTypes.TruthyNumber | src/store/useNotificationStore.ts:226-228 | an optional number is truthy when it is present and not zero |
| NotificationTypes.StringOr | src/store/useNotificationStore.ts:133-134 | `text \|\| fallback`: a truthy text is kept, and is then non-empty; anything else gives the fallback |
| NotificationLists.CountUnread | src/store/useNotificationStore.ts:175 | the unread count never exceeds the list's length |
| NotificationLists.CountUnreadConcat | src/store/useNotificationStore.ts:317-318 | the unread count of a concatenation is the sum of the counts |
| NotificationLists.CountUnreadAllUnread | src/store/useNotificationStore.ts:318 | a list of unread entries counts its whole length |
| NotificationLists.CountUnreadWithId | src/store/useNotificationStore.ts:251 | the unread entries with an id are among all unread entries |
| NotificationLists.IdSet | src/types/notifications.ts:3-12 | every entry's id is in the id set |
| NotificationLists.IdSetWitness | src/types/notifications.ts:3-12 | an id in the set is carried by some entry |
| NotificationLists.IdSetCons | src/store/useNotificationStore.ts:201 | prepending adds exactly the new id |
| NotificationLists.IdSetConcat | src/store/useNotificationStore.ts:317 | the ids of a concatenation are the union of the ids |
| NotificationLists.UniqueIdsCons | src/store/useNotificationStore.ts:201 | prepending a fresh id keeps ids unique |
| NotificationLists.UniqueIdsConcat | src/store/useNotificationStore.ts:317 | concatenating lists with unique, disjoint ids keeps ids unique |
| NotificationLists.UniqueIdsSnoc | src/store/useNotificationStore.ts:238 | appending a fresh id keeps ids unique |
| NotificationLists.SameIdsKeep | src/store/useNotificationStore.ts:245-249 | a map that keeps every id keeps the id set and uniqueness |
| NotificationLists.MarkRead | src/store/useNotificationStore.ts:245-249 | same length and order; entries with the id become read and nothing else changes |
| NotificationLists.MarkReadIdempotent | src/store/useNotificationStore.ts:245-249 | marking an id read twice is marking it once |
| NotificationLists.MarkReadAbsent | src/store/useNotificationStore.ts:245-249 | marking an absent id read leaves the list as it was |
| NotificationLists.MarkReadCount | src/store/useNotificationStore.ts:245-251 | the count drops by the number of unread entries with that id |
| NotificationLists.UniqueUnreadEntry | src/store/useNotificationStore.ts:245-251 | with unique ids, an unread entry is the only unread entry with its id |
| NotificationLists.AbsentIdCountsZero | src/store/useNotificationStore.ts:245-251 | no unread entry carries an absent id |
| NotificationLists.MarkReadOneEntry | src/store/useNotificationStore.ts:245-251 | with unique ids, marking an unread entry read lowers the count by one |
| NotificationLists.MarkAllRead | src/store/useNotificationStore.ts:262-265 | same length; every entry is the original one marked read |
| NotificationLists.MarkAllReadCount | src/store/useNotificationStore.ts:262-266 | after marking all read nothing is unread |
| NotificationLists.Without | src/store/useNotificationStore.ts:272-274 | an entry survives exactly when it was there and has another id |
| NotificationLists.WithoutConcat | src/store/useNotificationStore.ts:272-274 | the filter distributes over concatenation, so relative order is kept |
| NotificationLists.WithoutAbsent | src/store/useNotificationStore.ts:272-274 | deleting an absent id leaves the list as it was |
| NotificationLists.WithoutCount | src/store/useNotificationStore.ts:272-275 | the count drops by the number of unread entries with that id |
| NotificationLists.WithoutIds | src/store/useNotificationStore.ts:272-274 | deleting removes exactly that id from the id set and keeps ids unique |
| NotificationLists.Reversed | src/store/useNotificationStore.ts:143-146 | reversal keeps the length |
| NotificationLists.ReversedAt | src/store/useNotificationStore.ts:143-146 | the k-th entry of the reversal is the k-th from the end |
| NotificationLists.ReversedSnoc | src/store/useNotificationStore.ts:143-146 | reversing after appending puts the new entry first |
| NotificationLists.ReversedIdSet | src/store/useNotificationStore.ts:143-146 | reversal keeps the id set |
| NotificationLists.ReversedCount | src/store/useNotificationStore.ts:143-146 | reversal keeps the unread count |
| NotificationLists.ReversedSnocUnique | src/store/useNotificationStore.ts:143-146 | appending an entry with a fresh id keeps the reversal's ids unique |
| NotificationStore.Seed | src/store/useNotificationStore.ts:6-47 | the demo list has four entries |
| NotificationStore.SeedFacts | src/store/useNotificationStore.ts:6-47 | the demo ids are "1" to "4", distinct, and two entries are unread |
| NotificationStore.CarriesIdentifier | src/store/useNotificationStore.ts:212-218 | some entry of a list stores the identifier in its payload; the arrival staged by AddProgrammedNotification carries its own identifier, as ProgrammedArrivalDedup uses |
| NotificationStore.AlreadyKnown | src/store/useNotificationStore.ts:209-223 | a programmed arrival is dropped exactly when its payload has a truthy identifier that an entry of either list carries; AddProgrammedNotification changes nothing in that case |
| NotificationStore.ScheduledTimestamp | src/store/useNotificationStore.ts:226-228 | the time stamp is a non-zero scheduledFor of the payload when there is one; else a non-zero originalTimestamp; else now |
| NotificationStore.ScheduledZeroIsMissing | src/store/useNotificationStore.ts:226-228 | a zero scheduledFor or originalTimestamp counts as missing |
| NotificationStore.ServerNotification | src/store/useNotificationStore.ts:343-384 | the simulated record is unread, stamped now, marked as from the server; security and urgent are high priority, transaction and promotion medium, system low |
| NotificationStore.MissedNotification | src/store/useNotificationStore.ts:131-140 | the imported record is unread and stamped with the delivery date; title and body are kept when truthy, else the two default texts; type and priority come from the payload, else system and medium; the payload is kept (empty when absent) with its identifier set to the platform's request identifier |
| NotificationStore.Imported | src/store/useNotificationStore.ts:115-149 | a check imports at most one record per presented notification |
| NotificationStore.ImportedIdsBelow | src/store/useNotificationStore.ts:131-132 | the id of a later presented notification is not used by an earlier import |
| NotificationStore.ImportedExactly | src/store/useNotificationStore.ts:120-130 | a presented notification is imported exactly when it matches nothing in the snapshot of either list, by identifier or by title within 3000 ms |
| NotificationStore.ImportedNothing | src/store/useNotificationStore.ts:120-130 | nothing is imported when every presented notification is already known |
| NotificationStore.BatchDuplicatesBothImported | src/store/useNotificationStore.ts:112-130 | the snapshot is taken once, so two identical unknown presented notifications are both imported |
| NotificationStore.UnrecognisableMatchesNothing | src/store/useNotificationStore.ts:120-128 | a presented notification without title and identifier matches no entry |
| NotificationStore.Matches | src/store/useNotificationStore.ts:120-123 | an entry is the presented notification when both carry the same truthy identifier, or have the same title less than 3000 ms apart |
| NotificationStore.MatchesSome | src/store/useNotificationStore.ts:120-123 | `some` over the list, characterised by MatchesSomeExists |
| NotificationStore.MatchesSomeExists | src/store/useNotificationStore.ts:120-123 | the list matches exactly when one of its entries matches |
| NotificationStore.AlreadyPresent | src/store/useNotificationStore.ts:120-130 | a presented notification is skipped when it matches an entry of the visible list or of the pending list; ImportedExactly ties this to the import |
| NotificationStore.UnrecognisableAlwaysImported | src/store/useNotificationStore.ts:120-146 | such a notification is imported again by every check |
| NotificationStore.MatchesSomeGrows | src/store/useNotificationStore.ts:120-123 | a match in a list is still a match after entries are prepended |
| NotificationStore.MatchesSomeAt | src/store/useNotificationStore.ts:120-123 | an entry that matches makes the list match |
| NotificationStore.Reconciled | src/store/useNotificationStore.ts:143-146 | the list after a check keeps every old entry and gains at most one per presented notification |
| NotificationStore.ReconciledKeepsList | src/store/useNotificationStore.ts:143-146 | the list after a check is the imports, newest first, ahead of the old list |
| NotificationStore.ReconciledCovers | src/store/useNotificationStore.ts:120-146 | after a check every titled presented notification is matched by the list |
| NotificationStore.ReconcileTwiceImportsNothing | src/store/useNotificationStore.ts:120-146 | a second check of the same titled batch imports nothing |
| NotificationStore.ImportedApart | src/store/useNotificationStore.ts:132 | imports share no id with a list none of the generated ids occurs in |
| NotificationStore.ImportedUnread | src/store/useNotificationStore.ts:138 | every import is unread |
| NotificationStore.ImportedUnique | src/store/useNotificationStore.ts:132 | with distinct generated ids, the imports carry unique ids |
| NotificationStore.ReconciledIds | src/store/useNotificationStore.ts:143-146 | a check keeps ids unique, keeps the visible list apart from the pending one, and adds one unread entry per import |
| NotificationStore.ImportMissed | src/store/useNotificationStore.ts:112-149 | the loop yields the reconciled list, counts the imports, and raises the unread count by that number |
| NotificationStore.Store.constructor | src/store/useNotificationStore.ts:71-78 | the store starts empty, unloaded, banner down, no timers |
| NotificationStore.Store.StartAutoChecking | src/store/useNotificationStore.ts:81-96 | a running auto-check timer is kept; a stopped one is started with a 10000 ms period |
| NotificationStore.Store.StopAutoChecking | src/store/useNotificationStore.ts:98-104 | afterwards no auto-check timer runs |
| NotificationStore.Store.AutoCheckTick | src/store/useNotificationStore.ts:88-93 | the banner is raised when something is pending, else left as it was |
| NotificationStore.Store.StartAutoNotifications | src/store/useNotificationStore.ts:393-405 | a running auto-notifications timer is kept; a stopped one is started with a 15000 ms period |
| NotificationStore.Store.StopAutoNotifications | src/store/useNotificationStore.ts:407-413 | afterwards no auto-notifications timer runs |
| NotificationStore.Store.CheckForMissedNotifications | src/store/useNotificationStore.ts:106-165 | the invariant holds; the list is the reconciled one; the count grows by the number imported; dismissal is requested exactly when something was imported |
| NotificationStore.Store.LoadNotifications | src/store/useNotificationStore.ts:168-183 | once loaded, loading changes nothing; otherwise the demo list is installed with two unread and the refresh time set |
| NotificationStore.Store.RunDeferredStartup | src/store/useNotificationStore.ts:185-189 | the deferred step reconciles as a check does and leaves both timers running |
| NotificationStore.Store.AddNotification | src/store/useNotificationStore.ts:192-204 | the new unread record is prepended, the count grows by one, pending and banner untouched |
| NotificationStore.Store.MarkAsRead | src/store/useNotificationStore.ts:243-258 | the list is the marked one and the count drops by the unread entries with that id |
| NotificationStore.Store.MarkAllAsRead | src/store/useNotificationStore.ts:260-268 | every entry is read and the count is zero |
| NotificationStore.Store.DeleteNotification | src/store/useNotificationStore.ts:270-282 | the entries with that id are removed and the count drops by those unread |
| NotificationStore.Store.ClearAllNotifications | src/store/useNotificationStore.ts:284-289 | the visible list is empty and the count zero; pending and banner untouched |
| NotificationStore.Store.AddProgrammedNotification | src/store/useNotificationStore.ts:207-241 | the visible list and count never change; a known identifier changes nothing; otherwise one record with the scheduled time is appended to pending and the banner raised |
| NotificationStore.Store.SimulateServerNotification | src/store/useNotificationStore.ts:342-390 | the visible list and count never change; the server record is appended to pending and the banner raised |
| NotificationStore.Store.CheckForNewNotifications | src/store/useNotificationStore.ts:291-306 | returns true, raising the banner, exactly when something is pending and the banner was down |
| NotificationStore.Store.RefreshNotifications | src/store/useNotificationStore.ts:309-333 | pending moves in order ahead of the visible list, the count grows by its length, pending empties, the banner goes down |
| NotificationStore.Store.DismissNewNotificationsBanner | src/store/useNotificationStore.ts:335-339 | the banner goes down and pending stays |
| NotificationStore.ProgrammedArrivalDedup | src/store/useNotificationStore.ts:209-223 | two programmed arrivals with one new identifier stage exactly one record |
| EarlyNotificationStore.Seed | store/useNotificationStore.ts:6-47 | the demo list has four entries |
| EarlyNotificationStore.SeedFacts | store/useNotificationStore.ts:6-47 | the demo ids are "1" to "4", distinct, and two entries are unread |
| EarlyNotificationStore.MissedNotification | store/useNotificationStore.ts:87-96 | the imported record is unread and stamped with the delivery date; title and body are kept when truthy, else the two default texts; type and priority come from the payload, else system and medium; the payload is kept as it came, `{}` when there is none |
| EarlyNotificationStore.Imported | store/useNotificationStore.ts:75-106 | a check imports at most one record per presented notification |
| EarlyNotificationStore.ImportedIdsBelow | store/useNotificationStore.ts:88 | the id of a later presented notification is not used by an earlier import |
| EarlyNotificationStore.ImportedExactly | store/useNotificationStore.ts:79-84 | a presented notification is imported exactly when no entry of the snapshot has its title within 10000 ms |
| EarlyNotificationStore.UntitledMatchesNothing | store/useNotificationStore.ts:79-82 | a presented notification without a title matches no entry |
| EarlyNotificationStore.Matches | store/useNotificationStore.ts:79-82 | an entry is the presented notification when they have the same title less than 10000 ms apart |
| EarlyNotificationStore.MatchesSome | store/useNotificationStore.ts:79-82 | `some` over the list, characterised by MatchesSomeExists |
| EarlyNotificationStore.MatchesSomeExists | store/useNotificationStore.ts:79-82 | the list matches exactly when one of its entries matches |
| EarlyNotificationStore.UntitledAlwaysImported | store/useNotificationStore.ts:79-102 | such a notification is imported again by every check |
| EarlyNotificationStore.MatchesSomeAt | store/useNotificationStore.ts:79-82 | an entry that matches makes the list match |
| EarlyNotificationStore.MatchesSomeGrows | store/useNotificationStore.ts:79-82 | a match in a list is still a match after entries are prepended |
| EarlyNotificationStore.ReconciledCovers | store/useNotificationStore.ts:79-102 | after a check every titled presented notification is matched by the list |
| EarlyNotificationStore.ImportedNothing | store/useNotificationStore.ts:79-84 | nothing is imported when every presented notification is already known |
| EarlyNotificationStore.CheckTwiceImportsNothing | store/useNotificationStore.ts:75-106 | a second check of the same titled batch imports nothing |
| EarlyNotificationStore.Reconciled | store/useNotificationStore.ts:99-102 | the list after a check keeps every old entry and gains at most one per presented notification |
| EarlyNotificationStore.ImportedApart | store/useNotificationStore.ts:88 | imports share no id with a list none of the generated ids occurs in |
| EarlyNotificationStore.ImportedUnread | store/useNotificationStore.ts:94 | every import is unread |
| EarlyNotificationStore.ImportedUnique | store/useNotificationStore.ts:88 | with distinct generated ids, the imports carry unique ids |
| EarlyNotificationStore.ReconciledIds | store/useNotificationStore.ts:99-102 | a check keeps ids unique and adds one unread entry per import |
| EarlyNotificationStore.ImportMissed | store/useNotificationStore.ts:72-106 | the loop yields the reconciled list and raises the unread count by the number imported |
| EarlyNotificationStore.Store.constructor | store/useNotificationStore.ts:57-59 | the store starts empty and unloaded |
| EarlyNotificationStore.Store.CheckForMissedNotifications | store/useNotificationStore.ts:62-116 | the invariant holds; the list is the reconciled one; the count grows by the number imported |
| EarlyNotificationStore.Store.LoadNotifications | store/useNotificationStore.ts:119-134 | whatever the store held, the result is the demo list reconciled with the presented notifications, with two plus the imports unread |
| EarlyNotificationStore.Store.AddNotification | store/useNotificationStore.ts:136-150 | the new unread record is prepended and the count grows by one |
| EarlyNotificationStore.Store.MarkAsRead | store/useNotificationStore.ts:152-169 | the list is the marked one and the count drops by the unread entries with that id |
| EarlyNotificationStore.Store.MarkAllAsRead | store/useNotificationStore.ts:171-181 | every entry is read and the count is zero |
| EarlyNotificationStore.Store.DeleteNotification | store/useNotificationStore.ts:183-197 | the entries with that id are removed and the count drops by those unread |
| EarlyNotificationStore.Store.ClearAllNotifications | store/useNotificationStore.ts:199-206 | the list is empty and the count zero |
| EarlyNotificationStore.ReloadDiscardsAdditions | store/useNotificationStore.ts:119-127 | a notification added before a reload is gone after it: the list is the demo list again |
| NotificationsScreen.AgeOf | src/screens/NotificationsScreen.tsx:55-64 | exactly one of: under a minute; whole minutes 1 to 59; whole hours 1 to 23; whole days from 1; each count is the floor of the age in that unit |
| NotificationsScreen.AgeOfMonotone | src/screens/NotificationsScreen.tsx:57-64 | an older notification never shows a younger age |
| NotificationsScreen.DigitChar | src/screens/NotificationsScreen.tsx:62-64 | the character of a digit denotes that digit |
| NotificationsScreen.Decimal | src/screens/NotificationsScreen.tsx:62-64 | a number's text is non-empty, all digits, with no leading zero |
| NotificationsScreen.DecimalRoundTrip | src/screens/NotificationsScreen.tsx:62-64 | reading a number's text back gives the number |
| NotificationsScreen.Label | src/screens/NotificationsScreen.tsx:61-64 | the label is "Ahora" exactly for just now; otherwise its last letter is m, h or d by the unit and the digits before it read back as the count |
| NotificationsScreen.LabelInjective | src/screens/NotificationsScreen.tsx:61-64 | different ages never get the same label |
| NotificationsScreen.UnitCountUnique | src/screens/NotificationsScreen.tsx:57-59 | an age holds one whole count of a unit only |
| NotificationsScreen.FormatTime | src/screens/NotificationsScreen.tsx:54-65 | the label is "Ahora" exactly when the age is under a minute, future time stamps included |
| NotificationsScreen.FormatTimeMinutes | src/screens/NotificationsScreen.tsx:57-62 | from one minute to one hour the label is the whole minutes followed by "m" |
| NotificationsScreen.FormatTimeHours | src/screens/NotificationsScreen.tsx:58-63 | from one hour to one day the label is the whole hours followed by "h" |
| NotificationsScreen.FormatTimeDays | src/screens/NotificationsScreen.tsx:59-64 | from one day on the label is the whole days followed by "d" |

## Left out

- Platform calls: reading the presented notifications and dismissing them.
  The presented list is a parameter, and the dismissal request is a returned
  flag. Platform errors, which the source swallows, are not modelled.
- Asynchrony: each operation is atomic. In the source, `await` points let
  other operations interleave with a check for missed notifications. The
  earlier store's load also starts its check without waiting for it.
- The check's loop reads a snapshot and writes the store once per import. The
  model builds the new list from the snapshot and assigns the fields once,
  after the loop. The loop has no `await`, so the end state is the same.
- The current check skips its loop when nothing is presented. That guard
  changes nothing observable, since an empty loop imports nothing.
- Real timer scheduling: only each timer's handle and its period are modelled.
  One auto-check firing is `AutoCheckTick`. One auto-notifications firing is a
  call of `SimulateServerNotification`. The one-second delay before the
  startup step is not modelled.
- Clock and randomness: every call takes the time, the generated id, the
  drawn notification type and the random amount text as parameters. Each id
  is required to be absent from both lists and from the demo ids, and the ids
  of one check to be pairwise distinct. Generated ids make a collision
  unlikely but not impossible, so the model assumes freshness.
- Payload keys the stores never read: the demo payloads' location, amount,
  discount and so on, and keys the platform adds. A `type` or `priority`
  string outside the known values is not modelled either.
- Logging, permissions, listeners, push tokens, persistence and the rest of
  the screens are not part of this model.
- NotificationStore.Store.CheckForMissedNotifications: states the result for
  one presented list, read once. Re-reading the platform's list between checks
  is up to the caller.
