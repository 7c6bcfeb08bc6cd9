/** The notification store: the visible list with its cached unread count,
    the pending list of server notifications that only a refresh makes
    visible, the "new notifications" banner flag, the load guard and the two
    timer handles. */
module NotificationStore {
  import opened NotificationTypes
  import opened NotificationLists

  /** Period of the auto-check timer. */
  const AutoCheckPeriodMs: nat := 10000
  /** Period of the auto-notifications timer. */
  const AutoNotificationsPeriodMs: nat := 15000
  /** Two notifications with the same title are the same one when their
      times differ by less than this. */
  const MissedWindowMs: int := 3000

  /** A running periodic timer. */
  datatype Interval = Interval(periodMs: nat)

  // ---------------------------------------------------------------------------
  // Seed fixture
  // ---------------------------------------------------------------------------

  /** The display texts of the four demo notifications. */
  const SeedDescriptions: seq<string> := [
    "Se detectó un acceso desde un nuevo dispositivo en Buenos Aires. Si no fuiste tú, revisa tu cuenta inmediatamente.",
    "Se procesó exitosamente tu transferencia por $45,000 ARS a María García.",
    "¡Obtén hasta 5% de descuento en todas tus transferencias durante enero!",
    "El sistema estará en mantenimiento el domingo 14/01 de 2:00 a 4:00 AM."]

  /** The four demo notifications, stamped relative to the time the store
      module was evaluated; two of them are unread. */
  function Seed(bootTime: int): (s: seq<Notification>)
    ensures |s| == 4
  {
    [ Notification("1", "Alerta de Seguridad", SeedDescriptions[0],
        Security, bootTime - 15 * MinuteMs, false, High, Some(EmptyPayload)),
      Notification("2", "Transferencia Realizada", SeedDescriptions[1],
        Transaction, bootTime - 2 * HourMs, false, Medium, Some(EmptyPayload)),
      Notification("3", "Nueva Promoción", SeedDescriptions[2],
        Promotion, bootTime - 4 * HourMs, true, Medium, Some(EmptyPayload)),
      Notification("4", "Mantenimiento Programado", SeedDescriptions[3],
        System, bootTime - 24 * HourMs, true, Low, Some(EmptyPayload)) ]
  }

  /** The fixture's ids are the seed ids, pairwise distinct, and two of its
      entries are unread. */
  lemma SeedFacts(bootTime: int)
    ensures CountUnread(Seed(bootTime)) == 2 && UniqueIds(Seed(bootTime))
    ensures IdSet(Seed(bootTime)) == SeedIds
  {
    var s := Seed(bootTime);
    assert s[1..][1..] == s[2..] && s[2..][1..] == s[3..] && s[3..][1..] == [];
    assert s[3].isRead && s[2].isRead && !s[1].isRead && !s[0].isRead;
    assert CountUnread(s[3..]) == 0;
    assert CountUnread(s[2..]) == 0;
    assert CountUnread(s[1..]) == 1;
    assert IdSet(s[3..]) == {"4"};
    assert IdSet(s[2..]) == {"3", "4"};
    assert IdSet(s[1..]) == {"2", "3", "4"};
    assert s[0].id == "1" && s[1].id == "2" && s[2].id == "3" && s[3].id == "4";
    assert UniqueIds(s[3..]);
    assert UniqueIds(s[2..]);
    assert UniqueIds(s[1..]);
  }

  // ---------------------------------------------------------------------------
  // Programmed arrivals
  // ---------------------------------------------------------------------------

  /** Some entry of `s` carries `identifier` in its payload. */
  predicate CarriesIdentifier(s: seq<Notification>, identifier: string)
  {
    exists k :: 0 <= k < |s| && StoredIdentifier(s[k]) == Some(identifier)
  }

  /** A programmed arrival is dropped when its payload has a (truthy)
      identifier that an entry of either list already carries. */
  predicate AlreadyKnown(main: seq<Notification>, pending: seq<Notification>, d: Draft)
  {
    d.data.Some? && TruthyString(d.data.value.identifier)
    && (CarriesIdentifier(main, d.data.value.identifier.value)
        || CarriesIdentifier(pending, d.data.value.identifier.value))
  }

  /** `data?.scheduledFor || data?.originalTimestamp || now`. */
  function ScheduledTimestamp(data: Option<Payload>, now: int): (t: int)
    ensures t == now
            || (t != 0 && data.Some?
                && (data.value.scheduledFor == Some(t) || data.value.originalTimestamp == Some(t)))
    ensures data.Some? && TruthyNumber(data.value.scheduledFor) ==> t == data.value.scheduledFor.value
    ensures data.Some? && !TruthyNumber(data.value.scheduledFor) && TruthyNumber(data.value.originalTimestamp)
            ==> t == data.value.originalTimestamp.value
    ensures !(data.Some? && (TruthyNumber(data.value.scheduledFor) || TruthyNumber(data.value.originalTimestamp)))
            ==> t == now
  {
    if data.Some? && TruthyNumber(data.value.scheduledFor) then data.value.scheduledFor.value
    else if data.Some? && TruthyNumber(data.value.originalTimestamp) then data.value.originalTimestamp.value
    else now
  }

  /** Because the chain uses `||`, a zero time stamp counts as missing. */
  lemma ScheduledZeroIsMissing(p: Payload, now: int)
    ensures ScheduledTimestamp(Some(p.(scheduledFor := Some(0))), now)
         == ScheduledTimestamp(Some(p.(scheduledFor := None)), now)
    ensures ScheduledTimestamp(Some(p.(scheduledFor := None, originalTimestamp := Some(0))), now) == now
  {
  }

  // ---------------------------------------------------------------------------
  // Simulated server notifications
  // ---------------------------------------------------------------------------

  /** Titles and texts of the simulated server notifications, by type; the
      transaction text is split around the random amount. */
  const ServerSecurityTitle: string := "Alerta del Servidor"
  const ServerSecurityText: string := "Nueva alerta de seguridad detectada desde el servidor."
  const ServerTransactionTitle: string := "Transacción del Servidor"
  const ServerTransactionTextHead: string := "Nueva transacción procesada: $"
  const ServerTransactionTextTail: string := " ARS."
  const ServerPromotionTitle: string := "Promoción del Servidor"
  const ServerPromotionText: string := "Nueva oferta especial disponible desde el servidor."
  const ServerSystemTitle: string := "Actualización del Servidor"
  const ServerSystemText: string := "Nueva actualización del sistema disponible."
  const ServerUrgentTitle: string := "Urgente del Servidor"
  const ServerUrgentText: string := "Notificación urgente que requiere atención inmediata."

  /** The record `simulateServerNotification` builds for the drawn type; the
      random amount of the transaction text is passed in as `amountText`. */
  function ServerNotification(kind: NotificationType, id: string, now: int, amountText: string): (n: Notification)
    ensures n.id == id && n.kind == kind && n.timestamp == now && !n.isRead
    ensures n.data == Some(EmptyPayload.(fromServer := Some(true), timestamp := Some(now)))
    ensures n.priority == High <==> kind == Security || kind == Urgent
    ensures n.priority == Medium <==> kind == Transaction || kind == Promotion
    ensures n.priority == Low <==> kind == System
  {
    var data := Some(EmptyPayload.(fromServer := Some(true), timestamp := Some(now)));
    match kind
    case Security =>
      Notification(id, ServerSecurityTitle, ServerSecurityText, kind, now, false, High, data)
    case Transaction =>
      Notification(id, ServerTransactionTitle, ServerTransactionTextHead + amountText + ServerTransactionTextTail,
        kind, now, false, Medium, data)
    case Promotion =>
      Notification(id, ServerPromotionTitle, ServerPromotionText, kind, now, false, Medium, data)
    case System =>
      Notification(id, ServerSystemTitle, ServerSystemText, kind, now, false, Low, data)
    case Urgent =>
      Notification(id, ServerUrgentTitle, ServerUrgentText, kind, now, false, High, data)
  }

  // ---------------------------------------------------------------------------
  // Reconciliation of platform-presented notifications
  // ---------------------------------------------------------------------------

  /** `n` is the presented notification `p`: the same truthy identifier, or
      the same title less than three seconds apart (either test suffices). */
  predicate Matches(n: Notification, p: Presented)
  {
    (TruthyString(PresentedIdentifier(p)) && StoredIdentifier(n) == PresentedIdentifier(p))
    || (p.title == Some(n.title) && Abs(n.timestamp - p.date) < MissedWindowMs)
  }

  /** `s.some(n => Matches(n, p))`. */
  predicate MatchesSome(s: seq<Notification>, p: Presented)
  {
    s != [] && (Matches(s[0], p) || MatchesSome(s[1..], p))
  }

  /** `existsInMain || existsInPending`. */
  predicate AlreadyPresent(main: seq<Notification>, pending: seq<Notification>, p: Presented)
  {
    MatchesSome(main, p) || MatchesSome(pending, p)
  }

  /** The record a missed notification becomes: defaults for a missing title,
      body, type and priority, and the platform's request identifier stored
      as the payload's identifier. */
  function MissedNotification(p: Presented, id: string): (n: Notification)
    ensures n.id == id && !n.isRead && n.timestamp == p.date
    ensures StoredIdentifier(n) == Some(p.requestIdentifier)
    ensures p.data.Some? ==> n.data == Some(p.data.value.(identifier := Some(p.requestIdentifier)))
    ensures p.data.None? ==> n.data == Some(EmptyPayload.(identifier := Some(p.requestIdentifier)))
    ensures TruthyString(p.title) ==> n.title == p.title.value
    ensures !TruthyString(p.title) ==> n.title == DefaultTitle
    ensures TruthyString(p.body) ==> n.description == p.body.value
    ensures !TruthyString(p.body) ==> n.description == DefaultDescription
    ensures p.data.Some? && p.data.value.kind.Some? ==> n.kind == p.data.value.kind.value
    ensures !(p.data.Some? && p.data.value.kind.Some?) ==> n.kind == System
    ensures p.data.Some? && p.data.value.priority.Some? ==> n.priority == p.data.value.priority.value
    ensures !(p.data.Some? && p.data.value.priority.Some?) ==> n.priority == Medium
  {
    var kind := if p.data.Some? && p.data.value.kind.Some? then p.data.value.kind.value else System;
    var priority := if p.data.Some? && p.data.value.priority.Some? then p.data.value.priority.value else Medium;
    var data := if p.data.Some? then p.data.value.(identifier := Some(p.requestIdentifier))
                else EmptyPayload.(identifier := Some(p.requestIdentifier));
    Notification(id, StringOr(p.title, DefaultTitle), StringOr(p.body, DefaultDescription),
      kind, p.date, false, priority, Some(data))
  }

  /** The notifications one reconciliation imports from the first `n`
      presented ones, in the order the platform lists them: those that match
      nothing in the snapshot of the two lists taken before the loop, the
      i-th built with `ids[i]`. */
  function Imported(main: seq<Notification>, pending: seq<Notification>,
                    presented: seq<Presented>, ids: seq<string>, n: nat): (r: seq<Notification>)
    requires |ids| == |presented| && n <= |presented|
    ensures |r| <= n
  {
    if n == 0 then []
    else
      var before := Imported(main, pending, presented, ids, n - 1);
      if AlreadyPresent(main, pending, presented[n - 1]) then before
      else before + [MissedNotification(presented[n - 1], ids[n - 1])]
  }

  /** An id reserved for a later presented notification is not used by the
      imports of the earlier ones. */
  lemma {:induction false} ImportedIdsBelow(main: seq<Notification>, pending: seq<Notification>,
                                            presented: seq<Presented>, ids: seq<string>, n: nat, i: nat)
    requires |ids| == |presented| && DistinctIds(ids) && n <= i < |presented|
    ensures FreshIn(Imported(main, pending, presented, ids, n), ids[i])
  {
    if n > 0 {
      var before := Imported(main, pending, presented, ids, n - 1);
      ImportedIdsBelow(main, pending, presented, ids, n - 1, i);
      if !AlreadyPresent(main, pending, presented[n - 1]) {
        var m := MissedNotification(presented[n - 1], ids[n - 1]);
        IdSetConcat(before, [m]);
        assert ids[n - 1] != ids[i];
      }
    }
  }

  /** A presented notification is imported exactly when it matches nothing in
      the snapshot. */
  lemma {:induction false} ImportedExactly(main: seq<Notification>, pending: seq<Notification>,
                                           presented: seq<Presented>, ids: seq<string>, n: nat, i: nat)
    requires |ids| == |presented| && DistinctIds(ids) && i < n <= |presented|
    ensures MissedNotification(presented[i], ids[i]) in Imported(main, pending, presented, ids, n)
            <==> !AlreadyPresent(main, pending, presented[i])
  {
    var m := MissedNotification(presented[i], ids[i]);
    var before := Imported(main, pending, presented, ids, n - 1);
    if i < n - 1 {
      ImportedExactly(main, pending, presented, ids, n - 1, i);
      assert ids[i] != ids[n - 1];
    } else {
      ImportedIdsBelow(main, pending, presented, ids, n - 1, i);
      assert m !in before;
    }
  }

  /** Nothing is imported when every presented notification is already there. */
  lemma {:induction false} ImportedNothing(main: seq<Notification>, pending: seq<Notification>,
                                           presented: seq<Presented>, ids: seq<string>, n: nat)
    requires |ids| == |presented| && n <= |presented|
    requires forall i :: 0 <= i < |presented| ==> AlreadyPresent(main, pending, presented[i])
    ensures Imported(main, pending, presented, ids, n) == []
  {
    if n > 0 {
      ImportedNothing(main, pending, presented, ids, n - 1);
    }
  }

  /** The snapshot is not refreshed inside the loop: two identical presented
      notifications that match nothing are both imported. */
  lemma BatchDuplicatesBothImported(main: seq<Notification>, pending: seq<Notification>,
                                    p: Presented, ids: seq<string>)
    requires |ids| == 2 && !AlreadyPresent(main, pending, p)
    ensures Imported(main, pending, [p, p], ids, 2)
         == [MissedNotification(p, ids[0]), MissedNotification(p, ids[1])]
  {
    assert Imported(main, pending, [p, p], ids, 1) == [MissedNotification(p, ids[0])];
  }

  /** A presented notification with neither a title nor a usable identifier
      matches nothing in any list. */
  lemma {:induction false} UnrecognisableMatchesNothing(s: seq<Notification>, p: Presented)
    requires p.title.None? && !TruthyString(PresentedIdentifier(p))
    ensures !MatchesSome(s, p)
  {
    if s != [] {
      UnrecognisableMatchesNothing(s[1..], p);
    }
  }

  /** Such a notification is imported by every check, whatever the lists hold,
      so each check adds another copy of it while it stays presented. */
  lemma UnrecognisableAlwaysImported(main: seq<Notification>, pending: seq<Notification>,
                                     presented: seq<Presented>, ids: seq<string>, i: nat)
    requires |ids| == |presented| && DistinctIds(ids) && i < |presented|
    requires presented[i].title.None? && !TruthyString(PresentedIdentifier(presented[i]))
    ensures MissedNotification(presented[i], ids[i]) in Imported(main, pending, presented, ids, |presented|)
  {
    UnrecognisableMatchesNothing(main, presented[i]);
    UnrecognisableMatchesNothing(pending, presented[i]);
    ImportedExactly(main, pending, presented, ids, |presented|, i);
  }

  lemma {:induction false} MatchesSomeGrows(a: seq<Notification>, s: seq<Notification>, p: Presented)
    requires MatchesSome(s, p)
    ensures MatchesSome(a + s, p)
  {
    if a == [] {
      assert a + s == s;
    } else {
      assert (a + s)[1..] == a[1..] + s;
      MatchesSomeGrows(a[1..], s, p);
    }
  }

  lemma {:induction false} MatchesSomeAt(s: seq<Notification>, k: nat, p: Presented)
    requires k < |s| && Matches(s[k], p)
    ensures MatchesSome(s, p)
  {
    if k > 0 {
      assert s[1..][k - 1] == s[k];
      MatchesSomeAt(s[1..], k - 1, p);
    }
  }
  /** `MatchesSome` is `some`: it holds exactly when some entry matches. */
  lemma {:induction false} MatchesSomeExists(s: seq<Notification>, p: Presented)
    ensures MatchesSome(s, p) <==> exists k :: 0 <= k < |s| && Matches(s[k], p)
  {
    if s != [] {
      MatchesSomeExists(s[1..], p);
      if MatchesSome(s[1..], p) {
        var k :| 0 <= k < |s[1..]| && Matches(s[1..][k], p);
        assert s[k + 1] == s[1..][k];
      }
      if exists k :: 0 <= k < |s| && Matches(s[k], p) {
        var k :| 0 <= k < |s| && Matches(s[k], p);
        if k > 0 {
          assert s[1..][k - 1] == s[k];
        }
      }
    }
  }


  /** The visible list after a reconciliation: the imports, newest first,
      ahead of the list as it was. */
  function Reconciled(main: seq<Notification>, pending: seq<Notification>,
                      presented: seq<Presented>, ids: seq<string>): (r: seq<Notification>)
    requires |ids| == |presented|
    ensures |main| <= |r| <= |main| + |presented|
  {
    Reversed(Imported(main, pending, presented, ids, |presented|)) + main
  }

  /** Reconciliation only prepends: the list as it was is the tail of the
      result, and what precedes it are the imports, newest first. */
  lemma ReconciledKeepsList(main: seq<Notification>, pending: seq<Notification>,
                            presented: seq<Presented>, ids: seq<string>)
    requires |ids| == |presented|
    ensures var r := Reconciled(main, pending, presented, ids);
            var k := |Imported(main, pending, presented, ids, |presented|)|;
            r[k..] == main && r[..k] == Reversed(Imported(main, pending, presented, ids, |presented|))
  {
  }

  /** After a reconciliation, every presented notification with a title is
      matched by the visible or the pending list. */
  lemma ReconciledCovers(main: seq<Notification>, pending: seq<Notification>,
                         presented: seq<Presented>, ids: seq<string>, i: nat)
    requires |ids| == |presented| && DistinctIds(ids) && i < |presented|
    requires TruthyString(presented[i].title)
    ensures AlreadyPresent(Reconciled(main, pending, presented, ids), pending, presented[i])
  {
    var imported := Imported(main, pending, presented, ids, |presented|);
    var after := Reconciled(main, pending, presented, ids);
    if MatchesSome(main, presented[i]) {
      MatchesSomeGrows(Reversed(imported), main, presented[i]);
    } else if !MatchesSome(pending, presented[i]) {
      ImportedExactly(main, pending, presented, ids, |presented|, i);
      var n := MissedNotification(presented[i], ids[i]);
      var j :| 0 <= j < |imported| && imported[j] == n;
      ReversedAt(imported, |imported| - 1 - j);
      assert after[|imported| - 1 - j] == n;
      assert Matches(n, presented[i]);
      MatchesSomeAt(after, |imported| - 1 - j, presented[i]);
    }
  }

  /** Reconciling the same titled batch a second time imports nothing. */
  lemma ReconcileTwiceImportsNothing(main: seq<Notification>, pending: seq<Notification>,
                                     presented: seq<Presented>, ids: seq<string>, ids2: seq<string>)
    requires |ids| == |presented| && |ids2| == |presented| && DistinctIds(ids)
    requires forall i :: 0 <= i < |presented| ==> TruthyString(presented[i].title)
    ensures Imported(Reconciled(main, pending, presented, ids), pending, presented, ids2, |presented|) == []
  {
    var after := Reconciled(main, pending, presented, ids);
    forall i | 0 <= i < |presented| ensures AlreadyPresent(after, pending, presented[i]) {
      ReconciledCovers(main, pending, presented, ids, i);
    }
    ImportedNothing(after, pending, presented, ids2, |presented|);
  }

  /** The imports use only the given ids: a list in which none of them
      occurs shares no id with the imports. */
  lemma {:induction false} ImportedApart(main: seq<Notification>, pending: seq<Notification>,
                                         presented: seq<Presented>, ids: seq<string>, n: nat,
                                         s: seq<Notification>)
    requires |ids| == |presented| && n <= |presented|
    requires forall k :: 0 <= k < |ids| ==> FreshIn(s, ids[k])
    ensures IdSet(Imported(main, pending, presented, ids, n)) !! IdSet(s)
  {
    if n > 0 {
      ImportedApart(main, pending, presented, ids, n - 1, s);
      if !AlreadyPresent(main, pending, presented[n - 1]) {
        IdSetConcat(Imported(main, pending, presented, ids, n - 1),
                    [MissedNotification(presented[n - 1], ids[n - 1])]);
      }
    }
  }

  /** Every import is unread. */
  lemma {:induction false} ImportedUnread(main: seq<Notification>, pending: seq<Notification>,
                                          presented: seq<Presented>, ids: seq<string>, n: nat)
    requires |ids| == |presented| && n <= |presented|
    ensures CountUnread(Imported(main, pending, presented, ids, n)) == |Imported(main, pending, presented, ids, n)|
  {
    if n > 0 {
      ImportedUnread(main, pending, presented, ids, n - 1);
      if !AlreadyPresent(main, pending, presented[n - 1]) {
        CountUnreadConcat(Imported(main, pending, presented, ids, n - 1),
                          [MissedNotification(presented[n - 1], ids[n - 1])]);
      }
    }
  }

  /** With distinct ids, the imports, newest first, carry unique ids. */
  lemma {:induction false} ImportedUnique(main: seq<Notification>, pending: seq<Notification>,
                                          presented: seq<Presented>, ids: seq<string>, n: nat)
    requires |ids| == |presented| && DistinctIds(ids) && n <= |presented|
    ensures UniqueIds(Reversed(Imported(main, pending, presented, ids, n)))
  {
    if n > 0 {
      var before := Imported(main, pending, presented, ids, n - 1);
      ImportedUnique(main, pending, presented, ids, n - 1);
      if !AlreadyPresent(main, pending, presented[n - 1]) {
        ImportedIdsBelow(main, pending, presented, ids, n - 1, n - 1);
        ReversedSnocUnique(before, MissedNotification(presented[n - 1], ids[n - 1]));
      }
    }
  }

  /** Reconciliation keeps ids unique and apart from the pending list, and
      adds one unread entry per import, when the generated ids are distinct
      and fresh. */
  lemma ReconciledIds(main: seq<Notification>, pending: seq<Notification>,
                      presented: seq<Presented>, ids: seq<string>)
    requires |ids| == |presented| && DistinctIds(ids)
    requires UniqueIds(main) && DisjointIds(main, pending)
    requires forall k :: 0 <= k < |ids| ==> FreshIn(main, ids[k]) && FreshIn(pending, ids[k])
    ensures UniqueIds(Reconciled(main, pending, presented, ids))
    ensures DisjointIds(Reconciled(main, pending, presented, ids), pending)
    ensures CountUnread(Reconciled(main, pending, presented, ids))
            == CountUnread(main) + |Imported(main, pending, presented, ids, |presented|)|
  {
    var imported := Imported(main, pending, presented, ids, |presented|);
    ImportedUnique(main, pending, presented, ids, |presented|);
    ImportedApart(main, pending, presented, ids, |presented|, main);
    ImportedApart(main, pending, presented, ids, |presented|, pending);
    ImportedUnread(main, pending, presented, ids, |presented|);
    ReversedIdSet(imported);
    ReversedCount(imported);
    UniqueIdsConcat(Reversed(imported), main);
    IdSetConcat(Reversed(imported), main);
    CountUnreadConcat(Reversed(imported), main);
  }

  /** The loop of `checkForMissedNotifications` over a snapshot of the two
      lists: each presented notification that matches nothing in the snapshot
      is prepended to the visible list and counted as unread. */
  method ImportMissed(main: seq<Notification>, pending: seq<Notification>,
                      presented: seq<Presented>, ids: seq<string>, unread: int)
    returns (current: seq<Notification>, count: int, addedCount: nat)
    requires |ids| == |presented|
    ensures current == Reconciled(main, pending, presented, ids)
    ensures addedCount == |Imported(main, pending, presented, ids, |presented|)|
    ensures count == unread + addedCount
  {
    current := main;
    count := unread;
    addedCount := 0;
    var i := 0;
    ghost var imported: seq<Notification> := [];
    assert [] + main == main;
    while i < |presented|
      invariant i <= |presented| && imported == Imported(main, pending, presented, ids, i)
      invariant current == Reversed(imported) + main
      invariant addedCount == |imported| && count == unread + addedCount
    {
      if !AlreadyPresent(main, pending, presented[i]) {
        var n := MissedNotification(presented[i], ids[i]);
        ReversedSnoc(imported, n);
        assert ([n] + Reversed(imported)) + main == [n] + current;
        imported := imported + [n];
        current := [n] + current;
        count := count + 1;
        addedCount := addedCount + 1;
      }
      i := i + 1;
    }
  }

  // ---------------------------------------------------------------------------
  // The store
  // ---------------------------------------------------------------------------

  /** The store's invariant: the cached count is the number of unread
      entries, pending entries are unread, the banner is only up while
      something is pending, ids are unique across both lists, and no pending
      id is a seed id. */
  ghost predicate StoreInvariant(main: seq<Notification>, unread: int,
                                 pending: seq<Notification>, banner: bool)
  {
    && unread == CountUnread(main)
    && AllUnread(pending)
    && (banner ==> pending != [])
    && UniqueIds(main)
    && UniqueIds(pending)
    && DisjointIds(main, pending)
    && SeedIds !! IdSet(pending)
  }

  class Store {
    /** Time at which the seed fixture was stamped. */
    const bootTime: int
    var notifications: seq<Notification>
    var unreadCount: int
    var isLoaded: bool
    var hasNewNotificationsAvailable: bool
    var lastRefreshTime: Option<int>
    var pendingServerNotifications: seq<Notification>
    var checkingInterval: Option<Interval>
    var autoNotificationsInterval: Option<Interval>

    /** The store's invariant over its current fields. */
    ghost predicate Valid()
      reads this
    {
      StoreInvariant(notifications, unreadCount, pendingServerNotifications, hasNewNotificationsAvailable)
    }

    /** A generated id (digits of the clock followed by random characters)
        occurs in neither list and is never one of the seed ids. */
    ghost predicate FreshId(id: string)
      reads this
    {
      FreshIn(notifications, id) && FreshIn(pendingServerNotifications, id) && id !in SeedIds
    }

    constructor (bootTime: int)
      ensures Valid() && this.bootTime == bootTime
      ensures notifications == [] && unreadCount == 0 && !isLoaded
      ensures !hasNewNotificationsAvailable && lastRefreshTime == None && pendingServerNotifications == []
      ensures checkingInterval == None && autoNotificationsInterval == None
    {
      this.bootTime := bootTime;
      notifications := [];
      unreadCount := 0;
      isLoaded := false;
      hasNewNotificationsAvailable := false;
      lastRefreshTime := None;
      pendingServerNotifications := [];
      checkingInterval := None;
      autoNotificationsInterval := None;
    }

    // --- timers ---------------------------------------------------------------

    /** A no-op while the auto-check timer runs; otherwise starts it. */
    method StartAutoChecking()
      requires Valid()
      modifies this`checkingInterval
      ensures Valid()
      ensures old(checkingInterval).Some? ==> checkingInterval == old(checkingInterval)
      ensures old(checkingInterval).None? ==> checkingInterval == Some(Interval(AutoCheckPeriodMs))
    {
      if checkingInterval.Some? {
        return;
      }
      checkingInterval := Some(Interval(AutoCheckPeriodMs));
    }

    /** A no-op while the auto-check timer is stopped; otherwise stops it. */
    method StopAutoChecking()
      requires Valid()
      modifies this`checkingInterval
      ensures Valid()
      ensures checkingInterval == None
    {
      if checkingInterval.Some? {
        checkingInterval := None;
      }
    }

    /** One firing of the auto-check timer: raise the banner when something
        is pending and it is not up yet. */
    method AutoCheckTick()
      requires Valid()
      modifies this`hasNewNotificationsAvailable
      ensures Valid()
      ensures hasNewNotificationsAvailable == (old(hasNewNotificationsAvailable) || pendingServerNotifications != [])
    {
      if |pendingServerNotifications| > 0 && !hasNewNotificationsAvailable {
        hasNewNotificationsAvailable := true;
      }
    }

    /** A no-op while the auto-notifications timer runs; otherwise starts it.
        Each firing of that timer is one `SimulateServerNotification`. */
    method StartAutoNotifications()
      requires Valid()
      modifies this`autoNotificationsInterval
      ensures Valid()
      ensures old(autoNotificationsInterval).Some? ==> autoNotificationsInterval == old(autoNotificationsInterval)
      ensures old(autoNotificationsInterval).None? ==> autoNotificationsInterval == Some(Interval(AutoNotificationsPeriodMs))
    {
      if autoNotificationsInterval.Some? {
        return;
      }
      autoNotificationsInterval := Some(Interval(AutoNotificationsPeriodMs));
    }

    /** A no-op while the auto-notifications timer is stopped; otherwise stops it. */
    method StopAutoNotifications()
      requires Valid()
      modifies this`autoNotificationsInterval
      ensures Valid()
      ensures autoNotificationsInterval == None
    {
      if autoNotificationsInterval.Some? {
        autoNotificationsInterval := None;
      }
    }

    // --- reconciliation -----------------------------------------------------

    /** Imports the platform's presented notifications that match nothing in
        either list (as they were before the loop), newest import first, and
        asks for the presented ones to be dismissed when anything was added. */
    method CheckForMissedNotifications(presented: seq<Presented>, ids: seq<string>)
      returns (dismissRequested: bool)
      requires Valid()
      requires |ids| == |presented| && DistinctIds(ids)
      requires forall k :: 0 <= k < |ids| ==> FreshId(ids[k])
      modifies this`notifications, this`unreadCount
      ensures Valid()
      ensures notifications == Reconciled(old(notifications), pendingServerNotifications, presented, ids)
      ensures unreadCount == old(unreadCount)
                             + |Imported(old(notifications), pendingServerNotifications, presented, ids, |presented|)|
      ensures dismissRequested
              <==> Imported(old(notifications), pendingServerNotifications, presented, ids, |presented|) != []
    {
      ReconciledIds(notifications, pendingServerNotifications, presented, ids);
      var current, count, addedCount := ImportMissed(notifications, pendingServerNotifications, presented, ids, unreadCount);
      notifications := current;
      unreadCount := count;
      dismissRequested := addedCount > 0;
    }

    // --- loading --------------------------------------------------------------

    /** A no-op once loaded; otherwise installs the seed fixture. */
    method LoadNotifications(now: int)
      requires Valid()
      modifies this`notifications, this`unreadCount, this`isLoaded, this`lastRefreshTime
      ensures Valid() && isLoaded
      ensures old(isLoaded) ==> notifications == old(notifications) && unreadCount == old(unreadCount)
                                && lastRefreshTime == old(lastRefreshTime)
      ensures !old(isLoaded) ==> notifications == Seed(bootTime) && unreadCount == 2
                                 && lastRefreshTime == Some(now)
    {
      if isLoaded {
        return;
      }
      var seed := Seed(bootTime);
      SeedFacts(bootTime);
      notifications := seed;
      unreadCount := CountUnread(seed);
      isLoaded := true;
      lastRefreshTime := Some(now);
    }

    /** The step the load defers by one second: reconcile missed
        notifications, then start both timers. */
    method RunDeferredStartup(presented: seq<Presented>, ids: seq<string>)
      returns (dismissRequested: bool)
      requires Valid()
      requires |ids| == |presented| && DistinctIds(ids)
      requires forall k :: 0 <= k < |ids| ==> FreshId(ids[k])
      modifies this`notifications, this`unreadCount, this`checkingInterval, this`autoNotificationsInterval
      ensures Valid()
      ensures notifications == Reconciled(old(notifications), pendingServerNotifications, presented, ids)
      ensures unreadCount == old(unreadCount)
                             + |Imported(old(notifications), pendingServerNotifications, presented, ids, |presented|)|
      ensures dismissRequested
              <==> Imported(old(notifications), pendingServerNotifications, presented, ids, |presented|) != []
      ensures checkingInterval.Some? && autoNotificationsInterval.Some?
    {
      dismissRequested := CheckForMissedNotifications(presented, ids);
      StartAutoChecking();
      StartAutoNotifications();
    }

    // --- the visible list -----------------------------------------------------

    /** Prepends a new unread notification stamped `now`. */
    method AddNotification(d: Draft, id: string, now: int)
      requires Valid() && FreshId(id)
      modifies this`notifications, this`unreadCount
      ensures Valid()
      ensures notifications == [Materialize(d, id, now)] + old(notifications)
      ensures unreadCount == old(unreadCount) + 1
    {
      var n := Materialize(d, id, now);
      UniqueIdsCons(n, notifications);
      notifications := [n] + notifications;
      unreadCount := unreadCount + 1;
    }

    /** Marks the entries carrying `id` as read and recomputes the count. */
    method MarkAsRead(id: string)
      requires Valid()
      modifies this`notifications, this`unreadCount
      ensures Valid()
      ensures notifications == MarkRead(old(notifications), id)
      ensures unreadCount == old(unreadCount) - CountUnreadWithId(old(notifications), id)
    {
      var updated := MarkRead(notifications, id);
      SameIdsKeep(notifications, updated);
      MarkReadCount(notifications, id);
      notifications := updated;
      unreadCount := CountUnread(updated);
    }

    /** Marks every visible entry as read. */
    method MarkAllAsRead()
      requires Valid()
      modifies this`notifications, this`unreadCount
      ensures Valid()
      ensures notifications == MarkAllRead(old(notifications))
      ensures unreadCount == 0
    {
      var updated := MarkAllRead(notifications);
      SameIdsKeep(notifications, updated);
      MarkAllReadCount(notifications);
      notifications := updated;
      unreadCount := 0;
    }

    /** Removes the entries carrying `id` and recomputes the count. */
    method DeleteNotification(id: string)
      requires Valid()
      modifies this`notifications, this`unreadCount
      ensures Valid()
      ensures notifications == Without(old(notifications), id)
      ensures unreadCount == old(unreadCount) - CountUnreadWithId(old(notifications), id)
    {
      var updated := Without(notifications, id);
      WithoutIds(notifications, id);
      WithoutCount(notifications, id);
      notifications := updated;
      unreadCount := CountUnread(updated);
    }

    /** Empties the visible list; the pending list and the banner stay. */
    method ClearAllNotifications()
      requires Valid()
      modifies this`notifications, this`unreadCount
      ensures Valid()
      ensures notifications == [] && unreadCount == 0
    {
      notifications := [];
      unreadCount := 0;
    }

    // --- the pending list and the banner --------------------------------------

    /** Appends a programmed notification to the pending list and raises the
        banner, unless its identifier is already known. */
    method AddProgrammedNotification(d: Draft, id: string, now: int)
      requires Valid() && FreshId(id)
      modifies this`pendingServerNotifications, this`hasNewNotificationsAvailable
      ensures Valid()
      ensures notifications == old(notifications) && unreadCount == old(unreadCount)
      ensures AlreadyKnown(notifications, old(pendingServerNotifications), d) ==>
                pendingServerNotifications == old(pendingServerNotifications)
                && hasNewNotificationsAvailable == old(hasNewNotificationsAvailable)
      ensures !AlreadyKnown(notifications, old(pendingServerNotifications), d) ==>
                pendingServerNotifications
                  == old(pendingServerNotifications) + [Materialize(d, id, ScheduledTimestamp(d.data, now))]
                && hasNewNotificationsAvailable
    {
      if AlreadyKnown(notifications, pendingServerNotifications, d) {
        return;
      }
      var n := Materialize(d, id, ScheduledTimestamp(d.data, now));
      UniqueIdsSnoc(pendingServerNotifications, n);
      pendingServerNotifications := pendingServerNotifications + [n];
      hasNewNotificationsAvailable := true;
    }

    /** Appends a simulated server notification of the drawn type to the
        pending list and raises the banner. */
    method SimulateServerNotification(kind: NotificationType, id: string, now: int, amountText: string)
      requires Valid() && FreshId(id)
      modifies this`pendingServerNotifications, this`hasNewNotificationsAvailable
      ensures Valid()
      ensures notifications == old(notifications) && unreadCount == old(unreadCount)
      ensures pendingServerNotifications
           == old(pendingServerNotifications) + [ServerNotification(kind, id, now, amountText)]
      ensures hasNewNotificationsAvailable
    {
      var n := ServerNotification(kind, id, now, amountText);
      UniqueIdsSnoc(pendingServerNotifications, n);
      pendingServerNotifications := pendingServerNotifications + [n];
      hasNewNotificationsAvailable := true;
    }

    /** Raises the banner, and says so, exactly when something is pending and
        the banner is down. */
    method CheckForNewNotifications() returns (raised: bool)
      requires Valid()
      modifies this`hasNewNotificationsAvailable
      ensures Valid()
      ensures raised <==> pendingServerNotifications != [] && !old(hasNewNotificationsAvailable)
      ensures hasNewNotificationsAvailable == (old(hasNewNotificationsAvailable) || pendingServerNotifications != [])
    {
      if |pendingServerNotifications| > 0 && !hasNewNotificationsAvailable {
        hasNewNotificationsAvailable := true;
        return true;
      }
      return false;
    }

    /** Pull-to-refresh: the pending entries move, in order, in front of the
        visible ones; the pending list empties and the banner goes down. */
    method RefreshNotifications(now: int)
      requires Valid()
      modifies this`notifications, this`unreadCount, this`hasNewNotificationsAvailable,
               this`lastRefreshTime, this`pendingServerNotifications
      ensures Valid()
      ensures notifications == old(pendingServerNotifications) + old(notifications)
      ensures unreadCount == old(unreadCount) + |old(pendingServerNotifications)|
      ensures pendingServerNotifications == [] && !hasNewNotificationsAvailable
      ensures lastRefreshTime == Some(now)
    {
      if |pendingServerNotifications| > 0 {
        var newNotifications := pendingServerNotifications;
        CountUnreadConcat(newNotifications, notifications);
        CountUnreadAllUnread(newNotifications);
        UniqueIdsConcat(newNotifications, notifications);
        IdSetConcat(newNotifications, notifications);
        notifications := newNotifications + notifications;
        unreadCount := unreadCount + |newNotifications|;
        hasNewNotificationsAvailable := false;
        lastRefreshTime := Some(now);
        pendingServerNotifications := [];
      } else {
        assert [] + notifications == notifications;
        lastRefreshTime := Some(now);
        hasNewNotificationsAvailable := false;
      }
    }

    /** Lowers the banner; the pending entries stay pending. */
    method DismissNewNotificationsBanner()
      requires Valid()
      modifies this`hasNewNotificationsAvailable
      ensures Valid()
      ensures !hasNewNotificationsAvailable
    {
      hasNewNotificationsAvailable := false;
    }
  }

  /** Two programmed arrivals with the same identifier leave exactly one entry
      carrying it: the first is staged, the second is dropped. */
  method ProgrammedArrivalDedup(store: Store, d: Draft, id1: string, id2: string, now1: int, now2: int)
    requires store.Valid() && store.FreshId(id1) && store.FreshId(id2) && id1 != id2
    requires d.data.Some? && TruthyString(d.data.value.identifier)
    requires !CarriesIdentifier(store.notifications, d.data.value.identifier.value)
    requires !CarriesIdentifier(store.pendingServerNotifications, d.data.value.identifier.value)
    modifies store
    ensures store.Valid()
    ensures store.notifications == old(store.notifications)
    ensures store.pendingServerNotifications
         == old(store.pendingServerNotifications) + [Materialize(d, id1, ScheduledTimestamp(d.data, now1))]
  {
    var before := store.pendingServerNotifications;
    store.AddProgrammedNotification(d, id1, now1);
    IdSetConcat(before, [Materialize(d, id1, ScheduledTimestamp(d.data, now1))]);
    var last := |store.pendingServerNotifications| - 1;
    assert StoredIdentifier(store.pendingServerNotifications[last]) == d.data.value.identifier;
    store.AddProgrammedNotification(d, id2, now2);
  }
}
