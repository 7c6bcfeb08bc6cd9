/** The earlier notification store: only the visible list, its cached unread
    count and the loaded flag. Loading always reinstalls the demo list and
    then imports missed notifications, recognised by title alone within ten
    seconds. */
module EarlyNotificationStore {
  import opened NotificationTypes
  import opened NotificationLists

  /** Two notifications with the same title are the same one when their
      times differ by less than this. */
  const DuplicateWindowMs: int := 10000

  // ---------------------------------------------------------------------------
  // Seed fixture
  // ---------------------------------------------------------------------------

  /** Titles (each led by an emoji) and texts of the four demo notifications. */
  const SeedTitles: seq<string> := [
    "🔒 Alerta de Seguridad",
    "💳 Transferencia Realizada",
    "🎉 Nueva Promoción",
    "⚙️ Mantenimiento Programado"]
  const SeedDescriptions: seq<string> := [
    "Se detectó un acceso desde un nuevo dispositivo en Buenos Aires. Si no fuiste tú, revisa tu cuenta inmediatamente.",
    "Se procesó exitosamente tu transferencia por $45,000 ARS a María García.",
    "¡Obtén hasta 5% de descuento en todas tus transferencias durante enero!",
    "El sistema estará en mantenimiento el domingo 14/01 de 2:00 a 4:00 AM."]

  /** The four demo notifications, stamped relative to the time the store
      module was evaluated; two of them are unread. */
  function Seed(bootTime: int): (s: seq<Notification>)
    ensures |s| == 4
  {
    [ Notification("1", SeedTitles[0], SeedDescriptions[0],
        Security, bootTime - 15 * MinuteMs, false, High, Some(EmptyPayload)),
      Notification("2", SeedTitles[1], SeedDescriptions[1],
        Transaction, bootTime - 2 * HourMs, false, Medium, Some(EmptyPayload)),
      Notification("3", SeedTitles[2], SeedDescriptions[2],
        Promotion, bootTime - 4 * HourMs, true, Medium, Some(EmptyPayload)),
      Notification("4", SeedTitles[3], SeedDescriptions[3],
        System, bootTime - 24 * HourMs, true, Low, Some(EmptyPayload)) ]
  }

  /** The fixture's ids are the seed ids, pairwise distinct, and two of its
      entries are unread. */
  lemma SeedFacts(bootTime: int)
    ensures CountUnread(Seed(bootTime)) == 2 && UniqueIds(Seed(bootTime))
    ensures IdSet(Seed(bootTime)) == SeedIds
  {
    var s := Seed(bootTime);
    assert s[1..][1..] == s[2..] && s[2..][1..] == s[3..] && s[3..][1..] == [];
    assert s[3].isRead && s[2].isRead && !s[1].isRead && !s[0].isRead;
    assert CountUnread(s[3..]) == 0;
    assert CountUnread(s[2..]) == 0;
    assert CountUnread(s[1..]) == 1;
    assert IdSet(s[3..]) == {"4"};
    assert IdSet(s[2..]) == {"3", "4"};
    assert IdSet(s[1..]) == {"2", "3", "4"};
    assert s[0].id == "1" && s[1].id == "2" && s[2].id == "3" && s[3].id == "4";
    assert UniqueIds(s[3..]);
    assert UniqueIds(s[2..]);
    assert UniqueIds(s[1..]);
  }

  // ---------------------------------------------------------------------------
  // Import of platform-presented notifications
  // ---------------------------------------------------------------------------

  /** `n` is the presented notification `p`: the same title, less than ten
      seconds apart. A presented notification without a title matches
      nothing. */
  predicate Matches(n: Notification, p: Presented)
  {
    p.title == Some(n.title) && Abs(n.timestamp - p.date) < DuplicateWindowMs
  }

  /** `s.some(n => Matches(n, p))`. */
  predicate MatchesSome(s: seq<Notification>, p: Presented)
  {
    s != [] && (Matches(s[0], p) || MatchesSome(s[1..], p))
  }

  /** The record a missed notification becomes: defaults for a missing title,
      body, type and priority, and the payload kept as it came (`{}` when
      there is none). */
  function MissedNotification(p: Presented, id: string): (n: Notification)
    ensures n.id == id && !n.isRead && n.timestamp == p.date
    ensures n.data == Some(if p.data.Some? then p.data.value else EmptyPayload)
    ensures TruthyString(p.title) ==> n.title == p.title.value
    ensures !TruthyString(p.title) ==> n.title == DefaultTitle
    ensures TruthyString(p.body) ==> n.description == p.body.value
    ensures !TruthyString(p.body) ==> n.description == DefaultDescription
    ensures p.data.Some? && p.data.value.kind.Some? ==> n.kind == p.data.value.kind.value
    ensures !(p.data.Some? && p.data.value.kind.Some?) ==> n.kind == System
    ensures p.data.Some? && p.data.value.priority.Some? ==> n.priority == p.data.value.priority.value
    ensures !(p.data.Some? && p.data.value.priority.Some?) ==> n.priority == Medium
  {
    var kind := if p.data.Some? && p.data.value.kind.Some? then p.data.value.kind.value else System;
    var priority := if p.data.Some? && p.data.value.priority.Some? then p.data.value.priority.value else Medium;
    var data := if p.data.Some? then p.data.value else EmptyPayload;
    Notification(id, StringOr(p.title, DefaultTitle), StringOr(p.body, DefaultDescription),
      kind, p.date, false, priority, Some(data))
  }

  /** The notifications one check imports from the first `n` presented ones,
      in the order the platform lists them: those that match nothing in the
      snapshot of the list taken before the loop, the i-th built with
      `ids[i]`. */
  function Imported(main: seq<Notification>, presented: seq<Presented>, ids: seq<string>, n: nat)
    : (r: seq<Notification>)
    requires |ids| == |presented| && n <= |presented|
    ensures |r| <= n
  {
    if n == 0 then []
    else
      var before := Imported(main, presented, ids, n - 1);
      if MatchesSome(main, presented[n - 1]) then before
      else before + [MissedNotification(presented[n - 1], ids[n - 1])]
  }

  /** The list after a check: the imports, newest first, ahead of the list
      as it was. */
  function Reconciled(main: seq<Notification>, presented: seq<Presented>, ids: seq<string>)
    : (r: seq<Notification>)
    requires |ids| == |presented|
    ensures |main| <= |r| <= |main| + |presented|
  {
    Reversed(Imported(main, presented, ids, |presented|)) + main
  }

  /** An id reserved for a later presented notification is not used by the
      imports of the earlier ones. */
  lemma {:induction false} ImportedIdsBelow(main: seq<Notification>, presented: seq<Presented>,
                                            ids: seq<string>, n: nat, i: nat)
    requires |ids| == |presented| && DistinctIds(ids) && n <= i < |presented|
    ensures FreshIn(Imported(main, presented, ids, n), ids[i])
  {
    if n > 0 {
      var before := Imported(main, presented, ids, n - 1);
      ImportedIdsBelow(main, presented, ids, n - 1, i);
      if !MatchesSome(main, presented[n - 1]) {
        IdSetConcat(before, [MissedNotification(presented[n - 1], ids[n - 1])]);
        assert ids[n - 1] != ids[i];
      }
    }
  }

  /** A presented notification is imported exactly when nothing in the
      snapshot has its title within ten seconds. */
  lemma {:induction false} ImportedExactly(main: seq<Notification>, presented: seq<Presented>,
                                           ids: seq<string>, n: nat, i: nat)
    requires |ids| == |presented| && DistinctIds(ids) && i < n <= |presented|
    ensures MissedNotification(presented[i], ids[i]) in Imported(main, presented, ids, n)
            <==> !MatchesSome(main, presented[i])
  {
    var m := MissedNotification(presented[i], ids[i]);
    var before := Imported(main, presented, ids, n - 1);
    if i < n - 1 {
      ImportedExactly(main, presented, ids, n - 1, i);
      assert ids[i] != ids[n - 1];
    } else {
      ImportedIdsBelow(main, presented, ids, n - 1, i);
      assert m !in before;
    }
  }

  /** Nothing in any list matches a presented notification without a title. */
  lemma {:induction false} UntitledMatchesNothing(s: seq<Notification>, p: Presented)
    requires p.title.None?
    ensures !MatchesSome(s, p)
  {
    if s != [] {
      UntitledMatchesNothing(s[1..], p);
    }
  }

  /** A presented notification without a title is imported by every check,
      however often it has been imported before. */
  lemma UntitledAlwaysImported(main: seq<Notification>, presented: seq<Presented>,
                               ids: seq<string>, i: nat)
    requires |ids| == |presented| && DistinctIds(ids) && i < |presented|
    requires presented[i].title.None?
    ensures MissedNotification(presented[i], ids[i]) in Imported(main, presented, ids, |presented|)
  {
    UntitledMatchesNothing(main, presented[i]);
    ImportedExactly(main, presented, ids, |presented|, i);
  }

  lemma {:induction false} MatchesSomeAt(s: seq<Notification>, k: nat, p: Presented)
    requires k < |s| && Matches(s[k], p)
    ensures MatchesSome(s, p)
  {
    if k > 0 {
      assert s[1..][k - 1] == s[k];
      MatchesSomeAt(s[1..], k - 1, p);
    }
  }
  /** `MatchesSome` is `some`: it holds exactly when some entry matches. */
  lemma {:induction false} MatchesSomeExists(s: seq<Notification>, p: Presented)
    ensures MatchesSome(s, p) <==> exists k :: 0 <= k < |s| && Matches(s[k], p)
  {
    if s != [] {
      MatchesSomeExists(s[1..], p);
      if MatchesSome(s[1..], p) {
        var k :| 0 <= k < |s[1..]| && Matches(s[1..][k], p);
        assert s[k + 1] == s[1..][k];
      }
      if exists k :: 0 <= k < |s| && Matches(s[k], p) {
        var k :| 0 <= k < |s| && Matches(s[k], p);
        if k > 0 {
          assert s[1..][k - 1] == s[k];
        }
      }
    }
  }


  lemma {:induction false} MatchesSomeGrows(a: seq<Notification>, s: seq<Notification>, p: Presented)
    requires MatchesSome(s, p)
    ensures MatchesSome(a + s, p)
  {
    if a == [] {
      assert a + s == s;
    } else {
      assert (a + s)[1..] == a[1..] + s;
      MatchesSomeGrows(a[1..], s, p);
    }
  }

  /** After a check, every presented notification with a title is matched
      by the list. */
  lemma ReconciledCovers(main: seq<Notification>, presented: seq<Presented>, ids: seq<string>, i: nat)
    requires |ids| == |presented| && DistinctIds(ids) && i < |presented|
    requires TruthyString(presented[i].title)
    ensures MatchesSome(Reconciled(main, presented, ids), presented[i])
  {
    var imported := Imported(main, presented, ids, |presented|);
    var after := Reconciled(main, presented, ids);
    if MatchesSome(main, presented[i]) {
      MatchesSomeGrows(Reversed(imported), main, presented[i]);
    } else {
      ImportedExactly(main, presented, ids, |presented|, i);
      var n := MissedNotification(presented[i], ids[i]);
      var j :| 0 <= j < |imported| && imported[j] == n;
      ReversedAt(imported, |imported| - 1 - j);
      assert after[|imported| - 1 - j] == n;
      MatchesSomeAt(after, |imported| - 1 - j, presented[i]);
    }
  }

  /** Nothing is imported when every presented notification is already there. */
  lemma {:induction false} ImportedNothing(main: seq<Notification>, presented: seq<Presented>,
                                           ids: seq<string>, n: nat)
    requires |ids| == |presented| && n <= |presented|
    requires forall i :: 0 <= i < |presented| ==> MatchesSome(main, presented[i])
    ensures Imported(main, presented, ids, n) == []
  {
    if n > 0 {
      ImportedNothing(main, presented, ids, n - 1);
    }
  }

  /** Checking the same titled batch a second time imports nothing. */
  lemma CheckTwiceImportsNothing(main: seq<Notification>, presented: seq<Presented>,
                                 ids: seq<string>, ids2: seq<string>)
    requires |ids| == |presented| && |ids2| == |presented| && DistinctIds(ids)
    requires forall i :: 0 <= i < |presented| ==> TruthyString(presented[i].title)
    ensures Imported(Reconciled(main, presented, ids), presented, ids2, |presented|) == []
  {
    var after := Reconciled(main, presented, ids);
    forall i | 0 <= i < |presented| ensures MatchesSome(after, presented[i]) {
      ReconciledCovers(main, presented, ids, i);
    }
    ImportedNothing(after, presented, ids2, |presented|);
  }

  /** The imports use only the given ids: a list in which none of them
      occurs shares no id with the imports. */
  lemma {:induction false} ImportedApart(main: seq<Notification>, presented: seq<Presented>,
                                         ids: seq<string>, n: nat, s: seq<Notification>)
    requires |ids| == |presented| && n <= |presented|
    requires forall k :: 0 <= k < |ids| ==> FreshIn(s, ids[k])
    ensures IdSet(Imported(main, presented, ids, n)) !! IdSet(s)
  {
    if n > 0 {
      ImportedApart(main, presented, ids, n - 1, s);
      if !MatchesSome(main, presented[n - 1]) {
        IdSetConcat(Imported(main, presented, ids, n - 1), [MissedNotification(presented[n - 1], ids[n - 1])]);
      }
    }
  }

  /** Every import is unread. */
  lemma {:induction false} ImportedUnread(main: seq<Notification>, presented: seq<Presented>,
                                          ids: seq<string>, n: nat)
    requires |ids| == |presented| && n <= |presented|
    ensures CountUnread(Imported(main, presented, ids, n)) == |Imported(main, presented, ids, n)|
  {
    if n > 0 {
      ImportedUnread(main, presented, ids, n - 1);
      if !MatchesSome(main, presented[n - 1]) {
        CountUnreadConcat(Imported(main, presented, ids, n - 1), [MissedNotification(presented[n - 1], ids[n - 1])]);
      }
    }
  }

  /** With distinct ids, the imports, newest first, carry unique ids. */
  lemma {:induction false} ImportedUnique(main: seq<Notification>, presented: seq<Presented>,
                                          ids: seq<string>, n: nat)
    requires |ids| == |presented| && DistinctIds(ids) && n <= |presented|
    ensures UniqueIds(Reversed(Imported(main, presented, ids, n)))
  {
    if n > 0 {
      var before := Imported(main, presented, ids, n - 1);
      ImportedUnique(main, presented, ids, n - 1);
      if !MatchesSome(main, presented[n - 1]) {
        ImportedIdsBelow(main, presented, ids, n - 1, n - 1);
        ReversedSnocUnique(before, MissedNotification(presented[n - 1], ids[n - 1]));
      }
    }
  }

  /** A check keeps ids unique and adds one unread entry per import, when the
      generated ids are distinct and fresh. */
  lemma ReconciledIds(main: seq<Notification>, presented: seq<Presented>, ids: seq<string>)
    requires |ids| == |presented| && DistinctIds(ids) && UniqueIds(main)
    requires forall k :: 0 <= k < |ids| ==> FreshIn(main, ids[k])
    ensures UniqueIds(Reconciled(main, presented, ids))
    ensures CountUnread(Reconciled(main, presented, ids))
            == CountUnread(main) + |Imported(main, presented, ids, |presented|)|
  {
    var imported := Imported(main, presented, ids, |presented|);
    ImportedUnique(main, presented, ids, |presented|);
    ImportedApart(main, presented, ids, |presented|, main);
    ImportedUnread(main, presented, ids, |presented|);
    ReversedIdSet(imported);
    ReversedCount(imported);
    UniqueIdsConcat(Reversed(imported), main);
    CountUnreadConcat(Reversed(imported), main);
  }

  /** The loop of `checkForMissedNotifications` over a snapshot of the list:
      each presented notification that matches nothing in the snapshot is
      prepended and counted as unread. */
  method ImportMissed(main: seq<Notification>, presented: seq<Presented>, ids: seq<string>, unread: int)
    returns (current: seq<Notification>, count: int, addedCount: nat)
    requires |ids| == |presented|
    ensures current == Reconciled(main, presented, ids)
    ensures addedCount == |Imported(main, presented, ids, |presented|)|
    ensures count == unread + addedCount
  {
    current := main;
    count := unread;
    addedCount := 0;
    var i := 0;
    ghost var imported: seq<Notification> := [];
    assert [] + main == main;
    while i < |presented|
      invariant i <= |presented| && imported == Imported(main, presented, ids, i)
      invariant current == Reversed(imported) + main
      invariant addedCount == |imported| && count == unread + addedCount
    {
      if !MatchesSome(main, presented[i]) {
        var n := MissedNotification(presented[i], ids[i]);
        ReversedSnoc(imported, n);
        assert ([n] + Reversed(imported)) + main == [n] + current;
        imported := imported + [n];
        current := [n] + current;
        count := count + 1;
        addedCount := addedCount + 1;
      }
      i := i + 1;
    }
  }

  // ---------------------------------------------------------------------------
  // The store
  // ---------------------------------------------------------------------------

  /** The store's invariant: the cached count is the number of unread
      entries and ids are unique. */
  ghost predicate StoreInvariant(main: seq<Notification>, unread: int)
  {
    unread == CountUnread(main) && UniqueIds(main)
  }

  class Store {
    /** Time at which the seed fixture was stamped. */
    const bootTime: int
    var notifications: seq<Notification>
    var unreadCount: int
    var isLoaded: bool

    ghost predicate Valid()
      reads this
    {
      StoreInvariant(notifications, unreadCount)
    }

    /** A generated id occurs nowhere in the list and is none of the seed ids. */
    ghost predicate FreshId(id: string)
      reads this
    {
      FreshIn(notifications, id) && id !in SeedIds
    }

    constructor (bootTime: int)
      ensures Valid() && this.bootTime == bootTime
      ensures notifications == [] && unreadCount == 0 && !isLoaded
    {
      this.bootTime := bootTime;
      notifications := [];
      unreadCount := 0;
      isLoaded := false;
    }

    /** Imports the platform's presented notifications that match nothing in
        the list as it was before the loop, newest import first. */
    method CheckForMissedNotifications(presented: seq<Presented>, ids: seq<string>)
      requires Valid()
      requires |ids| == |presented| && DistinctIds(ids)
      requires forall k :: 0 <= k < |ids| ==> FreshId(ids[k])
      modifies this`notifications, this`unreadCount
      ensures Valid()
      ensures notifications == Reconciled(old(notifications), presented, ids)
      ensures unreadCount == old(unreadCount) + |Imported(old(notifications), presented, ids, |presented|)|
    {
      ReconciledIds(notifications, presented, ids);
      var current, count, _ := ImportMissed(notifications, presented, ids, unreadCount);
      notifications := current;
      unreadCount := count;
    }

    /** Installs the seed fixture whatever the list held, then imports the
        missed notifications against it. */
    method LoadNotifications(presented: seq<Presented>, ids: seq<string>)
      requires Valid()
      requires |ids| == |presented| && DistinctIds(ids)
      requires forall k :: 0 <= k < |ids| ==> ids[k] !in SeedIds
      modifies this`notifications, this`unreadCount, this`isLoaded
      ensures Valid() && isLoaded
      ensures notifications == Reconciled(Seed(bootTime), presented, ids)
      ensures unreadCount == 2 + |Imported(Seed(bootTime), presented, ids, |presented|)|
    {
      var seed := Seed(bootTime);
      SeedFacts(bootTime);
      notifications := seed;
      unreadCount := CountUnread(seed);
      isLoaded := true;
      CheckForMissedNotifications(presented, ids);
    }

    /** Prepends a new unread notification stamped `now`. */
    method AddNotification(d: Draft, id: string, now: int)
      requires Valid() && FreshId(id)
      modifies this`notifications, this`unreadCount
      ensures Valid()
      ensures notifications == [Materialize(d, id, now)] + old(notifications)
      ensures unreadCount == old(unreadCount) + 1
    {
      var n := Materialize(d, id, now);
      UniqueIdsCons(n, notifications);
      notifications := [n] + notifications;
      unreadCount := unreadCount + 1;
    }

    /** Marks the entries carrying `id` as read and recomputes the count. */
    method MarkAsRead(id: string)
      requires Valid()
      modifies this`notifications, this`unreadCount
      ensures Valid()
      ensures notifications == MarkRead(old(notifications), id)
      ensures unreadCount == old(unreadCount) - CountUnreadWithId(old(notifications), id)
    {
      var updated := MarkRead(notifications, id);
      SameIdsKeep(notifications, updated);
      MarkReadCount(notifications, id);
      notifications := updated;
      unreadCount := CountUnread(updated);
    }

    /** Marks every entry as read. */
    method MarkAllAsRead()
      requires Valid()
      modifies this`notifications, this`unreadCount
      ensures Valid()
      ensures notifications == MarkAllRead(old(notifications))
      ensures unreadCount == 0
    {
      var updated := MarkAllRead(notifications);
      SameIdsKeep(notifications, updated);
      MarkAllReadCount(notifications);
      notifications := updated;
      unreadCount := 0;
    }

    /** Removes the entries carrying `id` and recomputes the count. */
    method DeleteNotification(id: string)
      requires Valid()
      modifies this`notifications, this`unreadCount
      ensures Valid()
      ensures notifications == Without(old(notifications), id)
      ensures unreadCount == old(unreadCount) - CountUnreadWithId(old(notifications), id)
    {
      var updated := Without(notifications, id);
      WithoutIds(notifications, id);
      WithoutCount(notifications, id);
      notifications := updated;
      unreadCount := CountUnread(updated);
    }

    /** Empties the list. */
    method ClearAllNotifications()
      requires Valid()
      modifies this`notifications, this`unreadCount
      ensures Valid()
      ensures notifications == [] && unreadCount == 0
    {
      notifications := [];
      unreadCount := 0;
    }
  }

  /** A reload discards whatever was added since the last load: after adding
      a notification and loading again with nothing presented, the list is
      the seed fixture. */
  method ReloadDiscardsAdditions(store: Store, d: Draft, id: string, now: int)
    requires store.Valid() && store.FreshId(id)
    modifies store
    ensures store.Valid()
    ensures store.notifications == Seed(store.bootTime) && store.unreadCount == 2
  {
    store.AddNotification(d, id, now);
    store.LoadNotifications([], []);
  }
}
