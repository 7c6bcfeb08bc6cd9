/** The pure list transforms that both stores apply inside their state
    updates (`map`, `filter`, spread), the unread count they cache, and the
    uniqueness of notification ids. */
module NotificationLists {
  import opened NotificationTypes

  // ---------------------------------------------------------------------------
  // Unread count: `notifications.filter(n => !n.isRead).length`
  // ---------------------------------------------------------------------------

  function CountUnread(s: seq<Notification>): (c: nat)
    ensures c <= |s|
  {
    if s == [] then 0 else (if s[0].isRead then 0 else 1) + CountUnread(s[1..])
  }

  /** Counting distributes over concatenation. */
  lemma {:induction false} CountUnreadConcat(a: seq<Notification>, b: seq<Notification>)
    ensures CountUnread(a + b) == CountUnread(a) + CountUnread(b)
  {
    if a != [] {
      assert (a + b)[0] == a[0] && (a + b)[1..] == a[1..] + b;
      CountUnreadConcat(a[1..], b);
    } else {
      assert a + b == b;
    }
  }

  ghost predicate AllUnread(s: seq<Notification>)
  {
    forall k :: 0 <= k < |s| ==> !s[k].isRead
  }

  /** A list of unread entries counts all of them. */
  lemma {:induction false} CountUnreadAllUnread(s: seq<Notification>)
    requires AllUnread(s)
    ensures CountUnread(s) == |s|
  {
    if s != [] {
      assert AllUnread(s[1..]) by {
        forall k | 0 <= k < |s[1..]| ensures !s[1..][k].isRead {
          assert s[1..][k] == s[k + 1];
        }
      }
      CountUnreadAllUnread(s[1..]);
    }
  }

  /** Unread entries that carry the given id. */
  function CountUnreadWithId(s: seq<Notification>, id: string): (c: nat)
    ensures c <= CountUnread(s)
  {
    if s == [] then 0
    else (if !s[0].isRead && s[0].id == id then 1 else 0) + CountUnreadWithId(s[1..], id)
  }

  // ---------------------------------------------------------------------------
  // Ids
  // ---------------------------------------------------------------------------

  /** The ids the entries of `s` carry. */
  function IdSet(s: seq<Notification>): (r: set<string>)
    ensures forall n :: n in s ==> n.id in r
  {
    if s == [] then {} else {s[0].id} + IdSet(s[1..])
  }

  /** No two generated ids are equal. */
  ghost predicate DistinctIds(ids: seq<string>)
  {
    forall i, j :: 0 <= i < j < |ids| ==> ids[i] != ids[j]
  }

  /** No entry of `s` carries `id`. */
  predicate FreshIn(s: seq<Notification>, id: string)
  {
    id !in IdSet(s)
  }

  /** No two entries of `s` share an id. */
  predicate UniqueIds(s: seq<Notification>)
  {
    s == [] || (s[0].id !in IdSet(s[1..]) && UniqueIds(s[1..]))
  }

  /** No entry of `a` shares an id with an entry of `b`. */
  predicate DisjointIds(a: seq<Notification>, b: seq<Notification>)
  {
    IdSet(a) !! IdSet(b)
  }

  /** Every id of `IdSet(s)` is the id of an entry of `s`. */
  lemma {:induction false} IdSetWitness(s: seq<Notification>, id: string)
    requires id in IdSet(s)
    ensures exists k :: 0 <= k < |s| && s[k].id == id
  {
    if s[0].id != id {
      IdSetWitness(s[1..], id);
      var k :| 0 <= k < |s[1..]| && s[1..][k].id == id;
      assert s[k + 1].id == id;
    }
  }

  lemma IdSetCons(n: Notification, s: seq<Notification>)
    ensures IdSet([n] + s) == {n.id} + IdSet(s)
  {
    assert ([n] + s)[1..] == s;
  }

  lemma {:induction false} IdSetConcat(a: seq<Notification>, b: seq<Notification>)
    ensures IdSet(a + b) == IdSet(a) + IdSet(b)
  {
    if a == [] {
      assert a + b == b;
    } else {
      assert (a + b)[0] == a[0] && (a + b)[1..] == a[1..] + b;
      IdSetConcat(a[1..], b);
    }
  }

  lemma UniqueIdsCons(n: Notification, s: seq<Notification>)
    requires UniqueIds(s) && FreshIn(s, n.id)
    ensures UniqueIds([n] + s) && IdSet([n] + s) == {n.id} + IdSet(s)
  {
    IdSetCons(n, s);
  }

  /** Two lists with unique, disjoint ids concatenate into one with unique ids. */
  lemma {:induction false} UniqueIdsConcat(a: seq<Notification>, b: seq<Notification>)
    requires UniqueIds(a) && UniqueIds(b) && DisjointIds(a, b)
    ensures UniqueIds(a + b)
  {
    if a == [] {
      assert a + b == b;
    } else {
      assert (a + b)[0] == a[0] && (a + b)[1..] == a[1..] + b;
      UniqueIdsConcat(a[1..], b);
      IdSetConcat(a[1..], b);
    }
  }

  lemma UniqueIdsSnoc(s: seq<Notification>, n: Notification)
    requires UniqueIds(s) && FreshIn(s, n.id)
    ensures UniqueIds(s + [n]) && IdSet(s + [n]) == IdSet(s) + {n.id}
  {
    assert IdSet([n]) == {n.id};
    UniqueIdsConcat(s, [n]);
    IdSetConcat(s, [n]);
  }

  /** `t` carries the ids of `s`, position by position. */
  ghost predicate SameIds(s: seq<Notification>, t: seq<Notification>)
  {
    |s| == |t| && forall k :: 0 <= k < |s| ==> s[k].id == t[k].id
  }

  lemma {:induction false} SameIdsKeep(s: seq<Notification>, t: seq<Notification>)
    requires SameIds(s, t)
    ensures IdSet(s) == IdSet(t) && (UniqueIds(s) <==> UniqueIds(t))
  {
    if s != [] {
      assert SameIds(s[1..], t[1..]) by {
        forall k | 0 <= k < |s[1..]| ensures s[1..][k].id == t[1..][k].id {
          assert s[1..][k] == s[k + 1] && t[1..][k] == t[k + 1];
        }
      }
      SameIdsKeep(s[1..], t[1..]);
    }
  }

  // ---------------------------------------------------------------------------
  // markAsRead: `map(n => n.id === id ? { ...n, isRead: true } : n)`
  // ---------------------------------------------------------------------------

  function MarkRead(s: seq<Notification>, id: string): (r: seq<Notification>)
    ensures |r| == |s|
    ensures forall k :: 0 <= k < |s| ==>
      r[k] == if s[k].id == id then s[k].(isRead := true) else s[k]
  {
    if s == [] then []
    else [if s[0].id == id then s[0].(isRead := true) else s[0]] + MarkRead(s[1..], id)
  }

  /** Marking twice is marking once. */
  lemma MarkReadIdempotent(s: seq<Notification>, id: string)
    ensures MarkRead(MarkRead(s, id), id) == MarkRead(s, id)
  {
  }

  /** Marking an id no entry carries changes nothing. */
  lemma MarkReadAbsent(s: seq<Notification>, id: string)
    requires FreshIn(s, id)
    ensures MarkRead(s, id) == s
  {
  }

  /** The recomputed count drops by exactly the unread entries carrying `id`;
      in particular it never goes below zero and never grows. */
  lemma {:induction false} MarkReadCount(s: seq<Notification>, id: string)
    ensures CountUnread(MarkRead(s, id)) == CountUnread(s) - CountUnreadWithId(s, id)
  {
    if s != [] {
      assert MarkRead(s, id)[1..] == MarkRead(s[1..], id);
      MarkReadCount(s[1..], id);
    }
  }

  /** With unique ids, exactly one unread entry carries the id of an unread entry. */
  lemma {:induction false} UniqueUnreadEntry(s: seq<Notification>, k: nat)
    requires UniqueIds(s) && k < |s| && !s[k].isRead
    ensures CountUnreadWithId(s, s[k].id) == 1
  {
    if k == 0 {
      AbsentIdCountsZero(s[1..], s[0].id);
    } else {
      assert s[1..][k - 1] == s[k];
      assert s[k] in s[1..];
      UniqueUnreadEntry(s[1..], k - 1);
    }
  }

  lemma {:induction false} AbsentIdCountsZero(s: seq<Notification>, id: string)
    requires FreshIn(s, id)
    ensures CountUnreadWithId(s, id) == 0
  {
    if s != [] {
      AbsentIdCountsZero(s[1..], id);
    }
  }

  lemma MarkReadOneEntry(s: seq<Notification>, k: nat)
    requires UniqueIds(s) && k < |s| && !s[k].isRead
    ensures CountUnread(MarkRead(s, s[k].id)) == CountUnread(s) - 1
  {
    MarkReadCount(s, s[k].id);
    UniqueUnreadEntry(s, k);
  }

  // ---------------------------------------------------------------------------
  // markAllAsRead: `map(n => ({ ...n, isRead: true }))`
  // ---------------------------------------------------------------------------

  function MarkAllRead(s: seq<Notification>): (r: seq<Notification>)
    ensures |r| == |s|
    ensures forall k :: 0 <= k < |s| ==> r[k] == s[k].(isRead := true)
  {
    if s == [] then [] else [s[0].(isRead := true)] + MarkAllRead(s[1..])
  }

  /** After marking all, nothing is unread. */
  lemma {:induction false} MarkAllReadCount(s: seq<Notification>)
    ensures CountUnread(MarkAllRead(s)) == 0
  {
    if s != [] {
      assert MarkAllRead(s)[1..] == MarkAllRead(s[1..]);
      MarkAllReadCount(s[1..]);
    }
  }

  // ---------------------------------------------------------------------------
  // deleteNotification: `filter(n => n.id !== id)`
  // ---------------------------------------------------------------------------

  function Without(s: seq<Notification>, id: string): (r: seq<Notification>)
    ensures |r| <= |s|
    ensures forall n :: n in r <==> n in s && n.id != id
  {
    if s == [] then []
    else if s[0].id == id then Without(s[1..], id)
    else [s[0]] + Without(s[1..], id)
  }

  /** Filtering distributes over concatenation: the kept entries stay in
      their relative order. */
  lemma {:induction false} WithoutConcat(a: seq<Notification>, b: seq<Notification>, id: string)
    ensures Without(a + b, id) == Without(a, id) + Without(b, id)
  {
    if a != [] {
      assert (a + b)[0] == a[0];
      assert (a + b)[1..] == a[1..] + b;
      WithoutConcat(a[1..], b, id);
      if a[0].id != id {
        assert Without(a, id) == [a[0]] + Without(a[1..], id);
        assert Without(a + b, id) == [a[0]] + Without(a[1..] + b, id);
        assert [a[0]] + (Without(a[1..], id) + Without(b, id))
            == ([a[0]] + Without(a[1..], id)) + Without(b, id);
      } else {
        assert Without(a, id) == Without(a[1..], id);
        assert Without(a + b, id) == Without(a[1..] + b, id);
      }
    } else {
      assert a + b == b;
    }
  }

  /** Removing an id no entry carries changes nothing. */
  lemma {:induction false} WithoutAbsent(s: seq<Notification>, id: string)
    requires FreshIn(s, id)
    ensures Without(s, id) == s
  {
    if s != [] {
      WithoutAbsent(s[1..], id);
    }
  }

  /** The count recomputed after deleting loses exactly the unread entries
      carrying the id. */
  lemma {:induction false} WithoutCount(s: seq<Notification>, id: string)
    ensures CountUnread(Without(s, id)) == CountUnread(s) - CountUnreadWithId(s, id)
  {
    if s != [] {
      WithoutCount(s[1..], id);
      if s[0].id != id {
        assert Without(s, id)[1..] == Without(s[1..], id);
      }
    }
  }

  /** Deleting removes the id from the id set and keeps ids unique. */
  lemma {:induction false} WithoutIds(s: seq<Notification>, id: string)
    ensures IdSet(Without(s, id)) == IdSet(s) - {id}
    ensures UniqueIds(s) ==> UniqueIds(Without(s, id))
  {
    if s != [] {
      WithoutIds(s[1..], id);
      if s[0].id != id {
        IdSetCons(s[0], Without(s[1..], id));
      }
    }
  }

  // ---------------------------------------------------------------------------
  // Prepending one element at a time reverses the order of arrival
  // ---------------------------------------------------------------------------

  function Reversed(s: seq<Notification>): (r: seq<Notification>)
    ensures |r| == |s|
  {
    if s == [] then [] else [s[|s| - 1]] + Reversed(s[..|s| - 1])
  }

  /** The element at position k of the reversal is the k-th from the end. */
  lemma {:induction false} ReversedAt(s: seq<Notification>, k: nat)
    requires k < |s|
    ensures Reversed(s)[k] == s[|s| - 1 - k]
  {
    if k > 0 {
      ReversedAt(s[..|s| - 1], k - 1);
    }
  }

  lemma ReversedSnoc(s: seq<Notification>, n: Notification)
    ensures Reversed(s + [n]) == [n] + Reversed(s)
  {
    assert (s + [n])[..|s|] == s;
  }

  /** Reversal keeps the set of ids. */
  lemma {:induction false} ReversedIdSet(s: seq<Notification>)
    ensures IdSet(Reversed(s)) == IdSet(s)
  {
    if s != [] {
      var t := s[..|s| - 1];
      var x := s[|s| - 1];
      assert s == t + [x];
      ReversedIdSet(t);
      IdSetCons(x, Reversed(t));
      IdSetConcat(t, [x]);
    }
  }

  /** Appending an entry with a fresh id keeps the reversal's ids unique. */
  lemma ReversedSnocUnique(s: seq<Notification>, n: Notification)
    requires UniqueIds(Reversed(s)) && FreshIn(s, n.id)
    ensures UniqueIds(Reversed(s + [n]))
  {
    ReversedSnoc(s, n);
    ReversedIdSet(s);
    UniqueIdsCons(n, Reversed(s));
  }

  /** Reversal keeps the number of unread entries. */
  lemma {:induction false} ReversedCount(s: seq<Notification>)
    ensures CountUnread(Reversed(s)) == CountUnread(s)
  {
    if s != [] {
      var t := s[..|s| - 1];
      var x := s[|s| - 1];
      assert s == t + [x];
      ReversedCount(t);
      CountUnreadConcat([x], Reversed(t));
      CountUnreadConcat(t, [x]);
    }
  }
}
