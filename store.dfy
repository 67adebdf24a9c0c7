/**
 * `AQNotificationStore` (Sources/Aquamarine/Model/AQNotificationStore.swift):
 * the ordered stack of live notifications, newest last, and the delay after
 * which each one closes.
 *
 * The `@Published` wrapper is modelled as the log `emitted`: every assignment
 * of `notifications` appends the new array to it, so `|emitted|` counts the
 * change notifications observers receive and each entry is what they see.
 */
module Store {
  import opened Data

  /**
   * `notifications.removeAll(where: { $0.id == id })`: the entries whose id
   * differs from `id`, in their original order.
   */
  function Without(s: seq<NotificationData>, id: Uuid): (r: seq<NotificationData>)
    ensures |r| <= |s|
    ensures forall e :: e in r <==> e in s && e.id != id
  {
    if s == [] then []
    else if s[0].id == id then Without(s[1..], id)
    else [s[0]] + Without(s[1..], id)
  }

  /** The number of entries carrying `id`. */
  function CountId(s: seq<NotificationData>, id: Uuid): nat {
    if s == [] then 0 else (if s[0].id == id then 1 else 0) + CountId(s[1..], id)
  }

  /** No two entries share an identifier. */
  predicate UniqueIds(s: seq<NotificationData>) {
    s == [] || ((forall e :: e in s[1..] ==> e.id != s[0].id) && UniqueIds(s[1..]))
  }

  /** Filtering distributes over concatenation: relative order is kept. */
  lemma {:induction false} WithoutConcat(a: seq<NotificationData>, b: seq<NotificationData>, id: Uuid)
    ensures Without(a + b, id) == Without(a, id) + Without(b, id)
  {
    if a == [] {
      assert a + b == b;
    } else {
      assert (a + b)[1..] == a[1..] + b;
      WithoutConcat(a[1..], b, id);
    }
  }

  /** A single entry is dropped exactly when it carries the id. */
  lemma WithoutSingleton(e: NotificationData, id: Uuid)
    ensures Without([e], id) == if e.id == id then [] else [e]
  {
  }

  /** Removing an absent id leaves the sequence as it was. */
  lemma {:induction false} WithoutAbsent(s: seq<NotificationData>, id: Uuid)
    requires forall e :: e in s ==> e.id != id
    ensures Without(s, id) == s
  {
    if s != [] {
      assert s[0] in s;
      assert forall e :: e in s[1..] ==> e in s;
      WithoutAbsent(s[1..], id);
      assert [s[0]] + s[1..] == s;
    }
  }

  /** Removing the same id twice is the same as removing it once. */
  lemma {:induction false} WithoutIdempotent(s: seq<NotificationData>, id: Uuid)
    ensures Without(Without(s, id), id) == Without(s, id)
  {
    WithoutAbsent(Without(s, id), id);
  }

  /** Removals of two ids commute. */
  lemma {:induction false} WithoutCommutes(s: seq<NotificationData>, a: Uuid, b: Uuid)
    ensures Without(Without(s, a), b) == Without(Without(s, b), a)
  {
    if s != [] {
      WithoutCommutes(s[1..], a, b);
      var t := s[1..];
      if s[0].id != a {
        assert Without(s, a) == [s[0]] + Without(t, a);
        assert ([s[0]] + Without(t, a))[1..] == Without(t, a);
      }
      if s[0].id != b {
        assert Without(s, b) == [s[0]] + Without(t, b);
        assert ([s[0]] + Without(t, b))[1..] == Without(t, b);
      }
    }
  }

  /** Exactly the entries that carry the id are dropped. */
  lemma {:induction false} WithoutLength(s: seq<NotificationData>, id: Uuid)
    ensures |Without(s, id)| == |s| - CountId(s, id)
  {
    if s != [] {
      WithoutLength(s[1..], id);
    }
  }

  /** With unique ids, an id occurs at most once, and exactly once when present. */
  lemma {:induction false} UniqueCount(s: seq<NotificationData>, id: Uuid)
    requires UniqueIds(s)
    ensures CountId(s, id) == if exists e :: e in s && e.id == id then 1 else 0
  {
    if s != [] {
      UniqueCount(s[1..], id);
      assert forall e :: e in s <==> e == s[0] || e in s[1..];
    }
  }

  /** With unique ids, removing a present id removes exactly one entry. */
  lemma {:induction false} WithoutRemovesOne(s: seq<NotificationData>, id: Uuid)
    requires UniqueIds(s)
    ensures |Without(s, id)| == if exists e :: e in s && e.id == id then |s| - 1 else |s|
  {
    WithoutLength(s, id);
    UniqueCount(s, id);
  }

  /** Removal keeps identifiers unique. */
  lemma {:induction false} WithoutKeepsUnique(s: seq<NotificationData>, id: Uuid)
    requires UniqueIds(s)
    ensures UniqueIds(Without(s, id))
  {
    if s != [] {
      WithoutKeepsUnique(s[1..], id);
      if s[0].id != id {
        var r := [s[0]] + Without(s[1..], id);
        assert r[1..] == Without(s[1..], id);
      }
    }
  }

  /** Appending an entry with a fresh identifier keeps identifiers unique. */
  lemma {:induction false} AppendKeepsUnique(s: seq<NotificationData>, e: NotificationData)
    requires UniqueIds(s)
    requires forall x :: x in s ==> x.id != e.id
    ensures UniqueIds(s + [e])
  {
    if s != [] {
      assert (s + [e])[1..] == s[1..] + [e];
      assert forall x :: x in s[1..] ==> x in s;
      AppendKeepsUnique(s[1..], e);
    } else {
      assert s + [e] == [e];
      assert [e][1..] == [];
    }
  }

  /** For [A, B, C] with B's id not shared, removing B's id yields [A, C]. */
  lemma RemoveMiddle(a: NotificationData, b: NotificationData, c: NotificationData)
    requires a.id != b.id && c.id != b.id
    ensures Without([a, b, c], b.id) == [a, c]
  {
  }

  class NotificationStore {
    /** The live stack, oldest first. */
    var notifications: seq<NotificationData>
    /** Seconds between a notification's appearance and its removal. */
    const duration: real
    /** Every value `notifications` was assigned after construction, in order. */
    var emitted: seq<seq<NotificationData>>

    /** `init(closeDelay:)`; the delay defaults to three seconds. */
    constructor (closeDelay: real := 3.0)
      ensures notifications == [] && emitted == []
      ensures duration == closeDelay
    {
      notifications := [];
      duration := closeDelay;
      emitted := [];
    }

    /** `addNotification(_:)`: appends at the tail and publishes once. */
    method AddNotification(notification: NotificationData)
      modifies this
      ensures notifications == old(notifications) + [notification]
      ensures emitted == old(emitted) + [notifications]
    {
      notifications := notifications + [notification];
      emitted := emitted + [notifications];
    }

    /**
     * `removeNotification(forID:)`: nothing happens on an empty stack;
     * otherwise the filtered array is assigned and published once, even when
     * no entry carried the id.
     */
    method RemoveNotification(id: Uuid)
      modifies this
      ensures old(notifications) == [] ==> notifications == [] && emitted == old(emitted)
      ensures old(notifications) != [] ==>
                notifications == Without(old(notifications), id) && emitted == old(emitted) + [notifications]
      ensures forall e :: e in notifications ==> e.id != id
    {
      if notifications != [] {
        notifications := Without(notifications, id);
        emitted := emitted + [notifications];
      }
    }

    /** `removeAll()`: clears a non-empty stack in one published update. */
    method RemoveAll()
      modifies this
      ensures notifications == []
      ensures emitted == if old(notifications) == [] then old(emitted) else old(emitted) + [[]]
    {
      if notifications != [] {
        notifications := [];
        emitted := emitted + [notifications];
      }
    }
  }
}
