/** Keyset pagination over rows ordered by (time, id): the order, the unique sorted listing of a set of
    rows, one page of it, and what following the page cursor adds up to, both on a quiet store and while
    rows keep arriving between pages. Timeline rows use their key as is; change rows negate the time, so
    that "time descending, id ascending" is the same order. */
module Keyset {
  import Text

  datatype Option<+T> = None | Some(value: T)

  function Lookup<V>(m: map<string, V>, key: string): Option<V> {
    if key in m then Some(m[key]) else None
  }

  datatype Key = Key(time: int, id: string)

  predicate Before(a: Key, b: Key) {
    a.time < b.time || (a.time == b.time && Text.Less(a.id, b.id))
  }

  lemma BeforeOrder(a: Key, b: Key, c: Key)
    ensures !Before(a, a)
    ensures Before(a, b) && Before(b, c) ==> Before(a, c)
    ensures Before(a, b) || Before(b, a) || a == b
    ensures !(Before(a, b) && Before(b, a))
  {
    Text.LessIrreflexive(a.id);
    Text.LessTotal(a.id, b.id);
    if Text.Less(a.id, b.id) && Text.Less(b.id, c.id) { Text.LessTransitive(a.id, b.id, c.id); }
    if Text.Less(a.id, b.id) && Text.Less(b.id, a.id) { Text.LessTransitive(a.id, b.id, a.id); }
  }

  // Sorting. sort.Slice promises a sorted permutation and nothing about ties.

  ghost predicate Sorted<T>(s: seq<T>, key: T -> Key) {
    forall i, j :: 0 <= i < j < |s| ==> !Before(key(s[j]), key(s[i]))
  }

  ghost predicate Increasing<T>(s: seq<T>, key: T -> Key) {
    forall i, j :: 0 <= i < j < |s| ==> Before(key(s[i]), key(s[j]))
  }

  /** No two different rows share a key. */
  ghost predicate Keyed<T(!new)>(rows: set<T>, key: T -> Key) {
    forall x, y :: x in rows && y in rows && key(x) == key(y) ==> x == y
  }

  /** `out` may come back from sorting `s`. */
  ghost predicate SortedFrom<T>(out: seq<T>, s: seq<T>, key: T -> Key) {
    multiset(out) == multiset(s) && Sorted(out, key)
  }

  method Insert<T>(s: seq<T>, x: T, key: T -> Key) returns (out: seq<T>)
    requires Sorted(s, key)
    ensures SortedFrom(out, s + [x], key)
  {
    hide Before, Sorted;
    var i := |s|;
    while i > 0 && Before(key(x), key(s[i - 1]))
      invariant 0 <= i <= |s|
      invariant forall j :: i <= j < |s| ==> Before(key(x), key(s[j]))
    {
      i := i - 1;
    }
    out := s[..i] + [x] + s[i..];
    InsertPermutes(s, x, i);
    InsertKeepsSorted(s, x, i, key);
  }

  lemma InsertPermutes<T>(s: seq<T>, x: T, i: nat)
    requires i <= |s|
    ensures multiset(s[..i] + [x] + s[i..]) == multiset(s + [x])
  {
    assert s == s[..i] + s[i..];
  }

  lemma InsertKeepsSorted<T>(s: seq<T>, x: T, i: nat, key: T -> Key)
    requires Sorted(s, key) && i <= |s|
    requires i > 0 ==> !Before(key(x), key(s[i - 1]))
    requires forall j :: i <= j < |s| ==> Before(key(x), key(s[j]))
    ensures Sorted(s[..i] + [x] + s[i..], key)
  {
    forall j | 0 <= j < i ensures !Before(key(x), key(s[j])) {
      if j < i - 1 { AtMostTransitive(key(s[j]), key(s[i - 1]), key(x)); }
    }
    forall j | i <= j < |s| ensures !Before(key(s[j]), key(x)) {
      BeforeOrder(key(x), key(s[j]), key(x));
    }
  }

  lemma AtMostTransitive(a: Key, b: Key, c: Key)
    requires !Before(b, a) && !Before(c, b)
    ensures !Before(c, a)
  {
    BeforeOrder(c, a, b);
    BeforeOrder(a, b, c);
    BeforeOrder(b, c, a);
  }

  method SortRows<T>(s: seq<T>, key: T -> Key) returns (out: seq<T>)
    ensures SortedFrom(out, s, key)
  {
    out := [];
    for i := 0 to |s|
      invariant SortedFrom(out, s[..i], key)
    {
      out := Insert(out, s[i], key);
      assert s[..i + 1] == s[..i] + [s[i]];
    }
    assert s[..|s|] == s;
  }

  lemma SortedElements<T>(out: seq<T>, s: seq<T>, x: T)
    requires multiset(out) == multiset(s)
    ensures x in out <==> x in s
  {
    assert x in out <==> x in multiset(out);
    assert x in s <==> x in multiset(s);
  }

  /** A sequence without repeated rows, sorted, over rows whose keys differ, is strictly increasing. */
  lemma SortedIsIncreasing<T(!new)>(out: seq<T>, rows: set<T>, key: T -> Key)
    requires Sorted(out, key) && Keyed(rows, key)
    requires forall i :: 0 <= i < |out| ==> out[i] in rows
    requires forall i, j :: 0 <= i < j < |out| ==> out[i] != out[j]
    ensures Increasing(out, key)
  {
    forall i, j | 0 <= i < j < |out| ensures Before(key(out[i]), key(out[j])) {
      BeforeOrder(key(out[i]), key(out[j]), key(out[i]));
    }
  }

  // The listing of a set of rows.

  ghost predicate IsListing<T(!new)>(out: seq<T>, rows: set<T>, key: T -> Key) {
    Increasing(out, key) && forall x :: x in out <==> x in rows
  }

  /** Whatever order rows were collected in, there is one increasing listing of them. */
  lemma {:induction false} ListingUnique<T(!new)>(a: seq<T>, b: seq<T>, rows: set<T>, key: T -> Key)
    requires IsListing(a, rows, key) && IsListing(b, rows, key)
    ensures a == b
  {
    if a == [] {
      assert forall i :: 0 <= i < |b| ==> b[i] in rows;
    } else {
      assert a[0] in rows;
      assert a[0] in b && b != [];
      assert b[0] in rows && b[0] in a;
      var i :| 0 <= i < |b| && b[i] == a[0];
      var j :| 0 <= j < |a| && a[j] == b[0];
      BeforeOrder(key(a[0]), key(b[0]), key(a[0]));
      assert a[0] == b[0];
      TailListing(a, rows, key);
      TailListing(b, rows, key);
      ListingUnique(a[1..], b[1..], rows - {a[0]}, key);
      assert a == [a[0]] + a[1..] && b == [b[0]] + b[1..];
    }
  }

  lemma TailListing<T(!new)>(a: seq<T>, rows: set<T>, key: T -> Key)
    requires a != [] && IsListing(a, rows, key)
    ensures IsListing(a[1..], rows - {a[0]}, key)
  {
    BeforeOrder(key(a[0]), key(a[0]), key(a[0]));
    assert a[0] !in a[1..];
    assert forall x :: x in a <==> x == a[0] || x in a[1..];
  }

  ghost function Listing<T(!new)>(rows: set<T>, key: T -> Key): (out: seq<T>)
    requires Keyed(rows, key)
    ensures IsListing(out, rows, key)
  {
    ListingExists(rows, key);
    var out :| IsListing(out, rows, key);
    out
  }

  lemma {:induction false} ListingExists<T(!new)>(rows: set<T>, key: T -> Key)
    requires Keyed(rows, key)
    ensures exists out :: IsListing(out, rows, key)
    decreases |rows|
  {
    if rows == {} {
      assert IsListing([], rows, key);
    } else {
      var x := Least(rows, key);
      ListingExists(rows - {x}, key);
      var rest :| IsListing(rest, rows - {x}, key);
      var out := [x] + rest;
      forall i, j | 0 <= i < j < |out| ensures Before(key(out[i]), key(out[j])) {
        if i == 0 { assert out[j] == rest[j - 1] && rest[j - 1] in rows - {x}; }
      }
      assert IsListing(out, rows, key);
    }
  }

  lemma {:induction false} Least<T(!new)>(rows: set<T>, key: T -> Key) returns (least: T)
    requires rows != {} && Keyed(rows, key)
    ensures least in rows && forall x :: x in rows && x != least ==> Before(key(least), key(x))
    decreases |rows|
  {
    least :| least in rows;
    if rows != {least} {
      var other := Least(rows - {least}, key);
      BeforeOrder(key(least), key(other), key(least));
      if Before(key(other), key(least)) {
        least := other;
      } else {
        forall x | x in rows && x != least ensures Before(key(least), key(x)) {
          if x != other { BeforeOrder(key(least), key(other), key(x)); }
        }
      }
    }
  }

  // One page.

  predicate Past(k: Key, after: Option<Key>) {
    after.None? || Before(after.value, k)
  }

  datatype Page<T> = Page(items: seq<T>, next: Option<Key>)

  /** Cut a listing down to `limit` rows; a cursor is left exactly when rows were cut off. */
  function Cut<T>(all: seq<T>, key: T -> Key, limit: nat): (p: Page<T>)
    requires limit > 0
  {
    if |all| > limit then Page(all[..limit], Some(key(all[limit - 1]))) else Page(all, None)
  }

  ghost function Rest<T(!new)>(rows: set<T>, key: T -> Key, after: Option<Key>): set<T> {
    set x | x in rows && Past(key(x), after)
  }

  ghost function PageOf<T(!new)>(rows: set<T>, key: T -> Key, after: Option<Key>, limit: nat): Page<T>
    requires Keyed(rows, key) && limit > 0
  {
    Cut(Listing(Rest(rows, key, after), key), key, limit)
  }

  /** Fetching limit + 1 rows and truncating decides the same page as listing everything. */
  lemma LimitPlusOne<T>(all: seq<T>, key: T -> Key, limit: nat)
    requires limit > 0
    ensures Cut(if |all| > limit + 1 then all[..limit + 1] else all, key, limit) == Cut(all, key, limit)
  {
  }

  lemma PageFacts<T(!new)>(rows: set<T>, key: T -> Key, after: Option<Key>, limit: nat)
    requires Keyed(rows, key) && limit > 0
    ensures var p := PageOf(rows, key, after, limit);
            && Increasing(p.items, key)
            && (forall x :: x in p.items ==> x in rows && Past(key(x), after))
            && (forall x :: x in p.items && p.next.Some? ==> !Before(p.next.value, key(x)))
            && (forall x :: x in rows && Past(key(x), after) ==>
                  x in p.items || (p.next.Some? && Before(p.next.value, key(x))))
            && (p.next.Some? ==> Past(p.next.value, after))
  {
    var all := Listing(Rest(rows, key, after), key);
    var p := PageOf(rows, key, after, limit);
    if |all| > limit {
      assert p.items == all[..limit] && p.next == Some(key(all[limit - 1]));
      assert all[limit - 1] in Rest(rows, key, after);
      forall i | 0 <= i < limit
        ensures !Before(key(all[limit - 1]), key(all[i])) && all[i] in Rest(rows, key, after) && all[i] in p.items
      {
        BeforeOrder(key(all[i]), key(all[limit - 1]), key(all[i]));
        assert p.items[i] == all[i];
      }
      forall x | x in rows && Past(key(x), after) && x !in p.items
        ensures Before(key(all[limit - 1]), key(x))
      {
        assert x in Rest(rows, key, after);
        assert x in all;
        var i :| 0 <= i < |all| && all[i] == x;
      }
    } else {
      forall x | x in rows && Past(key(x), after) ensures x in p.items {
        assert x in Rest(rows, key, after);
      }
    }
  }

  // Following the cursor from page to page. snapshots[i] is the set of rows the i-th request reads.

  datatype Walk<T> = Walk(items: seq<T>, next: Option<Key>, pages: nat)

  ghost predicate Growing<T>(snapshots: seq<set<T>>) {
    forall i, j :: 0 <= i < j < |snapshots| ==> snapshots[i] <= snapshots[j]
  }

  ghost predicate AllKeyed<T(!new)>(snapshots: seq<set<T>>, key: T -> Key) {
    forall i :: 0 <= i < |snapshots| ==> Keyed(snapshots[i], key)
  }

  ghost function Follow<T(!new)>(snapshots: seq<set<T>>, key: T -> Key, after: Option<Key>, limit: nat): Walk<T>
    requires |snapshots| > 0 && AllKeyed(snapshots, key) && limit > 0
  {
    var p := PageOf(snapshots[0], key, after, limit);
    if p.next.None? || |snapshots| == 1 then
      Walk(p.items, p.next, 1)
    else
      var rest := Follow(snapshots[1..], key, p.next, limit);
      Walk(p.items + rest.items, rest.next, 1 + rest.pages)
  }

  /** Paging while rows arrive: strictly increasing (hence no repeats), only rows that are stored, and
      every row of the first snapshot has been returned or still lies beyond the open cursor. */
  lemma {:induction false} FollowGrowing<T(!new)>(snapshots: seq<set<T>>, key: T -> Key, after: Option<Key>, limit: nat)
    requires |snapshots| > 0 && AllKeyed(snapshots, key) && limit > 0 && Growing(snapshots)
    ensures var w := Follow(snapshots, key, after, limit);
            && Increasing(w.items, key)
            && (forall x :: x in w.items ==> x in snapshots[|snapshots| - 1] && Past(key(x), after))
            && (forall x :: x in snapshots[0] && Past(key(x), after) ==>
                  x in w.items || (w.next.Some? && Before(w.next.value, key(x))))
    decreases |snapshots|
  {
    var p := PageOf(snapshots[0], key, after, limit);
    PageFacts(snapshots[0], key, after, limit);
    var last := snapshots[|snapshots| - 1];
    assert snapshots[0] <= last;
    if p.next.Some? && |snapshots| > 1 {
      var tail := snapshots[1..];
      FollowGrowing(tail, key, p.next, limit);
      var rest := Follow(tail, key, p.next, limit);
      var items := p.items + rest.items;
      assert tail[|tail| - 1] == last && snapshots[0] <= tail[0];
      forall i, j | 0 <= i < j < |items| ensures Before(key(items[i]), key(items[j])) {
        if i < |p.items| <= j {
          assert items[i] in p.items && items[j] in rest.items;
          BeforeOrder(key(items[i]), p.next.value, key(items[j]));
        }
      }
      forall x | x in items ensures x in last && Past(key(x), after) {
        if x in rest.items && after.Some? {
          BeforeOrder(after.value, p.next.value, key(x));
        }
      }
    }
  }

  /** How many requests a listing of n rows takes: one per full page, and one for what is left. */
  function PagesFor(n: nat, limit: nat): nat
    requires limit > 0
  {
    if n <= limit then 1 else 1 + PagesFor(n - limit, limit)
  }

  ghost predicate Quiet<T>(snapshots: seq<set<T>>, rows: set<T>) {
    forall i :: 0 <= i < |snapshots| ==> snapshots[i] == rows
  }

  /** On a quiet store the pages concatenate to the whole listing, in exactly PagesFor requests. */
  lemma {:induction false} FollowQuiet<T(!new)>(snapshots: seq<set<T>>, rows: set<T>, key: T -> Key, after: Option<Key>,
                                                limit: nat)
    requires Keyed(rows, key) && limit > 0 && Quiet(snapshots, rows)
    requires |snapshots| >= PagesFor(|Listing(Rest(rows, key, after), key)|, limit)
    ensures |snapshots| > 0 && AllKeyed(snapshots, key)
    ensures var all := Listing(Rest(rows, key, after), key);
            Follow(snapshots, key, after, limit) == Walk(all, None, PagesFor(|all|, limit))
    decreases |snapshots|
  {
    var all := Listing(Rest(rows, key, after), key);
    assert snapshots[0] == rows;
    if |all| > limit {
      var tail := snapshots[1..];
      FollowOn(snapshots, rows, key, after, limit);
      CutRemainder(rows, key, after, limit);
      hide Follow, Listing, Rest, IsListing;
      FollowQuiet(tail, rows, key, Some(key(all[limit - 1])), limit);
      assert all == all[..limit] + all[limit..];
    }
  }

  /** One page cut off, and the rest of the walk. */
  lemma FollowOn<T(!new)>(snapshots: seq<set<T>>, rows: set<T>, key: T -> Key, after: Option<Key>, limit: nat)
    requires |snapshots| > 1 && AllKeyed(snapshots, key) && Keyed(rows, key) && limit > 0 && snapshots[0] == rows
    requires |Listing(Rest(rows, key, after), key)| > limit
    ensures var all := Listing(Rest(rows, key, after), key);
            var rest := Follow(snapshots[1..], key, Some(key(all[limit - 1])), limit);
            Follow(snapshots, key, after, limit) == Walk(all[..limit] + rest.items, rest.next, 1 + rest.pages)
  {
    hide IsListing, Rest;
  }

  /** What lies past the cursor of a page is exactly what the page cut off. */
  lemma CutRemainder<T(!new)>(rows: set<T>, key: T -> Key, after: Option<Key>, limit: nat)
    requires Keyed(rows, key) && limit > 0
    requires |Listing(Rest(rows, key, after), key)| > limit
    ensures var all := Listing(Rest(rows, key, after), key);
            Listing(Rest(rows, key, Some(key(all[limit - 1]))), key) == all[limit..]
  {
    var all := Listing(Rest(rows, key, after), key);
    var k := key(all[limit - 1]);
    var beyond := Rest(rows, key, Some(k));
    forall x ensures x in all[limit..] <==> x in beyond {
      if x in all[limit..] {
        var i :| limit <= i < |all| && all[i] == x;
        assert x in Rest(rows, key, after);
      }
      if x in beyond {
        assert all[limit - 1] in Rest(rows, key, after);
        if after.Some? { BeforeOrder(after.value, k, key(x)); }
        assert x in Rest(rows, key, after);
        assert x in all;
        var i :| 0 <= i < |all| && all[i] == x;
        if i < limit {
          BeforeOrder(key(x), k, key(x));
          BeforeOrder(k, k, k);
          assert false;
        }
        assert all[limit..][i - limit] == x;
      }
    }
    assert IsListing(all[limit..], beyond, key);
    ListingUnique(all[limit..], Listing(beyond, key), beyond, key);
  }
}
