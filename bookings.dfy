/** Booking rows as the free-time analyzer receives them, and the two ways
    it orders them: `sorted(bookings, key=(start_date, start_time))` in the
    day driver and `day_bookings.sort(key=start_time)` in the per-day
    detector. Both are Python's stable sort by key. */
module Bookings {
  import opened PyStr

  /** One booking row (hotel, flight or activity). Dates are day numbers, so
      one `timedelta(days=1)` is `+ 1`; times are the `HH:MM` text of the row.
      The analyzer reads only these four columns; title, location and the
      identifiers pass through unread. */
  datatype Booking = Booking(startDate: int, endDate: int, startTime: string, endTime: string)

  /** The two sort keys the analyzer uses. */
  datatype SortKey = StartTimeKey | StartDateTimeKey

  /** The key of a booking; for `StartTimeKey` the date part is a constant, so
      only the start time decides. */
  function KeyOf(k: SortKey, b: Booking): (int, string)
  {
    match k
    case StartTimeKey => (0, b.startTime)
    case StartDateTimeKey => (b.startDate, b.startTime)
  }

  /** Python's `<` on a (date, str) tuple. */
  predicate KeyLess(x: (int, string), y: (int, string))
  {
    x.0 < y.0 || (x.0 == y.0 && Less(x.1, y.1))
  }

  predicate Before(k: SortKey, a: Booking, b: Booking)
  {
    KeyLess(KeyOf(k, a), KeyOf(k, b))
  }

  lemma KeyLessIrreflexive(x: (int, string))
    ensures !KeyLess(x, x)
  {
    LessIrreflexive(x.1);
  }

  lemma KeyLessTransitive(x: (int, string), y: (int, string), z: (int, string))
    requires KeyLess(x, y) && KeyLess(y, z)
    ensures KeyLess(x, z)
  {
    if x.0 == y.0 == z.0 {
      LessTransitive(x.1, y.1, z.1);
    }
  }

  lemma KeyLessTotal(x: (int, string), y: (int, string))
    requires x != y
    ensures KeyLess(x, y) || KeyLess(y, x)
  {
    if x.0 == y.0 {
      LessTotal(x.1, y.1);
    }
  }

  // ---------------------------------------------------------------------------
  // The sort: an insertion sort that moves each new element left past the
  // strictly greater keys only, so equal keys keep their input order.

  function Insert(k: SortKey, x: Booking, s: seq<Booking>): (r: seq<Booking>)
    ensures |r| == |s| + 1
  {
    if s == [] then [x]
    else if Before(k, x, s[|s| - 1]) then Insert(k, x, s[..|s| - 1]) + [s[|s| - 1]]
    else s + [x]
  }

  function Sort(k: SortKey, s: seq<Booking>): (r: seq<Booking>)
    ensures |r| == |s|
  {
    if s == [] then [] else Insert(k, s[|s| - 1], Sort(k, s[..|s| - 1]))
  }

  ghost predicate SortedBy(k: SortKey, s: seq<Booking>)
  {
    forall i, j :: 0 <= i < j < |s| ==> !Before(k, s[j], s[i])
  }

  /** The bookings of `s` whose key is `key`, in their order in `s`. */
  function WithKey(k: SortKey, s: seq<Booking>, key: (int, string)): seq<Booking>
  {
    if s == [] then []
    else WithKey(k, s[..|s| - 1], key) + (if KeyOf(k, s[|s| - 1]) == key then [s[|s| - 1]] else [])
  }

  // ---------------------------------------------------------------------------
  // Permutation

  /** A non-empty list is its front followed by its last element. */
  lemma Snoc<T>(s: seq<T>)
    requires s != []
    ensures s == s[..|s| - 1] + [s[|s| - 1]]
  {
  }

  lemma {:induction false} InsertPermutes(k: SortKey, x: Booking, s: seq<Booking>)
    ensures multiset(Insert(k, x, s)) == multiset(s) + multiset{x}
  {
    if s != [] && Before(k, x, s[|s| - 1]) {
      var init := s[..|s| - 1];
      InsertPermutes(k, x, init);
      Snoc(s);
    }
  }

  /** The sorted list holds exactly the input's bookings, with multiplicity. */
  lemma {:induction false} SortPermutes(k: SortKey, s: seq<Booking>)
    ensures multiset(Sort(k, s)) == multiset(s)
  {
    if s != [] {
      var init, x := s[..|s| - 1], s[|s| - 1];
      var sortedInit := Sort(k, init);
      assert Sort(k, s) == Insert(k, x, sortedInit);
      SortPermutes(k, init);
      InsertPermutes(k, x, sortedInit);
      Snoc(s);
    }
  }

  // ---------------------------------------------------------------------------
  // Sortedness

  lemma {:induction false} InsertSorted(k: SortKey, x: Booking, s: seq<Booking>)
    requires SortedBy(k, s)
    ensures SortedBy(k, Insert(k, x, s))
  {
    if s != [] {
      var last := s[|s| - 1];
      var init := s[..|s| - 1];
      if Before(k, x, last) {
        InsertSorted(k, x, init);
        var r := Insert(k, x, init);
        InsertPermutes(k, x, init);
        forall i | 0 <= i < |r|
          ensures !Before(k, last, r[i])
        {
          assert r[i] in multiset(r);
          if r[i] == x {
            if Before(k, last, x) {
              KeyLessTransitive(KeyOf(k, x), KeyOf(k, last), KeyOf(k, x));
              KeyLessIrreflexive(KeyOf(k, x));
            }
          } else {
            assert r[i] in multiset(init);
            var j :| 0 <= j < |init| && init[j] == r[i];
            assert s[j] == r[i];
          }
        }
        assert Insert(k, x, s) == r + [last];
        SortedAppend(k, r, last);
      } else {
        forall i | 0 <= i < |s|
          ensures !Before(k, x, s[i])
        {
          if i < |s| - 1 && Before(k, x, s[i]) {
            if KeyOf(k, last) != KeyOf(k, x) {
              KeyLessTotal(KeyOf(k, last), KeyOf(k, x));
              KeyLessTransitive(KeyOf(k, last), KeyOf(k, x), KeyOf(k, s[i]));
            }
          }
        }
        assert Insert(k, x, s) == s + [x];
        SortedAppend(k, s, x);
      }
    }
  }

  /** A sorted list stays sorted when an element no earlier than any of its
      elements is appended. */
  lemma SortedAppend(k: SortKey, r: seq<Booking>, y: Booking)
    requires SortedBy(k, r)
    requires forall i :: 0 <= i < |r| ==> !Before(k, y, r[i])
    ensures SortedBy(k, r + [y])
  {
    var t := r + [y];
    forall i, j | 0 <= i < j < |t|
      ensures !Before(k, t[j], t[i])
    {
      assert t[i] == r[i];
      if j < |r| {
        assert t[j] == r[j];
      }
    }
  }

  /** No booking's key is smaller than the key of a booking before it. */
  lemma {:induction false} SortSorted(k: SortKey, s: seq<Booking>)
    ensures SortedBy(k, Sort(k, s))
  {
    if s != [] {
      SortSorted(k, s[..|s| - 1]);
      InsertSorted(k, s[|s| - 1], Sort(k, s[..|s| - 1]));
    }
  }

  // ---------------------------------------------------------------------------
  // Stability

  lemma {:induction false} InsertStable(k: SortKey, x: Booking, s: seq<Booking>, key: (int, string))
    ensures WithKey(k, Insert(k, x, s), key) == WithKey(k, s, key) + (if KeyOf(k, x) == key then [x] else [])
  {
    if s == [] {
      WithKeySnoc(k, [], x, key);
      assert [] + [x] == [x];
    } else {
      var last := s[|s| - 1];
      var init := s[..|s| - 1];
      Snoc(s);
      WithKeySnoc(k, init, last, key);
      if Before(k, x, last) {
        var r := Insert(k, x, init);
        InsertStable(k, x, init, key);
        WithKeySnoc(k, r, last, key);
        if KeyOf(k, x) == key == KeyOf(k, last) {
          KeyLessIrreflexive(key);
        }
      } else {
        WithKeySnoc(k, s, x, key);
      }
    }
  }

  /** Appending one booking appends it to the bookings of its key only. */
  lemma WithKeySnoc(k: SortKey, r: seq<Booking>, y: Booking, key: (int, string))
    ensures WithKey(k, r + [y], key) == WithKey(k, r, key) + (if KeyOf(k, y) == key then [y] else [])
  {
    FrontOfSnoc(r, y);
  }

  lemma FrontOfSnoc<T>(r: seq<T>, y: T)
    ensures (r + [y])[..|r|] == r && (r + [y])[|r|] == y
  {
  }

  /** Bookings with equal keys come out in the order they went in. */
  lemma {:induction false} SortStable(k: SortKey, s: seq<Booking>, key: (int, string))
    ensures WithKey(k, Sort(k, s), key) == WithKey(k, s, key)
  {
    if s != [] {
      var init := s[..|s| - 1];
      SortStable(k, init, key);
      InsertStable(k, s[|s| - 1], Sort(k, init), key);
    }
  }
}
