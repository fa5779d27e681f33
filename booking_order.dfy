/**
 * The orders the booking routes ask MongoDB for: `sort({ date: 1 })` when
 * listing every booking and `sort({ date: 1, time: 1 })` for a date range.
 * Both compare the string fields in binary order. MongoDB leaves the order of
 * equal keys open, so the routes are specified by "sorted and a permutation",
 * and an insertion sort serves as the witness that such an order exists.
 */
module BookingOrder {
  import opened Text
  import opened BookingRecord

  datatype SortKey = ByDate | ByDateTime

  predicate Le(k: SortKey, a: Booking, b: Booking)
  {
    match k
    case ByDate => LexLe(a.date, b.date)
    case ByDateTime => LexLt(a.date, b.date) || (a.date == b.date && LexLe(a.time, b.time))
  }

  lemma LeTotal(k: SortKey, a: Booking, b: Booking)
    ensures Le(k, a, b) || Le(k, b, a)
  {
    LexLeTotal(a.date, b.date);
    LexLeTotal(a.time, b.time);
    if LexLe(a.date, b.date) && LexLe(b.date, a.date) { LexLeAntisymmetric(a.date, b.date); }
  }

  lemma LeTransitive(k: SortKey, a: Booking, b: Booking, c: Booking)
    requires Le(k, a, b) && Le(k, b, c)
    ensures Le(k, a, c)
  {
    match k
    case ByDate => LexLeTransitive(a.date, b.date, c.date);
    case ByDateTime =>
      LexLeReflexive(a.date);
      LexLeReflexive(b.date);
      LexLeTransitive(a.date, b.date, c.date);
      if a.date == c.date {
        LexLeAntisymmetric(a.date, b.date);
        LexLeTransitive(a.time, b.time, c.time);
      }
  }

  predicate Sorted(k: SortKey, s: seq<Booking>)
  {
    forall i, j | 0 <= i < j < |s| :: Le(k, s[i], s[j])
  }

  /** `y` is at most every element of `s`. */
  predicate LeAll(k: SortKey, y: Booking, s: seq<Booking>)
  {
    forall j | 0 <= j < |s| :: Le(k, y, s[j])
  }

  lemma SortedCons(k: SortKey, y: Booking, s: seq<Booking>)
    requires LeAll(k, y, s) && Sorted(k, s)
    ensures Sorted(k, [y] + s)
  {
  }

  lemma LeAllOfSorted(k: SortKey, y: Booking, s: seq<Booking>)
    requires Sorted(k, s) && s != [] && Le(k, y, s[0])
    ensures LeAll(k, y, s)
  {
    forall j | 0 <= j < |s| ensures Le(k, y, s[j]) {
      if j > 0 { LeTransitive(k, y, s[0], s[j]); }
    }
  }

  lemma LeAllPermutation(k: SortKey, y: Booking, x: Booking, s: seq<Booking>, t: seq<Booking>)
    requires LeAll(k, y, s) && Le(k, y, x)
    requires multiset(t) == multiset(s) + multiset{x}
    ensures LeAll(k, y, t)
  {
    forall j | 0 <= j < |t| ensures Le(k, y, t[j]) {
      assert t[j] in multiset(t);
      if t[j] != x {
        assert t[j] in multiset(s);
        var m :| 0 <= m < |s| && s[m] == t[j];
      }
    }
  }

  /** Insertion into a sorted sequence. */
  function Insert(k: SortKey, x: Booking, s: seq<Booking>): seq<Booking>
  {
    if s == [] then [x]
    else if Le(k, x, s[0]) then [x] + s
    else [s[0]] + Insert(k, x, s[1..])
  }

  lemma {:induction false} InsertPermutes(k: SortKey, x: Booking, s: seq<Booking>)
    ensures multiset(Insert(k, x, s)) == multiset(s) + multiset{x}
  {
    if s != [] {
      assert s == [s[0]] + s[1..];
      if !Le(k, x, s[0]) { InsertPermutes(k, x, s[1..]); }
    }
  }

  lemma {:induction false} InsertSorted(k: SortKey, x: Booking, s: seq<Booking>)
    requires Sorted(k, s)
    ensures Sorted(k, Insert(k, x, s))
  {
    if s != [] {
      if Le(k, x, s[0]) {
        LeAllOfSorted(k, x, s);
        SortedCons(k, x, s);
      } else {
        var rest := Insert(k, x, s[1..]);
        InsertSorted(k, x, s[1..]);
        InsertPermutes(k, x, s[1..]);
        LeTotal(k, x, s[0]);
        assert LeAll(k, s[0], s[1..]);
        LeAllPermutation(k, s[0], x, s[1..], rest);
        SortedCons(k, s[0], rest);
      }
    }
  }

  /** Inserting the head of `s` into a sorted permutation of its tail sorts all of `s`. */
  lemma InsertStep(k: SortKey, s: seq<Booking>, rest: seq<Booking>)
    requires s != [] && Sorted(k, rest) && multiset(rest) == multiset(s[1..])
    ensures Sorted(k, Insert(k, s[0], rest))
    ensures multiset(Insert(k, s[0], rest)) == multiset(s)
  {
    InsertSorted(k, s[0], rest);
    InsertPermutes(k, s[0], rest);
    assert s == [s[0]] + s[1..];
  }

  /** A sorted permutation of `s`. */
  function Sort(k: SortKey, s: seq<Booking>): (r: seq<Booking>)
    ensures Sorted(k, r)
    ensures multiset(r) == multiset(s)
  {
    if s == [] then []
    else
      var rest := Sort(k, s[1..]);
      InsertStep(k, s, rest);
      Insert(k, s[0], rest)
  }
}
