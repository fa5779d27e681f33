/**
 * Splitting a list of time slots by an availability answer, as both booking
 * screens do: the accepted slots and the refused ones, each in list order.
 */
module SlotPartition {
  import opened Basics

  /** The elements `p` accepts, in their order in `xs` (`xs.filter(p)`). */
  function Keep<T>(xs: seq<T>, p: T -> bool): seq<T>
  {
    if xs == [] then [] else (if p(xs[0]) then [xs[0]] else []) + Keep(xs[1..], p)
  }

  /** The elements `p` refuses, in their order in `xs`. */
  function Drop<T>(xs: seq<T>, p: T -> bool): seq<T>
  {
    if xs == [] then [] else (if p(xs[0]) then [] else [xs[0]]) + Drop(xs[1..], p)
  }

  lemma {:induction false} KeepSnoc<T>(xs: seq<T>, x: T, p: T -> bool)
    ensures Keep(xs + [x], p) == Keep(xs, p) + (if p(x) then [x] else [])
    ensures Drop(xs + [x], p) == Drop(xs, p) + (if p(x) then [] else [x])
    decreases |xs|
  {
    if xs != [] {
      assert (xs + [x])[1..] == xs[1..] + [x];
      KeepSnoc(xs[1..], x, p);
    }
  }

  /** `Keep` holds exactly the accepted elements, `Drop` exactly the refused ones. */
  lemma {:induction false} KeepDropMembers<T>(xs: seq<T>, p: T -> bool, x: T)
    ensures x in Keep(xs, p) <==> x in xs && p(x)
    ensures x in Drop(xs, p) <==> x in xs && !p(x)
    decreases |xs|
  {
    if xs != [] {
      KeepDropMembers(xs[1..], p, x);
      assert xs == [xs[0]] + xs[1..];
    }
  }

  /** Together the two parts hold every element exactly as often as `xs` does. */
  lemma {:induction false} KeepDropPartition<T>(xs: seq<T>, p: T -> bool)
    ensures multiset(Keep(xs, p)) + multiset(Drop(xs, p)) == multiset(xs)
    decreases |xs|
  {
    if xs != [] {
      KeepDropPartition(xs[1..], p);
      assert xs == [xs[0]] + xs[1..];
    }
  }

  lemma KeepMembers<T>(xs: seq<T>, p: T -> bool)
    ensures forall x :: x in Keep(xs, p) <==> x in xs && p(x)
  {
    forall x ensures x in Keep(xs, p) <==> x in xs && p(x) {
      KeepDropMembers(xs, p, x);
    }
  }

  /** `Keep` holds each element that passes as often as `xs` does, and no other. */
  lemma KeepCounts<T>(xs: seq<T>, p: T -> bool)
    ensures forall x :: multiset(Keep(xs, p))[x] == if p(x) then multiset(xs)[x] else 0
  {
    KeepDropPartition(xs, p);
    forall x ensures multiset(Keep(xs, p))[x] == if p(x) then multiset(xs)[x] else 0 {
      KeepDropMembers(xs, p, x);
    }
  }

  /** No element lies in both parts. */
  lemma KeepDropDisjoint<T>(xs: seq<T>, p: T -> bool)
    ensures forall x :: x in Keep(xs, p) ==> x !in Drop(xs, p)
  {
    forall x | x in Keep(xs, p) ensures x !in Drop(xs, p) {
      KeepDropMembers(xs, p, x);
    }
  }

  /** `a` is `b` with some elements left out, the rest in the same order. */
  predicate SubsequenceOf<T(==)>(a: seq<T>, b: seq<T>)
    decreases |b|
  {
    if a == [] then true
    else if b == [] then false
    else (a[0] == b[0] && SubsequenceOf(a[1..], b[1..])) || SubsequenceOf(a, b[1..])
  }

  lemma {:induction false} KeepIsSubsequence<T>(xs: seq<T>, p: T -> bool)
    ensures SubsequenceOf(Keep(xs, p), xs)
    ensures SubsequenceOf(Drop(xs, p), xs)
    decreases |xs|
  {
    if xs != [] {
      KeepIsSubsequence(xs[1..], p);
      var k, d := Keep(xs, p), Drop(xs, p);
      if p(xs[0]) {
        assert k[0] == xs[0] && k[1..] == Keep(xs[1..], p);
        assert d == Drop(xs[1..], p);
      } else {
        assert d[0] == xs[0] && d[1..] == Drop(xs[1..], p);
        assert k == Keep(xs[1..], p);
      }
    }
  }

  /** No element occurs twice. */
  predicate Distinct<T(==)>(xs: seq<T>)
  {
    forall i, j | 0 <= i < j < |xs| :: xs[i] != xs[j]
  }

  /** `xs.indexOf(x)`: the first position holding `x`. */
  function Position<T(==)>(xs: seq<T>, x: T): (r: Option<nat>)
    ensures r.None? <==> x !in xs
    ensures r.Some? ==> r.value < |xs| && xs[r.value] == x && x !in xs[..r.value]
  {
    if xs == [] then None
    else if xs[0] == x then Some(0)
    else match Position(xs[1..], x)
      case None => None
      case Some(i) => assert xs[1..][..i] == xs[1..i + 1]; Some(i + 1)
  }

  lemma PositionAfter<T>(a: seq<T>, x: T, b: seq<T>)
    requires x !in a
    ensures Position(a + [x] + b, x) == Some(|a|)
  {
    var s := a + [x] + b;
    assert s[|a|] == x;
    assert s[..|a|] == a;
  }

  /** Cutting the first occurrence of `x` out of `done + [x] + rest` leaves `done + rest`. */
  lemma CutFirst<T>(done: seq<T>, x: T, rest: seq<T>)
    requires x !in done
    ensures Position(done + [x] + rest, x) == Some(|done|)
    ensures var c := done + [x] + rest; c[..|done|] + c[|done| + 1..] == done + rest
  {
    PositionAfter(done, x, rest);
    var c := done + [x] + rest;
    assert c[..|done|] == done;
    assert c[|done| + 1..] == rest;
  }

  /**
   * One step of cutting refused slots out of a copy of `xs`: with the first
   * `i` slots handled, the copy is the accepted ones among them followed by
   * the rest; if slot `i` is refused it sits right after the accepted ones.
   */
  lemma SpliceStep<T>(xs: seq<T>, i: nat, p: T -> bool, copy: seq<T>)
    requires Distinct(xs) && i < |xs|
    requires copy == Keep(xs[..i], p) + xs[i..]
    ensures Drop(xs[..i + 1], p) == Drop(xs[..i], p) + (if p(xs[i]) then [] else [xs[i]])
    ensures p(xs[i]) ==> copy == Keep(xs[..i + 1], p) + xs[i + 1..]
    ensures !p(xs[i]) ==>
      var k := |Keep(xs[..i], p)|;
      && Position(copy, xs[i]) == Some(k)
      && copy[..k] + copy[k + 1..] == Keep(xs[..i + 1], p) + xs[i + 1..]
  {
    var x, rest := xs[i], xs[i + 1..];
    var done := Keep(xs[..i], p);
    assert xs[..i + 1] == xs[..i] + [x];
    KeepSnoc(xs[..i], x, p);
    assert copy == done + [x] + rest by {
      assert xs[i..] == [x] + rest;
    }
    if !p(x) {
      assert x !in xs[..i] by {
        forall j | 0 <= j < i ensures xs[..i][j] != x {
          assert xs[j] != xs[i];
        }
      }
      KeepDropMembers(xs[..i], p, x);
      CutFirst(done, x, rest);
      assert Keep(xs[..i + 1], p) == done;
    }
  }
}
