/**
 * The pieces of JavaScript's string behaviour that the booking code relies on:
 * decimal rendering (`String(n)`, `padStart(2, '0')`), `Number` of a digit string,
 * `trim()` and the `\s` class, `split`/`indexOf` on one character, and the
 * code-point-by-code-point string order MongoDB uses for `$gte`/`$lte` and `sort`.
 */
module Text {
  import opened Basics

  // ---------------------------------------------------------------- digits

  predicate IsDigit(c: char) { '0' <= c <= '9' }

  predicate AllDigits(s: string) { forall i | 0 <= i < |s| :: IsDigit(s[i]) }

  function DigitValue(c: char): (n: nat)
    requires IsDigit(c)
    ensures n < 10
  {
    c as int - '0' as int
  }

  function DigitChar(n: nat): (c: char)
    requires n < 10
    ensures IsDigit(c) && DigitValue(c) == n
  {
    ('0' as int + n) as char
  }

  /** `String(n)` for a non-negative integer: shortest decimal form, no leading zero. */
  function NatToString(n: nat): string
    decreases n
  {
    if n < 10 then [DigitChar(n)] else NatToString(n / 10) + [DigitChar(n % 10)]
  }

  /** `String(i)` for any integer. */
  function IntToString(i: int): string
  {
    if i < 0 then "-" + NatToString(-i) else NatToString(i)
  }

  /** `Number(s)` for a string of decimal digits. */
  function DecimalValue(s: string): nat
    requires AllDigits(s)
  {
    if s == [] then 0 else DecimalValue(s[..|s| - 1]) * 10 + DigitValue(s[|s| - 1])
  }

  /** `String(n).padStart(2, '0')`. */
  function Pad2(n: nat): string
  {
    var s := NatToString(n);
    if |s| < 2 then "0" + s else s
  }

  lemma {:induction false} NatToStringShape(n: nat)
    ensures |NatToString(n)| >= 1 && AllDigits(NatToString(n))
    ensures NatToString(n)[0] != '0' || n == 0
    decreases n
  {
    if n >= 10 {
      NatToStringShape(n / 10);
      assert NatToString(n)[0] == NatToString(n / 10)[0];
    }
  }

  /** Reading back what `String(n)` wrote gives `n`. */
  lemma {:induction false} ValueOfNatToString(n: nat)
    ensures AllDigits(NatToString(n)) && DecimalValue(NatToString(n)) == n
    decreases n
  {
    NatToStringShape(n);
    var s := NatToString(n);
    if n < 10 {
      assert s[..0] == [];
    } else {
      var p := NatToString(n / 10);
      ValueOfNatToString(n / 10);
      assert s[..|s| - 1] == p;
    }
  }

  lemma {:induction false} PositiveValue(s: string)
    requires AllDigits(s) && |s| >= 1 && s[0] != '0'
    ensures DecimalValue(s) >= 1
    decreases |s|
  {
    if |s| > 1 {
      PositiveValue(s[..|s| - 1]);
    } else {
      assert s[..0] == [];
    }
  }

  /** Appending the digit `d` to a positive number: division by ten undoes it. */
  lemma LastDigit(a: nat, d: nat)
    requires a >= 1 && d < 10
    ensures a * 10 + d >= 10 && (a * 10 + d) / 10 == a && (a * 10 + d) % 10 == d
  {
  }

  /** A digit string without a leading zero is exactly what `String` writes for its value. */
  lemma {:induction false} NatToStringOfValue(s: string)
    requires AllDigits(s) && |s| >= 1 && s[0] != '0'
    ensures NatToString(DecimalValue(s)) == s
    decreases |s|
  {
    if |s| == 1 {
      assert s[..0] == [];
      assert [DigitChar(DigitValue(s[0]))] == s;
    } else {
      var p := s[..|s| - 1];
      PositiveValue(p);
      NatToStringOfValue(p);
      var d := DigitValue(s[|s| - 1]);
      var v := DecimalValue(s);
      assert v == DecimalValue(p) * 10 + d;
      LastDigit(DecimalValue(p), d);
      assert NatToString(v) == NatToString(DecimalValue(p)) + [DigitChar(d)];
      assert DigitChar(d) == s[|s| - 1];
      assert p + [s[|s| - 1]] == s;
    }
  }

  lemma FourDigitYear(n: nat)
    requires 1000 <= n <= 9999
    ensures |NatToString(n)| == 4
  {
    assert (n / 10) / 10 == n / 100 && (n / 100) / 10 == n / 1000;
    assert |NatToString(n / 1000)| == 1;
    assert |NatToString(n / 100)| == 2;
    assert |NatToString(n / 10)| == 3;
  }

  /** `padStart(2, '0')` of a number below 100 is two digits that read back as the number. */
  lemma Pad2Digits(n: nat)
    requires n < 100
    ensures |Pad2(n)| == 2 && AllDigits(Pad2(n)) && DecimalValue(Pad2(n)) == n
  {
    var s := Pad2(n);
    var hi, lo := n / 10, n % 10;
    if n < 10 {
      assert s == ['0', DigitChar(n)];
    } else {
      assert NatToString(hi) == [DigitChar(hi)];
      assert s == [DigitChar(hi), DigitChar(lo)];
    }
    assert s[..1] == [s[0]] && s[..1][..0] == [];
    assert DecimalValue(s[..1]) == DigitValue(s[0]) == hi;
    assert DecimalValue(s) == hi * 10 + lo;
  }

  /** Two digits are what `padStart(2, '0')` writes for their value. */
  lemma Pad2OfValue(s: string)
    requires |s| == 2 && AllDigits(s)
    ensures Pad2(DecimalValue(s)) == s
  {
    var a, b := DigitValue(s[0]), DigitValue(s[1]);
    assert s[..1] == [s[0]] && s[..1][..0] == [];
    assert DecimalValue(s[..1]) == a;
    assert DecimalValue(s) == a * 10 + b;
    assert DigitChar(a) == s[0] && DigitChar(b) == s[1];
    if a == 0 {
      assert NatToString(b) == [DigitChar(b)];
      assert s == "0" + [DigitChar(b)];
    } else {
      LastDigit(a, b);
      assert NatToString(a) == [DigitChar(a)];
      assert NatToString(a * 10 + b) == [DigitChar(a), DigitChar(b)];
    }
  }

  // ---------------------------------------------------------- length

  /** Code units a character takes in UTF-16: two outside the Basic Multilingual Plane. */
  function Utf16Units(c: char): nat
  {
    if c as int >= 0x1_0000 then 2 else 1
  }

  /** JavaScript's `s.length`, counted in UTF-16 code units. */
  function Utf16Length(s: string): (n: nat)
    ensures |s| <= n <= 2 * |s|
  {
    if s == [] then 0 else Utf16Units(s[0]) + Utf16Length(s[1..])
  }

  /** Where every character lies in the Basic Multilingual Plane, `.length` counts characters. */
  lemma {:induction false} Utf16LengthOfBmp(s: string)
    requires forall i | 0 <= i < |s| :: s[i] as int < 0x1_0000
    ensures Utf16Length(s) == |s|
  {
    if s != [] {
      Utf16LengthOfBmp(s[1..]);
    }
  }

  /** One character outside the Basic Multilingual Plane has `.length` 2. */
  lemma AstralCharacterLength()
    ensures |"\U{20000}"| == 1 && Utf16Length("\U{20000}") == 2
  {
    assert "\U{20000}"[1..] == [];
  }

  // ---------------------------------------------------------- whitespace

  /** The characters JavaScript's `\s` and `trim()` treat as white space. */
  predicate IsJsSpace(c: char)
  {
    IsSpaceCode(c as int)
  }

  predicate IsSpaceCode(n: int)
  {
    n == 0x09 || n == 0x0A || n == 0x0B || n == 0x0C || n == 0x0D || n == 0x20 ||
    n == 0xA0 || n == 0x1680 || (0x2000 <= n <= 0x200A) || n == 0x2028 || n == 0x2029 ||
    n == 0x202F || n == 0x205F || n == 0x3000 || n == 0xFEFF
  }

  predicate IsBlank(s: string) { forall i | 0 <= i < |s| :: IsJsSpace(s[i]) }

  function TrimStart(s: string): string
  {
    if s != [] && IsJsSpace(s[0]) then TrimStart(s[1..]) else s
  }

  function TrimEnd(s: string): string
  {
    if s != [] && IsJsSpace(s[|s| - 1]) then TrimEnd(s[..|s| - 1]) else s
  }

  /** `s.trim()`. */
  function Trim(s: string): string { TrimEnd(TrimStart(s)) }

  lemma {:induction false} TrimStartSpec(s: string)
    ensures TrimStart(s) == [] <==> IsBlank(s)
    ensures TrimStart(s) != [] ==> !IsJsSpace(TrimStart(s)[0])
  {
    if s != [] && IsJsSpace(s[0]) {
      TrimStartSpec(s[1..]);
      assert IsBlank(s[1..]) ==> IsBlank(s) by {
        if IsBlank(s[1..]) {
          forall i | 0 <= i < |s| ensures IsJsSpace(s[i]) {
            if i > 0 { assert s[i] == s[1..][i - 1]; }
          }
        }
      }
    }
  }

  lemma {:induction false} TrimEndSpec(s: string)
    ensures TrimEnd(s) == [] <==> IsBlank(s)
  {
    if s != [] && IsJsSpace(s[|s| - 1]) {
      var p := s[..|s| - 1];
      TrimEndSpec(p);
      assert IsBlank(p) ==> IsBlank(s) by {
        if IsBlank(p) {
          forall i | 0 <= i < |s| ensures IsJsSpace(s[i]) {
            if i < |s| - 1 { assert s[i] == p[i]; }
          }
        }
      }
    }
  }

  /** `!s.trim()` holds exactly when every character is white space. */
  lemma TrimEmptyIffBlank(s: string)
    ensures Trim(s) == [] <==> IsBlank(s)
  {
    TrimStartSpec(s);
    TrimEndSpec(TrimStart(s));
  }

  /** A digit string has no white space to trim. */
  lemma TrimDigits(s: string)
    requires AllDigits(s)
    ensures Trim(s) == s
  {
    if s != [] {
      assert !IsJsSpace(s[0]) && !IsJsSpace(s[|s| - 1]);
    }
  }

  // ------------------------------------------------------ search and split

  /** The position of the first `c` in `s`, as `s.indexOf(c)` finds it. */
  function IndexOf(s: string, c: char): (r: Option<nat>)
    ensures r.None? ==> c !in s
    ensures r.Some? ==> r.value < |s| && s[r.value] == c && c !in s[..r.value]
  {
    if s == [] then None
    else if s[0] == c then Some(0)
    else match IndexOf(s[1..], c)
      case None => None
      case Some(i) => assert s[1..][..i] == s[1..i + 1]; Some(i + 1)
  }

  /** `s.split(c)[0]`: everything before the first `c`. */
  function BeforeFirst(s: string, c: char): string
  {
    match IndexOf(s, c)
    case None => s
    case Some(i) => s[..i]
  }

  /** `s.split(c)`. */
  function Split(s: string, c: char): seq<string>
    decreases |s|
  {
    match IndexOf(s, c)
    case None => [s]
    case Some(i) => [s[..i]] + Split(s[i + 1..], c)
  }

  lemma IndexAfterPrefix(a: string, c: char, b: string)
    requires c !in a
    ensures IndexOf(a + [c] + b, c) == Some(|a|)
  {
    var s := a + [c] + b;
    assert s[|a|] == c;
    assert forall i | 0 <= i < |a| :: s[i] == a[i];
  }

  lemma BeforeFirstOfPrefix(a: string, c: char, b: string)
    requires c !in a
    ensures BeforeFirst(a + [c] + b, c) == a
  {
    IndexAfterPrefix(a, c, b);
    assert (a + [c] + b)[..|a|] == a;
  }

  lemma SplitOfPrefix(a: string, c: char, b: string)
    requires c !in a
    ensures Split(a + [c] + b, c) == [a] + Split(b, c)
  {
    IndexAfterPrefix(a, c, b);
    var s := a + [c] + b;
    assert s[..|a|] == a && s[|a| + 1..] == b;
  }

  // -------------------------------------------------------- string order

  /** Binary string order: what MongoDB's `$gte`, `$lte` and `sort` use on strings. */
  predicate LexLe(a: string, b: string)
  {
    if a == [] then true
    else if b == [] then false
    else a[0] < b[0] || (a[0] == b[0] && LexLe(a[1..], b[1..]))
  }

  predicate LexLt(a: string, b: string) { LexLe(a, b) && a != b }

  lemma {:induction false} LexLeReflexive(a: string)
    ensures LexLe(a, a)
  {
    if a != [] { LexLeReflexive(a[1..]); }
  }

  lemma {:induction false} LexLeTotal(a: string, b: string)
    ensures LexLe(a, b) || LexLe(b, a)
  {
    if a != [] && b != [] && a[0] == b[0] { LexLeTotal(a[1..], b[1..]); }
  }

  lemma {:induction false} LexLeAntisymmetric(a: string, b: string)
    requires LexLe(a, b) && LexLe(b, a)
    ensures a == b
  {
    if a != [] && b != [] {
      LexLeAntisymmetric(a[1..], b[1..]);
      assert a == [a[0]] + a[1..] && b == [b[0]] + b[1..];
    }
  }

  lemma {:induction false} LexLeTransitive(a: string, b: string, c: string)
    requires LexLe(a, b) && LexLe(b, c)
    ensures LexLe(a, c)
  {
    if a != [] && b != [] && c != [] && a[0] == b[0] == c[0] {
      LexLeTransitive(a[1..], b[1..], c[1..]);
    }
  }

  /** Comparing equal-length prefixes first: the property that makes fixed-width fields sort field by field. */
  lemma {:induction false} LexLeConcat(p: string, s: string, q: string, t: string)
    requires |p| == |q|
    ensures LexLe(p + s, q + t) <==> LexLt(p, q) || (p == q && LexLe(s, t))
    decreases |p|
  {
    if p != [] {
      assert (p + s)[0] == p[0] && (q + t)[0] == q[0];
      assert (p + s)[1..] == p[1..] + s && (q + t)[1..] == q[1..] + t;
      LexLeConcat(p[1..], s, q[1..], t);
      assert p == [p[0]] + p[1..] && q == [q[0]] + q[1..];
      if p[0] == q[0] {
        assert p == q <==> p[1..] == q[1..];
        assert LexLe(p, q) <==> LexLe(p[1..], q[1..]);
      }
    } else {
      assert p + s == s && q + t == t;
    }
  }
}
