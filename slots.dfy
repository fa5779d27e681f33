/**
 * The hourly slot labels both booking screens offer: the hour in two digits
 * followed by `:00`.
 */
module Slots {
  import opened Text

  /** The label of the slot starting at hour `h`. */
  function SlotLabel(h: nat): string
  {
    Pad2(h) + ":00"
  }

  /** Two `HH:00` labels compare as their hours do. */
  lemma SlotLabelOrder(a: nat, b: nat)
    requires a < b < 100
    ensures LexLt(SlotLabel(a), SlotLabel(b))
  {
    Pad2Digits(a);
    Pad2Digits(b);
    var x, y := Pad2(a), Pad2(b);
    assert DecimalValue(x) == DigitValue(x[0]) * 10 + DigitValue(x[1]) by {
      assert x[..1] == [x[0]];
    }
    assert DecimalValue(y) == DigitValue(y[0]) * 10 + DigitValue(y[1]) by {
      assert y[..1] == [y[0]];
    }
    var s, t := SlotLabel(a), SlotLabel(b);
    assert s[0] == x[0] && t[0] == y[0] && s[1] == x[1] && t[1] == y[1];
    if x[0] == y[0] {
      assert x[1] < y[1];
      assert s[1..][0] == x[1] && t[1..][0] == y[1];
    }
    assert s != t by { assert s[..2] == x && t[..2] == y; }
  }

  /** A slot label spelled out digit by digit. */
  lemma SlotLabelDigits(h: nat)
    requires h < 100
    ensures SlotLabel(h) == [DigitChar(h / 10), DigitChar(h % 10), ':', '0', '0']
  {
    if h >= 10 {
      assert NatToString(h / 10) == [DigitChar(h / 10)];
    }
  }

  /** Labels of different hours differ. */
  lemma SlotLabelsDiffer(a: nat, b: nat)
    requires a < 100 && b < 100 && a != b
    ensures SlotLabel(a) != SlotLabel(b)
  {
    if a < b {
      SlotLabelOrder(a, b);
    } else {
      SlotLabelOrder(b, a);
    }
  }
}
