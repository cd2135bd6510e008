/**
 * The birthday reformatting of the Facebook and VK sources: a date text is
 * split into day, month and year, day and month are padded to two digits,
 * and the parts are joined again in the source's own order.
 */
module Birthdates {
  import opened Php

  /** `if ($x < 10) $x = "0$x";` as the sources write it: every value PHP
      finds below ten gets a leading zero, also one that already has one. */
  function PadAsWritten(v: Value): Value
  {
    if LessThanTen(v) then Str("0" + ToStr(v)) else v
  }

  /** The padding the sources evidently intend: a one-character value below
      ten gets a leading zero; a longer one is kept. */
  function PadTwo(v: Value): Value
  {
    if LessThanTen(v) && |ToStr(v)| == 1 then Str("0" + ToStr(v)) else v
  }

  /** The text of a padded day or month. */
  function Two(s: string): string
  {
    ToStr(PadTwo(Str(s)))
  }

  /** `r` is the two-digit form of the number `s` denotes. */
  predicate TwoDigitsOf(r: string, s: string)
  {
    |r| == 2 && IsDigits(r) && IsDigits(s) && DigitsValue(r) == DigitsValue(s)
  }

  /** A day or month of one or two digits comes out as exactly two digits
      denoting the same number. */
  lemma {:induction false} PadTwoDigits(s: string)
    requires IsDigits(s) && |s| <= 2
    ensures TwoDigitsOf(Two(s), s)
  {
    if |s| == 1 {
      assert s[..0] == "";
      assert LessThanTen(Str(s));
      var r := "0" + s;
      assert r[..1] == "0" && r[1] == s[0];
      assert "0"[..0] == "";
      assert DigitsValue("0") == 0;
    }
  }

  /** The padding as written puts a third digit on a value that already has
      two: "0c" becomes "00c", where the intended padding keeps "0c". */
  lemma RepaddedAsWritten(c: char)
    requires IsDigit(c)
    ensures PadAsWritten(Str(['0', c])) == Str("00" + [c])
    ensures PadTwo(Str(['0', c])) == Str(['0', c])
  {
    assert ['0', c][..1] == "0" && "0"[..0] == "";
    assert DigitsValue(['0', c]) == c as int - '0' as int;
  }

  /** A single digit is below ten and both paddings give it a leading zero. */
  lemma OneDigitPads(c: char)
    requires IsDigit(c)
    ensures LessThanTen(Str([c]))
    ensures PadAsWritten(Str([c])) == Str("0" + [c])
    ensures PadTwo(Str([c])) == Str("0" + [c])
  {
    assert [c][..0] == [];
  }

  /** `"$d.$m.$y"`. */
  function Dotted(d: Value, m: Value, y: Value): string
  {
    ToStr(d) + "." + ToStr(m) + "." + ToStr(y)
  }

  /** A date of three separator-free parts splits back into those parts. */
  lemma {:induction false} ExplodeDate(sep: char, a: string, b: string, c: string)
    requires sep !in a && sep !in b && sep !in c
    ensures Explode(sep, a + [sep] + b + [sep] + c) == [a, b, c]
  {
    var parts := [a, b, c];
    assert parts[1..] == [b, c] && [b, c][1..] == [c];
    assert Implode([sep], [c]) == c;
    assert Implode([sep], [b, c]) == b + [sep] + c;
    assert Implode([sep], parts) == a + [sep] + (b + [sep] + c);
    assert a + [sep] + b + [sep] + c == a + [sep] + (b + [sep] + c);
    ExplodeImplode(sep, parts);
  }

  /** Two separator-free parts joined by the separator split back into
      those parts. */
  lemma {:induction false} ExplodePair(sep: char, a: string, b: string)
    requires sep !in a && sep !in b
    ensures Explode(sep, a + [sep] + b) == [a, b]
  {
    assert [a, b][1..] == [b];
    assert Implode([sep], [b]) == b;
    assert Implode([sep], [a, b]) == a + [sep] + b;
    ExplodeImplode(sep, [a, b]);
  }

  /** A digit string holds no separator. */
  lemma DigitsHoldNoSeparator(s: string, sep: char)
    requires IsDigits(s) && !IsDigit(sep)
    ensures sep !in s
  {
  }
}
