/**
 * The text handling both purchase paths rely on, as Python performs it:
 * `str.split` with a one-character separator, `int()` and `float()` applied
 * to text, and `str()` of an integer. Money is kept in integer cents, so a
 * price such as "3.50" reads as 350.
 */
module Text {
  import opened Wrappers

  // ----- str.split -----

  /** Python's `s.split(sep)` for a one-character separator: the pieces between
      separators, empty pieces included ("a--b" gives "a", "" and "b"). */
  function Split(s: string, sep: char): (parts: seq<string>)
    ensures |parts| > 0
    ensures forall i :: 0 <= i < |parts| ==> sep !in parts[i]
    decreases |s|
  {
    if s == [] then [""]
    else
      var rest := Split(s[1..], sep);
      if s[0] == sep then [""] + rest
      else [[s[0]] + rest[0]] + rest[1..]
  }

  /** Python's `sep.join(parts)`. */
  function Join(parts: seq<string>, sep: char): string
    requires |parts| > 0
  {
    if |parts| == 1 then parts[0] else parts[0] + [sep] + Join(parts[1..], sep)
  }

  /** Splitting loses nothing: joining the pieces gives the text back. */
  lemma {:induction false} JoinSplit(s: string, sep: char)
    ensures Join(Split(s, sep), sep) == s
    decreases |s|
  {
    if s != [] {
      JoinSplit(s[1..], sep);
      var rest := Split(s[1..], sep);
      assert s == [s[0]] + s[1..];
      if s[0] == sep {
        assert ([""] + rest)[1..] == rest;
      } else if |rest| > 1 {
        assert ([[s[0]] + rest[0]] + rest[1..])[1..] == rest[1..];
      }
    }
  }

  /** A separator-free prefix is glued onto the first piece. */
  lemma {:induction false} SplitPrefix(x: string, t: string, sep: char)
    requires sep !in x
    ensures Split(x + t, sep) == [x + Split(t, sep)[0]] + Split(t, sep)[1..]
    decreases |x|
  {
    if x == [] {
      assert x + t == t;
      var p := Split(t, sep);
      assert x + p[0] == p[0];
      assert p == [p[0]] + p[1..];
    } else {
      assert (x + t)[1..] == x[1..] + t;
      assert (x + t)[0] == x[0];
      SplitPrefix(x[1..], t, sep);
      assert [x[0]] + (x[1..] + Split(t, sep)[0]) == x + Split(t, sep)[0];
    }
  }

  /** Joining separator-free pieces and splitting again gives the pieces back. */
  lemma {:induction false} SplitJoin(parts: seq<string>, sep: char)
    requires |parts| > 0
    requires forall i :: 0 <= i < |parts| ==> sep !in parts[i]
    ensures Split(Join(parts, sep), sep) == parts
    decreases |parts|
  {
    if |parts| == 1 {
      SplitPrefix(parts[0], [], sep);
      assert parts[0] + [] == parts[0];
    } else {
      var tail := Join(parts[1..], sep);
      SplitJoin(parts[1..], sep);
      SplitPrefix(parts[0], [sep] + tail, sep);
      assert parts[0] + [sep] + tail == parts[0] + ([sep] + tail);
      assert ([sep] + tail)[1..] == tail;
      assert Split([sep] + tail, sep) == [""] + parts[1..];
      assert parts[0] + "" == parts[0];
      assert parts == [parts[0]] + parts[1..];
    }
  }

  // ----- decimal numerals -----

  predicate IsDigit(c: char) { '0' <= c <= '9' }

  predicate AllDigits(s: string) { forall i :: 0 <= i < |s| ==> IsDigit(s[i]) }

  function DigitChar(d: nat): (c: char)
    requires d < 10
    ensures IsDigit(c) && c as int - '0' as int == d
  {
    ('0' as int + d) as char
  }

  /** The value of a run of decimal digits, most significant first ("" is 0). */
  function DigitsValue(s: string): nat
    requires AllDigits(s)
  {
    if s == [] then 0 else DigitsValue(s[..|s| - 1]) * 10 + (s[|s| - 1] as int - '0' as int)
  }

  /** Python's `str(n)` for n >= 0. */
  function NatText(n: nat): (s: string)
    ensures |s| > 0 && AllDigits(s)
    decreases n
  {
    if n < 10 then [DigitChar(n)] else NatText(n / 10) + [DigitChar(n % 10)]
  }

  lemma {:induction false} NatTextValue(n: nat)
    ensures DigitsValue(NatText(n)) == n
    decreases n
  {
    if n >= 10 {
      NatTextValue(n / 10);
      var s := NatText(n);
      assert s[..|s| - 1] == NatText(n / 10);
    }
  }

  /** Different numbers have different numerals. */
  lemma NatTextInjective(m: nat, n: nat)
    requires NatText(m) == NatText(n)
    ensures m == n
  {
    NatTextValue(m);
    NatTextValue(n);
  }

  /** Python's `str(i)` for any integer. */
  function IntText(i: int): string
  {
    if i < 0 then "-" + NatText(-i) else NatText(i)
  }

  // ----- int() and float() on text -----

  /** Python's `int(s)` on text: an optional sign followed by ASCII decimal
      digits (other Unicode decimal digits are not accepted here). None stands
      for the ValueError Python raises. */
  function ParseInt(s: string): (r: Option<int>)
    ensures r.Some? && '-' !in s ==> r.value >= 0
  {
    if s == [] then None
    else if s[0] == '+' || s[0] == '-' then
      var body := s[1..];
      if body != [] && AllDigits(body) then
        var v: int := if s[0] == '-' then -(DigitsValue(body) as int) else DigitsValue(body);
        Some(v)
      else None
    else if AllDigits(s) then Some(DigitsValue(s))
    else None
  }

  /** `int(str(i)) == i`. */
  lemma IntTextRoundTrip(i: int)
    ensures ParseInt(IntText(i)) == Some(i)
  {
    if i < 0 {
      NatTextValue(-i);
      assert ("-" + NatText(-i))[1..] == NatText(-i);
    } else {
      NatTextValue(i);
      assert IsDigit(NatText(i)[0]);
    }
  }

  /** Python's `float(s)`, in cents, on text made of an optional sign, decimal
      digits and at most one '.' followed by at most two digits, with at least
      one digit in all ("5.", ".5" and "+2.50" are accepted); digits are ASCII
      only. None stands for the ValueError Python raises. */
  function ParseCents(s: string): (r: Option<int>)
    ensures r.Some? && '-' !in s ==> r.value >= 0
  {
    if s != [] && (s[0] == '+' || s[0] == '-') then
      match UnsignedCents(s[1..])
      case None => None
      case Some(c) =>
        var v: int := if s[0] == '-' then -(c as int) else c;
        Some(v)
    else UnsignedCents(s)
  }

  function UnsignedCents(s: string): Option<nat>
  {
    var parts := Split(s, '.');
    if |parts| > 2 then None
    else
      var whole := parts[0];
      var frac := if |parts| == 2 then parts[1] else "";
      if AllDigits(whole) && AllDigits(frac) && |whole| + |frac| > 0 && |frac| <= 2 then
        Some(DigitsValue(whole) * 100 + DigitsValue(frac) * (if |frac| == 1 then 10 else 1))
      else None
  }

  /** A price in cents written with two decimals, as "3.50" for 350. */
  function PriceText(cents: nat): string
  {
    NatText(cents / 100) + "." + [DigitChar(cents % 100 / 10), DigitChar(cents % 10)]
  }

  /** A written price carries no minus sign. */
  lemma PriceTextUnsigned(cents: nat)
    ensures '-' !in PriceText(cents)
  {
    var whole := NatText(cents / 100);
    assert forall k :: 0 <= k < |whole| ==> whole[k] != '-';
  }

  /** `float()` reads back the price written by PriceText. */
  lemma PriceTextRoundTrip(cents: nat)
    ensures ParseCents(PriceText(cents)) == Some(cents)
  {
    var whole := NatText(cents / 100);
    var frac := [DigitChar(cents % 100 / 10), DigitChar(cents % 10)];
    assert forall k :: 0 <= k < |whole| ==> whole[k] != '.';
    assert Join([whole, frac], '.') == PriceText(cents);
    SplitJoin([whole, frac], '.');
    assert IsDigit(PriceText(cents)[0]);
    NatTextValue(cents / 100);
    assert frac[..1] == [frac[0]];
    assert [frac[0]][..0] == [];
    assert DigitsValue(frac[..1]) == cents % 100 / 10;
    assert DigitsValue(frac) == cents % 100;
  }
}
