/**
 * The PHP string built-ins the extractor relies on, on `string` (a sequence of
 * characters standing for the bytes of the description): `strpos`, `explode`,
 * `rtrim`, `strtolower`, `is_numeric` and `intval`.
 */
module Strings {
  import opened Wrappers
  import opened Seqs

  /** `strpos(s, c, from)`: the first index at or after `from` that holds `c`. */
  function Find(s: string, c: char, from: nat): (r: Option<nat>)
    ensures r.None? <==> forall i :: from <= i < |s| ==> s[i] != c
    ensures r.Some? ==> from <= r.value < |s| && s[r.value] == c
    ensures r.Some? ==> forall i :: from <= i < r.value ==> s[i] != c
    decreases |s| - from
  {
    if from >= |s| then None
    else if s[from] == c then Some(from)
    else Find(s, c, from + 1)
  }

  /** `explode(sep, s)`: the pieces of `s` between the occurrences of `sep`. */
  function Split(s: string, sep: char): (parts: seq<string>)
    ensures |parts| >= 1
    ensures forall i :: 0 <= i < |parts| ==> sep !in parts[i]
    decreases |s|
  {
    match Find(s, sep, 0)
    case None => [s]
    case Some(j) => [s[..j]] + Split(s[j + 1..], sep)
  }

  /** A string without the separator is one piece. */
  lemma SplitWithoutSeparator(s: string, sep: char)
    requires sep !in s
    ensures Split(s, sep) == [s]
  {
    assert Find(s, sep, 0).None?;
  }

  /** Gluing the pieces back together with `sep` gives the original string. */
  lemma {:induction false} JoinSplit(s: string, sep: char)
    ensures Join(Split(s, sep), [sep]) == s
    decreases |s|
  {
    match Find(s, sep, 0)
    case None =>
      assert Split(s, sep) == [s];
    case Some(j) =>
      var rest := s[j + 1..];
      calc {
        Join(Split(s, sep), [sep]);
        Join([s[..j]] + Split(rest, sep), [sep]);
        { JoinCons(s[..j], Split(rest, sep), [sep]); }
        s[..j] + [sep] + Join(Split(rest, sep), [sep]);
        { JoinSplit(rest, sep); }
        s[..j] + [sep] + rest;
        { assert s == s[..j] + [s[j]] + s[j + 1..]; }
        s;
      }
  }

  /** Splitting a join of separator-free pieces gives the pieces back. */
  lemma {:induction false} SplitJoin(parts: seq<string>, sep: char)
    requires |parts| >= 1
    requires forall i :: 0 <= i < |parts| ==> sep !in parts[i]
    ensures Split(Join(parts, [sep]), sep) == parts
  {
    if |parts| > 1 {
      var a, rest := parts[0], parts[1..];
      assert parts == [a] + rest;
      var s := a + [sep] + Join(rest, [sep]);
      assert Join(parts, [sep]) == s by { JoinCons(a, rest, [sep]); }
      assert Find(s, sep, 0) == Some(|a|) by {
        assert forall i :: 0 <= i < |a| ==> s[i] == a[i];
        assert s[|a|] == sep;
      }
      assert s[..|a|] == a && s[|a| + 1..] == Join(rest, [sep]);
      calc {
        Split(s, sep);
        [a] + Split(Join(rest, [sep]), sep);
        { SplitJoin(rest, sep); }
        [a] + rest;
      }
    } else {
      assert sep !in parts[0];
    }
  }

  /** The characters PHP's `rtrim` strips when given no character list. */
  predicate IsTrimmable(c: char)
  {
    c == ' ' || c == '\t' || c == '\n' || c == '\r' || c == '\0' || c == '\U{B}'
  }

  /** `rtrim(s)`: the longest prefix of `s` that does not end in a trimmable character. */
  function RTrim(s: string): (r: string)
    ensures IsPrefix(r, s)
    ensures |r| == 0 || !IsTrimmable(r[|r| - 1])
    ensures forall i :: |r| <= i < |s| ==> IsTrimmable(s[i])
  {
    if |s| > 0 && IsTrimmable(Last(s)) then RTrim(Front(s)) else s
  }

  /** `strtolower` on one character: ASCII letters only. */
  function LowerChar(c: char): char
  {
    if 'A' <= c <= 'Z' then (c as int + 32) as char else c
  }

  /** `strtolower(s)`. */
  function Lower(s: string): (r: string)
    ensures |r| == |s|
    ensures forall i :: 0 <= i < |s| ==> r[i] == LowerChar(s[i])
  {
    if |s| == 0 then [] else [LowerChar(s[0])] + Lower(s[1..])
  }

  lemma LowerIdempotent(s: string)
    ensures Lower(Lower(s)) == Lower(s)
  {
    assert forall i :: 0 <= i < |s| ==> Lower(Lower(s))[i] == Lower(s)[i];
  }

  predicate IsDigit(c: char)
  {
    '0' <= c <= '9'
  }

  /** One or more decimal digits. */
  predicate IsDigits(s: string)
  {
    |s| > 0 && forall i :: 0 <= i < |s| ==> IsDigit(s[i])
  }

  /** The value of a run of decimal digits. */
  function DigitsValue(s: string): nat
    requires forall i :: 0 <= i < |s| ==> IsDigit(s[i])
  {
    if |s| == 0 then 0
    else
      assert IsDigit(s[|s| - 1]);
      DigitsValue(Front(s)) * 10 + (s[|s| - 1] as int - '0' as int)
  }

  /**
   * The numeric strings this model recognises: decimal digits after an
   * optional sign. PHP's `is_numeric` accepts more (see README).
   */
  predicate IsNumeric(s: string)
    ensures IsNumeric(s) ==> |s| >= 1 && (IsDigit(s[0]) || s[0] == '+' || s[0] == '-') && IsDigit(s[|s| - 1])
  {
    IsDigits(s) || (|s| > 1 && (s[0] == '+' || s[0] == '-') && IsDigits(s[1..]))
  }

  const PhpIntMax: int := 0x7fff_ffff_ffff_ffff
  const PhpIntMin: int := -0x8000_0000_0000_0000

  /** `intval` of an out-of-range numeric string saturates at the 64-bit bounds. */
  function Saturate(v: int): (r: int)
    ensures PhpIntMin <= r <= PhpIntMax
    ensures PhpIntMin <= v <= PhpIntMax ==> r == v
    ensures v > PhpIntMax ==> r == PhpIntMax
    ensures v < PhpIntMin ==> r == PhpIntMin
  {
    if v > PhpIntMax then PhpIntMax else if v < PhpIntMin then PhpIntMin else v
  }

  /** `intval(s)` of a numeric string. */
  function IntVal(s: string): (r: int)
    requires IsNumeric(s)
    ensures PhpIntMin <= r <= PhpIntMax
    ensures s[0] == '-' ==> r <= 0
    ensures s[0] != '-' ==> r >= 0
  {
    if IsDigits(s) then Saturate(DigitsValue(s))
    else if s[0] == '-' then Saturate(-(DigitsValue(s[1..]) as int))
    else Saturate(DigitsValue(s[1..]))
  }

  /** The decimal numeral of `n`, without leading zeros. */
  function NatToString(n: nat): (r: string)
    ensures IsDigits(r) && DigitsValue(r) == n
    decreases n
  {
    if n < 10 then [('0' as int + n) as char]
    else
      var r := NatToString(n / 10) + [('0' as int + n % 10) as char];
      assert Front(r) == NatToString(n / 10);
      r
  }

  /** The decimal numeral of `n`, with a `-` when negative. */
  function IntToString(n: int): (r: string)
    ensures IsNumeric(r)
    ensures PhpIntMin <= n <= PhpIntMax ==> IntVal(r) == n
  {
    if n < 0 then
      var r := "-" + NatToString(-n);
      assert r[1..] == NatToString(-n);
      r
    else NatToString(n)
  }
}
