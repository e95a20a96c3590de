/**
 * How the client turns numbers into query text: JavaScript's decimal rendering
 * of an integer and `Array.prototype.join(',')` of the genre identifiers, each
 * with a parser that undoes it.
 */
module Decimal {
  import opened Catalog

  predicate IsDigit(c: char) {
    '0' <= c <= '9'
  }

  predicate AllDigits(s: string) {
    forall k :: 0 <= k < |s| ==> IsDigit(s[k])
  }

  function Digit(d: nat): (c: char)
    requires d < 10
    ensures IsDigit(c)
  {
    ('0' as int + d) as char
  }

  function DigitValue(c: char): (d: nat)
    requires IsDigit(c)
    ensures d < 10 && Digit(d) == c
  {
    c as int - '0' as int
  }

  /** The decimal numeral of n, without leading zeros. */
  function NatToDecimal(n: nat): (s: string)
    ensures |s| >= 1 && AllDigits(s)
    ensures |s| > 1 ==> s[0] != '0'
    decreases n
  {
    if n < 10 then [Digit(n)] else NatToDecimal(n / 10) + [Digit(n % 10)]
  }

  /**
   * The text of an integer in a template literal or a parameter value: a minus
   * sign for negatives, then the digits of |i| (exact for integers a double holds
   * and below 10^21 in magnitude).
   */
  function IntToDecimal(i: int): (s: string)
    ensures |s| >= 1
    ensures s[0] == '-' <==> i < 0
    ensures forall k :: (if i < 0 then 1 else 0) <= k < |s| ==> IsDigit(s[k])
    ensures var d := if i < 0 then 1 else 0; d < |s| && (|s| > d + 1 ==> s[d] != '0')
  {
    if i < 0 then "-" + NatToDecimal(-i) else NatToDecimal(i)
  }

  /** The value of a string of digits. */
  function ParseDigits(s: string): nat
    requires AllDigits(s)
  {
    if s == [] then 0 else ParseDigits(s[..|s| - 1]) * 10 + DigitValue(s[|s| - 1])
  }

  /** Reads an optional minus sign followed by at least one digit. */
  function ParseInt(s: string): Option<int> {
    if |s| >= 2 && s[0] == '-' && AllDigits(s[1..]) then Some(0 - ParseDigits(s[1..]))
    else if |s| >= 1 && AllDigits(s) then Some(ParseDigits(s))
    else None
  }

  lemma {:induction false} ParseNatToDecimal(n: nat)
    ensures ParseDigits(NatToDecimal(n)) == n
    decreases n
  {
    if n >= 10 {
      var s := NatToDecimal(n / 10);
      var t := s + [Digit(n % 10)];
      assert NatToDecimal(n) == t;
      assert t[..|t| - 1] == s;
      ParseNatToDecimal(n / 10);
    }
  }

  /** Every integer's rendering reads back as that integer. */
  lemma ParseIntToDecimal(i: int)
    ensures ParseInt(IntToDecimal(i)) == Some(i)
  {
    if i < 0 {
      var s := IntToDecimal(i);
      assert s[1..] == NatToDecimal(-i);
      ParseNatToDecimal(-i);
    } else {
      ParseNatToDecimal(i);
    }
  }

  /** The renderings of a list of integers, in order. */
  function Decimals(ids: seq<int>): (r: seq<string>)
    ensures |r| == |ids|
    ensures forall k :: 0 <= k < |ids| ==> r[k] == IntToDecimal(ids[k])
  {
    if ids == [] then [] else [IntToDecimal(ids[0])] + Decimals(ids[1..])
  }

  /** `parts.join(sep)`: the empty list joins to the empty string. */
  function Join(parts: seq<string>, sep: char): string {
    if parts == [] then ""
    else if |parts| == 1 then parts[0]
    else parts[0] + [sep] + Join(parts[1..], sep)
  }

  /** Splits s at every occurrence of sep; the result always has at least one part. */
  function Split(s: string, sep: char): (parts: seq<string>)
    ensures |parts| >= 1
  {
    if s == [] then [""]
    else
      var rest := Split(s[1..], sep);
      if s[0] == sep then [""] + rest else [[s[0]] + rest[0]] + rest[1..]
  }

  /** `ids.join(',')`, as the client writes the `genres` parameter. */
  function JoinIds(ids: seq<int>): (s: string)
    ensures s == "" <==> ids == []
  {
    var parts := Decimals(ids);
    if ids == [] then Join(parts, ',')
    else
      assert |Join(parts, ',')| >= |parts[0]| >= 1;
      Join(parts, ',')
  }

  /** Reads every part as an integer; fails if one of them is not one. */
  function ParseAll(parts: seq<string>): Option<seq<int>> {
    if parts == [] then Some([])
    else
      match ParseInt(parts[0])
      case None => None
      case Some(v) =>
        match ParseAll(parts[1..])
        case None => None
        case Some(vs) => Some([v] + vs)
  }

  /** Reads a comma-separated list of integers. */
  function ParseIds(s: string): Option<seq<int>> {
    ParseAll(Split(s, ','))
  }

  lemma {:induction false} SplitPrefix(p: string, t: string, sep: char)
    requires sep !in p
    ensures Split(p + t, sep) == [p + Split(t, sep)[0]] + Split(t, sep)[1..]
    decreases |p|
  {
    if p != [] {
      SplitPrefix(p[1..], t, sep);
      assert (p + t)[1..] == p[1..] + t;
      assert [p[0]] + (p[1..] + Split(t, sep)[0]) == p + Split(t, sep)[0];
    } else {
      assert p + t == t;
      assert p + Split(t, sep)[0] == Split(t, sep)[0];
      assert Split(t, sep) == [Split(t, sep)[0]] + Split(t, sep)[1..];
    }
  }

  /** Joining parts that do not contain the separator and splitting again gives the parts back. */
  lemma {:induction false} SplitJoin(parts: seq<string>, sep: char)
    requires |parts| >= 1
    requires forall k :: 0 <= k < |parts| ==> sep !in parts[k]
    ensures Split(Join(parts, sep), sep) == parts
    decreases |parts|
  {
    if |parts| == 1 {
      SplitPrefix(parts[0], "", sep);
      assert parts[0] + "" == parts[0];
    } else {
      var rest := Join(parts[1..], sep);
      SplitJoin(parts[1..], sep);
      assert Split([sep] + rest, sep) == [""] + parts[1..];
      SplitPrefix(parts[0], [sep] + rest, sep);
      assert parts[0] + [sep] + rest == parts[0] + ([sep] + rest);
      assert parts[0] + "" == parts[0];
    }
  }

  lemma {:induction false} ParseAllDecimals(ids: seq<int>)
    ensures ParseAll(Decimals(ids)) == Some(ids)
    decreases |ids|
  {
    if ids != [] {
      ParseIntToDecimal(ids[0]);
      ParseAllDecimals(ids[1..]);
      assert [ids[0]] + ids[1..] == ids;
    }
  }

  /** A non-empty list of genre identifiers survives the comma-joined encoding intact. */
  lemma JoinIdsRoundTrip(ids: seq<int>)
    requires |ids| >= 1
    ensures ParseIds(JoinIds(ids)) == Some(ids)
  {
    var parts := Decimals(ids);
    forall k | 0 <= k < |parts| ensures ',' !in parts[k] {
      assert parts[k] == IntToDecimal(ids[k]);
    }
    SplitJoin(parts, ',');
    ParseAllDecimals(ids);
  }
}
