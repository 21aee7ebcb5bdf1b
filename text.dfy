/**
 The string operations the client borrows from Python: `'%i' % n` for a
 non-negative integer, `str.encode('ascii')`, and `'+'.join(...)` with the
 split that undoes it.
 */
module Text {
  import opened Results

  newtype byte = b: int | 0 <= b < 256

  predicate IsDigit(c: char) {
    '0' <= c <= '9'
  }

  predicate AllDigits(s: string) {
    forall i :: 0 <= i < |s| ==> IsDigit(s[i])
  }

  function DigitChar(d: nat): (c: char)
    requires d < 10
    ensures IsDigit(c) && c as int - '0' as int == d
  {
    ('0' as int + d) as char
  }

  /** The decimal spelling of `n`: digits only, never empty, no leading zero. */
  function Decimal(n: nat): (s: string)
    ensures |s| >= 1 && AllDigits(s)
    ensures s[0] == '0' <==> n == 0
    decreases n
  {
    if n < 10 then [DigitChar(n)] else Decimal(n / 10) + [DigitChar(n % 10)]
  }

  /** Reads a string of decimal digits back as a number. */
  function ParseDecimal(s: string): nat
    requires AllDigits(s)
    decreases |s|
  {
    if s == [] then 0
    else 10 * ParseDecimal(s[..|s| - 1]) + (s[|s| - 1] as int - '0' as int)
  }

  lemma {:induction false} ParseDecimalOfDecimal(n: nat)
    ensures ParseDecimal(Decimal(n)) == n
    decreases n
  {
    if n >= 10 {
      var s := Decimal(n);
      assert s[..|s| - 1] == Decimal(n / 10);
      ParseDecimalOfDecimal(n / 10);
    }
  }

  /** Different numbers have different spellings. */
  lemma DecimalInjective(a: nat, b: nat)
    requires Decimal(a) == Decimal(b)
    ensures a == b
  {
    ParseDecimalOfDecimal(a);
    ParseDecimalOfDecimal(b);
  }

  predicate IsAscii(s: string) {
    forall i :: 0 <= i < |s| ==> s[i] as int < 128
  }

  /** `s.encode('ascii')`: one byte per character, or failure on the first non-ASCII one. */
  function AsciiEncode(s: string): (r: Option<seq<byte>>)
    ensures r.Some? <==> IsAscii(s)
    ensures r.Some? ==> |r.value| == |s| && forall i :: 0 <= i < |s| ==> r.value[i] as int == s[i] as int
    decreases |s|
  {
    if s == [] then Some([])
    else if s[0] as int >= 128 then None
    else match AsciiEncode(s[1..])
      case None => None
      case Some(rest) => Some([s[0] as int as byte] + rest)
  }

  /** `'+'.join(parts)`. */
  function PlusJoin(parts: seq<string>): string
    decreases |parts|
  {
    if |parts| == 0 then ""
    else if |parts| == 1 then parts[0]
    else parts[0] + "+" + PlusJoin(parts[1..])
  }

  /** The single-character strings of `s`, which is what joining a string iterates over. */
  function Chars(s: string): (r: seq<string>)
    ensures |r| == |s| && forall i :: 0 <= i < |s| ==> r[i] == [s[i]]
  {
    seq(|s|, i requires 0 <= i < |s| => [s[i]])
  }

  /** Position of the first occurrence of `c` in `s`. */
  function IndexOf(s: string, c: char): (i: nat)
    requires c in s
    ensures i < |s| && s[i] == c
    ensures forall j :: 0 <= j < i ==> s[j] != c
    decreases |s|
  {
    if s[0] == c then 0 else 1 + IndexOf(s[1..], c)
  }

  /** `s.split('+')`. */
  function SplitPlus(s: string): (parts: seq<string>)
    ensures |parts| >= 1
    decreases |s|
  {
    if '+' in s then
      var i := IndexOf(s, '+');
      [s[..i]] + SplitPlus(s[i + 1..])
    else [s]
  }

  /** Splitting cuts at the first `+`. */
  lemma SplitAtFirstPlus(head: string, rest: string)
    requires '+' !in head
    ensures SplitPlus(head + "+" + rest) == [head] + SplitPlus(rest)
  {
    var s := head + "+" + rest;
    assert s[|head|] == '+';
    var i := IndexOf(s, '+');
    assert i == |head|;
    assert s[..i] == head;
    assert s[i + 1..] == rest;
  }

  /** Splitting on `+` recovers a non-empty list of parts that contain no `+`. */
  lemma {:induction false} SplitPlusJoin(parts: seq<string>)
    requires |parts| >= 1
    requires forall i :: 0 <= i < |parts| ==> '+' !in parts[i]
    ensures SplitPlus(PlusJoin(parts)) == parts
    decreases |parts|
  {
    if |parts| > 1 {
      assert PlusJoin(parts) == parts[0] + "+" + PlusJoin(parts[1..]);
      SplitAtFirstPlus(parts[0], PlusJoin(parts[1..]));
      SplitPlusJoin(parts[1..]);
      assert parts == [parts[0]] + parts[1..];
    }
  }
}
