/** Character, string and list helpers the core relies on: Python's notion
    of whitespace, lower-casing, decimal rendering of integers, `str.join`
    and the prefix slice `xs[:n]`. */
module Text {

  /** Python's `str.isspace()` (and `\s` of the `re` module on `str`
      patterns): the code points with bidirectional class WS, B or S, or
      general category Zs. */
  predicate IsSpace(c: char) {
    || ('\t' <= c <= '\r')
    || ('\U{1C}' <= c <= ' ')
    || c == '\U{85}' || c == '\U{A0}' || c == '\U{1680}'
    || ('\U{2000}' <= c <= '\U{200A}')
    || c == '\U{2028}' || c == '\U{2029}' || c == '\U{202F}'
    || c == '\U{205F}' || c == '\U{3000}'
  }

  /** `str.lower()` restricted to ASCII letters. */
  function LowerChar(c: char): (r: char)
    ensures 'A' <= c <= 'Z' ==> 'a' <= r <= 'z'
    ensures !('A' <= c <= 'Z') ==> r == c
  {
    if 'A' <= c <= 'Z' then (c as int - 'A' as int + 'a' as int) as char else c
  }

  function Lower(s: string): string {
    if s == [] then [] else [LowerChar(s[0])] + Lower(s[1..])
  }

  /** `Lower` maps each character on its own and keeps the length. */
  lemma {:induction false} LowerSpec(s: string)
    ensures |Lower(s)| == |s|
    ensures forall i :: 0 <= i < |s| ==> Lower(s)[i] == LowerChar(s[i])
  {
    if s != [] {
      LowerSpec(s[1..]);
    }
  }

  predicate IsDigit(c: char) {
    '0' <= c <= '9'
  }

  predicate AllDigits(s: string) {
    forall i :: 0 <= i < |s| ==> IsDigit(s[i])
  }

  function DigitChar(d: nat): (c: char)
    requires d < 10
    ensures IsDigit(c) && c as int - '0' as int == d
  {
    ('0' as int + d) as char
  }

  /** Decimal digits of a natural number, most significant first, with no
      leading zero. */
  function NatDecimal(n: nat): string
    decreases n
  {
    if n < 10 then [DigitChar(n)] else NatDecimal(n / 10) + [DigitChar(n % 10)]
  }

  /** `NatDecimal` renders at least one digit, and no leading zero. */
  lemma {:induction false} NatDecimalDigits(n: nat)
    ensures var s := NatDecimal(n);
      |s| >= 1 && AllDigits(s) && (s[0] == '0' ==> n == 0 && |s| == 1)
    decreases n
  {
    if n >= 10 {
      NatDecimalDigits(n / 10);
    }
  }

  /** What an f-string renders for an `int`: an optional minus sign and the
      decimal digits. */
  function Decimal(n: int): string {
    if n < 0 then "-" + NatDecimal(-n) else NatDecimal(n)
  }

  /** Reads the digits back (the inverse of `NatDecimal`). */
  function ParseDigits(s: string): nat
    requires AllDigits(s)
  {
    if s == [] then 0
    else ParseDigits(s[..|s| - 1]) * 10 + (s[|s| - 1] as int - '0' as int)
  }

  /** Reads back what `Decimal` renders. */
  function ParseDecimal(s: string): int
    requires (|s| > 0 && s[0] == '-' && AllDigits(s[1..])) || AllDigits(s)
  {
    if |s| > 0 && s[0] == '-' then -(ParseDigits(s[1..]) as int) else ParseDigits(s)
  }

  lemma {:induction false} NatDecimalRoundTrip(n: nat)
    ensures AllDigits(NatDecimal(n)) && ParseDigits(NatDecimal(n)) == n
    decreases n
  {
    NatDecimalDigits(n);
    if n >= 10 {
      var s := NatDecimal(n);
      NatDecimalRoundTrip(n / 10);
      assert s[..|s| - 1] == NatDecimal(n / 10);
    }
  }

  /** The like count and comment index rendered into an entry can be read
      back exactly. */
  lemma DecimalRoundTrip(n: int)
    ensures var s := Decimal(n);
      ((|s| > 0 && s[0] == '-' && AllDigits(s[1..])) || AllDigits(s)) && ParseDecimal(s) == n
  {
    var s := Decimal(n);
    if n < 0 {
      NatDecimalRoundTrip(-n);
      assert s[1..] == NatDecimal(-n);
    } else {
      NatDecimalRoundTrip(n);
    }
  }

  /** Index of the first `c` in `s`, or `|s|` when there is none. */
  function IndexOf(s: string, c: char): (i: nat)
    ensures i <= |s|
  {
    if s == [] || s[0] == c then 0 else 1 + IndexOf(s[1..], c)
  }

  /** `IndexOf` finds the first occurrence. */
  lemma {:induction false} IndexOfSpec(s: string, c: char)
    ensures var i := IndexOf(s, c);
      && (forall k :: 0 <= k < i ==> s[k] != c)
      && (i < |s| ==> s[i] == c)
  {
    if s != [] && s[0] != c {
      IndexOfSpec(s[1..], c);
    }
  }

  /** Index of the last `c` in `s`, or -1 when there is none. */
  function LastIndexOf(s: string, c: char): (j: int)
    ensures -1 <= j < |s|
  {
    if s == [] then -1
    else if s[|s| - 1] == c then |s| - 1
    else LastIndexOf(s[..|s| - 1], c)
  }

  /** `LastIndexOf` finds the last occurrence. */
  lemma {:induction false} LastIndexOfSpec(s: string, c: char)
    ensures var j := LastIndexOf(s, c);
      && (forall k :: j < k < |s| ==> s[k] != c)
      && (j >= 0 ==> s[j] == c)
  {
    if s != [] && s[|s| - 1] != c {
      LastIndexOfSpec(s[..|s| - 1], c);
    }
  }

  /** `sep.join(parts)`. */
  function Join(parts: seq<string>, sep: string): string {
    if parts == [] then ""
    else if |parts| == 1 then parts[0]
    else Join(parts[..|parts| - 1], sep) + sep + parts[|parts| - 1]
  }

  /** `xs[:n]` for `n >= 0`: the first `n` elements, or all of them. */
  function Take<T>(xs: seq<T>, n: nat): (r: seq<T>)
    ensures |r| == if |xs| <= n then |xs| else n
    ensures r == xs[..|r|]
  {
    if |xs| <= n then xs else xs[..n]
  }
}
