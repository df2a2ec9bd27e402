/** The string operations of Rust's `str` that the codecs rely on. */
module Text {
  import opened Wrappers

  predicate IsDigit(c: char) {
    '0' <= c <= '9'
  }

  predicate AllDigits(s: string) {
    forall i :: 0 <= i < |s| ==> IsDigit(s[i])
  }

  /** Unicode White_Space, the set used by `str::trim`. */
  predicate IsSpace(c: char) {
    || '\U{0009}' <= c <= '\U{000D}'
    || c == ' '
    || c == '\U{0085}'
    || c == '\U{00A0}'
    || c == '\U{1680}'
    || '\U{2000}' <= c <= '\U{200A}'
    || c == '\U{2028}'
    || c == '\U{2029}'
    || c == '\U{202F}'
    || c == '\U{205F}'
    || c == '\U{3000}'
  }

  predicate IsQuote(c: char) {
    c == '"'
  }

  function LowerChar(c: char): char {
    if 'A' <= c <= 'Z' then c + 32 as char else c
  }

  /** `to_lowercase`, for the letters A to Z. */
  function Lower(s: string): string {
    seq(|s|, i requires 0 <= i < |s| => LowerChar(s[i]))
  }

  function StripPrefix(s: string, p: string): Option<string> {
    if p <= s then Some(s[|p|..]) else None
  }

  function StripSuffix(s: string, p: string): Option<string> {
    if |p| <= |s| && s[|s| - |p|..] == p then Some(s[..|s| - |p|]) else None
  }

  /** Position of the last `c`. */
  function RFind(s: string, c: char): (r: Option<nat>)
    ensures r.Some? ==> r.value < |s|
  {
    if |s| == 0 then None
    else if s[|s| - 1] == c then Some(|s| - 1)
    else RFind(s[..|s| - 1], c)
  }

  /** `split_once`: the text before and after the first `c`. */
  function SplitOnce(s: string, c: char): Option<(string, string)> {
    if |s| == 0 then None
    else if s[0] == c then Some(("", s[1..]))
    else match SplitOnce(s[1..], c)
      case None => None
      case Some(p) => Some(([s[0]] + p.0, p.1))
  }

  function TrimStart(s: string, p: char -> bool): string {
    if |s| > 0 && p(s[0]) then TrimStart(s[1..], p) else s
  }

  function TrimEnd(s: string, p: char -> bool): string {
    if |s| > 0 && p(s[|s| - 1]) then TrimEnd(s[..|s| - 1], p) else s
  }

  function TrimBy(s: string, p: char -> bool): string {
    TrimEnd(TrimStart(s, p), p)
  }

  function Trim(s: string): string {
    TrimBy(s, IsSpace)
  }

  function DigitValue(c: char): nat
    requires IsDigit(c)
  {
    (c - '0') as nat
  }

  /** The number written by a digit string, most significant digit first. */
  function Value(s: string): nat
    requires AllDigits(s)
  {
    if |s| == 0 then 0 else 10 * Value(s[..|s| - 1]) + DigitValue(s[|s| - 1])
  }

  /** `str::parse::<u64>`: an optional `+`, then at least one digit, in range. */
  function ParseU64(s: string): (r: Option<nat>)
    ensures r.Some? ==> r.value < U64
  {
    var digits := if |s| > 1 && s[0] == '+' then s[1..] else s;
    if |digits| > 0 && AllDigits(digits) && Value(digits) < U64 then Some(Value(digits)) else None
  }

  /** How `format!("{}")` writes an integer. */
  function Decimal(n: nat): (s: string)
    ensures |s| > 0 && AllDigits(s) && Value(s) == n
  {
    var last := '0' + (n % 10) as char;
    if n < 10 then [last] else Decimal(n / 10) + [last]
  }

  lemma {:induction false} ParseDecimal(n: nat)
    ensures ParseU64(Decimal(n)) == if n < U64 then Some(n) else None
  {
    assert IsDigit(Decimal(n)[0]);
  }

  /** Only the last occurrence of the separator matters to `rfind`. */
  lemma {:induction false} RFindLast(head: string, c: char, tail: string)
    requires c !in tail
    ensures RFind(head + [c] + tail, c) == Some(|head|)
    decreases |tail|
  {
    var s := head + [c] + tail;
    if |tail| > 0 {
      assert s[|s| - 1] == tail[|tail| - 1];
      assert s[..|s| - 1] == head + [c] + tail[..|tail| - 1];
      RFindLast(head, c, tail[..|tail| - 1]);
    }
  }

  lemma {:induction false} SplitOnceFirst(head: string, c: char, tail: string)
    requires c !in head
    ensures SplitOnce(head + [c] + tail, c) == Some((head, tail))
  {
    var s := head + [c] + tail;
    if |head| > 0 {
      assert s[1..] == head[1..] + [c] + tail;
      SplitOnceFirst(head[1..], c, tail);
      assert [head[0]] + head[1..] == head;
    } else {
      assert s[1..] == tail;
    }
  }

  /** What `split_once` yields is always free of the separator on the left. */
  lemma {:induction false} SplitOnceSound(s: string, c: char)
    ensures SplitOnce(s, c).None? <==> c !in s
    ensures SplitOnce(s, c).Some? ==>
              var p := SplitOnce(s, c).value; c !in p.0 && s == p.0 + [c] + p.1
  {
    if |s| > 0 && s[0] != c {
      SplitOnceSound(s[1..], c);
      assert s == [s[0]] + s[1..];
    }
  }

  /** Text with clean ends is left alone. */
  lemma {:induction false} TrimClean(s: string, p: char -> bool)
    requires |s| > 0 ==> !p(s[0]) && !p(s[|s| - 1])
    ensures TrimBy(s, p) == s
  {
  }

  /** What is trimmed off on the left is dropped entirely. */
  lemma {:induction false} TrimStartDrops(pad: string, s: string, p: char -> bool)
    requires forall c :: c in pad ==> p(c)
    ensures TrimStart(pad + s, p) == TrimStart(s, p)
  {
    if |pad| > 0 {
      assert (pad + s)[1..] == pad[1..] + s;
      TrimStartDrops(pad[1..], s, p);
    } else {
      assert pad + s == s;
    }
  }

  lemma {:induction false} TrimEndDrops(s: string, pad: string, p: char -> bool)
    requires forall c :: c in pad ==> p(c)
    ensures TrimEnd(s + pad, p) == TrimEnd(s, p)
    decreases |pad|
  {
    if |pad| > 0 {
      assert (s + pad)[..|s + pad| - 1] == s + pad[..|pad| - 1];
      assert (s + pad)[|s + pad| - 1] == pad[|pad| - 1];
      TrimEndDrops(s, pad[..|pad| - 1], p);
    } else {
      assert s + pad == s;
    }
  }

  lemma {:induction false} LowerConcat(a: string, b: string)
    ensures Lower(a + b) == Lower(a) + Lower(b)
  {
  }
}
