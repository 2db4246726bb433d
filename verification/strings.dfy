/** String primitives shared by the Python and Go halves of the gateway:
    prefix/suffix tests, whitespace trimming (Go's `strings.TrimSpace` and
    Python's `str.strip`, which disagree on four control characters),
    decimal rendering and concatenation. Strings are `seq<char>`. */
module Strings {

  predicate HasPrefix(s: string, p: string) {
    p <= s
  }

  predicate HasSuffix(s: string, p: string) {
    |p| <= |s| && s[|s| - |p|..] == p
  }

  /** Go's `strings.TrimPrefix`: `s` without `p` when it starts with it, else `s`. */
  function TrimPrefix(s: string, p: string): string {
    if HasPrefix(s, p) then s[|p|..] else s
  }

  /** What `TrimPrefix` leaves, put back behind the prefix it removed, is
      the string. */
  lemma TrimPrefixSpec(s: string, p: string)
    ensures HasPrefix(s, p) ==> s == p + TrimPrefix(s, p)
    ensures !HasPrefix(s, p) ==> TrimPrefix(s, p) == s
  {
    if HasPrefix(s, p) {
      assert s == s[..|p|] + s[|p|..];
    }
  }

  /** Go's `strings.TrimSuffix`. */
  function TrimSuffix(s: string, p: string): string {
    if HasSuffix(s, p) then s[..|s| - |p|] else s
  }

  lemma TrimSuffixSpec(s: string, p: string)
    ensures HasSuffix(s, p) ==> s == TrimSuffix(s, p) + p
    ensures !HasSuffix(s, p) ==> TrimSuffix(s, p) == s
  {
    if HasSuffix(s, p) {
      assert s == s[..|s| - |p|] + s[|s| - |p|..];
    }
  }

  /** `t` occurs somewhere inside `s` (Python's `t in s`). */
  ghost predicate Contains(s: string, t: string) {
    exists i :: OccursAt(s, t, i)
  }

  /** `t` occurs in `s` starting at index `i`. */
  predicate OccursAt(s: string, t: string, i: int) {
    0 <= i && i + |t| <= |s| && s[i..i + |t|] == t
  }

  lemma ContainsInfix(a: string, t: string, b: string)
    ensures Contains(a + t + b, t)
  {
    var s := a + t + b;
    assert OccursAt(s, t, |a|);
  }

  lemma ContainsExtend(a: string, s: string, b: string, t: string)
    requires Contains(s, t)
    ensures Contains(a + s + b, t)
  {
    var i :| OccursAt(s, t, i);
    var w := a + s + b;
    assert w[|a| + i..|a| + i + |t|] == s[i..i + |t|];
    assert OccursAt(w, t, |a| + i);
  }

  /** Go's `unicode.IsSpace`: the Unicode White_Space property. */
  predicate GoSpace(c: char) {
    var n := c as int;
    (0x09 <= n <= 0x0D) || n == 0x20 || n == 0x85 || n == 0xA0 || n == 0x1680
    || (0x2000 <= n <= 0x200A) || n == 0x2028 || n == 0x2029 || n == 0x202F
    || n == 0x205F || n == 0x3000
  }

  /** Python's `str.isspace`, which also counts the four separators
      U+001C..U+001F as whitespace. */
  predicate PySpace(c: char) {
    GoSpace(c) || (0x1C <= c as int <= 0x1F)
  }

  lemma GoSpaceIsPySpace(c: char)
    ensures GoSpace(c) ==> PySpace(c)
    ensures PySpace(c) && !GoSpace(c) <==> 0x1C <= c as int <= 0x1F
  {
  }

  /** Drops the longest prefix of `ws` characters. */
  function TrimLeft(s: string, ws: char -> bool): string
    decreases |s|, 1
  {
    if |s| == 0 then s else TrimLeftAt(s, ws)
  }

  /** `TrimLeft` on a non-empty string: its first character decides. */
  function TrimLeftAt(s: string, ws: char -> bool): string
    requires |s| > 0
    decreases |s|, 0
  {
    if ws(s[0]) then TrimLeft(s[1..], ws) else s
  }

  /** What `TrimLeft` leaves is a suffix of `s`, everything it dropped is
      whitespace, and it does not start with whitespace. */
  lemma {:induction false} TrimLeftSpec(s: string, ws: char -> bool)
    ensures |TrimLeft(s, ws)| <= |s| && TrimLeft(s, ws) == s[|s| - |TrimLeft(s, ws)|..]
    ensures forall i :: 0 <= i < |s| - |TrimLeft(s, ws)| ==> ws(s[i])
    ensures |TrimLeft(s, ws)| > 0 ==> !ws(TrimLeft(s, ws)[0])
    decreases |s|
  {
    if |s| > 0 && ws(s[0]) {
      TrimLeftSpec(s[1..], ws);
      forall i | 1 <= i < |s| - |TrimLeft(s, ws)|
        ensures ws(s[i])
      {
        assert s[i] == s[1..][i - 1];
      }
    }
  }

  /** Drops the longest suffix of `ws` characters. */
  function TrimRight(s: string, ws: char -> bool): string
    decreases |s|, 1
  {
    if |s| == 0 then s else TrimRightAt(s, ws)
  }

  /** `TrimRight` on a non-empty string: its last character decides. */
  function TrimRightAt(s: string, ws: char -> bool): string
    requires |s| > 0
    decreases |s|, 0
  {
    if ws(s[|s| - 1]) then TrimRight(s[..|s| - 1], ws) else s
  }

  /** What `TrimRight` leaves is a prefix of `s`, everything it dropped is
      whitespace, and it does not end with whitespace. */
  lemma {:induction false} TrimRightSpec(s: string, ws: char -> bool)
    ensures |TrimRight(s, ws)| <= |s| && TrimRight(s, ws) == s[..|TrimRight(s, ws)|]
    ensures forall i :: |TrimRight(s, ws)| <= i < |s| ==> ws(s[i])
    ensures |TrimRight(s, ws)| > 0 ==> !ws(TrimRight(s, ws)[|TrimRight(s, ws)| - 1])
    decreases |s|
  {
    if |s| > 0 && ws(s[|s| - 1]) {
      var init := s[..|s| - 1];
      TrimRightSpec(init, ws);
      forall i | |TrimRight(s, ws)| <= i < |s| - 1
        ensures ws(s[i])
      {
        assert s[i] == init[i];
      }
    }
  }

  /** Both ends trimmed (`TrimSpec` states what that means). */
  function Trim(s: string, ws: char -> bool): string {
    TrimRight(TrimLeft(s, ws), ws)
  }

  /** The trimmed string is a slice of `s`, everything cut away is
      whitespace, and it neither starts nor ends with whitespace. */
  lemma TrimSpec(s: string, ws: char -> bool)
    ensures TrimmedAt(s, Trim(s, ws), |s| - |TrimLeft(s, ws)|, ws)
    ensures |Trim(s, ws)| > 0 ==> !ws(Trim(s, ws)[0]) && !ws(Trim(s, ws)[|Trim(s, ws)| - 1])
  {
    var l := TrimLeft(s, ws);
    var r := TrimRight(l, ws);
    TrimLeftSpec(s, ws);
    TrimRightSpec(l, ws);
    var i := |s| - |l|;
    assert l == s[i..];
    assert r == l[..|r|];
    assert r == s[i..i + |r|];
    forall k | i + |r| <= k < |s|
      ensures ws(s[k])
    {
      assert s[k] == l[k - i];
    }
    if |r| > 0 {
      assert r[0] == l[0];
    }
  }

  /** A string that does not end in whitespace does not trim to "". */
  lemma TrimKeepsLast(s: string, ws: char -> bool)
    requires |s| > 0 && !ws(s[|s| - 1])
    ensures |Trim(s, ws)| > 0
  {
    TrimSpec(s, ws);
  }

  /** `r` is the slice of `s` starting at `i`, and everything of `s` outside
      that slice is whitespace. */
  predicate TrimmedAt(s: string, r: string, i: int, ws: char -> bool) {
    && 0 <= i <= |s| - |r|
    && r == s[i..i + |r|]
    && (forall k :: 0 <= k < i ==> ws(s[k]))
    && (forall k :: i + |r| <= k < |s| ==> ws(s[k]))
  }

  /** Go's `strings.TrimSpace`. */
  function TrimSpace(s: string): string {
    Trim(s, GoSpace)
  }

  /** Python's `str.strip()` with no argument. */
  function Strip(s: string): string {
    Trim(s, PySpace)
  }

  /** A string with no whitespace at either end is its own trim. */
  lemma {:induction false} TrimFixpoint(s: string, ws: char -> bool)
    requires |s| > 0 ==> !ws(s[0]) && !ws(s[|s| - 1])
    ensures Trim(s, ws) == s
  {
    assert TrimLeft(s, ws) == s;
    assert TrimRight(s, ws) == s;
  }

  /** Trimming twice trims nothing more. */
  lemma TrimIdempotent(s: string, ws: char -> bool)
    ensures Trim(Trim(s, ws), ws) == Trim(s, ws)
  {
    TrimSpec(s, ws);
    TrimFixpoint(Trim(s, ws), ws);
  }

  /** The index of the last '.', or -1. */
  function LastDot(s: string): (i: int)
    ensures -1 <= i < |s|
    ensures i >= 0 ==> s[i] == '.'
    ensures forall j :: i < j < |s| ==> s[j] != '.'
  {
    if |s| == 0 then -1 else if s[|s| - 1] == '.' then |s| - 1 else LastDot(s[..|s| - 1])
  }

  /** The concatenation of a sequence of strings. */
  function Concat(ss: seq<string>): string {
    if |ss| == 0 then "" else ss[0] + Concat(ss[1..])
  }

  lemma {:induction false} ConcatAppend(a: seq<string>, b: seq<string>)
    ensures Concat(a + b) == Concat(a) + Concat(b)
  {
    if |a| == 0 {
      assert a + b == b;
    } else {
      assert (a + b)[1..] == a[1..] + b;
      ConcatAppend(a[1..], b);
    }
  }

  lemma ConcatCons(s: string, ss: seq<string>)
    ensures Concat([s] + ss) == s + Concat(ss)
  {
    assert ([s] + ss)[1..] == ss;
  }

  lemma ConcatOne(s: string)
    ensures Concat([s]) == s
  {
    assert Concat([s]) == s + Concat([]);
  }

  /** `ss` joined with `sep` between consecutive elements (Python's `sep.join`). */
  function Join(sep: string, ss: seq<string>): string {
    if |ss| == 0 then "" else if |ss| == 1 then ss[0] else ss[0] + sep + Join(sep, ss[1..])
  }

  /** Every joined element occurs in the joined string. */
  lemma {:induction false} JoinContainsEach(sep: string, ss: seq<string>, k: nat)
    requires k < |ss|
    ensures Contains(Join(sep, ss), ss[k])
  {
    if |ss| == 1 {
      assert OccursAt(Join(sep, ss), ss[k], 0);
    } else if k == 0 {
      ContainsInfix("", ss[0], sep + Join(sep, ss[1..]));
      assert ss[0] + sep + Join(sep, ss[1..]) == "" + ss[0] + (sep + Join(sep, ss[1..]));
    } else {
      JoinContainsEach(sep, ss[1..], k - 1);
      ContainsExtend(ss[0] + sep, Join(sep, ss[1..]), "", ss[k]);
      assert ss[0] + sep + Join(sep, ss[1..]) == (ss[0] + sep) + Join(sep, ss[1..]) + "";
    }
  }

  function DigitChar(d: nat): char
    requires d < 10
  {
    "0123456789"[d]
  }

  predicate IsDigit(c: char) {
    '0' <= c <= '9'
  }

  /** Decimal digits of a natural number, most significant first, no leading zeros. */
  function NatDigits(n: nat): (r: string)
    ensures |r| > 0 && forall i :: 0 <= i < |r| ==> IsDigit(r[i])
    ensures |r| > 1 ==> r[0] != '0'
    decreases n
  {
    if n < 10 then [DigitChar(n)] else NatDigits(n / 10) + [DigitChar(n % 10)]
  }

  /** Python's `str(int)` and Go's `strconv.Itoa`. */
  function Decimal(n: int): string {
    if n < 0 then "-" + NatDigits(-n) else NatDigits(n)
  }

  /** The value of a string of decimal digits. */
  function DigitsValue(s: string): nat
    requires forall i :: 0 <= i < |s| ==> IsDigit(s[i])
  {
    if |s| == 0 then 0
    else
      assert IsDigit(s[|s| - 1]);
      DigitsValue(s[..|s| - 1]) * 10 + (s[|s| - 1] as int - '0' as int)
  }

  /** Reading the digits back gives the number. */
  lemma {:induction false} DigitsValueOfNatDigits(n: nat)
    ensures DigitsValue(NatDigits(n)) == n
    decreases n
  {
    if n >= 10 {
      var d := NatDigits(n / 10);
      assert NatDigits(n) == d + [DigitChar(n % 10)];
      assert (d + [DigitChar(n % 10)])[..|d|] == d;
      DigitsValueOfNatDigits(n / 10);
    }
  }
}
