/** The Go standard-library behaviour the Go variants of the gateway rely
    on: `bufio.ScanLines` run to the end of a file, `filepath.Ext` on a
    directory-entry name, and `strconv.Atoi` on a 64-bit platform. */
module GoText {
  import opened Base
  import opened Strings

  /** The index of the first '\n' in `s`, or `|s|` when there is none. */
  function NewlineAt(s: string): (i: nat)
    ensures i <= |s|
    ensures i < |s| ==> s[i] == '\n'
    ensures forall j :: 0 <= j < i ==> s[j] != '\n'
  {
    NewlineFrom(s, 0)
  }

  /** The index of the first '\n' in `s` at or after `k`, or `|s|`. */
  function NewlineFrom(s: string, k: nat): (i: nat)
    requires k <= |s|
    ensures k <= i <= |s|
    ensures i < |s| ==> s[i] == '\n'
    ensures forall j :: k <= j < i ==> s[j] != '\n'
    decreases |s| - k
  {
    if k == |s| || s[k] == '\n' then k else NewlineFrom(s, k + 1)
  }

  /** `bufio`'s `dropCR`: one trailing carriage return is removed. */
  function DropCR(s: string): (r: string)
    ensures |s| - 1 <= |r| <= |s| && r == s[..|r|]
    ensures |r| < |s| <==> HasSuffix(s, "\r")
  {
    TrimSuffix(s, "\r")
  }

  /** The tokens a `bufio.Scanner` with `ScanLines` yields for a whole file:
      one per '\n'-terminated line, each without its terminator and one
      trailing '\r', plus a final unterminated line when the file does not
      end in '\n'. */
  function ScanLines(s: string): (r: seq<string>)
    ensures forall i, j :: 0 <= i < |r| && 0 <= j < |r[i]| ==> r[i][j] != '\n'
    ensures |s| == 0 <==> |r| == 0
    decreases |s|
  {
    if |s| == 0 then []
    else
      var i := NewlineAt(s);
      if i == |s| then [DropCR(s)] else [DropCR(s[..i])] + ScanLines(s[i + 1..])
  }

  /** The file that holds `ls`, one line each, every line terminated. */
  function Unlines(ls: seq<string>): string {
    if |ls| == 0 then "" else ls[0] + "\n" + Unlines(ls[1..])
  }

  /** Lines that a file can hold: no '\n' inside and no '\r' at the end. */
  predicate LineShaped(l: string) {
    (forall j :: 0 <= j < |l| ==> l[j] != '\n') && !HasSuffix(l, "\r")
  }

  /** Scanning a file written line by line gives back the lines. */
  lemma {:induction false} ScanLinesUnlines(ls: seq<string>)
    requires forall i :: 0 <= i < |ls| ==> LineShaped(ls[i])
    ensures ScanLines(Unlines(ls)) == ls
  {
    if |ls| > 0 {
      var s := Unlines(ls);
      var rest := Unlines(ls[1..]);
      assert s == ls[0] + "\n" + rest;
      assert NewlineAt(s) == |ls[0]| by {
        assert s[|ls[0]|] == '\n';
        assert forall j :: 0 <= j < |ls[0]| ==> s[j] == ls[0][j];
      }
      assert s[..|ls[0]|] == ls[0];
      assert s[|ls[0]| + 1..] == rest;
      ScanLinesUnlines(ls[1..]);
      assert ls == [ls[0]] + ls[1..];
    }
  }

  /** Writing the scanned lines back gives the file, plus the newline the
      last line lacked when the file did not end in one. */
  lemma {:induction false} UnlinesScanLines(s: string)
    requires forall j :: 0 <= j < |s| ==> s[j] != '\r'
    ensures Unlines(ScanLines(s)) == s + (if |s| > 0 && s[|s| - 1] != '\n' then "\n" else "")
    decreases |s|
  {
    if |s| > 0 {
      var i := NewlineAt(s);
      if i == |s| {
        assert !HasSuffix(s, "\r") by { assert s[|s| - 1] != '\r'; }
        assert ScanLines(s) == [s];
      } else {
        var tail := s[i + 1..];
        UnlinesScanLines(tail);
        UnlinesScanLinesStep(s, i);
      }
    }
  }

  /** One step of the above: the first line, its newline, and the rest. */
  lemma UnlinesScanLinesStep(s: string, i: nat)
    requires forall j :: 0 <= j < |s| ==> s[j] != '\r'
    requires i == NewlineAt(s) < |s|
    requires Unlines(ScanLines(s[i + 1..])) == s[i + 1..] + (if |s[i + 1..]| > 0 && s[|s| - 1] != '\n' then "\n" else "")
    ensures Unlines(ScanLines(s)) == s + (if s[|s| - 1] != '\n' then "\n" else "")
  {
    var head, tail := s[..i], s[i + 1..];
    var suffix := if s[|s| - 1] != '\n' then "\n" else "";
    assert Unlines(ScanLines(tail)) == tail + suffix by {
      if |tail| > 0 { assert tail[|tail| - 1] == s[|s| - 1]; }
    }
    ScanLinesFirst(s, i);
    UnlinesCons(head, ScanLines(tail));
    SplitAtNewline(s, i);
    JoinAssoc(s, head, tail, suffix);
  }

  lemma SplitAtNewline(s: string, i: nat)
    requires i < |s| && s[i] == '\n'
    ensures s == s[..i] + "\n" + s[i + 1..]
  {
  }

  /** `head`, a newline and `tail + suffix` make `s + suffix` when `s` is
      `head`, a newline and `tail`. */
  lemma JoinAssoc(s: string, head: string, tail: string, suffix: string)
    requires s == head + "\n" + tail
    ensures head + "\n" + (tail + suffix) == s + suffix
  {
  }

  lemma ScanLinesFirst(s: string, i: nat)
    requires forall j :: 0 <= j < |s| ==> s[j] != '\r'
    requires i == NewlineAt(s) < |s|
    ensures ScanLines(s) == [s[..i]] + ScanLines(s[i + 1..])
  {
    var head := s[..i];
    assert DropCR(head) == head by {
      if |head| > 0 { assert head[|head| - 1] == s[i - 1]; }
    }
  }

  lemma UnlinesCons(l: string, ls: seq<string>)
    ensures Unlines([l] + ls) == l + "\n" + Unlines(ls)
  {
    assert ([l] + ls)[1..] == ls;
  }

  /** Go's `strings.TrimSpace` on every line, as each scanner loop does first. */
  function TrimAll(ls: seq<string>): (r: seq<string>)
    ensures |r| == |ls|
    ensures forall i :: 0 <= i < |ls| ==> r[i] == TrimSpace(ls[i])
  {
    if |ls| == 0 then [] else [TrimSpace(ls[0])] + TrimAll(ls[1..])
  }

  /** Go's `filepath.Ext` on a directory-entry name (which holds no path
      separator): the suffix from the last '.', or "" without a dot. */
  function Ext(name: string): (e: string)
    ensures HasSuffix(name, e)
    ensures |e| > 0 ==> e[0] == '.' && forall j :: 0 < j < |e| ==> e[j] != '.'
    ensures |e| == 0 ==> forall j :: 0 <= j < |name| ==> name[j] != '.'
  {
    var i := LastDot(name);
    if i < 0 then "" else name[i..]
  }

  /** `name[:len(name)-len(filepath.Ext(name))]`: the model id the Go
      loaders derive from a file name. */
  function GoId(name: string): (r: string)
    ensures HasPrefix(name, r) && name == r + Ext(name)
  {
    name[..|name| - |Ext(name)|]
  }

  /** Two spellings of the id in the Go loaders coincide:
      `strings.TrimSuffix(name, ext)` is the slicing expression. */
  lemma GoIdIsTrimSuffix(name: string)
    ensures TrimSuffix(name, Ext(name)) == GoId(name)
  {
  }

  /** The two ways the Go loaders recognise a YAML file agree: the
      extension test and the suffix test. */
  lemma YamlExtIsSuffix(name: string)
    ensures Ext(name) == ".yaml" <==> HasSuffix(name, ".yaml")
    ensures Ext(name) == ".yml" <==> HasSuffix(name, ".yml")
  {
    if HasSuffix(name, ".yaml") {
      ExtOfDotSuffix(name, ".yaml");
    }
    if HasSuffix(name, ".yml") {
      ExtOfDotSuffix(name, ".yml");
    }
  }

  /** A name that ends in a dot followed by no other dot has that ending
      as its extension. */
  lemma ExtOfDotSuffix(name: string, e: string)
    requires HasSuffix(name, e) && |e| > 0 && e[0] == '.'
    requires forall j :: 0 < j < |e| ==> e[j] != '.'
    ensures Ext(name) == e
  {
    var d := |name| - |e|;
    assert name[d] == e[0];
    assert LastDot(name) == d;
  }

  const MaxInt64: int := 0x7FFF_FFFF_FFFF_FFFF
  const MinInt64: int := -0x8000_0000_0000_0000

  predicate AllDigits(s: string) {
    forall i :: 0 <= i < |s| ==> IsDigit(s[i])
  }

  /** `strconv.Atoi` with 64-bit `int`: an optional sign followed by at
      least one decimal digit, whose value fits; anything else is an
      error. */
  function Atoi(s: string): (r: Option<int>)
    ensures r.Some? ==> MinInt64 <= r.value <= MaxInt64
    ensures r.Some? ==>
      && |s| > 0 && (IsDigit(s[0]) || s[0] == '+' || s[0] == '-')
      && (forall i :: 0 < i < |s| ==> IsDigit(s[i]))
      && (|s| == 1 ==> IsDigit(s[0]))
  {
    var signed := |s| > 0 && (s[0] == '+' || s[0] == '-');
    var digits := if signed then s[1..] else s;
    if |digits| == 0 || !AllDigits(digits) then None
    else
      var v: int := if signed && s[0] == '-' then -(DigitsValue(digits) as int) else DigitsValue(digits);
      if MinInt64 <= v <= MaxInt64 then Some(v) else None
  }

  /** `strconv.Atoi` reads back what `strconv.Itoa` writes. */
  lemma AtoiDecimal(n: int)
    requires MinInt64 <= n <= MaxInt64
    ensures Atoi(Decimal(n)) == Some(n)
  {
    if n < 0 {
      AtoiNegative(-n);
    } else {
      DigitsValueOfNatDigits(n);
      assert !(NatDigits(n)[0] == '+' || NatDigits(n)[0] == '-');
    }
  }

  lemma AtoiNegative(m: nat)
    requires 0 < m <= -MinInt64
    ensures Atoi("-" + NatDigits(m)) == Some(-(m as int))
  {
    var s := "-" + NatDigits(m);
    DigitsValueOfNatDigits(m);
    assert s[0] == '-';
    assert s[1..] == NatDigits(m);
  }
}
