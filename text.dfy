/**
 * Text helpers shared by the model: Option/Result wrappers, prefix and
 * suffix tests, Python's `str.split`, `rstrip` and slicing, and decimal
 * rendering of integers (Python's `%d` and `{:02d}`) with its parser.
 */
module Text {

  datatype Option<+T> = None | Some(value: T)

  datatype Result<+T, +E> = Ok(value: T) | Err(error: E)

  predicate StartsWith(s: string, prefix: string) {
    |prefix| <= |s| && s[..|prefix|] == prefix
  }

  predicate EndsWith(s: string, suffix: string) {
    |suffix| <= |s| && s[|s| - |suffix|..] == suffix
  }

  /** A string starts with any prefix of its own prefix. */
  lemma StartsWithAppend(p: string, rest: string, q: string)
    requires StartsWith(p, q)
    ensures StartsWith(p + rest, q)
  {
    assert (p + rest)[..|q|] == p[..|q|];
  }

  /** One differing character within both lengths rules a prefix out. */
  lemma NotStartsWith(s: string, prefix: string, i: nat)
    requires i < |prefix| && i < |s| && s[i] != prefix[i]
    ensures !StartsWith(s, prefix)
  {
    if |prefix| <= |s| {
      assert s[..|prefix|][i] == s[i];
    }
  }

  /** Python's `s[k:]` for k >= 0: empty when k is past the end. */
  function Drop(s: string, k: nat): (r: string)
    ensures k <= |s| ==> s == s[..k] + r
    ensures k >= |s| ==> r == ""
  {
    if k <= |s| then s[k..] else ""
  }

  /** Python's `s.rstrip("\n")`: every trailing newline is removed. */
  function RStripNewlines(s: string): (r: string)
    ensures |r| <= |s| && r == s[..|r|]
    ensures forall i :: |r| <= i < |s| ==> s[i] == '\n'
    ensures |r| > 0 ==> r[|r| - 1] != '\n'
  {
    if |s| > 0 && s[|s| - 1] == '\n' then RStripNewlines(s[..|s| - 1]) else s
  }

  /** Python's `s.split(sep)` for a one-character separator. */
  function Split(s: string, sep: char): (parts: seq<string>)
    ensures |parts| >= 1
    ensures forall i :: 0 <= i < |parts| ==> sep !in parts[i]
  {
    if sep !in s then [s]
    else
      var k := IndexOf(s, sep);
      [s[..k]] + Split(s[k + 1..], sep)
  }

  /** The first position of `c` in `s`. */
  function IndexOf(s: string, c: char): (k: nat)
    requires c in s
    ensures k < |s| && s[k] == c && c !in s[..k]
  {
    if s[0] == c then 0 else 1 + IndexOf(s[1..], c)
  }

  /** Splitting a string that consists of one field, the separator and the rest. */
  lemma {:induction false} SplitCons(a: string, sep: char, b: string)
    requires sep !in a
    ensures Split(a + [sep] + b, sep) == [a] + Split(b, sep)
  {
    var s := a + [sep] + b;
    assert s[|a|] == sep;
    var k := IndexOf(s, sep);
    assert s[..|a|] == a;
    assert s[k + 1..] == b;
  }

  /** `os.path.basename(s)`: what follows the last `/`, or all of `s` without one. */
  function Basename(s: string): (r: string)
    ensures '/' !in r && EndsWith(s, r)
    ensures |r| < |s| ==> s[|s| - |r| - 1] == '/'
  {
    if s == [] || s[|s| - 1] == '/' then ""
    else
      var r := Basename(s[..|s| - 1]) + [s[|s| - 1]];
      assert s[..|s| - 1] + [s[|s| - 1]] == s;
      r
  }

  /** A path name without `/` is its own base name. */
  lemma {:induction false} BasenameNoSlash(s: string)
    requires '/' !in s
    ensures Basename(s) == s
  {
    if s != [] {
      BasenameNoSlash(s[..|s| - 1]);
      assert s[..|s| - 1] + [s[|s| - 1]] == s;
    }
  }

  /** The base name of `d + "/" + n` is `n` when `n` has no `/`. */
  lemma {:induction false} BasenameJoin(d: string, n: string)
    requires '/' !in n
    ensures Basename(d + "/" + n) == n
    decreases |n|
  {
    var s := d + "/" + n;
    if n != [] {
      assert s[..|s| - 1] == d + "/" + n[..|n| - 1];
      assert s[|s| - 1] == n[|n| - 1];
      BasenameJoin(d, n[..|n| - 1]);
      assert n[..|n| - 1] + [n[|n| - 1]] == n;
    }
  }

  /**
   * The ASCII whitespace characters, which Python's `str.split()` treats as
   * separators. Python also splits on `\x1c`-`\x1f`, `\x85`, `\xa0` and
   * the other Unicode whitespace; those are not separators here.
   */
  predicate IsSpace(c: char) {
    c == ' ' || c == '\t' || c == '\n' || c == '\r' || c == '\U{0B}' || c == '\U{0C}'
  }

  predicate NoSpace(s: string) {
    forall i :: 0 <= i < |s| ==> !IsSpace(s[i])
  }

  /** The length of the run of non-space characters at the start of `s`. */
  function TokenLength(s: string): (k: nat)
    ensures k <= |s| && NoSpace(s[..k]) && (k < |s| ==> IsSpace(s[k]))
  {
    if s == [] || IsSpace(s[0]) then 0
    else
      var k := 1 + TokenLength(s[1..]);
      assert s[..k] == [s[0]] + s[1..][..k - 1];
      k
  }

  /** Python's `s.split()`: the maximal runs of non-space characters, in order. */
  function Words(s: string): (ws: seq<string>)
    ensures forall i :: 0 <= i < |ws| ==> ws[i] != "" && NoSpace(ws[i])
    decreases |s|
  {
    if s == [] then []
    else if IsSpace(s[0]) then Words(s[1..])
    else
      var k := TokenLength(s);
      [s[..k]] + Words(s[k..])
  }

  /** A word followed by a space and more text splits off as the first word. */
  lemma {:induction false} WordsCons(w: string, sp: char, rest: string)
    requires w != "" && NoSpace(w) && IsSpace(sp)
    ensures Words(w + [sp] + rest) == [w] + Words(rest)
  {
    var s := w + [sp] + rest;
    TokenLengthOf(w, [sp] + rest);
    assert s == w + ([sp] + rest);
    assert s[|w|..] == [sp] + rest;
    assert s[|w|..][1..] == rest;
  }

  lemma {:induction false} TokenLengthOf(w: string, rest: string)
    requires NoSpace(w) && (rest == [] || IsSpace(rest[0]))
    ensures TokenLength(w + rest) == |w|
    ensures (w + rest)[..|w|] == w
    decreases |w|
  {
    if w != [] {
      TokenLengthOf(w[1..], rest);
      assert w + rest == [w[0]] + (w[1..] + rest);
    }
  }

  /** A string made only of spaces has no words. */
  lemma {:induction false} WordsAllSpace(s: string)
    requires forall i :: 0 <= i < |s| ==> IsSpace(s[i])
    ensures Words(s) == []
    decreases |s|
  {
    if s != [] {
      WordsAllSpace(s[1..]);
    }
  }

  // ---------------------------------------------------------------------------
  // Decimal numbers
  // ---------------------------------------------------------------------------

  function DigitChar(d: nat): (c: char)
    requires d < 10
    ensures '0' <= c <= '9'
  {
    ['0', '1', '2', '3', '4', '5', '6', '7', '8', '9'][d]
  }

  function DigitValue(c: char): (d: nat)
    requires '0' <= c <= '9'
    ensures d < 10 && DigitChar(d) == c
  {
    (c as int - '0' as int) as nat
  }

  predicate IsDigits(s: string) {
    |s| > 0 && forall i :: 0 <= i < |s| ==> '0' <= s[i] <= '9'
  }

  /** Python's `str(n)` / `"%d" % n` for a natural number. */
  function NatToString(n: nat): (s: string)
    ensures IsDigits(s)
    ensures n < 10 <==> |s| == 1
    decreases n
  {
    if n < 10 then [DigitChar(n)] else NatToString(n / 10) + [DigitChar(n % 10)]
  }

  /** Python's `str(i)` for any integer. */
  function IntToString(i: int): (s: string)
    ensures |s| > 0
    ensures i >= 0 <==> IsDigits(s)
  {
    if i < 0 then
      var s := "-" + NatToString(-i);
      assert s[0] == '-';
      s
    else NatToString(i)
  }

  /** Python's `int(s)` restricted to a run of decimal digits. */
  function ParseNat(s: string): (r: Option<nat>)
    ensures r.Some? <==> IsDigits(s)
  {
    if IsDigits(s) then Some(DigitsValue(s)) else None
  }

  /** The value of a run of decimal digits, most significant first. */
  function DigitsValue(s: string): nat
    requires IsDigits(s)
  {
    if |s| == 1 then DigitValue(s[0])
    else
      assert IsDigits(s[..|s| - 1]);
      DigitsValue(s[..|s| - 1]) * 10 + DigitValue(s[|s| - 1])
  }

  /** Python's `int(s)` for an optionally signed run of decimal digits. */
  function ParseInt(s: string): (r: Option<int>)
    ensures IsDigits(s) ==> r.Some? && r.value >= 0
  {
    if |s| > 1 && (s[0] == '-' || s[0] == '+') then
      match ParseNat(s[1..])
      case None => None
      case Some(n) =>
        var v: int := if s[0] == '-' then -(n as int) else n;
        Some(v)
    else
      match ParseNat(s)
      case None => None
      case Some(n) => Some(n)
  }

  /** Rendering a number and parsing it back gives the number. */
  lemma {:induction false} ParseNatToString(n: nat)
    ensures ParseNat(NatToString(n)) == Some(n)
    decreases n
  {
    var s := NatToString(n);
    if n < 10 {
      DigitRoundTrip(n);
      assert s == [DigitChar(n)];
    } else {
      ParseNatToString(n / 10);
      DigitRoundTrip(n % 10);
      assert s[..|s| - 1] == NatToString(n / 10) && s[|s| - 1] == DigitChar(n % 10);
      assert DigitsValue(s) == DigitsValue(s[..|s| - 1]) * 10 + n % 10;
    }
  }

  /** Reading back a digit gives its value. */
  lemma DigitRoundTrip(d: nat)
    requires d < 10
    ensures DigitValue(DigitChar(d)) == d
  {
  }

  lemma ParseIntToString(i: int)
    ensures ParseInt(IntToString(i)) == Some(i)
  {
    ParseNatToString(if i < 0 then -i else i);
    if i < 0 {
      assert IntToString(i)[1..] == NatToString(-i);
    }
  }

  /** Python's `"{0:02d}".format(n)`: at least two digits, zero-padded. */
  function Pad2(n: nat): (s: string)
    ensures IsDigits(s) && |s| >= 2
    ensures n < 100 ==> |s| == 2
    ensures ParseNat(s) == Some(n)
  {
    ParseNatToString(n);
    if n < 10 then
      var s := "0" + NatToString(n);
      assert s[..|s| - 1] == "0" && DigitsValue("0") == 0;
      s
    else NatToString(n)
  }
}
