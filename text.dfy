/** The Python string primitives the server relies on: `str.strip()`,
    `str.isdigit()`, `str.upper()`, `str(int)`, and string concatenation with
    `+=`; plus the character count used to state how many lines a block has. */
module Text {

  /** `str.isspace()` on the ASCII range: space, `\t \n \v \f \r`, and the
      separators `\x1c`..`\x1f`. */
  predicate IsSpace(c: char) {
    c == ' ' || ('\t' <= c <= '\r') || ('\U{1C}' <= c <= '\U{1F}')
  }

  predicate AllSpace(s: string) {
    forall i :: 0 <= i < |s| ==> IsSpace(s[i])
  }

  /** `str.isdigit()` on one ASCII character. */
  predicate IsDigit(c: char) {
    '0' <= c <= '9'
  }

  predicate AllDigits(s: string) {
    forall i :: 0 <= i < |s| ==> IsDigit(s[i])
  }

  // ---------------------------------------------------------------------------
  // strip()

  /** `str.lstrip()`. */
  function TrimLeft(s: string): string {
    if s != [] && IsSpace(s[0]) then TrimLeft(s[1..]) else s
  }

  /** `lstrip` drops the leading whitespace, and only that. */
  lemma {:induction false} TrimLeftSpec(s: string)
    ensures |TrimLeft(s)| <= |s| && TrimLeft(s) == s[|s| - |TrimLeft(s)|..]
    ensures AllSpace(s[..|s| - |TrimLeft(s)|])
    ensures TrimLeft(s) == [] || !IsSpace(TrimLeft(s)[0])
  {
    if s != [] && IsSpace(s[0]) {
      TrimLeftSpec(s[1..]);
      var k := |s| - |TrimLeft(s)|;
      assert s[..k] == [s[0]] + s[1..][..k - 1];
    }
  }

  /** `str.rstrip()`. */
  function TrimRight(s: string): string {
    if s != [] && IsSpace(s[|s| - 1]) then TrimRight(s[..|s| - 1]) else s
  }

  /** `rstrip` drops the trailing whitespace, and only that. */
  lemma {:induction false} TrimRightSpec(s: string)
    ensures |TrimRight(s)| <= |s| && TrimRight(s) == s[..|TrimRight(s)|]
    ensures AllSpace(s[|TrimRight(s)|..])
    ensures TrimRight(s) == [] || !IsSpace(TrimRight(s)[|TrimRight(s)| - 1])
  {
    if s != [] && IsSpace(s[|s| - 1]) {
      var init := s[..|s| - 1];
      TrimRightSpec(init);
      var k := |TrimRight(s)|;
      assert s[k..] == init[k..] + [s[|s| - 1]];
    }
  }

  /** `r` is `s` with whitespace removed at both ends: it is a slice of `s`
      that neither starts nor ends with whitespace, and everything outside
      the slice is whitespace. */
  ghost predicate IsStripOf(r: string, s: string) {
    && (r == [] || (!IsSpace(r[0]) && !IsSpace(r[|r| - 1])))
    && exists k :: 0 <= k <= |s| - |r| && s[k..k + |r|] == r && AllSpace(s[..k]) && AllSpace(s[k + |r|..])
  }

  /** `str.strip()` with no argument. */
  function Trim(s: string): string {
    TrimRight(TrimLeft(s))
  }

  /** `strip` removes the whitespace at both ends, and only that. */
  lemma TrimIsStrip(s: string)
    ensures IsStripOf(Trim(s), s)
  {
    TrimLeftSpec(s);
    var left := TrimLeft(s);
    TrimRightSpec(left);
    var r := TrimRight(left);
    var k := |s| - |left|;
    assert s[k..k + |r|] == r;
    assert s[k + |r|..] == left[|r|..];
    if r != [] {
      assert r[0] == left[0];
    }
  }

  /** `IsStripOf` pins `Trim` down: a string has exactly one strip. */
  lemma StripIsTrim(r: string, s: string)
    requires IsStripOf(r, s)
    ensures r == Trim(s)
  {
    var k :| 0 <= k <= |s| - |r| && s[k..k + |r|] == r && AllSpace(s[..k]) && AllSpace(s[k + |r|..]);
    StripAt(r, s, k);
  }

  lemma StripAt(r: string, s: string, k: nat)
    requires r == [] || (!IsSpace(r[0]) && !IsSpace(r[|r| - 1]))
    requires k <= |s| - |r| && s[k..k + |r|] == r && AllSpace(s[..k]) && AllSpace(s[k + |r|..])
    ensures r == TrimRight(TrimLeft(s))
  {
    var a, b := s[..k], s[k + |r|..];
    assert s == a + r + b;
    if r == [] {
      assert AllSpace(a + b);
      TrimLeftSpacePrefix(a + b, []);
      assert a + b + [] == s;
    } else {
      TrimLeftSpacePrefix(a, r + b);
      assert a + (r + b) == s;
      TrimRightSpaceSuffix(r, b);
    }
  }

  /** Stripping a string that starts with a non-space character keeps any
      prefix that ends with a non-space character. */
  lemma TrimKeepsPrefix(p: string, rest: string)
    requires p != [] && !IsSpace(p[0]) && !IsSpace(p[|p| - 1])
    ensures |p| <= |Trim(p + rest)| && Trim(p + rest)[..|p|] == p
  {
    assert TrimLeft(p + rest) == p + rest;
    if AllSpace(rest) {
      TrimRightSpaceSuffix(p, rest);
    } else {
      TrimRightAppend(p, rest);
    }
  }

  /** Whitespace in front of a string that starts with a non-space
      character is exactly what `lstrip` removes. */
  lemma {:induction false} TrimLeftSpacePrefix(a: string, s: string)
    requires AllSpace(a)
    requires s == [] || !IsSpace(s[0])
    ensures TrimLeft(a + s) == s
  {
    if a != [] {
      assert (a + s)[1..] == a[1..] + s;
      TrimLeftSpacePrefix(a[1..], s);
    } else {
      assert a + s == s;
    }
  }

  /** A text that starts and ends with non-whitespace, followed by whitespace,
      strips to itself. */
  lemma TrimSpaceSuffix(s: string, w: string)
    requires s != [] && !IsSpace(s[0]) && !IsSpace(s[|s| - 1]) && AllSpace(w)
    ensures Trim(s + w) == s
  {
    assert TrimLeft(s + w) == s + w;
    TrimRightSpaceSuffix(s, w);
  }

  /** Only the tail's trailing whitespace goes when the text starts with
      non-whitespace and the tail is not all whitespace. */
  lemma TrimOpenedAppend(s: string, tail: string)
    requires s != [] && !IsSpace(s[0]) && !AllSpace(tail)
    ensures Trim(s + tail) == s + TrimRight(tail)
  {
    assert TrimLeft(s + tail) == s + tail;
    TrimRightAppend(s, tail);
  }

  /** Whitespace after a string that ends with a non-space character is
      exactly what `rstrip` removes. */
  lemma {:induction false} TrimRightSpaceSuffix(s: string, w: string)
    requires AllSpace(w)
    requires s == [] || !IsSpace(s[|s| - 1])
    ensures TrimRight(s + w) == s
  {
    if w != [] {
      assert (s + w)[..|s + w| - 1] == s + w[..|w| - 1];
      TrimRightSpaceSuffix(s, w[..|w| - 1]);
    } else {
      assert s + w == s;
    }
  }

  /** `rstrip` of a concatenation whose right part is not all whitespace
      only touches the right part. */
  lemma {:induction false} TrimRightAppend(a: string, b: string)
    requires !AllSpace(b)
    ensures TrimRight(a + b) == a + TrimRight(b)
  {
    var n := |b|;
    if IsSpace(b[n - 1]) {
      assert (a + b)[..|a + b| - 1] == a + b[..n - 1];
      var i :| 0 <= i < n && !IsSpace(b[i]);
      assert b[..n - 1][i] == b[i];
      TrimRightAppend(a, b[..n - 1]);
    } else {
      assert (a + b)[|a + b| - 1] == b[n - 1];
    }
  }

  // ---------------------------------------------------------------------------
  // upper()

  function UpperChar(c: char): char {
    if 'a' <= c <= 'z' then (c as int - 32) as char else c
  }

  /** `str.upper()` on ASCII letters; every other character is kept. */
  function Upper(s: string): (r: string)
    ensures |r| == |s|
    ensures forall i :: 0 <= i < |s| ==> r[i] == UpperChar(s[i])
    ensures forall i :: 0 <= i < |r| ==> !('a' <= r[i] <= 'z')
  {
    if s == [] then [] else Upper(s[..|s| - 1]) + [UpperChar(s[|s| - 1])]
  }

  // ---------------------------------------------------------------------------
  // str(int), and the parser that reads it back

  function DigitChar(d: nat): (c: char)
    requires d < 10
    ensures IsDigit(c)
  {
    ('0' as int + d) as char
  }

  function DigitValue(c: char): nat
    requires IsDigit(c)
  {
    c as int - '0' as int
  }

  /** `str(n)` for a natural number: decimal, without leading zeros. */
  function NatToString(n: nat): (r: string)
    ensures r != [] && AllDigits(r)
    ensures r[0] == '0' ==> n == 0
  {
    if n < 10 then [DigitChar(n)] else NatToString(n / 10) + [DigitChar(n % 10)]
  }

  /** The value of a string of decimal digits. */
  function ParseDigits(s: string): nat
    requires AllDigits(s)
  {
    if s == [] then 0 else ParseDigits(s[..|s| - 1]) * 10 + DigitValue(s[|s| - 1])
  }

  lemma {:induction false} ParseNatToString(n: nat)
    ensures ParseDigits(NatToString(n)) == n
  {
    if n >= 10 {
      var s := NatToString(n / 10);
      assert (s + [DigitChar(n % 10)])[..|s|] == s;
      ParseNatToString(n / 10);
    }
  }

  /** `str(i)` for any integer, with a leading '-' for negative values. */
  function IntToString(i: int): (r: string)
    ensures r != []
  {
    if i < 0 then "-" + NatToString(-i) else NatToString(i)
  }

  predicate IsIntText(s: string) {
    s != [] && (if s[0] == '-' then AllDigits(s[1..]) else AllDigits(s))
  }

  function ParseInt(s: string): int
    requires IsIntText(s)
  {
    if s[0] == '-' then 0 - ParseDigits(s[1..]) else ParseDigits(s)
  }

  /** `str(i)` can be read back, so distinct integers print differently. */
  lemma IntToStringRoundTrip(i: int)
    ensures IsIntText(IntToString(i)) && ParseInt(IntToString(i)) == i
  {
    if i < 0 {
      assert ("-" + NatToString(-i))[1..] == NatToString(-i);
      ParseNatToString(-i);
    } else {
      var s := NatToString(i);
      assert s[0] != '-';
      ParseNatToString(i);
    }
  }

  // ---------------------------------------------------------------------------
  // Text built piece by piece

  /** The pieces joined in order: what a run of `output += piece` produces. */
  function Concat(pieces: seq<string>): string {
    if pieces == [] then "" else Concat(pieces[..|pieces| - 1]) + pieces[|pieces| - 1]
  }

  lemma ConcatSnoc(pieces: seq<string>, s: string)
    ensures Concat(pieces + [s]) == Concat(pieces) + s
  {
    assert (pieces + [s])[..|pieces|] == pieces;
  }

  /** One more piece appended to the text of the first `i` pieces. */
  lemma ConcatStep(pieces: seq<string>, i: nat, before: string, after: string)
    requires i < |pieces| && before == Concat(pieces[..i]) && after == before + pieces[i]
    ensures after == Concat(pieces[..i + 1])
  {
    assert pieces[..i + 1] == pieces[..i] + [pieces[i]];
    ConcatSnoc(pieces[..i], pieces[i]);
  }

  lemma {:induction false} ConcatAppend(a: seq<string>, b: seq<string>)
    ensures Concat(a + b) == Concat(a) + Concat(b)
  {
    if b == [] {
      assert a + b == a;
    } else {
      var n := |b|;
      assert (a + b)[..|a + b| - 1] == a + b[..n - 1];
      ConcatAppend(a, b[..n - 1]);
    }
  }

  /** The first piece comes first. */
  lemma ConcatFirst(pieces: seq<string>)
    requires pieces != []
    ensures Concat(pieces) == pieces[0] + Concat(pieces[1..])
  {
    assert pieces == [pieces[0]] + pieces[1..];
    ConcatAppend([pieces[0]], pieces[1..]);
    assert [pieces[0]][..0] == [];
  }

  /** How many times `c` occurs in `s`. */
  function CountChar(c: char, s: string): nat {
    if s == [] then 0 else CountChar(c, s[..|s| - 1]) + (if s[|s| - 1] == c then 1 else 0)
  }

  lemma {:induction false} CountCharAppend(c: char, a: string, b: string)
    ensures CountChar(c, a + b) == CountChar(c, a) + CountChar(c, b)
  {
    if b == [] {
      assert a + b == a;
    } else {
      var n := |b|;
      assert (a + b)[..|a + b| - 1] == a + b[..n - 1];
      CountCharAppend(c, a, b[..n - 1]);
    }
  }

  lemma {:induction false} CountCharAbsent(c: char, s: string)
    requires c !in s
    ensures CountChar(c, s) == 0
  {
    if s != [] {
      assert s[..|s| - 1] <= s;
      CountCharAbsent(c, s[..|s| - 1]);
    }
  }

  /** Pieces that each hold exactly one line break make a text of exactly
      that many line breaks. */
  lemma {:induction false} ConcatLineCount(pieces: seq<string>)
    requires forall i :: 0 <= i < |pieces| ==> CountChar('\n', pieces[i]) == 1
    ensures CountChar('\n', Concat(pieces)) == |pieces|
  {
    if pieces != [] {
      var n := |pieces|;
      CountCharAppend('\n', Concat(pieces[..n - 1]), pieces[n - 1]);
      ConcatLineCount(pieces[..n - 1]);
    }
  }

  /** A line: `s` followed by one line break, where `s` holds none. */
  lemma LineCount(s: string)
    requires '\n' !in s
    ensures CountChar('\n', s + "\n") == 1
  {
    CountCharAppend('\n', s, "\n");
    CountCharAbsent('\n', s);
  }
}
