/** Small failure-compatible wrapper used throughout the model. */
module Wrappers {
  datatype Option<+T> = None | Some(value: T)
}

/**
 String helpers with the semantics of the Python built-ins the parsers use:
 str.isspace, str.strip, str.split() without arguments, str.lower (ASCII part),
 the `in` substring test, str.startswith, str.isdigit (ASCII digits), int() and str()
 on integers.
 */
module Text {
  import opened Wrappers

  /** str.isspace() on a single character (the full set Python treats as whitespace). */
  predicate IsSpace(c: char) {
    || c == ' ' || c == '\t' || c == '\n' || c == '\r' || c == '\U{0B}' || c == '\U{0C}'
    || ('\U{1C}' <= c <= '\U{1F}') || c == '\U{85}' || c == '\U{A0}' || c == '\U{1680}'
    || ('\U{2000}' <= c <= '\U{200A}') || c == '\U{2028}' || c == '\U{2029}'
    || c == '\U{202F}' || c == '\U{205F}' || c == '\U{3000}'
  }

  predicate NoSpace(s: string) {
    forall i :: 0 <= i < |s| ==> !IsSpace(s[i])
  }

  predicate AllSpace(s: string) {
    forall i :: 0 <= i < |s| ==> IsSpace(s[i])
  }

  /** Removes leading whitespace. */
  function TrimLeft(s: string): string
    decreases |s|
  {
    if |s| > 0 && IsSpace(s[0]) then TrimLeft(s[1..]) else s
  }

  /** TrimLeft keeps the suffix that starts at the first non-space character. */
  lemma {:induction false} TrimLeftSpec(s: string)
    ensures |TrimLeft(s)| <= |s| && TrimLeft(s) == s[|s| - |TrimLeft(s)|..]
    ensures AllSpace(s[..|s| - |TrimLeft(s)|])
    ensures |TrimLeft(s)| > 0 ==> !IsSpace(TrimLeft(s)[0])
    decreases |s|
  {
    if |s| > 0 && IsSpace(s[0]) {
      TrimLeftSpec(s[1..]);
      var r := TrimLeft(s[1..]);
      assert s[..|s| - |r|] == [s[0]] + s[1..][..|s| - 1 - |r|];
    }
  }

  /** Removes trailing whitespace. */
  function TrimRight(s: string): string
    decreases |s|
  {
    if |s| > 0 && IsSpace(s[|s| - 1]) then TrimRight(s[..|s| - 1]) else s
  }

  /** TrimRight keeps the prefix that ends at the last non-space character. */
  lemma {:induction false} TrimRightSpec(s: string)
    ensures |TrimRight(s)| <= |s| && TrimRight(s) == s[..|TrimRight(s)|]
    ensures AllSpace(s[|TrimRight(s)|..])
    ensures |TrimRight(s)| > 0 ==> !IsSpace(TrimRight(s)[|TrimRight(s)| - 1])
    decreases |s|
  {
    if |s| > 0 && IsSpace(s[|s| - 1]) {
      TrimRightSpec(s[..|s| - 1]);
      var r := TrimRight(s[..|s| - 1]);
      assert s[|r|..] == s[..|s| - 1][|r|..] + [s[|s| - 1]];
    }
  }

  /** str.strip(): `s` without its leading and trailing whitespace. */
  function Strip(s: string): string {
    TrimRight(TrimLeft(s))
  }

  /** Strip yields the empty string exactly on blank input, and otherwise starts and ends with a non-space. */
  lemma StripSpec(s: string)
    ensures |Strip(s)| <= |s|
    ensures Strip(s) == "" <==> AllSpace(s)
    ensures |Strip(s)| > 0 ==> !IsSpace(Strip(s)[0]) && !IsSpace(Strip(s)[|Strip(s)| - 1])
  {
    var t := TrimLeft(s);
    TrimLeftSpec(s);
    TrimRightSpec(t);
    assert s == s[..|s| - |t|] + t;
    assert t[0..] == t;
  }

  /** The maximal run of non-space characters at the start of `s`. */
  function TakeWord(s: string): string
    decreases |s|
  {
    if |s| == 0 || IsSpace(s[0]) then "" else [s[0]] + TakeWord(s[1..])
  }

  lemma {:induction false} TakeWordSpec(s: string)
    ensures |TakeWord(s)| <= |s| && TakeWord(s) == s[..|TakeWord(s)|] && NoSpace(TakeWord(s))
    ensures |TakeWord(s)| < |s| ==> IsSpace(s[|TakeWord(s)|])
    ensures |s| > 0 && !IsSpace(s[0]) ==> |TakeWord(s)| > 0
    decreases |s|
  {
    if |s| > 0 && !IsSpace(s[0]) {
      TakeWordSpec(s[1..]);
    }
  }

  /** str.split() with no separator: the maximal runs of non-space characters, in order. */
  function Split(s: string): seq<string>
    decreases |s|
  {
    var t := TrimLeft(s);
    if |t| == 0 then []
    else
      TrimLeftSpec(s);
      TakeWordSpec(t);
      var w := TakeWord(t);
      [w] + Split(t[|w|..])
  }

  predicate IsToken(w: string) {
    |w| > 0 && NoSpace(w)
  }

  /** Every token Split yields is non-empty and free of whitespace. */
  lemma {:induction false} SplitTokens(s: string)
    ensures forall k | 0 <= k < |Split(s)| :: IsToken(Split(s)[k])
    decreases |s|
  {
    var t := TrimLeft(s);
    if |t| > 0 {
      var w := TakeWord(t);
      TakeWordSpec(t);
      TrimLeftSpec(s);
      SplitTokens(t[|w|..]);
    }
  }

  /** A line splits into no tokens exactly when it is blank. */
  lemma SplitEmptyIffBlank(s: string)
    ensures |Split(s)| == 0 <==> AllSpace(s)
  {
    var t := TrimLeft(s);
    TrimLeftSpec(s);
    if |t| == 0 {
      assert s[..|s|] == s;
    } else {
      TakeWordSpec(t);
      assert s[|s| - |t|] == t[0];
    }
  }

  /** The tokens joined by single spaces (the inverse of Split on space-free tokens). */
  function Join(ws: seq<string>): string {
    if |ws| == 0 then "" else if |ws| == 1 then ws[0] else ws[0] + " " + Join(ws[1..])
  }

  lemma JoinCons(w: string, ws: seq<string>)
    requires |ws| > 0
    ensures Join([w] + ws) == w + " " + Join(ws)
  {
    assert ([w] + ws)[1..] == ws;
  }

  /** Tokens joined by spaces start and end with a non-space character. */
  lemma {:induction false} JoinEnds(ws: seq<string>)
    requires |ws| > 0 && forall k | 0 <= k < |ws| :: IsToken(ws[k])
    ensures |Join(ws)| > 0 && !IsSpace(Join(ws)[0]) && !IsSpace(Join(ws)[|Join(ws)| - 1])
  {
    assert IsToken(ws[0]);
    if |ws| > 1 {
      JoinEnds(ws[1..]);
    }
  }

  /** Tokens joined by spaces are their own strip. */
  lemma JoinStripped(ws: seq<string>)
    requires |ws| > 0 && forall k | 0 <= k < |ws| :: IsToken(ws[k])
    ensures Strip(Join(ws)) == Join(ws)
  {
    JoinEnds(ws);
    StripUnpadded(Join(ws));
  }

  lemma TakeWordOfToken(w: string, rest: string)
    requires IsToken(w)
    requires |rest| > 0 ==> IsSpace(rest[0])
    ensures TakeWord(w + rest) == w
    decreases |w|
  {
    if |w| > 1 {
      assert (w + rest)[1..] == w[1..] + rest;
      TakeWordOfToken(w[1..], rest);
    } else {
      assert (w + rest)[1..] == rest;
    }
  }

  lemma SplitSpacePrefix(s: string)
    ensures Split(" " + s) == Split(s)
  {
    assert (" " + s)[1..] == s;
  }

  /** A leading token followed by a separator (or nothing) is the first word Split yields. */
  lemma SplitLeadingToken(w: string, rest: string)
    requires IsToken(w)
    requires |rest| > 0 ==> IsSpace(rest[0])
    ensures Split(w + rest) == [w] + Split(rest)
  {
    var s := w + rest;
    assert s[0] == w[0];
    assert TrimLeft(s) == s;
    TakeWordOfToken(w, rest);
    assert s[|w|..] == rest;
  }

  /** Split inverts Join on whitespace-free, non-empty tokens. */
  lemma {:induction false} SplitJoin(ws: seq<string>)
    requires forall k :: 0 <= k < |ws| ==> IsToken(ws[k])
    ensures Split(Join(ws)) == ws
    decreases |ws|
  {
    if |ws| == 0 {
    } else if |ws| == 1 {
      SplitLeadingToken(ws[0], "");
      assert ws[0] + "" == ws[0];
    } else {
      var rest := " " + Join(ws[1..]);
      assert Join(ws) == ws[0] + rest;
      SplitLeadingToken(ws[0], rest);
      SplitSpacePrefix(Join(ws[1..]));
      SplitJoin(ws[1..]);
    }
  }

  function LowerChar(c: char): char {
    if 'A' <= c <= 'Z' then (c as int + 32) as char else c
  }

  /** str.lower() restricted to ASCII letters. */
  function Lower(s: string): string {
    seq(|s|, i requires 0 <= i < |s| => LowerChar(s[i]))
  }

  /** Lower-casing works character by character, so it distributes over concatenation. */
  lemma LowerAppend(a: string, b: string)
    ensures Lower(a + b) == Lower(a) + Lower(b)
    ensures MatchesAt(Lower(a + b), Lower(a), 0)
  {
    assert Lower(a + b)[..|a|] == Lower(a);
  }

  predicate MatchesAt(s: string, p: string, i: int) {
    0 <= i && i + |p| <= |s| && s[i..i + |p|] == p
  }

  /** Python's `p in s` on strings. */
  predicate Contains(s: string, p: string) {
    exists i | 0 <= i <= |s| - |p| :: MatchesAt(s, p, i)
  }

  /** Case-insensitive substring test `p.lower() in s.lower()`. */
  predicate ContainsCI(s: string, p: string) {
    Contains(Lower(s), Lower(p))
  }

  predicate StartsWith(s: string, p: string) {
    |p| <= |s| && s[..|p|] == p
  }

  /** A substring of a substring is a substring. */
  lemma ContainsTrans(s: string, p: string, q: string)
    requires Contains(s, p) && Contains(p, q)
    ensures Contains(s, q)
  {
    var i :| 0 <= i <= |s| - |p| && MatchesAt(s, p, i);
    var j :| 0 <= j <= |p| - |q| && MatchesAt(p, q, j);
    forall k | 0 <= k < |q| ensures s[i + j..i + j + |q|][k] == q[k] {
      assert q[k] == p[j..j + |q|][k] == p[j + k];
      assert p[j + k] == s[i..i + |p|][j + k] == s[i + j + k];
    }
    assert MatchesAt(s, q, i + j);
  }

  /** A pattern holding a character the text lacks cannot occur in it. */
  lemma MissingCharNotContained(s: string, p: string, c: char)
    requires c in p && c !in s
    ensures !Contains(s, p)
  {
  }

  /** A text that contains a non-space pattern does not strip to the empty string. */
  lemma ContainsNotBlank(s: string, p: string)
    requires Contains(s, p) && |p| > 0 && !IsSpace(p[0])
    ensures Strip(s) != ""
  {
    var i :| 0 <= i <= |s| - |p| && MatchesAt(s, p, i);
    assert s[i] == s[i..i + |p|][0];
    StripSpec(s);
  }

  predicate IsDigitChar(c: char) {
    '0' <= c <= '9'
  }

  /** str.isdigit() on ASCII: non-empty and every character a decimal digit. */
  predicate IsDigits(s: string) {
    |s| > 0 && forall i :: 0 <= i < |s| ==> IsDigitChar(s[i])
  }

  /** The decimal value of a digit string (int() of an isdigit() string). */
  function DigitsValue(s: string): (n: nat)
    decreases |s|
  {
    if |s| == 0 then 0
    else DigitsValue(s[..|s| - 1]) * 10 + (s[|s| - 1] as int - '0' as int) % 10
  }

  function DigitChar(d: nat): (c: char)
    requires d < 10
    ensures IsDigitChar(c)
  {
    ('0' as int + d) as char
  }

  /** str(n) for a natural number: decimal digits without leading zeros. */
  function NatToString(n: nat): (s: string)
    decreases n
  {
    if n < 10 then [DigitChar(n)] else NatToString(n / 10) + [DigitChar(n % 10)]
  }

  /** Reading back the decimal rendering of `n` gives `n`. */
  lemma {:induction false} NatToStringRoundTrip(n: nat)
    ensures IsDigits(NatToString(n))
    ensures DigitsValue(NatToString(n)) == n
    decreases n
  {
    var s := NatToString(n);
    if n < 10 {
      assert s[..0] == "";
    } else {
      NatToStringRoundTrip(n / 10);
      var p := NatToString(n / 10);
      assert s[..|s| - 1] == p;
    }
  }

  lemma NatToStringInjective(a: nat, b: nat)
    requires NatToString(a) == NatToString(b)
    ensures a == b
  {
    NatToStringRoundTrip(a);
    NatToStringRoundTrip(b);
  }

  /** str(i) for any integer. */
  function IntToString(i: int): string {
    if i < 0 then "-" + NatToString(-i) else NatToString(i)
  }

  /**
   int() applied to a string: surrounding whitespace is ignored, then one optional
   sign and a decimal literal. Non-ASCII digits are not modelled.
   */
  function ParseInt(s: string): (r: Option<int>)
  {
    ParseSigned(Strip(s))
  }

  /**
   A decimal literal as int() reads it: ASCII digits, with single underscores
   allowed between two digits (PEP 515), as in "1_000".
   */
  predicate IsGroupedDigits(s: string) {
    && |s| > 0 && IsDigitChar(s[0]) && IsDigitChar(s[|s| - 1])
    && (forall i | 0 <= i < |s| :: IsDigitChar(s[i]) || s[i] == '_')
    && (forall i | 0 <= i < |s| - 1 :: s[i] == '_' ==> s[i + 1] != '_')
  }

  /** The digits of a literal with its underscores removed. */
  function DropSeparators(s: string): string {
    if |s| == 0 then "" else (if s[0] == '_' then "" else [s[0]]) + DropSeparators(s[1..])
  }

  /** An optional sign followed by a decimal literal, the core of int(). */
  function ParseSigned(t: string): Option<int> {
    if |t| > 1 && (t[0] == '+' || t[0] == '-') && IsGroupedDigits(t[1..]) then
      var n := DigitsValue(DropSeparators(t[1..]));
      Some(if t[0] == '-' then -(n as int) else n)
    else if IsGroupedDigits(t) then Some(DigitsValue(DropSeparators(t)))
    else None
  }

  /** A plain digit string is a literal with nothing to drop. */
  lemma {:induction false} DigitsAreGrouped(d: string)
    requires IsDigits(d)
    ensures IsGroupedDigits(d) && DropSeparators(d) == d
  {
    DropNoSeparators(d);
  }

  lemma {:induction false} DropNoSeparators(d: string)
    requires forall i | 0 <= i < |d| :: IsDigitChar(d[i])
    ensures DropSeparators(d) == d
  {
    if |d| > 0 {
      assert forall i | 0 <= i < |d[1..]| :: d[1..][i] == d[i + 1];
      DropNoSeparators(d[1..]);
      assert d == [d[0]] + d[1..];
    }
  }

  /** int() reads a grouped literal such as "1_000" as the number its digits spell. */
  lemma ParseIntSeparated()
    ensures ParseInt("1_000") == Some(1000)
  {
    StripUnpadded("1_000");
    ThousandGrouped();
    ThousandValue();
  }

  lemma ThousandGrouped()
    ensures IsGroupedDigits("1_000") && DropSeparators("1_000") == "1000"
  {
    assert "1_000"[1..] == "_000" && "_000"[1..] == "000";
    DropNoSeparators("000");
  }

  lemma ThousandValue()
    ensures DigitsValue("1000") == 1000
  {
    assert "1000"[..3] == "100" && "100"[..2] == "10" && "10"[..1] == "1" && "1"[..0] == "";
  }

  /** A doubled, leading or trailing underscore is not a literal. */
  lemma ParseIntBadSeparators()
    ensures ParseInt("1__0") == None && ParseInt("_1") == None && ParseInt("1_") == None
  {
    StripUnpadded("1__0");
    assert "1__0"[1] == '_' && "1__0"[2] == '_';
    StripUnpadded("_1");
    StripUnpadded("1_");
  }

  /** A text with no whitespace at either end is its own strip. */
  lemma StripUnpadded(s: string)
    requires |s| > 0 && !IsSpace(s[0]) && !IsSpace(s[|s| - 1])
    ensures Strip(s) == s
  {
    assert TrimLeft(s) == s;
    assert TrimRight(s) == s;
  }

  lemma StripIdempotent(s: string)
    ensures Strip(Strip(s)) == Strip(s)
  {
    var t := Strip(s);
    StripSpec(s);
    if |t| > 0 {
      assert TrimLeft(t) == t;
      assert TrimRight(t) == t;
    }
  }

  lemma DigitsNoSpace(d: string)
    requires IsDigits(d)
    ensures NoSpace(d)
  {
  }

  lemma ParseSignedDigits(d: string)
    requires IsDigits(d)
    ensures ParseSigned(d) == Some(DigitsValue(d))
  {
    assert IsDigitChar(d[0]);
    DigitsAreGrouped(d);
  }

  lemma ParseSignedNeg(d: string)
    requires IsDigits(d)
    ensures ParseSigned("-" + d) == Some(-(DigitsValue(d) as int))
  {
    assert ("-" + d)[1..] == d;
    DigitsAreGrouped(d);
  }

  lemma NegDigitsNoSpace(d: string)
    requires IsDigits(d)
    ensures NoSpace("-" + d)
  {
    var s := "-" + d;
    forall k | 0 <= k < |s| ensures !IsSpace(s[k]) {
      if k > 0 { assert s[k] == d[k - 1]; }
    }
  }

  /** int(str(i)) == i. */
  lemma ParseIntRoundTrip(i: int)
    ensures ParseInt(IntToString(i)) == Some(i)
  {
    if i < 0 {
      var d := NatToString(-i);
      NatToStringRoundTrip(-i);
      NegDigitsNoSpace(d);
      StripUnpadded("-" + d);
      ParseSignedNeg(d);
    } else {
      var d := NatToString(i);
      NatToStringRoundTrip(i);
      DigitsNoSpace(d);
      StripUnpadded(d);
      ParseSignedDigits(d);
    }
  }
}
