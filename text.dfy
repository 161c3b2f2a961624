/** The handful of Python string operations the bot relies on, over `seq<char>`:
    `str.split(sep)`, `sep.join(parts)`, `str.strip()`, `str.lower()`,
    `startswith`/`endswith`, the `in` substring test, `str(int)` and `int(str)`. */
module Text {
  import opened Wrappers

  /** The characters `str.strip()` removes (the ASCII part of Python's whitespace class). */
  predicate IsSpace(c: char) {
    c == ' ' || ('\t' <= c <= '\r') || ('\U{1C}' <= c <= '\U{1F}')
  }

  function LowerChar(c: char): char {
    if 'A' <= c <= 'Z' then (c as int + 32) as char else c
  }

  /** `str.lower()` on ASCII letters. */
  function Lower(s: string): (r: string)
    ensures |r| == |s| && forall i :: 0 <= i < |s| ==> r[i] == LowerChar(s[i])
  {
    seq(|s|, i requires 0 <= i < |s| => LowerChar(s[i]))
  }

  lemma LowerAppend(a: string, b: string)
    ensures Lower(a + b) == Lower(a) + Lower(b)
  {
    assert forall i :: 0 <= i < |a + b| ==> Lower(a + b)[i] == (Lower(a) + Lower(b))[i];
  }

  predicate StartsWith(s: string, prefix: string) {
    |prefix| <= |s| && s[..|prefix|] == prefix
  }

  predicate EndsWith(s: string, suffix: string) {
    |suffix| <= |s| && s[|s| - |suffix|..] == suffix
  }

  /** Python's `sub in s`. */
  predicate Contains(s: string, sub: string)
    decreases |s|
  {
    StartsWith(s, sub) || (s != [] && Contains(s[1..], sub))
  }

  function LStrip(s: string): (r: string)
    ensures r == [] || !IsSpace(r[0])
    ensures |r| <= |s| && r == s[|s| - |r|..]
    ensures forall i :: 0 <= i < |s| - |r| ==> IsSpace(s[i])
    decreases |s|
  {
    if s != [] && IsSpace(s[0]) then LStrip(s[1..]) else s
  }

  function RStrip(s: string): (r: string)
    ensures r == [] || !IsSpace(r[|r| - 1])
    ensures |r| <= |s| && r == s[..|r|]
    ensures forall i :: |r| <= i < |s| ==> IsSpace(s[i])
    decreases |s|
  {
    if s != [] && IsSpace(s[|s| - 1]) then RStrip(s[..|s| - 1]) else s
  }

  /** `str.strip()`: the text without leading and trailing whitespace. */
  function Strip(s: string): string {
    RStrip(LStrip(s))
  }

  /** Trailing whitespace makes no difference to `RStrip`. */
  lemma {:induction false} RStripTrailing(s: string, t: string)
    requires forall i :: 0 <= i < |t| ==> IsSpace(t[i])
    ensures RStrip(s + t) == RStrip(s)
    decreases |t|
  {
    if t != [] {
      assert (s + t)[..|s + t| - 1] == s + t[..|t| - 1];
      RStripTrailing(s, t[..|t| - 1]);
    } else {
      assert s + t == s;
    }
  }

  /** `s.split(sep)` with an explicit separator: never an empty list, and
      `""` splits into `[""]`. */
  function Split(s: string, sep: char): (r: seq<string>)
    ensures |r| >= 1
    ensures forall i :: 0 <= i < |r| ==> sep !in r[i]
    decreases |s|
  {
    if s == [] then [[]]
    else
      var rest := Split(s[1..], sep);
      if s[0] == sep then [[]] + rest else [[s[0]] + rest[0]] + rest[1..]
  }

  /** `sep.join(parts)`. */
  function Join(parts: seq<string>, sep: char): string
    decreases |parts|
  {
    if |parts| == 0 then []
    else if |parts| == 1 then parts[0]
    else parts[0] + [sep] + Join(parts[1..], sep)
  }

  lemma {:induction false} JoinSplit(s: string, sep: char)
    ensures Join(Split(s, sep), sep) == s
    decreases |s|
  {
    if s != [] {
      var rest := Split(s[1..], sep);
      JoinSplit(s[1..], sep);
      if s[0] == sep {
        assert Split(s, sep)[1..] == rest;
      } else if |rest| > 1 {
        assert Split(s, sep)[1..] == rest[1..];
      }
    }
  }

  lemma {:induction false} SplitWithoutSeparator(s: string, sep: char)
    requires sep !in s
    ensures Split(s, sep) == [s]
    decreases |s|
  {
    if s != [] {
      SplitWithoutSeparator(s[1..], sep);
      assert [s[0]] + s[1..] == s;
    }
  }

  lemma {:induction false} SplitAround(a: string, sep: char, b: string)
    ensures Split(a + [sep] + b, sep) == Split(a, sep) + Split(b, sep)
    decreases |a|
  {
    if a == [] {
      assert a + [sep] + b == [sep] + b;
      assert ([sep] + b)[1..] == b;
    } else {
      assert (a + [sep] + b)[1..] == a[1..] + [sep] + b;
      SplitAround(a[1..], sep, b);
    }
  }

  lemma {:induction false} JoinAppend(a: seq<string>, b: seq<string>, sep: char)
    requires |a| >= 1 && |b| >= 1
    ensures Join(a + b, sep) == Join(a, sep) + [sep] + Join(b, sep)
    decreases |a|
  {
    if |a| > 1 {
      assert (a + b)[1..] == a[1..] + b;
      JoinAppend(a[1..], b, sep);
    } else {
      assert (a + b)[1..] == b;
    }
  }

  /** Splitting undoes joining, as long as no part holds the separator. */
  lemma {:induction false} SplitJoin(parts: seq<string>, sep: char)
    requires |parts| >= 1
    requires forall i :: 0 <= i < |parts| ==> sep !in parts[i]
    ensures Split(Join(parts, sep), sep) == parts
    decreases |parts|
  {
    if |parts| == 1 {
      SplitWithoutSeparator(parts[0], sep);
    } else {
      SplitJoin(parts[1..], sep);
      SplitWithoutSeparator(parts[0], sep);
      SplitAround(parts[0], sep, Join(parts[1..], sep));
      assert [parts[0]] + parts[1..] == parts;
    }
  }

  /** The first piece of a split is the text up to the first separator. */
  lemma {:induction false} SplitHead(s: string, sep: char)
    ensures var h := Split(s, sep)[0];
      StartsWith(s, h) && (|h| < |s| <==> sep in s) && (|h| < |s| ==> s[|h|] == sep)
    decreases |s|
  {
    if s != [] {
      SplitHead(s[1..], sep);
    }
  }

  /** What follows the first separator of a text that does not end in one: empty iff
      there is no separator, otherwise the suffix after a separator-free head. */
  lemma AfterFirst(s: string, sep: char)
    requires s != [] ==> s[|s| - 1] != sep
    ensures var h := Split(s, sep)[0];
      var t := if |h| < |s| then s[|h| + 1..] else [];
      (t == [] <==> sep !in s) &&
      (t != [] ==> |t| < |s| && t == s[|s| - |t|..] && s[|s| - |t| - 1] == sep && sep !in s[..|s| - |t| - 1])
  {
    SplitHead(s, sep);
    var h := Split(s, sep)[0];
    if |h| < |s| {
      assert s[..|h|] == h;
      assert |s[|h| + 1..]| == |s| - |h| - 1;
    }
  }

  /** A text without the separator is its own only piece. */
  lemma SplitSingle(s: string, sep: char)
    ensures sep !in s ==> Split(s, sep) == [s]
  {
    if sep !in s {
      SplitWithoutSeparator(s, sep);
    }
  }

  /** The last piece of a split is the text after the last separator. */
  lemma LastPieceAfterSeparator(a: string, sep: char, b: string)
    requires sep !in b
    ensures var parts := Split(a + [sep] + b, sep); parts[|parts| - 1] == b
  {
    SplitAround(a, sep, b);
    SplitWithoutSeparator(b, sep);
  }

  /** A non-empty text found inside `s` starts at a character of `s`. */
  lemma {:induction false} ContainsFirst(s: string, sub: string)
    requires sub != [] && Contains(s, sub)
    ensures sub[0] in s
    decreases |s|
  {
    if StartsWith(s, sub) {
      assert s[0] == sub[0];
    } else {
      ContainsFirst(s[1..], sub);
    }
  }

  /** A text that ends in a non-space is its own `RStrip`. */
  lemma RStripUnpadded(s: string)
    requires s != [] && !IsSpace(s[|s| - 1])
    ensures RStrip(s) == s
  {
  }

  /** Text that starts with a non-space loses only its trailing whitespace. */
  lemma StripKeepsFront(s: string, t: string)
    requires s != [] && !IsSpace(s[0]) && !IsSpace(s[|s| - 1])
    requires forall i :: 0 <= i < |t| ==> IsSpace(t[i])
    ensures Strip(s + t) == s
  {
    assert (s + t)[0] == s[0];
    RStripTrailing(s, t);
    RStripUnpadded(s);
  }

  /** A split yields several pieces exactly when the separator occurs. */
  lemma SplitCount(s: string, sep: char)
    ensures |Split(s, sep)| >= 2 <==> sep in s
  {
    JoinSplit(s, sep);
    if |Split(s, sep)| == 1 {
      assert s == Split(s, sep)[0];
    }
    if sep !in s {
      SplitWithoutSeparator(s, sep);
    }
  }

  /** Two separator-free texts around one separator split back into the two. */
  lemma SplitTwo(a: string, sep: char, b: string)
    requires sep !in a && sep !in b
    ensures Split(a + [sep] + b, sep) == [a, b]
  {
    SplitAround(a, sep, b);
    SplitWithoutSeparator(a, sep);
    SplitWithoutSeparator(b, sep);
  }

  /** `strip()` only removes characters: whatever a stripped text holds, the text held. */
  lemma StripWithin(s: string)
    ensures forall c :: c in Strip(s) ==> c in s
  {
    var l := LStrip(s);
    var t := RStrip(l);
    forall c | c in t
      ensures c in s
    {
      var i :| 0 <= i < |t| && t[i] == c;
      assert l[i] == c;
      assert s[|s| - |l| + i] == c;
    }
  }

  /** A stripped text starts with a non-space. */
  lemma StripBack(s: string)
    ensures Strip(s) != [] ==> !IsSpace(Strip(s)[|Strip(s)| - 1])
  {
  }

  lemma StripFront(s: string)
    ensures Strip(s) != [] ==> !IsSpace(Strip(s)[0])
  {
    var l := LStrip(s);
    assert Strip(s) == RStrip(l) == l[..|RStrip(l)|];
  }

  function DigitChar(d: nat): char
    requires d < 10
  {
    ('0' as int + d) as char
  }

  predicate IsDigit(c: char) {
    '0' <= c <= '9'
  }

  function NatToString(n: nat): (r: string)
    ensures r != [] && forall i :: 0 <= i < |r| ==> IsDigit(r[i])
    decreases n
  {
    if n < 10 then [DigitChar(n)] else NatToString(n / 10) + [DigitChar(n % 10)]
  }

  /** Python's `str(i)` for an integer. */
  function IntToString(i: int): string {
    if i < 0 then "-" + NatToString(-i) else NatToString(i)
  }

  function DigitsValue(d: string): nat
    requires forall i :: 0 <= i < |d| ==> IsDigit(d[i])
    decreases |d|
  {
    if d == [] then 0
    else
      var last := d[|d| - 1];
      assert IsDigit(last);
      10 * DigitsValue(d[..|d| - 1]) + (last as int - '0' as int)
  }

  function ParseDigits(d: string): Option<nat> {
    if d != [] && forall i :: 0 <= i < |d| ==> IsDigit(d[i]) then Some(DigitsValue(d)) else None
  }

  /** Python's `int(text)` for decimal literals: surrounding whitespace, an optional
      sign and at least one digit; `None` where Python raises `ValueError`. */
  function ParseInt(text: string): Option<int> {
    var t := Strip(text);
    if t != [] && (t[0] == '+' || t[0] == '-') then
      match ParseDigits(t[1..])
      case Some(n) => var v: int := n; Some(if t[0] == '-' then -v else v)
      case None => None
    else
      match ParseDigits(t)
      case Some(n) => Some(n)
      case None => None
  }

  lemma {:induction false} DigitsOfNat(n: nat)
    ensures DigitsValue(NatToString(n)) == n
    decreases n
  {
    if n >= 10 {
      DigitsOfNat(n / 10);
      var s := NatToString(n / 10) + [DigitChar(n % 10)];
      assert s[..|s| - 1] == NatToString(n / 10);
    }
  }

  lemma StripUnpadded(s: string)
    requires s != [] && !IsSpace(s[0]) && !IsSpace(s[|s| - 1])
    ensures Strip(s) == s
  {
    assert LStrip(s) == s;
  }

  /** `int(str(i)) == i`. */
  lemma ParseIntOfIntToString(i: int)
    ensures ParseInt(IntToString(i)) == Some(i)
  {
    var n: nat := if i < 0 then -i else i;
    var d := NatToString(n);
    DigitsOfNat(n);
    assert ParseDigits(d) == Some(n);
    var s := IntToString(i);
    assert IsDigit(d[|d| - 1]) && IsDigit(d[0]);
    StripUnpadded(s);
    if i < 0 {
      assert s == "-" + d && s[1..] == d;
    } else {
      assert s == d;
    }
  }
}
