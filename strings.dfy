/** The parts of Python's `str` that the pipeline code relies on: substring
    search (`in`), `startswith`/`endswith`, `split`, `join`, `strip`, `upper`,
    `isdigit`, `replace`, `int()` and `%s` of an integer.

    Character classes are ASCII (see README, Left out). */
module Strings {
  import opened Wrappers

  // ---------------------------------------------------------------------
  // Prefixes, suffixes and substring search

  predicate StartsWith(s: string, prefix: string) {
    prefix <= s
  }

  predicate EndsWith(s: string, suffix: string) {
    |suffix| <= |s| && s[|s| - |suffix|..] == suffix
  }

  predicate OccursAt(s: string, pat: string, i: nat) {
    i + |pat| <= |s| && s[i..i + |pat|] == pat
  }

  /** First index at or after `from` where `pat` occurs (`str.find`). */
  function FindFrom(s: string, pat: string, from: nat): (r: Option<nat>)
    decreases |s| - from
    ensures r.Some? ==> from <= r.value && OccursAt(s, pat, r.value)
    ensures r.Some? ==> forall k :: from <= k < r.value ==> !OccursAt(s, pat, k)
    ensures r.None? ==> forall k :: from <= k ==> !OccursAt(s, pat, k)
  {
    if from + |pat| > |s| then None
    else if s[from..from + |pat|] == pat then Some(from)
    else FindFrom(s, pat, from + 1)
  }

  function Find(s: string, pat: string): Option<nat> {
    FindFrom(s, pat, 0)
  }

  /** Python's `pat in s`. */
  predicate Contains(s: string, pat: string) {
    Find(s, pat).Some?
  }

  lemma ContainsIff(s: string, pat: string)
    ensures Contains(s, pat) <==> exists k :: OccursAt(s, pat, k)
  {
    if Contains(s, pat) {
      assert OccursAt(s, pat, Find(s, pat).value);
    }
  }

  /** A concrete witness makes `in` true. */
  lemma ContainsAt(s: string, pat: string, k: nat)
    requires OccursAt(s, pat, k)
    ensures Contains(s, pat)
  {
    ContainsIff(s, pat);
  }

  lemma ContainsInfix(a: string, pat: string, b: string)
    ensures Contains(a + pat + b, pat)
  {
    var s := a + pat + b;
    assert s[|a|..|a| + |pat|] == pat;
    ContainsAt(s, pat, |a|);
  }

  predicate CharIn(s: string, c: char) {
    c in s
  }

  // ---------------------------------------------------------------------
  // split and join with an explicit separator

  /** Python's `s.split(sep)` for a non-empty separator: the pieces between
      the non-overlapping occurrences of `sep`, scanned from the left. */
  function SplitOn(s: string, sep: string): (r: seq<string>)
    requires |sep| > 0
    decreases |s|
    ensures |r| >= 1
  {
    match Find(s, sep)
    case None => [s]
    case Some(i) => [s[..i]] + SplitOn(s[i + |sep|..], sep)
  }

  /** Python's `sep.join(parts)`. */
  function Join(parts: seq<string>, sep: string): string {
    if |parts| == 0 then ""
    else if |parts| == 1 then parts[0]
    else parts[0] + sep + Join(parts[1..], sep)
  }

  /** Joining a piece in front of at least one other adds one separator. */
  lemma JoinCons(p: string, tail: seq<string>, sep: string)
    requires |tail| >= 1
    ensures Join([p] + tail, sep) == p + sep + Join(tail, sep)
  {
    assert ([p] + tail)[1..] == tail;
  }

  /** Joining the pieces of a split with the same separator gives the string back. */
  lemma {:induction false} JoinSplit(s: string, sep: string)
    requires |sep| > 0
    ensures Join(SplitOn(s, sep), sep) == s
    decreases |s|
  {
    match Find(s, sep)
    case None =>
    case Some(i) =>
      var rest := s[i + |sep|..];
      var tail := SplitOn(rest, sep);
      JoinSplit(rest, sep);
      JoinCons(s[..i], tail, sep);
      assert s[i..i + |sep|] == sep;
      assert s == s[..i] + sep + rest;
  }

  /** A string without the separator splits into itself alone; with it, into
      at least two pieces. */
  lemma SplitSingleIff(s: string, sep: string)
    requires |sep| > 0
    ensures |SplitOn(s, sep)| == 1 <==> !Contains(s, sep)
  {
  }

  lemma {:induction false} JoinSnoc(parts: seq<string>, x: string, sep: string)
    requires |parts| >= 1
    ensures Join(parts + [x], sep) == Join(parts, sep) + sep + x
  {
    if |parts| == 1 {
      assert parts + [x] == [parts[0], x];
    } else {
      assert (parts + [x])[1..] == parts[1..] + [x];
      JoinSnoc(parts[1..], x, sep);
    }
  }

  /** Joining two non-empty lists puts one separator between their joins. */
  lemma {:induction false} JoinAppend(a: seq<string>, b: seq<string>, sep: string)
    requires |a| >= 1 && |b| >= 1
    ensures Join(a + b, sep) == Join(a, sep) + sep + Join(b, sep)
    decreases |a|
  {
    if |a| == 1 {
      JoinCons(a[0], b, sep);
      assert [a[0]] + b == a + b;
    } else {
      JoinAppend(a[1..], b, sep);
      assert (a + b)[1..] == a[1..] + b;
      JoinCons(a[0], a[1..] + b, sep);
      JoinCons(a[0], a[1..], sep);
      assert [a[0]] + (a[1..] + b) == a + b;
      assert [a[0]] + a[1..] == a;
    }
  }

  /** A character that does not occur is not found as a one-character pattern. */
  lemma CharAbsent(s: string, c: char)
    requires c !in s
    ensures !Contains(s, [c])
  {
    forall k: nat | k + 1 <= |s|
      ensures !OccursAt(s, [c], k)
    {
      assert s[k] in s;
      assert s[k..k + 1][0] == s[k];
    }
    ContainsIff(s, [c]);
  }

  /** Before the first occurrence of a one-character pattern, and in a
      string where it is not found, that character does not occur. */
  lemma FindCharPrefix(s: string, c: char)
    ensures Find(s, [c]).None? ==> c !in s
    ensures Find(s, [c]).Some? ==> c !in s[..Find(s, [c]).value]
  {
    forall k | 0 <= k < |s| && s[k] == c
      ensures OccursAt(s, [c], k)
    {
      assert s[k..k + 1] == [c];
    }
  }

  /** A join starts with its first piece. */
  lemma {:induction false} JoinHead(parts: seq<string>, sep: string)
    requires |parts| >= 1
    ensures StartsWith(Join(parts, sep), parts[0])
  {
  }

  /** A join ends with its last piece. */
  lemma {:induction false} JoinLast(parts: seq<string>, sep: string)
    requires |parts| >= 1
    ensures EndsWith(Join(parts, sep), parts[|parts| - 1])
    decreases |parts|
  {
    if |parts| > 1 {
      JoinLast(parts[1..], sep);
    }
  }

  /** Splitting on a one-character separator undoes joining pieces that do
      not contain it. */
  lemma {:induction false} SplitJoinChar(xs: seq<string>, c: char)
    requires |xs| >= 1
    requires forall k :: 0 <= k < |xs| ==> c !in xs[k]
    ensures SplitOn(Join(xs, [c]), [c]) == xs
    decreases |xs|
  {
    if |xs| == 1 {
      CharAbsent(xs[0], c);
    } else {
      var a, b := xs[0], Join(xs[1..], [c]);
      JoinCons(a, xs[1..], [c]);
      assert [a] + xs[1..] == xs;
      SplitJoinChar(xs[1..], c);
      forall k | 0 <= k < |a|
        ensures !OccursAt(a + [c] + b, [c], k)
      {
        var s := a + [c] + b;
        assert s[k] == a[k] && a[k] in a;
        assert s[k..k + 1][0] == s[k];
      }
      CharAbsent(a, c);
      SplitFirstPiece(a, [c], b);
    }
  }

  /** Splitting `root c ext` on the character `c`, with no `c` in `ext`,
      gives the pieces of `root` followed by `ext`. */
  lemma {:induction false} SplitLastChar(root: string, c: char, ext: string)
    requires c !in ext
    ensures SplitOn(root + [c] + ext, [c]) == SplitOn(root, [c]) + [ext]
    decreases |root|
  {
    CharAbsent(ext, c);
    assert SplitOn(ext, [c]) == [ext];
    FindCharPrefix(root, c);
    match Find(root, [c])
    case None =>
      SplitAtFirstChar(root, c, ext);
    case Some(i) =>
      var pre, rest := root[..i], root[i + 1..];
      assert root[i..i + 1] == [c];
      assert root == pre + [c] + rest;
      assert root + [c] + ext == pre + [c] + (rest + [c] + ext);
      SplitAtFirstChar(pre, c, rest + [c] + ext);
      SplitLastChar(rest, c, ext);
  }

  /** Splitting on a character cuts at its first occurrence. */
  lemma SplitAtFirstChar(a: string, c: char, b: string)
    requires c !in a
    ensures SplitOn(a + [c] + b, [c]) == [a] + SplitOn(b, [c])
  {
    forall k | 0 <= k < |a|
      ensures !OccursAt(a + [c] + b, [c], k)
    {
      var s := a + [c] + b;
      assert s[k] == a[k] && a[k] in a;
      assert s[k..k + 1][0] == s[k];
    }
    CharAbsent(a, c);
    SplitFirstPiece(a, [c], b);
  }

  /** Splitting after an initial piece that holds no separator, followed by
      the separator, yields that piece first. */
  lemma SplitFirstPiece(a: string, sep: string, b: string)
    requires |sep| > 0 && !Contains(a, sep)
    requires forall k :: 0 <= k < |a| ==> !OccursAt(a + sep + b, sep, k)
    ensures SplitOn(a + sep + b, sep) == [a] + SplitOn(b, sep)
  {
    var s := a + sep + b;
    assert OccursAt(s, sep, |a|) by {
      assert s[|a|..|a| + |sep|] == sep;
    }
    var f := Find(s, sep);
    assert f.Some? && f.value == |a|;
    assert s[..|a|] == a;
    assert s[|a| + |sep|..] == b;
  }

  /** A pattern whose first character occurs nowhere else in it, such as
      `thread`: two of its occurrences never overlap. */
  predicate HeadUnique(pat: string) {
    |pat| > 0 && forall k :: 0 < k < |pat| ==> pat[k] != pat[0]
  }

  lemma NoOverlap(s: string, pat: string, i: nat, j: nat)
    requires HeadUnique(pat) && OccursAt(s, pat, j) && i < j
    ensures OccursAt(s, pat, i) ==> i + |pat| <= j
  {
    if j < i + |pat| && i + |pat| <= |s| {
      assert s[i..i + |pat|][j - i] == s[j] == s[j..j + |pat|][0];
    }
  }

  /** A string without the pattern's first character is one piece. */
  lemma NoHeadOnePiece(d: string, pat: string)
    requires |pat| > 0 && pat[0] !in d
    ensures SplitOn(d, pat) == [d]
  {
    forall k: nat | k + |pat| <= |d|
      ensures !OccursAt(d, pat, k)
    {
      assert d[k] in d;
      assert d[k..k + |pat|][0] == d[k];
    }
    ContainsIff(d, pat);
  }

  /** `(x + pat + d).split(pat)[-1] == d` when `d` does not hold the
      pattern's first character, whatever `x` holds. */
  lemma {:induction false} SplitLastPiece(x: string, pat: string, d: string)
    requires HeadUnique(pat) && pat[0] !in d
    ensures var ps := SplitOn(x + pat + d, pat); ps[|ps| - 1] == d
    decreases |x|
  {
    var s := x + pat + d;
    assert OccursAt(s, pat, |x|) by {
      assert s[|x|..|x| + |pat|] == pat;
    }
    var i := FirstCut(s, pat, |x|);
    if i == |x| {
      assert s[i + |pat|..] == d;
      NoHeadOnePiece(d, pat);
    } else {
      NoOverlap(s, pat, i, |x|);
      var x' := x[i + |pat|..];
      assert s[i + |pat|..] == x' + pat + d;
      SplitLastPiece(x', pat, d);
    }
  }

  /** A string in which the pattern occurs at `j` is cut first at some
      occurrence no later than `j`. */
  lemma FirstCut(s: string, pat: string, j: nat) returns (i: nat)
    requires |pat| > 0 && OccursAt(s, pat, j)
    ensures i <= j && OccursAt(s, pat, i)
    ensures SplitOn(s, pat) == [s[..i]] + SplitOn(s[i + |pat|..], pat)
  {
    i := Find(s, pat).value;
  }

  /** `(y + pat + d).split(pat) == [y, d]` when `y` does not contain the
      pattern and `d` does not hold its first character. */
  lemma SplitAfterFirst(y: string, pat: string, d: string)
    requires HeadUnique(pat) && !Contains(y, pat) && pat[0] !in d
    ensures SplitOn(y + pat + d, pat) == [y, d]
  {
    var s := y + pat + d;
    assert OccursAt(s, pat, |y|) by {
      assert s[|y|..|y| + |pat|] == pat;
    }
    ContainsIff(y, pat);
    forall k | 0 <= k < |y|
      ensures !OccursAt(s, pat, k)
    {
      NoOverlap(s, pat, k, |y|);
      if k + |pat| <= |y| {
        assert !OccursAt(y, pat, k);
        assert s[k..k + |pat|] == y[k..k + |pat|];
      }
    }
    SplitFirstPiece(y, pat, d);
    NoHeadOnePiece(d, pat);
  }

  /** Appending a character other than the pattern's last cannot create an
      occurrence. */
  lemma ContainsSnoc(y: string, c: char, pat: string)
    requires |pat| > 0 && pat[|pat| - 1] != c && !Contains(y, pat)
    ensures !Contains(y + [c], pat)
  {
    ContainsIff(y, pat);
    ContainsIff(y + [c], pat);
    forall k: nat | k + |pat| <= |y| + 1
      ensures !OccursAt(y + [c], pat, k)
    {
      if k + |pat| <= |y| {
        assert !OccursAt(y, pat, k);
        assert (y + [c])[k..k + |pat|] == y[k..k + |pat|];
      } else {
        assert (y + [c])[k..k + |pat|][|pat| - 1] == c != pat[|pat| - 1];
      }
    }
  }

  // ---------------------------------------------------------------------
  // Whitespace, case, digits

  /** The ASCII characters and the two Latin-1 ones for which Python's
      `str.isspace` holds. */
  predicate IsSpace(c: char) {
    c == ' ' || c == '\t' || c == '\n' || c == '\r' || c == '\U{000B}' || c == '\U{000C}'
    || c == '\U{001C}' || c == '\U{001D}' || c == '\U{001E}' || c == '\U{001F}'
    || c == '\U{0085}' || c == '\U{00A0}'
  }

  function StripLeft(s: string): (r: string)
    ensures |r| <= |s|
    ensures r != [] ==> !IsSpace(r[0])
  {
    if s != [] && IsSpace(s[0]) then StripLeft(s[1..]) else s
  }

  /** `StripLeft` keeps a suffix. */
  lemma {:induction false} StripLeftSuffix(s: string)
    ensures StripLeft(s) == s[|s| - |StripLeft(s)|..]
  {
    if s != [] && IsSpace(s[0]) {
      StripLeftSuffix(s[1..]);
      assert s[1..][|s| - 1 - |StripLeft(s[1..])|..] == s[|s| - |StripLeft(s[1..])|..];
    }
  }

  /** What `StripLeft` removes is whitespace. */
  lemma {:induction false} StripLeftRemovesSpace(s: string)
    ensures forall k :: 0 <= k < |s| - |StripLeft(s)| ==> IsSpace(s[k])
  {
    if s != [] && IsSpace(s[0]) {
      StripLeftRemovesSpace(s[1..]);
      assert forall k :: 1 <= k < |s| ==> s[k] == s[1..][k - 1];
    }
  }

  function StripRight(s: string): (r: string)
    ensures |r| <= |s|
    ensures r != [] ==> !IsSpace(r[|r| - 1])
  {
    if s != [] && IsSpace(s[|s| - 1]) then StripRight(s[..|s| - 1]) else s
  }

  /** `StripRight` keeps a prefix. */
  lemma {:induction false} StripRightPrefix(s: string)
    ensures StripRight(s) == s[..|StripRight(s)|]
  {
    if s != [] && IsSpace(s[|s| - 1]) {
      StripRightPrefix(s[..|s| - 1]);
      assert s[..|s| - 1][..|StripRight(s[..|s| - 1])|] == s[..|StripRight(s[..|s| - 1])|];
    }
  }

  /** What `StripRight` removes is whitespace. */
  lemma {:induction false} StripRightRemovesSpace(s: string)
    ensures forall k :: |StripRight(s)| <= k < |s| ==> IsSpace(s[k])
  {
    if s != [] && IsSpace(s[|s| - 1]) {
      StripRightRemovesSpace(s[..|s| - 1]);
      assert forall k :: 0 <= k < |s| - 1 ==> s[k] == s[..|s| - 1][k];
    }
  }

  /** Python's `s.strip()`: the longest infix with no whitespace at either end. */
  function Strip(s: string): (r: string) {
    StripRight(StripLeft(s))
  }

  lemma StripShape(s: string)
    ensures exists i, j :: 0 <= i <= j <= |s| && Strip(s) == s[i..j]
    ensures Strip(s) != [] ==> !IsSpace(Strip(s)[0]) && !IsSpace(Strip(s)[|Strip(s)| - 1])
  {
    var l := StripLeft(s);
    var i := |s| - |l|;
    var r := StripRight(l);
    StripLeftSuffix(s);
    StripRightPrefix(l);
    assert r == s[i..i + |r|];
  }

  /** A string with no whitespace at its ends is left alone by `strip`. */
  lemma StripNoEdgeSpace(s: string)
    requires s != [] ==> !IsSpace(s[0]) && !IsSpace(s[|s| - 1])
    ensures Strip(s) == s
  {
  }

  /** Stripping a line read from a file removes its line break. */
  lemma StripLineBreak(body: string)
    requires body != [] && !IsSpace(body[0]) && !IsSpace(body[|body| - 1])
    ensures Strip(body + "\n") == body
  {
    var s := body + "\n";
    assert s[0] == body[0];
    assert StripLeft(s) == s;
    assert s[..|s| - 1] == body;
    assert StripRight(s) == StripRight(body);
  }

  predicate IsBlank(s: string) {
    Strip(s) == []
  }

  function UpperChar(c: char): char {
    if 'a' <= c <= 'z' then (c as int - 'a' as int + 'A' as int) as char else c
  }

  /** Python's `s.upper()` on ASCII letters. */
  function Upper(s: string): (r: string)
    ensures |r| == |s| && forall k :: 0 <= k < |s| ==> r[k] == UpperChar(s[k])
  {
    if s == [] then [] else [UpperChar(s[0])] + Upper(s[1..])
  }

  predicate IsDigitChar(c: char) {
    '0' <= c <= '9'
  }

  /** Python's `s.isdigit()`: non-empty and every character a digit. */
  predicate IsDigits(s: string) {
    |s| > 0 && forall k :: 0 <= k < |s| ==> IsDigitChar(s[k])
  }

  function DigitValue(c: char): nat
    requires IsDigitChar(c)
  {
    c as int - '0' as int
  }

  /** The number a digit string denotes, most significant digit first. */
  function DigitsValue(s: string): nat
    requires forall k :: 0 <= k < |s| ==> IsDigitChar(s[k])
  {
    if s == [] then 0 else DigitsValue(s[..|s| - 1]) * 10 + DigitValue(s[|s| - 1])
  }

  function DigitChar(d: nat): (c: char)
    requires d < 10
    ensures IsDigitChar(c) && DigitValue(c) == d
  {
    ('0' as int + d) as char
  }

  /** `'%s' % n` for a natural number: its decimal digits, without leading zeros. */
  function NatToString(n: nat): (r: string)
    ensures IsDigits(r)
    ensures DigitsValue(r) == n
  {
    if n < 10 then [DigitChar(n)]
    else
      var p := NatToString(n / 10);
      var r := p + [DigitChar(n % 10)];
      assert r[..|r| - 1] == p;
      r
  }

  /** Two numbers with the same decimal spelling are equal. */
  lemma NatToStringInjective(a: nat, b: nat)
    requires NatToString(a) == NatToString(b)
    ensures a == b
  {
  }

  /** Python's `int(s)` on a string: surrounding whitespace, an optional
      sign, then one or more digits; anything else raises ValueError.
      (Underscores between digits and non-ASCII digits are not accepted.) */
  function PyInt(s: string): Result<int> {
    match SignedDigits(Strip(s))
    case Some(n) => Ok(n)
    case None => Err(ValueError(s))
  }

  /** The value of an optional sign followed by one or more digits. */
  function SignedDigits(t: string): Option<int> {
    if |t| > 0 && (t[0] == '-' || t[0] == '+') && IsDigits(t[1..]) then
      Some(if t[0] == '-' then -(DigitsValue(t[1..]) as int) else DigitsValue(t[1..]))
    else if IsDigits(t) then Some(DigitsValue(t))
    else None
  }

  /** `str(i)` for an integer. */
  function IntToString(i: int): string {
    if i < 0 then "-" + NatToString(-i) else NatToString(i)
  }

  /** `int(str(i)) == i`. */
  lemma PyIntOfIntToString(i: int)
    ensures PyInt(IntToString(i)) == Ok(i)
  {
    if i < 0 {
      PyIntOfNegativeDigits(NatToString(-i));
    } else {
      PyIntOfDigits(NatToString(i));
    }
  }

  /** A digit string read back through `int()` gives its value. */
  lemma PyIntOfDigits(s: string)
    requires IsDigits(s)
    ensures PyInt(s) == Ok(DigitsValue(s) as int)
  {
    assert Strip(s) == s by {
      assert IsDigitChar(s[0]) && IsDigitChar(s[|s| - 1]);
      StripNoEdgeSpace(s);
    }
    assert SignedDigits(s) == Some(DigitsValue(s) as int) by {
      assert IsDigitChar(s[0]);
    }
  }

  /** A minus sign before a digit string negates its value. */
  lemma PyIntOfNegativeDigits(d: string)
    requires IsDigits(d)
    ensures PyInt("-" + d) == Ok(-(DigitsValue(d) as int))
  {
    var s := "-" + d;
    assert Strip(s) == s by {
      assert s[|s| - 1] == d[|d| - 1];
      assert IsDigitChar(d[|d| - 1]);
      StripNoEdgeSpace(s);
    }
    assert SignedDigits(s) == Some(-(DigitsValue(d) as int)) by {
      assert s[1..] == d;
    }
  }

  // ---------------------------------------------------------------------
  // split() without a separator: runs of whitespace

  function TakeToken(s: string): (r: string)
    ensures |r| <= |s| && r == s[..|r|]
    ensures forall k :: 0 <= k < |r| ==> !IsSpace(r[k])
    ensures |r| < |s| ==> IsSpace(s[|r|])
  {
    if s == [] || IsSpace(s[0]) then [] else [s[0]] + TakeToken(s[1..])
  }

  /** Python's `s.split()`: the maximal runs of non-whitespace characters. */
  function SplitWhitespace(s: string): (r: seq<string>)
    decreases |s|
  {
    var l := StripLeft(s);
    if l == [] then []
    else
      var t := TakeToken(l);
      [t] + SplitWhitespace(l[|t|..])
  }

  predicate IsToken(t: string) {
    |t| > 0 && forall k :: 0 <= k < |t| ==> !IsSpace(t[k])
  }

  /** Splitting a string made of tokens separated by single spaces gives back
      the tokens. */
  lemma {:induction false} SplitWhitespaceOfJoin(ts: seq<string>)
    requires forall t :: t in ts ==> IsToken(t)
    ensures SplitWhitespace(Join(ts, " ")) == ts
  {
    if |ts| == 0 {
    } else if |ts| == 1 {
      TokenAlone(ts[0], "");
      assert ts[0] + "" == ts[0];
    } else {
      var rest := Join(ts[1..], " ");
      assert [ts[0]] + ts[1..] == ts;
      assert Join(ts, " ") == ts[0] + " " + rest by {
        JoinCons(ts[0], ts[1..], " ");
      }
      assert SplitWhitespace(ts[0] + " " + rest) == [ts[0]] + SplitWhitespace(rest) by {
        assert ts[0] in ts;
        SplitTokenSpace(ts[0], rest);
      }
      assert forall t :: t in ts[1..] ==> t in ts;
      SplitWhitespaceOfJoin(ts[1..]);
    }
  }

  /** A token followed by a space splits off as the first piece. */
  lemma SplitTokenSpace(t: string, rest: string)
    requires IsToken(t)
    ensures SplitWhitespace(t + " " + rest) == [t] + SplitWhitespace(rest)
  {
    var s := t + " " + rest;
    assert s == t + (" " + rest);
    TokenAlone(t, " " + rest);
    assert s[|t|..] == " " + rest;
    StripLeftSpace(rest);
  }

  lemma StripLeftSpace(rest: string)
    ensures SplitWhitespace(" " + rest) == SplitWhitespace(rest)
  {
    assert (" " + rest)[1..] == rest;
  }

  lemma {:induction false} TokenAlone(t: string, rest: string)
    requires IsToken(t)
    requires rest != [] ==> IsSpace(rest[0])
    ensures StripLeft(t + rest) == t + rest
    ensures TakeToken(t + rest) == t
    ensures rest == [] ==> SplitWhitespace(t + rest) == [t]
  {
    TakeTokenOf(t, rest);
    if rest == [] {
      assert t + rest == t;
      var l := StripLeft(t);
      assert l[|t|..] == [];
    }
  }

  lemma {:induction false} TakeTokenOf(t: string, rest: string)
    requires forall k :: 0 <= k < |t| ==> !IsSpace(t[k])
    requires rest != [] ==> IsSpace(rest[0])
    ensures TakeToken(t + rest) == t
  {
    if t == [] {
      assert t + rest == rest;
    } else {
      assert (t + rest)[1..] == t[1..] + rest;
      TakeTokenOf(t[1..], rest);
    }
  }

  // ---------------------------------------------------------------------
  // replace

  /** Python's `s.replace(pat, repl)` for a non-empty `pat`: every
      non-overlapping occurrence, scanned from the left, is replaced. */
  function ReplaceAll(s: string, pat: string, repl: string): (r: string)
    requires |pat| > 0
    decreases |s|
    ensures !Contains(s, pat) ==> r == s
  {
    match Find(s, pat)
    case None => s
    case Some(i) => s[..i] + repl + ReplaceAll(s[i + |pat|..], pat, repl)
  }

  /** Replacing a suffix that occurs nowhere earlier replaces just it. */
  lemma ReplaceAllTrailing(d: string, pat: string, repl: string)
    requires |pat| > 0
    requires forall k :: 0 <= k < |d| ==> !OccursAt(d + pat, pat, k)
    ensures ReplaceAll(d + pat, pat, repl) == d + repl
  {
    var s := d + pat;
    assert OccursAt(s, pat, |d|) by { assert s[|d|..] == pat; }
    assert Find(s, pat) == Some(|d|);
    assert s[|d| + |pat|..] == [];
    assert s[..|d|] == d;
  }

  /** A pattern that starts with a character absent from `d` occurs in
      `d + pat` only at the end. */
  lemma OnlyAtEnd(d: string, pat: string)
    requires |pat| > 0 && pat[0] !in d
    ensures forall k :: 0 <= k < |d| ==> !OccursAt(d + pat, pat, k)
  {
    forall k | 0 <= k < |d| ensures !OccursAt(d + pat, pat, k) {
      var s := d + pat;
      assert s[k] == d[k] && d[k] in d;
      if k + |pat| <= |s| {
        assert s[k..k + |pat|][0] == s[k];
      }
    }
  }

  /** Replacing a one-character separator maps a join with it to a join
      with the replacement (`"a.b.c".replace(".", "/")`). */
  lemma {:induction false} ReplaceCharJoin(parts: seq<string>, c: char, d: char)
    requires |parts| >= 1
    requires forall k :: 0 <= k < |parts| ==> c !in parts[k]
    ensures ReplaceAll(Join(parts, [c]), [c], [d]) == Join(parts, [d])
    decreases |parts|
  {
    if |parts| == 1 {
      CharAbsent(parts[0], c);
    } else {
      var a, b := parts[0], Join(parts[1..], [c]);
      JoinCons(a, parts[1..], [c]);
      JoinCons(a, parts[1..], [d]);
      assert [a] + parts[1..] == parts;
      var s := a + [c] + b;
      forall k | 0 <= k < |a|
        ensures !OccursAt(s, [c], k)
      {
        assert s[k] == a[k] && a[k] in a;
        assert s[k..k + 1][0] == s[k];
      }
      assert OccursAt(s, [c], |a|) by { assert s[|a|..|a| + 1] == [c]; }
      assert Find(s, [c]) == Some(|a|);
      assert s[..|a|] == a;
      assert s[|a| + 1..] == b;
      ReplaceCharJoin(parts[1..], c, d);
    }
  }

  /** Python's `s.replace(pat, repl, 1)`. */
  function ReplaceFirst(s: string, pat: string, repl: string): (r: string)
    ensures !Contains(s, pat) ==> r == s
  {
    match Find(s, pat)
    case None => s
    case Some(i) => s[..i] + repl + s[i + |pat|..]
  }
}
