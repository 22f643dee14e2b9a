/** The JavaScript string operations the gateway relies on: white space as `\s` and
    `String.prototype.trim` see it, `trim`, `split` on a one-character separator, `join`,
    `split(/(\s+)/)`, and the decimal rendering of a number inside a template literal. */
module Strings {

  /** The white-space class of JavaScript, ECMAScript WhiteSpace and LineTerminator code
      points: the class `\s` matches them and `trim` strips them (TAB, LF, VT, FF, CR, the Zs
      space separators, LS, PS, BOM). */
  predicate IsJsWhiteSpace(c: char) {
    || '\t' <= c <= '\r'
    || c == ' ' || c == '\U{00A0}' || c == '\U{1680}'
    || '\U{2000}' <= c <= '\U{200A}'
    || c == '\U{2028}' || c == '\U{2029}' || c == '\U{202F}' || c == '\U{205F}' || c == '\U{3000}'
    || c == '\U{FEFF}'
  }

  predicate NoWs(isWs: char -> bool, s: string) {
    forall i | 0 <= i < |s| :: !isWs(s[i])
  }

  predicate AllWs(isWs: char -> bool, s: string) {
    forall i | 0 <= i < |s| :: isWs(s[i])
  }

  /** The pieces of `parts` written one after another (`parts.join("")`). */
  function Concat(parts: seq<string>): string {
    if parts == [] then "" else parts[0] + Concat(parts[1..])
  }

  /** `parts.join(sep)`: the empty list joins to "". */
  function Join(parts: seq<string>, sep: string): string {
    if parts == [] then ""
    else if |parts| == 1 then parts[0]
    else parts[0] + sep + Join(parts[1..], sep)
  }

  // ---------------------------------------------------------------------------
  // Runs of white space and of non-white space

  /** Length of the longest prefix of `s` whose characters are all white space (`white`)
      or all non-white space (`!white`). */
  function RunLength(isWs: char -> bool, s: string, white: bool): (n: nat)
    ensures n <= |s|
    ensures n < |s| ==> isWs(s[n]) != white
    ensures s != [] && isWs(s[0]) == white ==> n > 0
  {
    if s == [] || isWs(s[0]) != white then 0 else 1 + RunLength(isWs, s[1..], white)
  }

  /** Every character of the measured run is of the requested kind. */
  lemma {:induction false} RunLengthRun(isWs: char -> bool, s: string, white: bool)
    ensures forall i | 0 <= i < RunLength(isWs, s, white) :: isWs(s[i]) == white
  {
    if s != [] && isWs(s[0]) == white {
      RunLengthRun(isWs, s[1..], white);
      assert forall i | 1 <= i < RunLength(isWs, s, white) :: s[i] == s[1..][i - 1];
    }
  }

  /** A run followed by a character of the other kind (or by nothing) is measured exactly. */
  lemma RunLengthOf(isWs: char -> bool, a: string, b: string, white: bool)
    requires forall i | 0 <= i < |a| :: isWs(a[i]) == white
    requires b == [] || isWs(b[0]) != white
    ensures RunLength(isWs, a + b, white) == |a|
  {
    RunLengthRun(isWs, a + b, white);
    assert forall i | 0 <= i < |a| :: (a + b)[i] == a[i];
    if b != [] {
      assert (a + b)[|a|] == b[0];
    }
  }

  // ---------------------------------------------------------------------------
  // text.split(/(\s+)/)

  /** `s.split(/(\s+)/)`: because the white-space group is captured, the result alternates
      maximal runs of non-white space (possibly empty) with maximal runs of white space. */
  function SplitWs(isWs: char -> bool, s: string): (parts: seq<string>)
    decreases |s|
  {
    var w := RunLength(isWs, s, false);
    if w == |s| then [s]
    else
      var g := RunLength(isWs, s[w..], true);
      [s[..w], s[w..w + g]] + SplitWs(isWs, s[w + g..])
  }

  /** The shape `split(/(\s+)/)` promises: an odd number of pieces; even positions hold
      no white space; odd positions are non-empty white-space runs; and only the first and
      last word pieces may be empty (the runs between them are maximal). */
  predicate IsWsSplit(isWs: char -> bool, parts: seq<string>) {
    && |parts| % 2 == 1
    && (forall i | 0 <= i < |parts| && i % 2 == 0 :: NoWs(isWs, parts[i]))
    && (forall i | 0 <= i < |parts| && i % 2 == 1 :: parts[i] != "" && AllWs(isWs, parts[i]))
    && (forall i | 0 < i < |parts| - 1 && i % 2 == 0 :: parts[i] != "")
  }

  lemma ConcatCons2(a: string, b: string, rest: seq<string>)
    ensures Concat([a, b] + rest) == a + b + Concat(rest)
  {
    var p := [a, b] + rest;
    assert p[1..] == [b] + rest;
    assert p[1..][1..] == rest;
  }

  /** A word piece and a white-space run in front of an alternating split keep it alternating. */
  lemma IsWsSplitCons(isWs: char -> bool, a: string, g: string, rest: seq<string>)
    requires NoWs(isWs, a) && g != "" && AllWs(isWs, g)
    requires IsWsSplit(isWs, rest)
    requires |rest| > 1 ==> rest[0] != ""
    ensures IsWsSplit(isWs, [a, g] + rest)
  {
    var parts := [a, g] + rest;
    assert forall i | 2 <= i < |parts| :: parts[i] == rest[i - 2];
  }

  /** Dropping the first word piece and white-space run of an alternating split. */
  lemma IsWsSplitTail(isWs: char -> bool, parts: seq<string>)
    requires IsWsSplit(isWs, parts) && |parts| > 1
    ensures |parts| >= 3
    ensures NoWs(isWs, parts[0]) && parts[1] != "" && AllWs(isWs, parts[1]) && NoWs(isWs, parts[2])
    ensures IsWsSplit(isWs, parts[2..])
    ensures |parts| > 3 ==> parts[2] != ""
  {
    var rest := parts[2..];
    assert forall i | 0 <= i < |rest| :: rest[i] == parts[i + 2];
  }

  /** The white-space run of length `g` that follows the first word (of length `w`) of `s`. */
  lemma WsRunAfterWord(isWs: char -> bool, s: string, w: nat, g: nat)
    requires w == RunLength(isWs, s, false) < |s|
    requires g == RunLength(isWs, s[w..], true)
    ensures 0 < g && w + g <= |s|
    ensures AllWs(isWs, s[w..w + g])
    ensures w + g < |s| ==> !isWs(s[w + g])
  {
    var t := s[w..];
    assert t[0] == s[w];
    RunLengthRun(isWs, t, true);
    var run := s[w..w + g];
    forall i | 0 <= i < |run|
      ensures isWs(run[i])
    {
      assert run[i] == t[i];
    }
    if w + g < |s| {
      assert s[w + g] == t[g];
    }
  }

  lemma SplitWsUnfold(isWs: char -> bool, s: string, w: nat, g: nat)
    requires w == RunLength(isWs, s, false) < |s|
    requires g == RunLength(isWs, s[w..], true)
    ensures SplitWs(isWs, s) == [s[..w], s[w..w + g]] + SplitWs(isWs, s[w + g..])
  {
  }

  /** The first word of `s` holds no white space. */
  lemma FirstWord(isWs: char -> bool, s: string, w: nat)
    requires w == RunLength(isWs, s, false)
    ensures NoWs(isWs, s[..w])
  {
    RunLengthRun(isWs, s, false);
    var word := s[..w];
    forall i | 0 <= i < |word|
      ensures !isWs(word[i])
    {
      assert word[i] == s[i];
    }
  }

  /** One step of `SplitWs` on a string that contains white space. */
  lemma SplitWsStep(isWs: char -> bool, s: string, w: nat, g: nat)
    requires w == RunLength(isWs, s, false) < |s|
    requires g == RunLength(isWs, s[w..], true)
    ensures 0 < g && w + g <= |s|
    ensures SplitWs(isWs, s) == [s[..w], s[w..w + g]] + SplitWs(isWs, s[w + g..])
    ensures NoWs(isWs, s[..w]) && AllWs(isWs, s[w..w + g])
    ensures w + g < |s| ==> !isWs(s[w + g])
  {
    WsRunAfterWord(isWs, s, w, g);
    SplitWsUnfold(isWs, s, w, g);
    FirstWord(isWs, s, w);
  }

  /** A string is its three slices at two cut points. */
  lemma Cut3(s: string, i: nat, j: nat)
    requires i <= j <= |s|
    ensures s == s[..i] + s[i..j] + s[j..]
  {
  }

  /** Splitting loses nothing: the pieces concatenate back to the string. */
  lemma {:induction false} SplitWsConcat(isWs: char -> bool, s: string)
    ensures Concat(SplitWs(isWs, s)) == s
    decreases |s|
  {
    var w := RunLength(isWs, s, false);
    if w == |s| {
      assert SplitWs(isWs, s) == [s];
      assert Concat([s]) == s + Concat([]);
    } else {
      var g := RunLength(isWs, s[w..], true);
      WsRunAfterWord(isWs, s, w, g);
      SplitWsUnfold(isWs, s, w, g);
      var t := s[w + g..];
      SplitWsConcat(isWs, t);
      ConcatCons2(s[..w], s[w..w + g], SplitWs(isWs, t));
      Cut3(s, w, w + g);
    }
  }

  /** A string that starts with a word splits with that word, non-empty, first. */
  lemma SplitWsFirstPiece(isWs: char -> bool, s: string)
    requires s != [] && !isWs(s[0])
    ensures SplitWs(isWs, s)[0] != ""
  {
    var w := RunLength(isWs, s, false);
    if w < |s| {
      SplitWsUnfold(isWs, s, w, RunLength(isWs, s[w..], true));
    }
  }

  /** The pieces alternate between words and white-space runs. */
  lemma {:induction false} SplitWsAlternates(isWs: char -> bool, s: string)
    ensures IsWsSplit(isWs, SplitWs(isWs, s))
    decreases |s|
  {
    var w := RunLength(isWs, s, false);
    if w == |s| {
      FirstWord(isWs, s, w);
      assert s[..w] == s;
      assert SplitWs(isWs, s) == [s];
    } else {
      var g := RunLength(isWs, s[w..], true);
      SplitWsStep(isWs, s, w, g);
      var t := s[w + g..];
      SplitWsAlternates(isWs, t);
      if t != [] {
        assert t[0] == s[w + g];
        SplitWsFirstPiece(isWs, t);
      }
      IsWsSplitCons(isWs, s[..w], s[w..w + g], SplitWs(isWs, t));
    }
  }

  /** Splitting loses nothing and yields the alternating shape. */
  lemma SplitWsShape(isWs: char -> bool, s: string)
    ensures IsWsSplit(isWs, SplitWs(isWs, s))
    ensures Concat(SplitWs(isWs, s)) == s
  {
    SplitWsConcat(isWs, s);
    SplitWsAlternates(isWs, s);
  }

  /** Any alternating decomposition of `s` is the one `split(/(\s+)/)` produces. */
  lemma {:induction false} SplitWsUnique(isWs: char -> bool, s: string, parts: seq<string>)
    requires IsWsSplit(isWs, parts)
    requires Concat(parts) == s
    ensures parts == SplitWs(isWs, s)
    decreases |parts|
  {
    if |parts| == 1 {
      assert parts[1..] == [];
      assert s == parts[0] + "";
      assert parts[0] + "" == parts[0];
      assert NoWs(isWs, parts[0]);
      assert s + "" == s;
      RunLengthOf(isWs, s, "", false);
      assert SplitWs(isWs, s) == [s];
      assert parts == [parts[0]];
    } else {
      IsWsSplitTail(isWs, parts);
      var a, g, rest := parts[0], parts[1], parts[2..];
      assert parts == [a, g] + rest;
      ConcatCons2(a, g, rest);
      var tail := Concat(rest);
      assert s == a + (g + tail);
      RunLengthOf(isWs, a, g + tail, false);
      assert s[|a|..] == g + tail;
      assert tail == rest[0] + Concat(rest[1..]);
      if rest[0] == "" {
        assert rest[1..] == [];
      } else {
        assert tail[0] == rest[0][0];
      }
      RunLengthOf(isWs, g, tail, true);
      SplitWsStep(isWs, s, |a|, |g|);
      assert s[|a| + |g|..] == tail;
      SplitWsUnique(isWs, tail, rest);
      assert s[..|a|] == a;
      assert s[|a|..|a| + |g|] == g;
    }
  }

  // ---------------------------------------------------------------------------
  // String.prototype.trim

  /** Number of white-space characters at the end of `s`. */
  function TrailingWs(isWs: char -> bool, s: string): (n: nat)
    ensures n <= |s|
    ensures forall i | |s| - n <= i < |s| :: isWs(s[i])
    ensures n < |s| ==> !isWs(s[|s| - n - 1])
  {
    if s == [] || !isWs(s[|s| - 1]) then 0 else 1 + TrailingWs(isWs, s[..|s| - 1])
  }

  /** `s.trim()`: `s` with its leading and trailing white space removed. */
  function Trim(isWs: char -> bool, s: string): (r: string)
    ensures r == "" || (!isWs(r[0]) && !isWs(r[|r| - 1]))
  {
    var i := RunLength(isWs, s, true);
    var t := s[i..];
    var k := TrailingWs(isWs, t);
    var r := t[..|t| - k];
    assert r != "" ==> r[0] == t[0];
    r
  }

  /** What `trim` removes is white space: the result is an infix of `s` with only white space
      before and after it. */
  lemma TrimRemovesPadding(isWs: char -> bool, s: string)
    ensures exists i, j | 0 <= i <= j <= |s| ::
      Trim(isWs, s) == s[i..j] && AllWs(isWs, s[..i]) && AllWs(isWs, s[j..])
  {
    var i := RunLength(isWs, s, true);
    RunLengthRun(isWs, s, true);
    var t := s[i..];
    var k := TrailingWs(isWs, t);
    assert Trim(isWs, s) == s[i..|s| - k];
    assert AllWs(isWs, s[..i]);
    assert s[|s| - k..] == t[|t| - k..];
  }

  /** Trimming a string with no white space at either end leaves it unchanged. */
  lemma TrimClean(isWs: char -> bool, s: string)
    requires s == "" || (!isWs(s[0]) && !isWs(s[|s| - 1]))
    ensures Trim(isWs, s) == s
  {
    assert RunLength(isWs, s, true) == 0;
    assert s[0..] == s;
    assert TrailingWs(isWs, s) == 0;
  }

  /** A white-space tail after a non-white-space character (or after nothing) is measured
      exactly. */
  lemma {:induction false} TrailingWsOf(isWs: char -> bool, a: string, b: string)
    requires AllWs(isWs, b)
    requires a == [] || !isWs(a[|a| - 1])
    ensures TrailingWs(isWs, a + b) == |b|
    decreases |b|
  {
    if b == [] {
      assert a + b == a;
    } else {
      var b' := b[..|b| - 1];
      assert (a + b)[..|a + b| - 1] == a + b';
      assert (a + b)[|a + b| - 1] == b[|b| - 1];
      TrailingWsOf(isWs, a, b');
    }
  }

  /** Trimming removes exactly the white-space padding around a word: `trim` undoes padding. */
  lemma TrimPadded(isWs: char -> bool, pre: string, s: string, post: string)
    requires AllWs(isWs, pre) && AllWs(isWs, post)
    requires s != [] && !isWs(s[0]) && !isWs(s[|s| - 1])
    ensures Trim(isWs, pre + s + post) == s
  {
    var x := pre + s + post;
    assert x == pre + (s + post);
    RunLengthOf(isWs, pre, s + post, true);
    assert x[|pre|..] == s + post;
    TrailingWsOf(isWs, s, post);
    assert (s + post)[..|s + post| - |post|] == s;
  }

  /** Trimming removes leading white space before a word. */
  lemma TrimLeading(isWs: char -> bool, pre: string, s: string)
    requires AllWs(isWs, pre)
    requires s != [] && !isWs(s[0]) && !isWs(s[|s| - 1])
    ensures Trim(isWs, pre + s) == s
  {
    TrimPadded(isWs, pre, s, []);
    assert pre + s + [] == pre + s;
  }

  // ---------------------------------------------------------------------------
  // s.split(",") and its inverse, join

  /** Index of the first `c` in `s`, or `|s|` when there is none. */
  function IndexOf(s: string, c: char): (i: nat)
    ensures i <= |s|
    ensures i < |s| ==> s[i] == c
    ensures forall k | 0 <= k < i :: s[k] != c
  {
    if s == [] || s[0] == c then 0 else 1 + IndexOf(s[1..], c)
  }

  /** `s.split(sep)` for a one-character separator: "" splits to [""], "a,,b" to ["a","","b"]. */
  function SplitOn(s: string, sep: char): (parts: seq<string>)
    ensures |parts| >= 1
    decreases |s|
  {
    var i := IndexOf(s, sep);
    if i == |s| then [s] else [s[..i]] + SplitOn(s[i + 1..], sep)
  }

  /** A string with exactly one separator splits into the part before it and the part after. */
  lemma SplitOnce(a: string, sep: char, b: string)
    requires sep !in a && sep !in b
    ensures SplitOn(a + [sep] + b, sep) == [a, b]
  {
    var s := a + [sep] + b;
    assert s[|a|] == sep;
    assert forall k | 0 <= k < |a| :: s[k] == a[k];
    assert IndexOf(s, sep) == |a|;
    assert s[..|a|] == a && s[|a| + 1..] == b;
    assert IndexOf(b, sep) == |b|;
  }

  /** No piece of a split contains the separator. */
  lemma {:induction false} SplitOnPieces(s: string, sep: char)
    ensures forall i | 0 <= i < |SplitOn(s, sep)| :: sep !in SplitOn(s, sep)[i]
    decreases |s|
  {
    var i := IndexOf(s, sep);
    if i < |s| {
      SplitOnFirst(s, sep, i);
      SplitOnPieces(s[i + 1..], sep);
      assert sep !in s[..i];
    }
  }

  /** A list of two or more pieces joins to its head, the separator, and the join of the rest. */
  lemma JoinCons(head: string, rest: seq<string>, sep: string)
    requires rest != []
    ensures Join([head] + rest, sep) == head + sep + Join(rest, sep)
  {
    var parts := [head] + rest;
    assert parts[0] == head && parts[1..] == rest;
  }

  /** A string around its first separator: the part before it, the separator, the part after. */
  lemma SplitOnFirst(s: string, sep: char, i: nat)
    requires i == IndexOf(s, sep) < |s|
    ensures SplitOn(s, sep) == [s[..i]] + SplitOn(s[i + 1..], sep)
    ensures s == s[..i] + [sep] + s[i + 1..]
  {
    Cut3(s, i, i + 1);
    assert s[i..i + 1] == [sep];
  }

  /** Joining the pieces with the separator gives back the string. */
  lemma {:induction false} JoinSplit(s: string, sep: char)
    ensures Join(SplitOn(s, sep), [sep]) == s
    decreases |s|
  {
    var i := IndexOf(s, sep);
    if i < |s| {
      var t := s[i + 1..];
      SplitOnFirst(s, sep, i);
      JoinSplit(t, sep);
      JoinCons(s[..i], SplitOn(t, sep), [sep]);
    }
  }

  /** Splitting a join of separator-free pieces gives back the pieces, in order. */
  lemma {:induction false} SplitJoin(parts: seq<string>, sep: char)
    requires |parts| >= 1
    requires forall i | 0 <= i < |parts| :: sep !in parts[i]
    ensures SplitOn(Join(parts, [sep]), sep) == parts
    decreases |parts|
  {
    var a := parts[0];
    if |parts| == 1 {
      assert IndexOf(a, sep) == |a|;
    } else {
      var tail := Join(parts[1..], [sep]);
      var s := a + [sep] + tail;
      assert Join(parts, [sep]) == s;
      var i := IndexOf(s, sep);
      assert s[|a|] == sep;
      assert forall k | 0 <= k < |a| :: s[k] == a[k];
      assert i == |a|;
      assert s[..i] == a;
      assert s[i + 1..] == tail;
      SplitJoin(parts[1..], sep);
      assert parts == [a] + parts[1..];
    }
  }

  // ---------------------------------------------------------------------------
  // `${n}` for a non-negative integer

  function DigitChar(d: nat): (c: char)
    requires d < 10
    ensures '0' <= c <= '9'
  {
    ('0' as int + d) as char
  }

  predicate AllDigits(s: string) {
    forall i | 0 <= i < |s| :: '0' <= s[i] <= '9'
  }

  /** Decimal rendering without leading zeros. */
  function NatToString(n: nat): (s: string)
    ensures |s| >= 1
    ensures AllDigits(s)
    ensures |s| > 1 ==> s[0] != '0'
  {
    if n < 10 then [DigitChar(n)] else NatToString(n / 10) + [DigitChar(n % 10)]
  }

  /** The number a string of decimal digits denotes. */
  function DigitsValue(s: string): nat
    requires AllDigits(s)
  {
    if s == [] then 0 else 10 * DigitsValue(s[..|s| - 1]) + (s[|s| - 1] as int - '0' as int)
  }

  /** Reading the rendering back gives the number. */
  lemma {:induction false} DigitsRoundTrip(n: nat)
    ensures DigitsValue(NatToString(n)) == n
  {
    if n >= 10 {
      DigitsRoundTrip(n / 10);
      var s := NatToString(n);
      assert s[..|s| - 1] == NatToString(n / 10);
    }
  }

  /** Distinct numbers render differently. */
  lemma NatToStringInjective(a: nat, b: nat)
    ensures NatToString(a) == NatToString(b) ==> a == b
  {
    DigitsRoundTrip(a);
    DigitsRoundTrip(b);
  }
}
