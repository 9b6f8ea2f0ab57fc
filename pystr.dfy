/**
 * The Python `str` built-ins the pipeline relies on: `strip`, `split`,
 * `join`, `lower`, `in`, `replace`, and `int()` / `str()` on integers.
 */
module PyStr {
  import opened Wrappers
  import opened Seqs

  /**
   * `c.isspace()`: the characters Python's argument-less `strip()` and
   * `split()` treat as whitespace.
   */
  predicate IsSpace(c: char) {
    || ('\t' <= c <= '\r')
    || ('\U{1C}' <= c <= '\U{1F}')
    || c == ' '
    || c == '\U{85}'
    || c == '\U{A0}'
    || c == '\U{1680}'
    || ('\U{2000}' <= c <= '\U{200A}')
    || c == '\U{2028}'
    || c == '\U{2029}'
    || c == '\U{202F}'
    || c == '\U{205F}'
    || c == '\U{3000}'
  }

  predicate NotSpace(c: char) {
    !IsSpace(c)
  }

  // ---------------------------------------------------------------------
  // strip

  /** The length of the longest prefix of `s` whose characters all satisfy `p`. */
  function LeadCount(s: string, p: char -> bool): (k: nat)
    ensures k <= |s|
    ensures forall i :: 0 <= i < k ==> p(s[i])
    ensures k < |s| ==> !p(s[k])
  {
    if s == [] || !p(s[0]) then 0 else 1 + LeadCount(s[1..], p)
  }

  /** The length of the longest suffix of `s` whose characters all satisfy `p`. */
  function TrailCount(s: string, p: char -> bool): (k: nat)
    ensures k <= |s|
    ensures forall i :: |s| - k <= i < |s| ==> p(s[i])
    ensures k < |s| ==> !p(s[|s| - 1 - k])
  {
    if s == [] || !p(s[|s| - 1]) then 0 else 1 + TrailCount(s[..|s| - 1], p)
  }

  /** `s` without its leading characters that satisfy `p`. */
  function DropLead(s: string, p: char -> bool): (r: string)
    ensures |r| <= |s|
  {
    if s != [] && p(s[0]) then DropLead(s[1..], p) else s
  }

  /** `s` without its trailing characters that satisfy `p`. */
  function DropTrail(s: string, p: char -> bool): (r: string)
    ensures |r| <= |s|
  {
    if s != [] && p(s[|s| - 1]) then DropTrail(s[..|s| - 1], p) else s
  }

  /** `s.strip(chars)` where `p` tells the characters of `chars` (or, for `s.strip()`, whitespace). */
  function Strip(s: string, p: char -> bool): string {
    DropTrail(DropLead(s, p), p)
  }

  lemma {:induction false} DropLeadSpec(s: string, p: char -> bool)
    ensures DropLead(s, p) == s[LeadCount(s, p)..]
  {
    if s != [] && p(s[0]) {
      DropLeadSpec(s[1..], p);
    }
  }

  lemma {:induction false} DropTrailSpec(s: string, p: char -> bool)
    ensures DropTrail(s, p) == s[..|s| - TrailCount(s, p)]
  {
    if s != [] && p(s[|s| - 1]) {
      DropTrailSpec(s[..|s| - 1], p);
    }
  }

  /** What `strip` keeps: the part between the stripped prefix and suffix, untouched. */
  lemma StripSlice(s: string, p: char -> bool)
    ensures var r := Strip(s, p);
      && LeadCount(s, p) + |r| <= |s|
      && r == s[LeadCount(s, p)..LeadCount(s, p) + |r|]
      && (r == [] || (!p(r[0]) && !p(r[|r| - 1])))
  {
    DropLeadSpec(s, p);
    DropTrailSpec(s[LeadCount(s, p)..], p);
  }

  /**
   * What `strip` removes: every leading and trailing character in the set,
   * whatever order they come in, and nothing else.
   */
  lemma StripSpec(s: string, p: char -> bool)
    ensures var r := Strip(s, p);
      && (r == [] || (!p(r[0]) && !p(r[|r| - 1])))
      && LeadCount(s, p) + |r| <= |s|
      && r == s[LeadCount(s, p)..LeadCount(s, p) + |r|]
      && forall i :: 0 <= i < |s| && !(LeadCount(s, p) <= i < LeadCount(s, p) + |r|) ==> p(s[i])
  {
    StripSlice(s, p);
    StripOutside(s, p);
  }

  /** The characters `strip` removes all satisfy `p`. */
  lemma StripOutside(s: string, p: char -> bool)
    ensures forall i :: 0 <= i < |s| && !(LeadCount(s, p) <= i < LeadCount(s, p) + |Strip(s, p)|) ==> p(s[i])
  {
    var a := LeadCount(s, p);
    var t := s[a..];
    DropLeadSpec(s, p);
    DropTrailSpec(t, p);
    var b := TrailCount(t, p);
    assert |Strip(s, p)| == |t| - b;
    forall i | 0 <= i < |s| && !(a <= i < a + |t| - b) ensures p(s[i]) {
      if i >= a {
        assert s[i] == t[i - a];
      }
    }
  }

  /** Stripping a string that neither starts nor ends in the set changes nothing. */
  lemma StripNoop(s: string, p: char -> bool)
    requires s == [] || (!p(s[0]) && !p(s[|s| - 1]))
    ensures Strip(s, p) == s
  {
  }

  lemma {:induction false} TrailCountConcat(w: string, rest: string, p: char -> bool)
    requires forall j :: 0 <= j < |rest| ==> p(rest[j])
    requires w == [] || !p(w[|w| - 1])
    ensures TrailCount(w + rest, p) == |rest|
    decreases |rest|
  {
    var s := w + rest;
    if rest == [] {
      assert s == w;
    } else {
      assert s[|s| - 1] == rest[|rest| - 1];
      assert s[..|s| - 1] == w + rest[..|rest| - 1];
      TrailCountConcat(w, rest[..|rest| - 1], p);
    }
  }

  /** `s.strip()`. */
  function StripSpace(s: string): string {
    Strip(s, IsSpace)
  }

  /** Stripping whitespace around a string that starts and ends with other characters gives back that string. */
  lemma StripAround(lead: string, x: string, trail: string)
    requires AllSpace(lead) && AllSpace(trail)
    requires x != [] && !IsSpace(x[0]) && !IsSpace(x[|x| - 1])
    ensures StripSpace(lead + (x + trail)) == x
  {
    var s := lead + (x + trail);
    LeadCountConcat(lead, x + trail, IsSpace);
    DropLeadSpec(s, IsSpace);
    assert s[|lead|..] == x + trail;
    TrailCountConcat(x, trail, IsSpace);
    DropTrailSpec(x + trail, IsSpace);
    assert (x + trail)[..|x|] == x;
  }

  // ---------------------------------------------------------------------
  // split() and join

  /** `sep.join(parts)`. */
  function Join(sep: string, parts: seq<string>): string
    decreases |parts|
  {
    if parts == [] then ""
    else if |parts| == 1 then parts[0]
    else parts[0] + sep + Join(sep, parts[1..])
  }

  /** A word of `s.split()`: non-empty and free of whitespace. */
  predicate IsWord(w: string) {
    w != [] && forall j :: 0 <= j < |w| ==> !IsSpace(w[j])
  }

  /** `s.split()`: the maximal runs of non-whitespace characters, in order. */
  function Words(s: string): (ws: seq<string>)
    ensures forall i :: 0 <= i < |ws| ==> IsWord(ws[i])
    decreases |s|
  {
    var a := LeadCount(s, IsSpace);
    if a == |s| then []
    else
      var t := s[a..];
      var k := LeadCount(t, NotSpace);
      [t[..k]] + Words(t[k..])
  }

  /** `" ".join(s.split())`: whitespace runs collapsed to one space, ends trimmed. */
  function Collapse(s: string): string {
    Join(" ", Words(s))
  }

  lemma {:induction false} LeadCountConcat(w: string, rest: string, p: char -> bool)
    requires forall j :: 0 <= j < |w| ==> p(w[j])
    requires rest == [] || !p(rest[0])
    ensures LeadCount(w + rest, p) == |w|
    decreases |w|
  {
    var s := w + rest;
    if w == [] {
      assert s == rest;
    } else {
      assert s[0] == w[0] && p(s[0]);
      assert s[1..] == w[1..] + rest;
      LeadCountConcat(w[1..], rest, p);
    }
  }

  /** A leading whitespace character does not change the words. */
  lemma WordsSkipSpace(c: char, x: string)
    requires IsSpace(c)
    ensures Words([c] + x) == Words(x)
  {
    var s := [c] + x;
    assert s[1..] == x;
    var a := LeadCount(x, IsSpace);
    assert LeadCount(s, IsSpace) == 1 + a;
    assert s[1 + a..] == x[a..];
  }

  /** A word followed by whitespace (or nothing) is the first word. */
  lemma WordsFirst(w: string, rest: string)
    requires IsWord(w)
    requires rest == [] || IsSpace(rest[0])
    ensures Words(w + rest) == [w] + Words(rest)
  {
    var s := w + rest;
    assert LeadCount(s, IsSpace) == 0;
    assert s[0..] == s;
    LeadCountConcat(w, rest, NotSpace);
    assert s[..|w|] == w;
    assert s[|w|..] == rest;
  }
  /** A run of whitespace before a string adds no word. */
  lemma {:induction false} WordsSkipSpaces(gap: string, x: string)
    requires forall j :: 0 <= j < |gap| ==> IsSpace(gap[j])
    ensures Words(gap + x) == Words(x)
    decreases |gap|
  {
    if gap != [] {
      assert gap + x == [gap[0]] + (gap[1..] + x);
      WordsSkipSpace(gap[0], gap[1..] + x);
      WordsSkipSpaces(gap[1..], x);
    } else {
      assert gap + x == x;
    }
  }

  /** A string of whitespace only, possibly empty. */
  predicate AllSpace(g: string) {
    forall j :: 0 <= j < |g| ==> IsSpace(g[j])
  }

  /** A non-empty run of whitespace, which `split()` treats as one separator. */
  predicate IsBlank(g: string) {
    g != [] && AllSpace(g)
  }

  /** A word followed by a word after a run of whitespace splits into those two words. */
  lemma WordsTwo(b: string, gap: string, c: string)
    requires IsWord(b) && IsWord(c) && IsBlank(gap)
    ensures Words(b + (gap + c)) == [b, c]
  {
    WordsFirst(c, []);
    assert c + [] == c;
    assert Words([]) == [];
    WordsSkipSpaces(gap, c);
    WordsFirst(b, gap + c);
  }

  /** Joining three words with single spaces. */
  lemma JoinThree(a: string, b: string, c: string)
    ensures Join(" ", [a, b, c]) == a + (" " + (b + (" " + c)))
  {
    var ws := [a, b, c];
    assert ws[1..] == [b, c] && ws[1..][1..] == [c];
    assert Join(" ", [c]) == c;
    assert Join(" ", [b, c]) == b + (" " + c);
  }

  /** `" ".join(s.split())` of three words separated by runs of whitespace puts one space between them. */
  lemma CollapseThree(a: string, gap1: string, b: string, gap2: string, c: string)
    requires IsWord(a) && IsWord(b) && IsWord(c) && IsBlank(gap1) && IsBlank(gap2)
    ensures Collapse(a + (gap1 + (b + (gap2 + c)))) == a + (" " + (b + (" " + c)))
  {
    var x := b + (gap2 + c);
    WordsTwo(b, gap2, c);
    WordsSkipSpaces(gap1, x);
    WordsFirst(a, gap1 + x);
    JoinThree(a, b, c);
  }

  /** Two words joined are a word. */
  lemma WordConcat(a: string, b: string)
    requires IsWord(a) && IsWord(b)
    ensures IsWord(a + b)
  {
  }

  lemma JoinCons(sep: string, ws: seq<string>)
    requires |ws| > 1
    ensures Join(sep, ws) == ws[0] + (sep + Join(sep, ws[1..]))
  {
  }

  /** A word, a space, then anything: the word comes first, the space is dropped. */
  lemma WordsSpaceAfter(w: string, tail: string)
    requires IsWord(w)
    ensures Words(w + (" " + tail)) == [w] + Words(tail)
  {
    WordsFirst(w, " " + tail);
    WordsSkipSpace(' ', tail);
  }

  lemma WordsDropFirst(ws: seq<string>)
    requires ws != []
    requires forall i :: 0 <= i < |ws| ==> IsWord(ws[i])
    ensures forall i :: 0 <= i < |ws| - 1 ==> IsWord(ws[1..][i])
  {
    forall i | 0 <= i < |ws| - 1 ensures IsWord(ws[1..][i]) {
      assert ws[1..][i] == ws[i + 1];
    }
  }

  /** Splitting what was joined with single spaces gives the words back. */
  lemma {:induction false} WordsJoin(ws: seq<string>)
    requires forall i :: 0 <= i < |ws| ==> IsWord(ws[i])
    ensures Words(Join(" ", ws)) == ws
    decreases |ws|
  {
    if |ws| == 1 {
      WordsFirst(ws[0], "");
      assert ws[0] + "" == ws[0];
    } else if |ws| > 1 {
      var w, rest := ws[0], ws[1..];
      var tail := Join(" ", rest);
      JoinCons(" ", ws);
      assert Join(" ", ws) == w + (" " + tail);
      WordsSpaceAfter(w, tail);
      WordsDropFirst(ws);
      WordsJoin(rest);
      assert Words(tail) == rest;
      Cons(ws);
    }
  }

  /** Collapsing whitespace twice is the same as once. */
  lemma CollapseIdempotent(s: string)
    ensures Collapse(Collapse(s)) == Collapse(s)
  {
    WordsJoin(Words(s));
  }

  // ---------------------------------------------------------------------
  // split(sep)

  /** The position of the first `c` in `s`. */
  function FindChar(s: string, c: char): (i: nat)
    requires c in s
    ensures i < |s| && s[i] == c && c !in s[..i]
  {
    if s[0] == c then 0 else 1 + FindChar(s[1..], c)
  }

  /** `s.split(sep)` for a one-character separator: always at least one part. */
  function Split(s: string, sep: char): (parts: seq<string>)
    ensures |parts| >= 1
    decreases |s|
  {
    if sep !in s then [s]
    else
      var i := FindChar(s, sep);
      [s[..i]] + Split(s[i + 1..], sep)
  }

  /** No part contains the separator. */
  lemma {:induction false} SplitParts(s: string, sep: char)
    ensures forall i :: 0 <= i < |Split(s, sep)| ==> sep !in Split(s, sep)[i]
    decreases |s|
  {
    if sep in s {
      var i := FindChar(s, sep);
      SplitParts(s[i + 1..], sep);
      assert Split(s, sep) == [s[..i]] + Split(s[i + 1..], sep);
    }
  }

  lemma JoinPrepend(sep: string, w: string, ws: seq<string>)
    requires ws != []
    ensures Join(sep, [w] + ws) == w + sep + Join(sep, ws)
  {
    var q := [w] + ws;
    assert q[0] == w && q[1..] == ws;
  }

  /** Joining the parts with the separator gives back the string. */
  lemma {:induction false} SplitJoin(s: string, sep: char)
    ensures Join([sep], Split(s, sep)) == s
    decreases |s|
  {
    if sep in s {
      var i := FindChar(s, sep);
      var head, rest := s[..i], s[i + 1..];
      var tail := Split(rest, sep);
      assert Split(s, sep) == [head] + tail;
      SplitJoin(rest, sep);
      JoinPrepend([sep], head, tail);
      SplitAt(s, i);
    }
  }

  // ---------------------------------------------------------------------
  // lower, in, replace

  function LowerChar(c: char): char {
    if 'A' <= c <= 'Z' then (c as int + 32) as char else c
  }

  /** `s.lower()`, on ASCII letters. */
  function Lower(s: string): (r: string)
    ensures |r| == |s|
    ensures forall i :: 0 <= i < |s| ==> r[i] == LowerChar(s[i])
  {
    seq(|s|, i requires 0 <= i < |s| => LowerChar(s[i]))
  }

  /** `pat in s`. */
  predicate Contains(s: string, pat: string)
    decreases |s|
  {
    |pat| <= |s| && (s[..|pat|] == pat || (s != [] && Contains(s[1..], pat)))
  }

  /** An occurrence at position `i` makes `pat in s` true. */
  lemma {:induction false} ContainsAt(s: string, pat: string, i: nat)
    requires i + |pat| <= |s| && s[i..i + |pat|] == pat
    ensures Contains(s, pat)
    decreases i
  {
    if i > 0 {
      assert s[1..][i - 1..i - 1 + |pat|] == s[i..i + |pat|];
      ContainsAt(s[1..], pat, i - 1);
    }
  }

  /** A first character that cannot start the pattern is no part of an occurrence. */
  lemma ContainsSkip(c: char, r: string, pat: string)
    requires pat != [] && c != pat[0]
    ensures Contains([c] + r, pat) <==> Contains(r, pat)
  {
    assert ([c] + r)[1..] == r;
    if |pat| <= 1 + |r| {
      assert ([c] + r)[..|pat|][0] == c;
    }
  }

  /** A prefix free of the pattern's first character holds no start of an occurrence. */
  lemma {:induction false} ContainsKeep(a: string, r: string, pat: string)
    requires pat != [] && pat[0] !in a
    ensures Contains(a + r, pat) <==> Contains(r, pat)
    decreases |a|
  {
    if a == [] {
      assert a + r == r;
    } else {
      assert a + r == [a[0]] + (a[1..] + r);
      ContainsSkip(a[0], a[1..] + r, pat);
      ContainsKeep(a[1..], r, pat);
    }
  }

  /** An occurrence cannot straddle a character outside the pattern. */
  lemma {:induction false} ContainsBreak(a: string, x: string, pat: string)
    requires pat != [] && x != [] && x[0] !in pat
    ensures Contains(a + x, pat) <==> Contains(a, pat) || Contains(x, pat)
    decreases |a|
  {
    var s := a + x;
    if a == [] {
      assert s == x;
    } else {
      assert s[1..] == a[1..] + x;
      ContainsBreak(a[1..], x, pat);
      if |pat| <= |a| {
        assert s[..|pat|] == a[..|pat|];
      } else if |pat| <= |s| {
        assert s[..|pat|][|a|] == x[0];
      }
    }
  }

  /** A pattern as long as the string occurs in it only as the whole string. */
  lemma ContainsSameLength(w: string, pat: string)
    requires |w| == |pat|
    ensures Contains(w, pat) <==> w == pat
  {
    assert w[..|pat|] == w;
    if w != [] {
      assert !Contains(w[1..], pat);
    }
  }

  /** A pattern holding a character that `s` lacks does not occur in `s`. */
  lemma {:induction false} NotContainsChar(s: string, pat: string, c: char)
    requires c in pat && c !in s
    ensures !Contains(s, pat)
    decreases |s|
  {
    var i :| 0 <= i < |pat| && pat[i] == c;
    if |pat| <= |s| {
      assert s[..|pat|][i] != c;
      if s != [] {
        assert forall j :: 0 <= j < |s| - 1 ==> s[1..][j] == s[j + 1];
        NotContainsChar(s[1..], pat, c);
      }
    }
  }

  /** `s.replace(pat, rep)`: every non-overlapping occurrence, left to right. */
  function ReplaceAll(s: string, pat: string, rep: string): string
    requires pat != []
    decreases |s|
  {
    if |s| < |pat| then s
    else if s[..|pat|] == pat then rep + ReplaceAll(s[|pat|..], pat, rep)
    else [s[0]] + ReplaceAll(s[1..], pat, rep)
  }

  /** Replacing a pattern that does not occur changes nothing. */
  lemma {:induction false} ReplaceAbsent(s: string, pat: string, rep: string)
    requires pat != [] && !Contains(s, pat)
    ensures ReplaceAll(s, pat, rep) == s
    decreases |s|
  {
    if |s| >= |pat| {
      ReplaceAbsent(s[1..], pat, rep);
      assert s == [s[0]] + s[1..];
    }
  }

  /** An occurrence at the front is replaced, and the scan resumes after it. */
  lemma ReplaceAtFront(pat: string, y: string, rep: string)
    requires pat != []
    ensures ReplaceAll(pat + y, pat, rep) == rep + ReplaceAll(y, pat, rep)
  {
    var s := pat + y;
    assert s[..|pat|] == pat && s[|pat|..] == y;
  }

  /** A first character that cannot start the pattern is kept as it is. */
  lemma ReplaceSkip(c: char, y: string, pat: string, rep: string)
    requires pat != [] && c != pat[0]
    ensures ReplaceAll([c] + y, pat, rep) == [c] + ReplaceAll(y, pat, rep)
  {
    var s := [c] + y;
    assert s[1..] == y;
    if |s| >= |pat| {
      assert s[..|pat|][0] == c;
    } else {
      assert ReplaceAll(y, pat, rep) == y;
    }
  }
  /** A prefix free of the pattern's first character is kept as it is. */
  lemma {:induction false} ReplaceKeep(a: string, y: string, pat: string, rep: string)
    requires pat != [] && pat[0] !in a
    ensures ReplaceAll(a + y, pat, rep) == a + ReplaceAll(y, pat, rep)
    decreases |a|
  {
    if a == [] {
      assert a + y == y;
    } else {
      assert a + y == [a[0]] + (a[1..] + y);
      ReplaceSkip(a[0], a[1..] + y, pat, rep);
      ReplaceKeep(a[1..], y, pat, rep);
      assert a == [a[0]] + a[1..];
    }
  }

  /** A window that meets a character outside the pattern cannot match: the halves are replaced apart. */
  lemma {:induction false} ReplaceBreak(a: string, x: string, pat: string, rep: string)
    requires pat != [] && x != [] && x[0] !in pat
    ensures ReplaceAll(a + x, pat, rep) == ReplaceAll(a, pat, rep) + ReplaceAll(x, pat, rep)
    decreases |a|
  {
    if a == [] {
      assert a + x == x;
    } else if |a| >= |pat| && a[..|pat|] == pat {
      ReplaceBreak(a[|pat|..], x, pat, rep);
      ReplaceMatchFront(a, x, pat, rep);
      ConcatAssoc(rep, ReplaceAll(a[|pat|..], pat, rep), ReplaceAll(x, pat, rep));
    } else {
      ReplaceBreak(a[1..], x, pat, rep);
      ReplaceMissFront(a, x, pat, rep);
      ConcatAssoc([a[0]], ReplaceAll(a[1..], pat, rep), ReplaceAll(x, pat, rep));
    }
  }

  lemma ConcatAssoc(p: string, q: string, r: string)
    ensures p + (q + r) == (p + q) + r
  {
  }

  /** The step of `ReplaceBreak` where `a` starts with an occurrence. */
  lemma ReplaceMatchFront(a: string, x: string, pat: string, rep: string)
    requires pat != [] && |a| >= |pat| && a[..|pat|] == pat
    ensures ReplaceAll(a + x, pat, rep) == rep + ReplaceAll(a[|pat|..] + x, pat, rep)
    ensures ReplaceAll(a, pat, rep) == rep + ReplaceAll(a[|pat|..], pat, rep)
  {
    var s := a + x;
    assert s[..|pat|] == a[..|pat|];
    assert s[|pat|..] == a[|pat|..] + x;
  }

  /** The step of `ReplaceBreak` where `a` does not start with an occurrence. */
  lemma ReplaceMissFront(a: string, x: string, pat: string, rep: string)
    requires pat != [] && a != [] && x != [] && x[0] !in pat
    requires !(|a| >= |pat| && a[..|pat|] == pat)
    ensures ReplaceAll(a + x, pat, rep) == [a[0]] + ReplaceAll(a[1..] + x, pat, rep)
    ensures ReplaceAll(a, pat, rep) == [a[0]] + ReplaceAll(a[1..], pat, rep)
  {
    var s := a + x;
    assert s[1..] == a[1..] + x;
    assert a == [a[0]] + a[1..];
    if |s| < |pat| {
      assert s == [a[0]] + (a[1..] + x);
    } else {
      if |a| >= |pat| {
        assert s[..|pat|] == a[..|pat|];
      } else {
        assert s[..|pat|][|a|] == x[0];
      }
    }
  }

  // ---------------------------------------------------------------------
  // int() and str() on integers

  predicate IsDigit(c: char) {
    '0' <= c <= '9'
  }

  function DigitValue(c: char): nat
    requires IsDigit(c)
  {
    c as int - '0' as int
  }

  /** The value of a string of decimal digits. */
  function DigitsValue(d: string): nat
    requires forall i :: 0 <= i < |d| ==> IsDigit(d[i])
  {
    if d == [] then 0 else DigitsValue(d[..|d| - 1]) * 10 + DigitValue(d[|d| - 1])
  }

  /** The digit part of an integer literal: digits, single underscores between them. */
  predicate IsDigitPart(d: string) {
    && d != []
    && IsDigit(d[0])
    && IsDigit(d[|d| - 1])
    && (forall i :: 0 <= i < |d| ==> IsDigit(d[i]) || d[i] == '_')
    && (forall i :: 0 <= i < |d| - 1 ==> !(d[i] == '_' && d[i + 1] == '_'))
  }

  function DropUnderscores(d: string): (r: string)
    requires forall i :: 0 <= i < |d| ==> IsDigit(d[i]) || d[i] == '_'
    ensures forall i :: 0 <= i < |r| ==> IsDigit(r[i])
    ensures (forall i :: 0 <= i < |d| ==> IsDigit(d[i])) ==> r == d
  {
    if d == [] then []
    else (if d[0] == '_' then [] else [d[0]]) + DropUnderscores(d[1..])
  }

  /**
   * `int(s)` for base 10: surrounding whitespace, an optional sign, and digits
   * with single underscores between them; anything else is `None`
   * (Python raises `ValueError`).
   */
  function ParseInt(s: string): Option<int> {
    ParseLiteral(StripSpace(s))
  }

  /** `int(t)` on a string without surrounding whitespace. */
  function ParseLiteral(t: string): Option<int> {
    if t != [] && (t[0] == '+' || t[0] == '-') then
      var n := ParseDigitPart(t[1..]);
      if n.None? then None
      else if t[0] == '-' then Some(-(n.value as int))
      else Some(n.value as int)
    else
      var n := ParseDigitPart(t);
      if n.None? then None else Some(n.value as int)
  }

  /** The value of a digit part, or `None` when `d` is not one. */
  function ParseDigitPart(d: string): (r: Option<nat>)
    ensures r.Some? <==> IsDigitPart(d)
  {
    if IsDigitPart(d) then Some(DigitsValue(DropUnderscores(d))) else None
  }

  function DigitChar(n: nat): (c: char)
    requires n < 10
    ensures IsDigit(c) && DigitValue(c) == n
  {
    ('0' as int + n) as char
  }

  /** `str(n)` for a natural number: its decimal digits, no leading zero. */
  function NatToString(n: nat): (s: string)
    ensures s != [] && forall i :: 0 <= i < |s| ==> IsDigit(s[i])
  {
    if n < 10 then [DigitChar(n)] else NatToString(n / 10) + [DigitChar(n % 10)]
  }

  lemma {:induction false} NatToStringValue(n: nat)
    ensures DigitsValue(NatToString(n)) == n
  {
    if n >= 10 {
      var s := NatToString(n);
      assert s[..|s| - 1] == NatToString(n / 10);
      NatToStringValue(n / 10);
    }
  }

  /** A string of digits reads as itself. */
  lemma DigitsArePart(d: string)
    requires d != [] && forall i :: 0 <= i < |d| ==> IsDigit(d[i])
    ensures IsDigitPart(d) && DropUnderscores(d) == d
  {
  }

  /** A string that starts and ends with a digit has nothing to strip. */
  lemma ParseIntUnpadded(s: string)
    requires s != [] && IsDigit(s[0]) && IsDigit(s[|s| - 1])
    ensures ParseInt(s) == ParseLiteral(s)
  {
    assert !IsSpace(s[0]) && !IsSpace(s[|s| - 1]);
    StripNoop(s, IsSpace);
  }

  /** A string of digits, as a literal, reads as its digits. */
  lemma LiteralDigits(s: string)
    requires s != [] && forall i :: 0 <= i < |s| ==> IsDigit(s[i])
    ensures ParseDigitPart(s) == Some(DigitsValue(s))
  {
    DigitsArePart(s);
  }

  lemma UnsignedLiteral(s: string, v: nat)
    requires s != [] && IsDigit(s[0]) && ParseDigitPart(s) == Some(v)
    ensures ParseLiteral(s) == Some(v as int)
  {
  }

  /** An unsigned literal without surrounding whitespace reads as its digits. */
  lemma ParseUnsigned(s: string)
    requires s != [] && forall i :: 0 <= i < |s| ==> IsDigit(s[i])
    ensures ParseInt(s) == Some(DigitsValue(s) as int)
  {
    LiteralDigits(s);
    UnsignedLiteral(s, DigitsValue(s));
    assert IsDigit(s[|s| - 1]);
    ParseIntUnpadded(s);
  }

  /** `int(str(n)) == n` for a natural number. */
  lemma ParseNatToString(m: nat)
    ensures ParseInt(NatToString(m)) == Some(m as int)
  {
    NatToStringValue(m);
    ParseUnsigned(NatToString(m));
  }
}
