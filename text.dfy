/**
 * The Python string operations the modelled code relies on: strip, lower,
 * replace, split/join, startswith and "in".  Strings are sequences of
 * characters; the case and whitespace tables cover the Latin-1 range.
 */
module Text {

  /** Python's str.isspace() on the Latin-1 range. */
  predicate IsSpace(c: char) {
    c == ' ' || ('\t' <= c <= '\r') || ('\U{1C}' <= c <= '\U{1F}') || c == '\U{85}' || c == '\U{A0}'
  }

  /** Python's str.isdigit() on ASCII digits. */
  predicate IsDigit(c: char) { '0' <= c <= '9' }

  predicate AllDigits(s: string) { forall i | 0 <= i < |s| :: IsDigit(s[i]) }

  /** Drops the leading characters satisfying p (str.lstrip with a character set). */
  function TrimLeftBy(s: string, p: char -> bool): (r: string)
    ensures |r| <= |s| && r == s[|s| - |r|..]
    ensures forall i | 0 <= i < |s| - |r| :: p(s[i])
    ensures r == [] || !p(r[0])
    decreases |s|
  {
    if |s| > 0 && p(s[0]) then TrimLeftBy(s[1..], p) else s
  }

  /** Drops the trailing characters satisfying p (str.rstrip with a character set). */
  function TrimRightBy(s: string, p: char -> bool): (r: string)
    ensures |r| <= |s| && r == s[..|r|]
    ensures forall i | |r| <= i < |s| :: p(s[i])
    ensures r == [] || !p(r[|r| - 1])
    decreases |s|
  {
    if |s| > 0 && p(s[|s| - 1]) then TrimRightBy(s[..|s| - 1], p) else s
  }

  /** Both ends trimmed of characters satisfying p. */
  function StripBy(s: string, p: char -> bool): (r: string)
    ensures |r| <= |s|
    ensures r == [] || (!p(r[0]) && !p(r[|r| - 1]))
  {
    TrimRightBy(TrimLeftBy(s, p), p)
  }

  /** A string with no p-character at either end is left as it is. */
  lemma {:induction false} StripByClean(s: string, p: char -> bool)
    requires s == [] || (!p(s[0]) && !p(s[|s| - 1]))
    ensures StripBy(s, p) == s
  {
  }

  lemma {:induction false} StripByIdempotent(s: string, p: char -> bool)
    ensures StripBy(StripBy(s, p), p) == StripBy(s, p)
  {
    StripByClean(StripBy(s, p), p);
  }

  /** str.strip() */
  function Strip(s: string): (r: string)
    ensures |r| <= |s|
    ensures r == [] || (!IsSpace(r[0]) && !IsSpace(r[|r| - 1]))
  {
    StripBy(s, IsSpace)
  }

  /** A string with no whitespace at either end is its own strip(). */
  lemma StripClean(s: string)
    requires s == [] || (!IsSpace(s[0]) && !IsSpace(s[|s| - 1]))
    ensures Strip(s) == s
  {
    StripByClean(s, IsSpace);
  }

  /** str.strip(c) for a single character c. */
  function StripChar(s: string, c: char): (r: string)
    ensures |r| <= |s|
    ensures r == [] || (r[0] != c && r[|r| - 1] != c)
  {
    StripBy(s, x => x == c)
  }

  /** str.lstrip(c) for a single character c. */
  function TrimLeftChar(s: string, c: char): (r: string)
    ensures |r| <= |s| && r == s[|s| - |r|..]
    ensures r == [] || r[0] != c
  {
    TrimLeftBy(s, x => x == c)
  }

  /** str.lower() for one character: ASCII and the Latin-1 capitals. */
  function LowerChar(c: char): (r: char)
    ensures ('A' <= c <= 'Z') ==> r == (c as int + 32) as char
  {
    if ('A' <= c <= 'Z') || ('\U{C0}' <= c <= '\U{DE}' && c != '\U{D7}') then (c as int + 32) as char else c
  }

  function Lower(s: string): (r: string)
    ensures |r| == |s| && forall i | 0 <= i < |s| :: r[i] == LowerChar(s[i])
  {
    if s == [] then [] else [LowerChar(s[0])] + Lower(s[1..])
  }

  /** Lower-casing twice equals lower-casing once. */
  lemma LowerIdempotent(s: string)
    ensures Lower(Lower(s)) == Lower(s)
  {
  }

  /** str.upper() for one character, on ASCII letters. */
  function UpperChar(c: char): (r: char)
    ensures ('a' <= c <= 'z') ==> r == (c as int - 32) as char
    ensures !('a' <= c <= 'z') ==> r == c
  {
    if 'a' <= c <= 'z' then (c as int - 32) as char else c
  }

  function Upper(s: string): (r: string)
    ensures |r| == |s| && forall i | 0 <= i < |s| :: r[i] == UpperChar(s[i])
  {
    seq(|s|, i requires 0 <= i < |s| => UpperChar(s[i]))
  }

  /** s.replace(a, b) for one-character a and b. */
  function ReplaceChar(s: string, a: char, b: char): (r: string)
    ensures |r| == |s| && forall i | 0 <= i < |s| :: r[i] == if s[i] == a then b else s[i]
  {
    if s == [] then [] else [if s[0] == a then b else s[0]] + ReplaceChar(s[1..], a, b)
  }

  /** s.replace(a, '') for one character a. */
  function DeleteChar(s: string, a: char): (r: string)
    ensures |r| <= |s|
    ensures a !in r && forall x | x != a :: x in r <==> x in s
  {
    if s == [] then [] else (if s[0] == a then [] else [s[0]]) + DeleteChar(s[1..], a)
  }

  predicate StartsWith(s: string, p: string) { |p| <= |s| && s[..|p|] == p }

  predicate EndsWith(s: string, p: string) { |p| <= |s| && s[|s| - |p|..] == p }

  /** Python's "p in s" for strings. */
  predicate Contains(s: string, p: string)
    decreases |s|
  {
    StartsWith(s, p) || (|s| > 0 && Contains(s[1..], p))
  }

  lemma {:induction false} ContainsChar(s: string, c: char)
    ensures Contains(s, [c]) <==> c in s
    decreases |s|
  {
    if |s| > 0 {
      ContainsChar(s[1..], c);
      assert s == [s[0]] + s[1..];
    }
  }

  /** s.replace(pat, rep): left to right, non-overlapping occurrences. */
  function Replace(s: string, pat: string, rep: string): (r: string)
    requires |pat| > 0
    decreases |s|
  {
    if |s| < |pat| then s
    else if s[..|pat|] == pat then rep + Replace(s[|pat|..], pat, rep)
    else [s[0]] + Replace(s[1..], pat, rep)
  }

  /** Replacing a pattern that does not occur changes nothing. */
  lemma {:induction false} ReplaceAbsent(s: string, pat: string, rep: string)
    requires |pat| > 0 && !Contains(s, pat)
    ensures Replace(s, pat, rep) == s
    decreases |s|
  {
    if |s| >= |pat| {
      ReplaceAbsent(s[1..], pat, rep);
      assert s == [s[0]] + s[1..];
    }
  }

  /** A character absent from s, pat and rep stays absent. */
  lemma {:induction false} ReplaceKeepsAbsent(s: string, pat: string, rep: string, c: char)
    requires |pat| > 0 && c !in s && c !in rep
    ensures c !in Replace(s, pat, rep)
    decreases |s|
  {
    if |s| < |pat| {
    } else if s[..|pat|] == pat {
      ReplaceKeepsAbsent(s[|pat|..], pat, rep, c);
    } else {
      ReplaceKeepsAbsent(s[1..], pat, rep, c);
    }
  }

  /** Position of the first occurrence of c (str.index). */
  function IndexOf(s: string, c: char): (i: nat)
    requires c in s
    ensures i < |s| && s[i] == c && c !in s[..i]
  {
    if s[0] == c then 0 else 1 + IndexOf(s[1..], c)
  }

  /** s.split(sep) for a one-character separator. */
  function Split(s: string, sep: char): (r: seq<string>)
    ensures |r| >= 1
    ensures forall i | 0 <= i < |r| :: sep !in r[i]
    decreases |s|
  {
    if sep !in s then [s]
    else
      var i := IndexOf(s, sep);
      [s[..i]] + Split(s[i + 1..], sep)
  }

  /** sep.join(parts) */
  function Join(parts: seq<string>, sep: string): string
  {
    if parts == [] then ""
    else if |parts| == 1 then parts[0]
    else parts[0] + sep + Join(parts[1..], sep)
  }

  /** Joining the pieces of a split with the same separator gives the input back. */
  lemma {:induction false} JoinSplit(s: string, sep: char)
    ensures Join(Split(s, sep), [sep]) == s
    decreases |s|
  {
    if sep in s {
      var i := IndexOf(s, sep);
      var parts := Split(s, sep);
      var rest := Split(s[i + 1..], sep);
      assert parts == [s[..i]] + rest;
      assert parts[0] == s[..i] && parts[1..] == rest;
      assert Join(parts, [sep]) == s[..i] + [sep] + Join(rest, [sep]);
      JoinSplit(s[i + 1..], sep);
      assert s == s[..i] + [sep] + s[i + 1..];
    }
  }

  /** The pieces of a split contain no separator, so a split of a join of such pieces gives them back. */
  lemma {:induction false} SplitJoin(parts: seq<string>, sep: char)
    requires |parts| >= 1 && forall i | 0 <= i < |parts| :: sep !in parts[i]
    ensures Split(Join(parts, [sep]), sep) == parts
    decreases |parts|
  {
    if |parts| > 1 {
      var s := Join(parts, [sep]);
      SplitJoin(parts[1..], sep);
      assert s == parts[0] + [sep] + Join(parts[1..], [sep]);
      assert s[|parts[0]|] == sep;
      assert s[..|parts[0]|] == parts[0];
      assert IndexOf(s, sep) == |parts[0]| by {
        IndexOfAt(s, sep, |parts[0]|);
      }
      assert s[|parts[0]| + 1..] == Join(parts[1..], [sep]);
    }
  }

  lemma {:induction false} IndexOfAt(s: string, c: char, k: nat)
    requires k < |s| && s[k] == c && c !in s[..k]
    ensures IndexOf(s, c) == k
  {
    if k > 0 {
      assert s[0] != c by { assert s[..k][0] == s[0]; }
      assert c !in s[1..][..k - 1] by { assert s[1..][..k - 1] == s[..k][1..]; }
      IndexOfAt(s[1..], c, k - 1);
    }
  }

  /** Every character of s satisfies p. */
  predicate AllChars(s: string, p: char -> bool) { forall i | 0 <= i < |s| :: p(s[i]) }

  /** No whitespace at either end. */
  predicate NoEdgeSpace(s: string) { s == [] || (!IsSpace(s[0]) && !IsSpace(s[|s| - 1])) }

  /** Stripping keeps a subsequence of the characters. */
  lemma StripKeepsChars(s: string, q: char -> bool)
    requires AllChars(s, q)
    ensures AllChars(Strip(s), q)
  {
    var l := TrimLeftBy(s, IsSpace);
    assert AllChars(l, q) by {
      forall i | 0 <= i < |l| ensures q(l[i]) { assert l[i] == s[|s| - |l| + i]; }
    }
  }

  lemma ReplaceCharKeepsChars(s: string, a: char, b: char, q: char -> bool)
    requires AllChars(s, q) && q(b)
    ensures AllChars(ReplaceChar(s, a, b), q)
  {
  }

  lemma ReplaceCharAbsent(s: string, a: char, b: char)
    requires a !in s
    ensures ReplaceChar(s, a, b) == s
  {
    var r := ReplaceChar(s, a, b);
    forall i | 0 <= i < |s| ensures r[i] == s[i] { assert s[i] in s; }
  }

  lemma ReplaceCharRemoves(s: string, a: char, b: char)
    requires a != b
    ensures a !in ReplaceChar(s, a, b)
  {
    var r := ReplaceChar(s, a, b);
    forall i | 0 <= i < |r| ensures r[i] != a { }
  }

  /** Characters of a replacement come from the input or from the replacement text. */
  lemma {:induction false} ReplaceKeepsChars(s: string, pat: string, rep: string, q: char -> bool)
    requires |pat| > 0 && AllChars(s, q) && AllChars(rep, q)
    ensures AllChars(Replace(s, pat, rep), q)
    decreases |s|
  {
    if |s| < |pat| {
    } else if s[..|pat|] == pat {
      ReplaceKeepsChars(s[|pat|..], pat, rep, q);
      AllCharsConcat(rep, Replace(s[|pat|..], pat, rep), q);
    } else {
      ReplaceKeepsChars(s[1..], pat, rep, q);
      AllCharsConcat([s[0]], Replace(s[1..], pat, rep), q);
    }
  }

  lemma AllCharsConcat(a: string, b: string, q: char -> bool)
    requires AllChars(a, q) && AllChars(b, q)
    ensures AllChars(a + b, q)
  {
    forall i | 0 <= i < |a + b| ensures q((a + b)[i]) {
      if i < |a| { assert (a + b)[i] == a[i]; } else { assert (a + b)[i] == b[i - |a|]; }
    }
  }

  /** The ends of a replacement: each comes from the input's end or from the replacement text's. */
  lemma {:induction false} ReplaceEnds(s: string, pat: string, rep: string)
    requires |pat| > 0 && |rep| > 0
    ensures var r := Replace(s, pat, rep);
      (r == [] <==> s == []) &&
      (s != [] ==> (r[0] == s[0] || r[0] == rep[0]) && (r[|r| - 1] == s[|s| - 1] || r[|r| - 1] == rep[|rep| - 1]))
    decreases |s|
  {
    if |s| < |pat| {
    } else if s[..|pat|] == pat {
      var t := s[|pat|..];
      var rest := Replace(t, pat, rep);
      ReplaceEnds(t, pat, rep);
      var r := rep + rest;
      assert Replace(s, pat, rep) == r;
      assert r[0] == rep[0];
      if rest == [] {
        assert r[|r| - 1] == rep[|rep| - 1];
      } else {
        assert r[|r| - 1] == rest[|rest| - 1];
        assert s[|s| - 1] == t[|t| - 1];
      }
    } else {
      var rest := Replace(s[1..], pat, rep);
      ReplaceEnds(s[1..], pat, rep);
      var r := [s[0]] + rest;
      assert Replace(s, pat, rep) == r;
      if rest != [] {
        assert r[|r| - 1] == rest[|rest| - 1];
      }
    }
  }

  /** A replacement with clean ends, in a text with clean ends, leaves the ends clean. */
  lemma ReplaceKeepsEdges(s: string, pat: string, rep: string)
    requires |pat| > 0 && NoEdgeSpace(s) && |rep| > 0 && !IsSpace(rep[0]) && !IsSpace(rep[|rep| - 1])
    ensures NoEdgeSpace(Replace(s, pat, rep))
  {
    ReplaceEnds(s, pat, rep);
  }

  /** The first character of a replacement: the replacement text's where the pattern starts the input. */
  lemma ReplaceHead(s: string, pat: string, rep: string)
    requires |pat| > 0 && |rep| > 0 && s != []
    ensures Replace(s, pat, rep)[0] == if StartsWith(s, pat) then rep[0] else s[0]
  {
    ReplaceEnds(s, pat, rep);
  }

  /** No occurrence of the two-character string [x, y]. */
  predicate NoPair(s: string, x: char, y: char) { forall i | 0 <= i < |s| - 1 :: !(s[i] == x && s[i + 1] == y) }

  lemma {:induction false} NoPairNotContains(s: string, x: char, y: char)
    requires NoPair(s, x, y)
    ensures !Contains(s, [x, y])
    decreases |s|
  {
    if |s| > 0 {
      assert !StartsWith(s, [x, y]) by {
        if |s| >= 2 { assert !(s[0] == x && s[1] == y); }
      }
      NoPairNotContains(s[1..], x, y);
    }
  }

  lemma {:induction false} DeleteCharAppend(x: string, y: string, a: char)
    ensures DeleteChar(x + y, a) == DeleteChar(x, a) + DeleteChar(y, a)
    decreases |x|
  {
    if x != [] {
      DeleteCharAppend(x[1..], y, a);
      assert (x + y)[1..] == x[1..] + y;
    } else {
      assert x + y == y;
    }
  }

  lemma DeleteCharSkip(t: string, a: char)
    ensures DeleteChar([a] + t, a) == DeleteChar(t, a)
  {
    assert ([a] + t)[1..] == t;
  }

  lemma {:induction false} DeleteCharAbsent(x: string, a: char)
    requires a !in x
    ensures DeleteChar(x, a) == x
    decreases |x|
  {
    if x != [] {
      DeleteCharAbsent(x[1..], a);
      assert x == [x[0]] + x[1..];
    }
  }

  /** An occurrence of p in s puts p's first character in s. */
  lemma {:induction false} ContainsFirst(s: string, p: string)
    requires |p| > 0 && Contains(s, p)
    ensures p[0] in s
    decreases |s|
  {
    if StartsWith(s, p) {
      assert s[0] == p[0];
    } else {
      ContainsFirst(s[1..], p);
      assert s[1..] <= s[1..];
      assert forall x | x in s[1..] :: x in s;
    }
  }

  lemma DigitsNoChar(a: string, x: char)
    requires AllDigits(a) && !IsDigit(x)
    ensures x !in a
  {
  }

  lemma DottedDeleted(a: string, b: string, c: string)
    requires AllDigits(a) && AllDigits(b) && AllDigits(c)
    ensures DeleteChar(a + "." + b + "," + c, '.') == a + b + "," + c
  {
    var tail := b + "," + c;
    assert '.' !in tail by {
      DigitsNoChar(b, '.');
      DigitsNoChar(c, '.');
    }
    assert a + "." + b + "," + c == a + (['.'] + tail);
    calc {
      DeleteChar(a + (['.'] + tail), '.');
      == { DeleteCharAppend(a, ['.'] + tail, '.'); }
      DeleteChar(a, '.') + DeleteChar(['.'] + tail, '.');
      == { DeleteCharSkip(tail, '.'); }
      DeleteChar(a, '.') + DeleteChar(tail, '.');
      == { DigitsNoChar(a, '.'); DeleteCharAbsent(a, '.'); DeleteCharAbsent(tail, '.'); }
      a + tail;
    }
    assert a + tail == a + b + "," + c;
  }
}
