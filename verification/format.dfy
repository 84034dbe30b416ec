/** The chat bubble formatter: two global rewrites applied one after the
    other. First every `**X**` (the regular expression `\*\*(.+?)\*\*`) becomes
    `<strong>X</strong>`; then every line feed becomes `<br/>`. */
module Format {
  import opened Optional

  // ---------------------------------------------------------------------
  // Matching `**X**`
  // ---------------------------------------------------------------------

  /** The characters the regular-expression dot does not match. */
  predicate IsLineTerminator(c: char) {
    c == '\n' || c == '\r' || c == '\U{2028}' || c == '\U{2029}'
  }

  /** Two asterisks start at position `i`. */
  predicate StarsAt(s: string, i: int) {
    0 <= i && i + 1 < |s| && s[i] == '*' && s[i + 1] == '*'
  }

  /** `s[i..j + 2]` is a match of the pattern: asterisk pairs at `i` and `j`,
      and between them at least one character and no line terminator. */
  predicate ClosesAt(s: string, i: int, j: int) {
    && i + 3 <= j
    && StarsAt(s, i)
    && StarsAt(s, j)
    && forall k :: i + 2 <= k < j ==> !IsLineTerminator(s[k])
  }

  /** The lazy `.+?` for a match opened at `i`: tries the closing pair at `j`,
      `j + 1`, ... while the characters passed over are not line terminators. */
  function FindClose(s: string, i: nat, j: nat): (r: Option<nat>)
    requires StarsAt(s, i) && i + 3 <= j <= |s|
    requires forall k :: i + 2 <= k < j ==> !IsLineTerminator(s[k])
    ensures r.Some? ==> ClosesAt(s, i, r.value)
    ensures r.Some? ==> forall m :: j <= m < r.value ==> !ClosesAt(s, i, m)
    ensures r.None? ==> forall m :: j <= m ==> !ClosesAt(s, i, m)
    decreases |s| - j
  {
    if StarsAt(s, j) then Some(j)
    else if j < |s| && !IsLineTerminator(s[j]) then FindClose(s, i, j + 1)
    else
      assert forall m :: j < m ==> !ClosesAt(s, i, m) by {
        forall m | j < m && StarsAt(s, m) ensures !(forall k :: i + 2 <= k < m ==> !IsLineTerminator(s[k])) {
          assert IsLineTerminator(s[j]);
        }
      }
      None
  }

  /** The match the pattern makes at position `i`, if any: the position of
      its closing pair, which is the nearest one that completes a match. */
  function MatchAt(s: string, i: nat): (r: Option<nat>)
    ensures r.Some? ==> ClosesAt(s, i, r.value)
    ensures r.Some? ==> forall m :: m < r.value ==> !ClosesAt(s, i, m)
    ensures r.None? ==> forall m :: !ClosesAt(s, i, m)
  {
    if StarsAt(s, i) && i + 2 < |s| && !IsLineTerminator(s[i + 2]) then FindClose(s, i, i + 3)
    else
      assert forall m :: !ClosesAt(s, i, m) by {
        forall m | i + 3 <= m && StarsAt(s, i) && StarsAt(s, m)
          ensures !(forall k :: i + 2 <= k < m ==> !IsLineTerminator(s[k]))
        {
          assert IsLineTerminator(s[i + 2]);
        }
      }
      None
  }

  // ---------------------------------------------------------------------
  // The first rewrite: bold text
  // ---------------------------------------------------------------------

  const OpenTag: string := "<strong>"
  const CloseTag: string := "</strong>"

  /** The global replacement from position `p` on: where the pattern matches,
      its inner text is wrapped in tags and the scan resumes after the match;
      elsewhere the character is copied and the scan moves one place on. */
  function EmphasizeFrom(s: string, p: nat): string
    requires p <= |s|
    decreases |s| - p
  {
    if p == |s| then []
    else match MatchAt(s, p)
      case Some(j) => OpenTag + s[p + 2..j] + CloseTag + EmphasizeFrom(s, j + 2)
      case None => [s[p]] + EmphasizeFrom(s, p + 1)
  }

  /** The bold rewrite applied globally to the whole message. */
  function Emphasize(s: string): string {
    EmphasizeFrom(s, 0)
  }

  /** Undoes `Emphasize` on text without `<`: each tag turns back into `**`. */
  function Unemphasize(t: string): string
    decreases |t|
  {
    if t == [] then []
    else if |t| >= 8 && t[..8] == OpenTag then "**" + Unemphasize(t[8..])
    else if |t| >= 9 && t[..9] == CloseTag then "**" + Unemphasize(t[9..])
    else [t[0]] + Unemphasize(t[1..])
  }

  /** A first character other than `<` cannot start a tag and is copied. */
  lemma UnemphasizeHead(t: string)
    requires t != [] && t[0] != '<'
    ensures Unemphasize(t) == [t[0]] + Unemphasize(t[1..])
  {
    assert |t| >= 8 ==> t[..8][0] != OpenTag[0];
    assert |t| >= 9 ==> t[..9][0] != CloseTag[0];
  }

  /** Text without `<` passes through `Unemphasize` unchanged. */
  lemma {:induction false} UnemphasizePlainPrefix(y: string, z: string)
    requires '<' !in y
    ensures Unemphasize(y + z) == y + Unemphasize(z)
    decreases |y|
  {
    if y != [] {
      var t := y + z;
      assert t[0] == y[0] && t[1..] == y[1..] + z;
      UnemphasizeHead(t);
      UnemphasizePlainPrefix(y[1..], z);
      assert y == [y[0]] + y[1..];
    } else {
      assert y + z == z;
    }
  }

  /** A tag followed by anything turns back into `**`. */
  lemma UnemphasizeTags(r: string)
    ensures Unemphasize(OpenTag + r) == "**" + Unemphasize(r)
    ensures Unemphasize(CloseTag + r) == "**" + Unemphasize(r)
  {
    assert (OpenTag + r)[..8] == OpenTag && (OpenTag + r)[8..] == r;
    assert (CloseTag + r)[..8] != OpenTag by {
      assert (CloseTag + r)[1] == '/' != OpenTag[1];
    }
    assert (CloseTag + r)[..9] == CloseTag && (CloseTag + r)[9..] == r;
  }

  /** On text without `<`, removing the tags recovers the input: the first
      rewrite loses nothing. */
  lemma {:induction false} UnemphasizeEmphasizeFrom(s: string, p: nat)
    requires '<' !in s && p <= |s|
    ensures Unemphasize(EmphasizeFrom(s, p)) == s[p..]
    decreases |s| - p
  {
    if p < |s| {
      match MatchAt(s, p)
      case Some(j) =>
        UnemphasizeEmphasizeFrom(s, j + 2);
        MatchStepUnemphasized(s, p, j);
      case None =>
        UnemphasizeEmphasizeFrom(s, p + 1);
        CopyStepUnemphasized(s, p);
    }
  }

  /** The recursion's step over a match at `p` closing at `j`. */
  lemma MatchStepUnemphasized(s: string, p: nat, j: nat)
    requires '<' !in s && p < |s| && MatchAt(s, p) == Some(j)
    requires Unemphasize(EmphasizeFrom(s, j + 2)) == s[j + 2..]
    ensures Unemphasize(EmphasizeFrom(s, p)) == s[p..]
  {
    EmphasizeFromMatch(s, p, j);
    UnemphasizeMatch(s, p, j, EmphasizeFrom(s, j + 2), EmphasizeFrom(s, p));
  }

  /** The recursion's step over a copied character at `p`. */
  lemma CopyStepUnemphasized(s: string, p: nat)
    requires '<' !in s && p < |s| && MatchAt(s, p).None?
    requires Unemphasize(EmphasizeFrom(s, p + 1)) == s[p + 1..]
    ensures Unemphasize(EmphasizeFrom(s, p)) == s[p..]
  {
    EmphasizeFromCopy(s, p);
    UnemphasizeCopy(s, p, EmphasizeFrom(s, p + 1), EmphasizeFrom(s, p));
  }

  /** The rewrite at a match: the inner text between tags, then the rest. */
  lemma EmphasizeFromMatch(s: string, p: nat, j: nat)
    requires p < |s| && MatchAt(s, p) == Some(j)
    ensures j + 2 <= |s|
    ensures EmphasizeFrom(s, p) == OpenTag + s[p + 2..j] + CloseTag + EmphasizeFrom(s, j + 2)
  {
  }

  /** The rewrite where nothing matches: the character, then the rest. */
  lemma EmphasizeFromCopy(s: string, p: nat)
    requires p < |s| && MatchAt(s, p).None?
    ensures EmphasizeFrom(s, p) == [s[p]] + EmphasizeFrom(s, p + 1)
  {
  }

  /** The step over a match: the tags turn back into the asterisk pairs. */
  lemma UnemphasizeMatch(s: string, p: nat, j: nat, rest: string, t: string)
    requires '<' !in s && ClosesAt(s, p, j)
    requires Unemphasize(rest) == s[j + 2..]
    requires t == OpenTag + s[p + 2..j] + CloseTag + rest
    ensures Unemphasize(t) == s[p..]
  {
    var x := s[p + 2..j];
    assert '<' !in x by {
      forall k | 0 <= k < |x| ensures x[k] != '<' {
        assert x[k] == s[p + 2 + k];
      }
    }
    assert s[p..p + 2] == "**" && s[j..j + 2] == "**";
    assert s[p..] == s[p..p + 2] + x + s[j..j + 2] + s[j + 2..];
    UnemphasizeBold(x, rest);
  }

  /** A bold span of text without `<` turns back into that text between
      asterisk pairs. */
  lemma UnemphasizeBold(x: string, rest: string)
    requires '<' !in x
    ensures Unemphasize(OpenTag + x + CloseTag + rest) == "**" + x + "**" + Unemphasize(rest)
  {
    var tail := CloseTag + rest;
    assert OpenTag + x + CloseTag + rest == OpenTag + (x + tail);
    UnemphasizeTags(x + tail);
    UnemphasizePlainPrefix(x, tail);
    UnemphasizeTags(rest);
    assert "**" + (x + ("**" + Unemphasize(rest))) == "**" + x + "**" + Unemphasize(rest);
  }

  /** The step over a copied character, which is not `<`. */
  lemma UnemphasizeCopy(s: string, p: nat, rest: string, t: string)
    requires '<' !in s && p < |s|
    requires Unemphasize(rest) == s[p + 1..]
    requires t == [s[p]] + rest
    ensures Unemphasize(t) == s[p..]
  {
    assert s[p] != '<';
    UnemphasizePlainPrefix([s[p]], rest);
    assert s[p..] == [s[p]] + s[p + 1..];
  }

  /** The first rewrite is undone by `Unemphasize` on text without `<`. */
  lemma UnemphasizeEmphasize(s: string)
    requires '<' !in s
    ensures Unemphasize(Emphasize(s)) == s
  {
    UnemphasizeEmphasizeFrom(s, 0);
  }

  /** The number of line feeds in `s`. */
  function Newlines(s: string): nat {
    if s == [] then 0 else (if s[0] == '\n' then 1 else 0) + Newlines(s[1..])
  }

  /** Line feeds of two pieces add up; a piece without any counts none. */
  lemma {:induction false} NewlinesAppend(a: string, b: string)
    ensures Newlines(a + b) == Newlines(a) + Newlines(b)
    ensures '\n' !in a ==> Newlines(a) == 0
    decreases |a|
  {
    if a == [] {
      assert a + b == b;
    } else {
      assert (a + b)[0] == a[0] && (a + b)[1..] == a[1..] + b;
      NewlinesAppend(a[1..], b);
      assert '\n' !in a ==> '\n' !in a[1..] && a[0] != '\n';
    }
  }

  /** A match and its replacement hold no line feed. */
  lemma MatchHasNoNewline(s: string, p: nat, j: nat)
    requires ClosesAt(s, p, j)
    ensures '\n' !in s[p..j + 2]
    ensures '\n' !in OpenTag + s[p + 2..j] + CloseTag
  {
    var x := s[p + 2..j];
    assert '\n' !in x by {
      forall k | 0 <= k < |x| ensures x[k] != '\n' {
        assert x[k] == s[p + 2 + k];
      }
    }
    assert s[p..j + 2] == "**" + x + "**";
  }

  /** The bold text never spans a line, so the first rewrite keeps every line
      feed: the output holds as many as the input. */
  lemma {:induction false} EmphasizeFromKeepsNewlines(s: string, p: nat)
    requires p <= |s|
    ensures Newlines(EmphasizeFrom(s, p)) == Newlines(s[p..])
    decreases |s| - p
  {
    if p < |s| {
      match MatchAt(s, p)
      case Some(j) =>
        EmphasizeFromKeepsNewlines(s, j + 2);
        MatchKeepsNewlines(s, p, j, EmphasizeFrom(s, j + 2));
      case None =>
        EmphasizeFromKeepsNewlines(s, p + 1);
        CopyKeepsNewlines(s, p, EmphasizeFrom(s, p + 1));
    }
  }

  /** The step over a match: the replacement adds no line feed. */
  lemma MatchKeepsNewlines(s: string, p: nat, j: nat, rest: string)
    requires ClosesAt(s, p, j)
    requires Newlines(rest) == Newlines(s[j + 2..])
    ensures Newlines(OpenTag + s[p + 2..j] + CloseTag + rest) == Newlines(s[p..])
  {
    MatchHasNoNewline(s, p, j);
    NewlinesAppend(OpenTag + s[p + 2..j] + CloseTag, rest);
    assert s[p..] == s[p..j + 2] + s[j + 2..];
    NewlinesAppend(s[p..j + 2], s[j + 2..]);
  }

  /** The step over a copied character. */
  lemma CopyKeepsNewlines(s: string, p: nat, rest: string)
    requires p < |s|
    requires Newlines(rest) == Newlines(s[p + 1..])
    ensures Newlines([s[p]] + rest) == Newlines(s[p..])
  {
    assert s[p..] == [s[p]] + s[p + 1..];
    NewlinesAppend([s[p]], s[p + 1..]);
    NewlinesAppend([s[p]], rest);
  }

  // ---------------------------------------------------------------------
  // The second rewrite: line breaks
  // ---------------------------------------------------------------------

  const BreakTag: string := "<br/>"

  /** The line-break rewrite applied globally: each line feed becomes `<br/>`. */
  function BreakLines(s: string): string {
    if s == [] then []
    else (if s[0] == '\n' then BreakTag else [s[0]]) + BreakLines(s[1..])
  }

  /** No line feed survives the second rewrite, and each one grows the text by
      the four extra characters of the tag. */
  lemma {:induction false} BreakLinesShape(s: string)
    ensures '\n' !in BreakLines(s)
    ensures |BreakLines(s)| == |s| + 4 * Newlines(s)
  {
    if s != [] {
      BreakLinesShape(s[1..]);
      assert '\n' !in BreakTag;
    }
  }

  /** Undoes `BreakLines`: each `<br/>` turns back into a line feed. */
  function JoinLines(t: string): string
    decreases |t|
  {
    if t == [] then []
    else if |t| >= 5 && t[..5] == BreakTag then "\n" + JoinLines(t[5..])
    else [t[0]] + JoinLines(t[1..])
  }

  /** No `<` is directly followed by `b`, so `<br/>` occurs nowhere. */
  predicate NoBreakTag(s: string) {
    forall i :: 0 <= i < |s| - 1 ==> !(s[i] == '<' && s[i + 1] == 'b')
  }

  /** A `<br/>` at the front turns back into a line feed. */
  lemma JoinLinesTag(r: string)
    ensures JoinLines(BreakTag + r) == "\n" + JoinLines(r)
  {
    assert (BreakTag + r)[..5] == BreakTag && (BreakTag + r)[5..] == r;
  }

  /** A character that cannot start `<br/>` is copied. */
  lemma JoinLinesCopy(c: char, r: string)
    requires c != '<' || r == [] || r[0] != 'b'
    ensures JoinLines([c] + r) == [c] + JoinLines(r)
  {
    var t := [c] + r;
    assert t[1..] == r;
    if |t| >= 5 {
      assert t[..5] != BreakTag by {
        assert BreakTag[0] == '<' && BreakTag[1] == 'b';
        assert t[..5][0] == c;
        if c == '<' { assert t[..5][1] == r[0]; }
      }
    }
  }

  /** The first character of the second rewrite's output. */
  lemma BreakLinesHead(s: string)
    requires s != []
    ensures BreakLines(s) != [] && BreakLines(s)[0] == (if s[0] == '\n' then '<' else s[0])
  {
  }

  /** On text in which `<br/>` cannot occur, joining the lines recovers the
      input: the second rewrite loses nothing. */
  lemma {:induction false} JoinBreakLines(s: string)
    requires NoBreakTag(s)
    ensures JoinLines(BreakLines(s)) == s
    decreases |s|
  {
    if s != [] {
      var r := BreakLines(s[1..]);
      assert NoBreakTag(s[1..]) by {
        forall i | 0 <= i < |s[1..]| - 1 ensures !(s[1..][i] == '<' && s[1..][i + 1] == 'b') {
          assert s[1..][i] == s[i + 1] && s[1..][i + 1] == s[i + 2];
        }
      }
      JoinBreakLines(s[1..]);
      if s[0] == '\n' {
        JoinLinesTag(r);
      } else {
        if s[0] == '<' && |s| > 1 {
          BreakLinesHead(s[1..]);
          assert s[1] != 'b';
        }
        JoinLinesCopy(s[0], r);
      }
      assert s == [s[0]] + s[1..];
    }
  }

  /** The second rewrite works piece by piece. */
  lemma {:induction false} BreakLinesAppend(a: string, b: string)
    ensures BreakLines(a + b) == BreakLines(a) + BreakLines(b)
    decreases |a|
  {
    if a != [] {
      assert (a + b)[0] == a[0] && (a + b)[1..] == a[1..] + b;
      BreakLinesAppend(a[1..], b);
    } else {
      assert a + b == b;
    }
  }

  /** Without a line feed the second rewrite changes nothing. */
  lemma {:induction false} BreakLinesWithoutNewline(s: string)
    requires '\n' !in s
    ensures BreakLines(s) == s
  {
    if s != [] {
      assert '\n' !in s[1..];
      BreakLinesWithoutNewline(s[1..]);
      assert s == [s[0]] + s[1..];
    }
  }

  // ---------------------------------------------------------------------
  // `formatMessage`
  // ---------------------------------------------------------------------

  /** The formatted message: bold first, then line breaks. No line feed
      survives. */
  function FormatMessage(content: string): (r: string)
    ensures '\n' !in r
  {
    BreakLinesShape(Emphasize(content));
    BreakLines(Emphasize(content))
  }

  /** Each line feed of the message becomes exactly one `<br/>`: the output
      is longer than the bold-only text by four characters per line feed of
      the input. */
  lemma FormatMessageLength(content: string)
    ensures |FormatMessage(content)| == |Emphasize(content)| + 4 * Newlines(content)
  {
    EmphasizeFromKeepsNewlines(content, 0);
    BreakLinesShape(Emphasize(content));
    assert content[0..] == content;
  }

  /** A tag-free message is recovered from its formatted form by turning each
      `<br/>` back into a line feed and each tag back into `**`. */
  lemma FormatMessageRoundTrip(content: string)
    requires '<' !in content
    ensures Unemphasize(JoinLines(FormatMessage(content))) == content
  {
    EmphasizeFromNoBreakTag(content, 0);
    JoinBreakLines(Emphasize(content));
    UnemphasizeEmphasize(content);
  }

  /** A message with no asterisk and no line feed is shown as it is. */
  lemma FormatMessagePlain(content: string)
    requires '*' !in content && '\n' !in content
    ensures FormatMessage(content) == content
  {
    forall i ensures !StarsAt(content, i) {
      if 0 <= i < |content| {
        assert content[i] in content;
      }
    }
    EmphasizeFromNoStarsAfter(content, 0);
    assert content[0..] == content;
    BreakLinesWithoutNewline(content);
  }

  /** Two texts without `<b` joined by something other than `<` have none. */
  lemma NoBreakTagAppend(a: string, b: string)
    requires NoBreakTag(a) && NoBreakTag(b)
    requires a == [] || a[|a| - 1] != '<'
    ensures NoBreakTag(a + b)
  {
    forall i | 0 <= i < |a + b| - 1 ensures !((a + b)[i] == '<' && (a + b)[i + 1] == 'b') {
      if i + 1 < |a| {
        assert (a + b)[i] == a[i] && (a + b)[i + 1] == a[i + 1];
      } else if i >= |a| {
        assert (a + b)[i] == b[i - |a|] && (a + b)[i + 1] == b[i + 1 - |a|];
      }
    }
  }

  /** On text without `<` the first rewrite introduces no `<br/>`: its only
      `<` start the strong tags. */
  lemma {:induction false} EmphasizeFromNoBreakTag(s: string, p: nat)
    requires '<' !in s && p <= |s|
    ensures NoBreakTag(EmphasizeFrom(s, p))
    decreases |s| - p
  {
    if p < |s| {
      match MatchAt(s, p)
      case Some(j) =>
        var x, rest := s[p + 2..j], EmphasizeFrom(s, j + 2);
        EmphasizeFromNoBreakTag(s, j + 2);
        assert '<' !in x by {
          forall k | 0 <= k < |x| ensures x[k] != '<' {
            assert x[k] == s[p + 2 + k];
          }
        }
        assert NoBreakTag(x) by {
          forall i | 0 <= i < |x| - 1 ensures x[i] != '<' {
            assert x[i] in x;
          }
        }
        assert NoBreakTag(OpenTag) && NoBreakTag(CloseTag);
        NoBreakTagAppend(CloseTag, rest);
        assert x == [] || x[|x| - 1] != '<' by {
          if x != [] { assert x[|x| - 1] in x; }
        }
        NoBreakTagAppend(x, CloseTag + rest);
        NoBreakTagAppend(OpenTag, x + (CloseTag + rest));
        assert OpenTag + x + CloseTag + rest == OpenTag + (x + (CloseTag + rest));
      case None =>
        EmphasizeFromNoBreakTag(s, p + 1);
        assert s[p] != '<';
        NoBreakTagAppend([s[p]], EmphasizeFrom(s, p + 1));
    }
  }

  /** A bold day heading followed by a second line. */
  lemma FormatMessageExample()
    ensures FormatMessage("**Day 1**\nRun 5k") == "<strong>Day 1</strong><br/>Run 5k"
  {
    ExamplePieces();
    FormatBoldLine("Day 1", "Run 5k");
  }

  /** The example's input and output, cut into their pieces. */
  lemma ExamplePieces()
    ensures "**" + "Day 1" + "**" + ("\n" + "Run 5k") == "**Day 1**\nRun 5k"
    ensures OpenTag + "Day 1" + CloseTag + BreakTag + "Run 5k" == "<strong>Day 1</strong><br/>Run 5k"
    ensures '*' !in "Day 1" && '*' !in "Run 5k" && '\n' !in "Run 5k"
    ensures forall k :: 0 <= k < |"Day 1"| ==> !IsLineTerminator("Day 1"[k])
  {
  }

  /** A bold heading without asterisks followed by a plain second line. */
  lemma FormatBoldLine(x: string, rest: string)
    requires x != [] && '*' !in x && '*' !in rest && '\n' !in rest
    requires forall k :: 0 <= k < |x| ==> !IsLineTerminator(x[k])
    ensures FormatMessage("**" + x + "**" + ("\n" + rest)) == OpenTag + x + CloseTag + BreakTag + rest
  {
    var s := "**" + x + "**" + ("\n" + rest);
    var j := |x| + 2;
    EmphasizeBoldLine(s, x, rest);
    assert '\n' !in OpenTag + x + CloseTag by {
      forall k | 0 <= k < |x| ensures x[k] != '\n' {
        assert !IsLineTerminator(x[k]);
      }
    }
    BreakOneNewline(OpenTag + x + CloseTag, rest);
  }

  /** The first rewrite of such a message: one bold span, the rest copied. */
  lemma EmphasizeBoldLine(s: string, x: string, rest: string)
    requires s == "**" + x + "**" + ("\n" + rest)
    requires x != [] && '*' !in x && '*' !in rest
    requires forall k :: 0 <= k < |x| ==> !IsLineTerminator(x[k])
    ensures Emphasize(s) == OpenTag + x + CloseTag + ("\n" + rest)
  {
    var j := |x| + 2;
    forall k | 2 <= k < j ensures s[k] == x[k - 2] {}
    assert ClosesAt(s, 0, j);
    forall m | m < j ensures !ClosesAt(s, 0, m) {
      if 3 <= m < j {
        assert s[m] == x[m - 2];
        assert x[m - 2] in x;
      }
    }
    assert MatchAt(s, 0) == Some(j);
    assert s[2..j] == x;
    assert s[j + 2..] == "\n" + rest;
    forall i | j + 2 <= i ensures !StarsAt(s, i) {
      if j + 3 <= i < |s| {
        assert s[i] == rest[i - j - 3];
        assert rest[i - j - 3] in rest;
      }
    }
    EmphasizeFromNoStarsAfter(s, j + 2);
  }

  /** Two lines joined by one line feed become the two lines joined by `<br/>`. */
  lemma BreakOneNewline(a: string, b: string)
    requires '\n' !in a && '\n' !in b
    ensures BreakLines(a + ("\n" + b)) == a + BreakTag + b
  {
    BreakLinesAppend(a, "\n" + b);
    BreakLinesAppend("\n", b);
    BreakLinesWithoutNewline(a);
    BreakLinesWithoutNewline(b);
  }

  /** Four asterisks hold no match: the bold text must be non-empty. */
  lemma FormatMessageStarsOnly()
    ensures FormatMessage("****") == "****"
  {
    var s := "****";
    assert MatchAt(s, 0) == None && MatchAt(s, 1) == None;
    assert MatchAt(s, 2) == None && MatchAt(s, 3) == None;
    assert Emphasize(s) == s;
  }

  /** From `p` on there is no asterisk pair, so the rest is copied. */
  lemma {:induction false} EmphasizeFromNoStarsAfter(s: string, p: nat)
    requires p <= |s|
    requires forall i :: p <= i ==> !StarsAt(s, i)
    ensures EmphasizeFrom(s, p) == s[p..]
    decreases |s| - p
  {
    if p < |s| {
      EmphasizeFromNoStarsAfter(s, p + 1);
      assert s[p..] == [s[p]] + s[p + 1..];
    }
  }
}
