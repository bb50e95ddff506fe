/** `strip_markdown` of bot/utils.py, written out over characters. */
module Markdown {
  import opened PyText

  /**
   * `re.sub(r"^>\s*", "", text, flags=re.MULTILINE)`: wherever a line of
   * the original text starts with '>', that '>' and the whitespace after it
   * (newlines included) are removed. `lineStart` says whether the first
   * character of `s` starts a line of the original text.
   */
  function StripQuoteMarkers(s: string, lineStart: bool): (r: string)
    ensures |r| <= |s|
    ensures forall x :: x in r ==> x in s
    ensures '>' !in s ==> r == s
    decreases |s|
  {
    if s == [] then []
    else if lineStart && s[0] == '>' then
      var n := LeadingSpaces(s[1..]);
      StripQuoteMarkers(s[1 + n..], n > 0 && s[n] == '\n')
    else
      var rest := StripQuoteMarkers(s[1..], s[0] == '\n');
      assert forall x :: x in [s[0]] + rest ==> x == s[0] || x in rest;
      assert '>' !in s ==> [s[0]] + s[1..] == s;
      [s[0]] + rest
  }

  predicate NoAdjacentSpaces(s: string) {
    forall i, j :: 0 <= i < |s| && 0 <= j < |s| && j == i + 1 ==> !(IsSpace(s[i]) && IsSpace(s[j]))
  }

  predicate OnlyPlainSpaces(s: string) {
    forall i :: 0 <= i < |s| && IsSpace(s[i]) ==> s[i] == ' '
  }

  /** `s.replace("**", "")`, scanning left to right. */
  function RemoveDoubleStars(s: string): string {
    if |s| >= 2 && s[0] == '*' && s[1] == '*' then RemoveDoubleStars(s[2..])
    else if s == [] then []
    else [s[0]] + RemoveDoubleStars(s[1..])
  }

  /** `s.replace(c, "")` for one character. */
  function RemoveChar(s: string, c: char): (r: string)
    ensures c !in r
    ensures |r| <= |s|
  {
    if s == [] then []
    else if s[0] == c then RemoveChar(s[1..], c)
    else [s[0]] + RemoveChar(s[1..], c)
  }

  /** Removing `c` keeps every other character of `s`, and only those. */
  lemma {:induction false} RemoveCharMembership(s: string, c: char, x: char)
    ensures x in RemoveChar(s, c) <==> x != c && x in s
  {
    if s != [] {
      RemoveCharMembership(s[1..], c, x);
      assert s == [s[0]] + s[1..];
    }
  }

  /** Dropping "**" pairs before single stars leaves the same text as dropping single stars alone. */
  lemma {:induction false} DoubleStarPassIsSubsumed(s: string)
    ensures RemoveChar(RemoveDoubleStars(s), '*') == RemoveChar(s, '*')
  {
    if |s| >= 2 && s[0] == '*' && s[1] == '*' {
      DoubleStarPassIsSubsumed(s[2..]);
      assert s[1..][1..] == s[2..];
    } else if s != [] {
      DoubleStarPassIsSubsumed(s[1..]);
    }
  }

  /** `re.sub(r"\s+", " ", s)`: every maximal run of whitespace becomes one space. */
  function CollapseSpaces(s: string): (r: string)
    ensures NoAdjacentSpaces(r)
    ensures OnlyPlainSpaces(r)
    ensures s != [] && !IsSpace(s[0]) ==> r != [] && r[0] == s[0]
    decreases |s|
  {
    if s == [] then []
    else if IsSpace(s[0]) then [' '] + CollapseSpaces(s[LeadingSpaces(s)..])
    else [s[0]] + CollapseSpaces(s[1..])
  }

  /** Collapsing whitespace keeps every non-whitespace character of `s`, and only those. */
  lemma {:induction false} CollapseSpacesMembership(s: string, x: char)
    requires !IsSpace(x)
    ensures x in CollapseSpaces(s) <==> x in s
    decreases |s|
  {
    if s != [] {
      if IsSpace(s[0]) {
        var rest := s[LeadingSpaces(s)..];
        CollapseSpacesMembership(rest, x);
        assert x in rest ==> x in s;
        if x in s {
          var k :| 0 <= k < |s| && s[k] == x;
          assert k >= LeadingSpaces(s) && rest[k - LeadingSpaces(s)] == x;
        }
      } else {
        CollapseSpacesMembership(s[1..], x);
        assert s == [s[0]] + s[1..];
      }
    }
  }

  /**
   * `strip_markdown`: quote markers at line starts, "**", '*', '`' and '_'
   * are removed, whitespace runs collapse to one space, and the ends are
   * trimmed. What is left has no markup character, no whitespace at either
   * end, no two whitespace characters in a row, and no whitespace other
   * than the plain space.
   */
  function StripMarkdown(text: string): (r: string)
    ensures '*' !in r && '`' !in r && '_' !in r
    ensures r == [] || (!IsSpace(r[0]) && !IsSpace(r[|r| - 1]))
    ensures NoAdjacentSpaces(r) && OnlyPlainSpaces(r)
  {
    PassesShape(text);
    StripKeepsShape(ApplyPasses(text, MarkdownPasses));
    Strip(ApplyPasses(text, MarkdownPasses))
  }

  /** A rewriting pass of `strip_markdown`. */
  datatype Pass = QuoteMarkers | DoubleStars | DropChar(c: char) | Whitespace

  /** The passes `strip_markdown` runs before trimming, in order. */
  const MarkdownPasses: seq<Pass> := [QuoteMarkers, DoubleStars, DropChar('*'), DropChar('`'), DropChar('_'), Whitespace]

  function ApplyPass(s: string, pass: Pass): string {
    match pass
    case QuoteMarkers => StripQuoteMarkers(s, true)
    case DoubleStars => RemoveDoubleStars(s)
    case DropChar(c) => RemoveChar(s, c)
    case Whitespace => CollapseSpaces(s)
  }

  /** The text after running the passes one after the other. */
  function ApplyPasses(s: string, passes: seq<Pass>): string
    decreases |passes|
  {
    if passes == [] then s else ApplyPasses(ApplyPass(s, passes[0]), passes[1..])
  }

  /** The passes of `strip_markdown`, written out as one expression. */
  lemma MarkdownPassesInOrder(text: string)
    ensures ApplyPasses(text, MarkdownPasses) ==
      CollapseSpaces(RemoveChar(RemoveChar(RemoveChar(RemoveDoubleStars(StripQuoteMarkers(text, true)), '*'), '`'), '_'))
  {
    var p := MarkdownPasses;
    assert p[1..] == [DoubleStars, DropChar('*'), DropChar('`'), DropChar('_'), Whitespace];
    assert p[1..][1..] == [DropChar('*'), DropChar('`'), DropChar('_'), Whitespace];
    assert p[1..][1..][1..] == [DropChar('`'), DropChar('_'), Whitespace];
    assert p[1..][1..][1..][1..] == [DropChar('_'), Whitespace];
    assert p[1..][1..][1..][1..][1..] == [Whitespace];
    assert p[1..][1..][1..][1..][1..][1..] == [];
    var s1 := StripQuoteMarkers(text, true);
    var s2 := RemoveDoubleStars(s1);
    var s3 := RemoveChar(s2, '*');
    var s4 := RemoveChar(s3, '`');
    var s5 := RemoveChar(s4, '_');
    var s6 := CollapseSpaces(s5);
    assert ApplyPasses(s6, []) == s6;
    assert ApplyPasses(s5, [Whitespace]) == s6;
    assert ApplyPasses(s4, [DropChar('_'), Whitespace]) == s6;
    assert ApplyPasses(s3, [DropChar('`'), DropChar('_'), Whitespace]) == s6;
    assert ApplyPasses(s2, [DropChar('*'), DropChar('`'), DropChar('_'), Whitespace]) == s6;
    assert ApplyPasses(s1, [DoubleStars, DropChar('*'), DropChar('`'), DropChar('_'), Whitespace]) == s6;
  }

  /**
   * What the passes of `strip_markdown` leave before trimming: no markup
   * character, no two whitespace characters in a row, and no whitespace
   * other than the plain space.
   */
  lemma PassesShape(text: string)
    ensures var r := ApplyPasses(text, MarkdownPasses);
      '*' !in r && '`' !in r && '_' !in r && NoAdjacentSpaces(r) && OnlyPlainSpaces(r)
  {
    MarkdownPassesInOrder(text);
    var unquoted := StripQuoteMarkers(text, true);
    var noStars := RemoveChar(RemoveDoubleStars(unquoted), '*');
    var noTicks := RemoveChar(noStars, '`');
    RemoveCharMembership(noStars, '`', '*');
    var plain := RemoveChar(noTicks, '_');
    RemoveCharMembership(noTicks, '_', '*');
    RemoveCharMembership(noTicks, '_', '`');
    CollapseSpacesMembership(plain, '*');
    CollapseSpacesMembership(plain, '`');
    CollapseSpacesMembership(plain, '_');
  }

  /** Trimming text that is already free of markup and of whitespace runs keeps it so. */
  lemma StripKeepsShape(s: string)
    requires '*' !in s && '`' !in s && '_' !in s
    requires NoAdjacentSpaces(s)
    requires OnlyPlainSpaces(s)
    ensures '*' !in Strip(s) && '`' !in Strip(s) && '_' !in Strip(s)
    ensures NoAdjacentSpaces(Strip(s))
    ensures OnlyPlainSpaces(Strip(s))
  {
    SliceKeepsShape(s, LeadingSpaces(s), Strip(s));
  }

  /** A slice keeps the absence of characters and of adjacent whitespace. */
  lemma SliceKeepsShape(s: string, from: nat, r: string)
    requires from + |r| <= |s|
    requires forall k :: 0 <= k < |r| ==> r[k] == s[from + k]
    requires '*' !in s && '`' !in s && '_' !in s
    requires NoAdjacentSpaces(s)
    requires OnlyPlainSpaces(s)
    ensures '*' !in r && '`' !in r && '_' !in r
    ensures NoAdjacentSpaces(r)
    ensures OnlyPlainSpaces(r)
  {
    forall i | 0 <= i < |r| ensures r[i] == s[from + i] && r[i] in s {
    }
  }

  /** `strip_markdown` is not idempotent: a quote marker can hide another one. */
  lemma StripMarkdownNotIdempotent()
    ensures StripMarkdown(">>a") == ">a"
    ensures StripMarkdown(">a") == "a"
  {
    assert StripQuoteMarkers("a", false) == "a";
    assert StripQuoteMarkers(">a", false) == ">a";
    assert LeadingSpaces(">a") == 0;
    assert LeadingSpaces("a") == 0;
    assert StripQuoteMarkers(">>a", true) == ">a";
    assert StripQuoteMarkers(">a", true) == "a";
    CleanTextUnchanged(">a");
    CleanTextUnchanged("a");
    MarkdownPassesInOrder(">>a");
    MarkdownPassesInOrder(">a");
  }

  /** Text free of markup characters and whitespace passes the later steps unchanged. */
  lemma {:induction false} CleanTextUnchanged(s: string)
    requires forall i :: 0 <= i < |s| ==> s[i] != '*' && s[i] != '`' && s[i] != '_' && !IsSpace(s[i])
    ensures RemoveDoubleStars(s) == s && RemoveChar(s, '*') == s && RemoveChar(s, '`') == s
    ensures RemoveChar(s, '_') == s && CollapseSpaces(s) == s && Strip(s) == s
  {
    if s != [] {
      CleanTextUnchanged(s[1..]);
      assert [s[0]] + s[1..] == s;
    }
    assert LeadingSpaces(s) == 0;
  }
}
