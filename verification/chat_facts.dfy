/**
 * What the block scanner of `ChatContent` guarantees: which pattern wins
 * when several fit, how fenced code and lists are delimited, that no
 * text of a block is lost by the inline formatting, and that every block
 * consumes at least one line.
 */
module ChatFacts {
  import opened Wrappers
  import opened JsString
  import opened InlineSpans
  import opened ChatBlocks

  /** A run ends exactly where the first rejected line is: `RunEnd` is the
      only index with that property. */
  lemma {:induction false} RunEndIs(lines: seq<string>, j: nat, e: nat, fits: string -> bool)
    requires j <= e <= |lines|
    requires forall k :: j <= k < e ==> fits(lines[k])
    requires e < |lines| ==> !fits(lines[e])
    ensures RunEnd(lines, j, fits) == e
    decreases e - j
  {
    if j < e {
      RunEndIs(lines, j + 1, e, fits);
    }
  }

  /** A line that starts with three backticks opens a fence, and its label
      is the rest of the line, trimmed. */
  lemma FenceOpener(lang: string)
    ensures IsFence("```" + lang)
    ensures FenceLang("```" + lang) == Trim(lang)
  {
    var s := "```" + lang;
    assert s[0] == '`' && s[1] == '`' && s[2] == '`';
    assert TrimStart(s) == s;
    assert s[3..] == lang;
  }

  /** The lines of `text` joined back with line breaks are the lines again,
      when none of them holds a line break. */
  lemma LinesOf(xs: seq<string>)
    requires |xs| >= 1
    requires forall k :: 0 <= k < |xs| ==> '\n' !in xs[k]
    ensures Split(Join(xs, "\n"), '\n') == xs
  {
    assert "\n" == ['\n'];
    SplitJoin(xs, '\n');
  }

  /** A first step that takes every line is the whole scan. */
  lemma ScanSingle(lines: seq<string>)
    requires |lines| >= 1 && Step(lines, 0).1 >= |lines|
    ensures ScanFrom(lines, 0) == [Step(lines, 0).0]
  {
    ScanFromStep(lines, 0, []);
    ScanFromEnd(lines, Step(lines, 0).1);
  }

  /** A fence on the first line makes a code block of the lines up to the
      next fence. */
  lemma FenceFirst(lines: seq<string>, e: nat)
    requires |lines| >= 1 && IsFence(lines[0]) && RunEnd(lines, 1, NotFence) == e
    ensures Step(lines, 0).0 == CodeBlock(FenceLang(lines[0]), Join(lines[1..e], "\n"))
    ensures Step(lines, 0).1 == e + 1
  {
    assert Classify(lines[0]) == Fence;
    FenceStepIs(lines, 0, lines[1..e], e);
  }

  /** A text whose lines start with a fence that takes every other line
      renders as that one code block. */
  lemma OneFence(text: string, e: nat)
    requires text != ""
    requires var xs := Split(text, '\n');
             IsFence(xs[0]) && RunEnd(xs, 1, NotFence) == e && |xs| <= e + 1
    ensures var xs := Split(text, '\n');
            ChatContent(text) == Some([CodeBlock(FenceLang(xs[0]), Join(xs[1..e], "\n"))])
  {
    var xs := Split(text, '\n');
    FenceFirst(xs, e);
    ScanSingle(xs);
  }

  /** A run from the line after `first` covers exactly `body` when every
      line of `body` fits and the line after it, if any, does not. */
  lemma RunOver(first: string, body: seq<string>, rest: seq<string>, fits: string -> bool)
    requires forall k :: 0 <= k < |body| ==> fits(body[k])
    requires rest != [] ==> !fits(rest[0])
    ensures var xs := [first] + body + rest;
            RunEnd(xs, 1, fits) == 1 + |body| && xs[1..1 + |body|] == body
  {
    var xs := [first] + body + rest;
    forall k | 1 <= k < 1 + |body| ensures fits(xs[k]) {
      assert xs[k] == body[k - 1];
    }
    if rest != [] {
      assert xs[1 + |body|] == rest[0];
    }
    RunEndIs(xs, 1, 1 + |body|, fits);
    assert xs[1..1 + |body|] == body;
  }

  /** Lines without line breaks stay so when put together. */
  lemma NoBreaks(xs: seq<string>, ys: seq<string>)
    requires forall k :: 0 <= k < |xs| ==> '\n' !in xs[k]
    requires forall k :: 0 <= k < |ys| ==> '\n' !in ys[k]
    ensures forall k :: 0 <= k < |xs + ys| ==> '\n' !in (xs + ys)[k]
  {
    forall k | 0 <= k < |xs + ys| ensures '\n' !in (xs + ys)[k] {
      if k < |xs| {
        assert (xs + ys)[k] == xs[k];
      } else {
        assert (xs + ys)[k] == ys[k - |xs|];
      }
    }
  }

  /** A text of lines without line breaks is not empty. */
  lemma JoinedNotEmpty(xs: seq<string>)
    requires |xs| > 1 || (|xs| == 1 && xs[0] != "")
    ensures Join(xs, "\n") != ""
  {
    if |xs| > 1 {
      assert |Join(xs, "\n")| >= 1;
    }
  }

  /** Lines without line breaks, one of them not empty, joined with line
      breaks: a text that is not empty and splits back into those lines. */
  lemma JoinedLines(xs: seq<string>)
    requires |xs| >= 1 && xs[0] != ""
    requires forall k :: 0 <= k < |xs| ==> '\n' !in xs[k]
    ensures Join(xs, "\n") != "" && Split(Join(xs, "\n"), '\n') == xs
  {
    LinesOf(xs);
    JoinedNotEmpty(xs);
  }

  /** The opening line of a fence holds no line break when its label holds none. */
  lemma OpenerLine(lang: string)
    requires '\n' !in lang
    ensures var first := "```" + lang;
            first != "" && '\n' !in first && IsFence(first) && FenceLang(first) == Trim(lang)
  {
    FenceOpener(lang);
    assert '\n' !in "```";
  }

  /** A fenced block written out as an opening line with a label, body lines
      that are not fences and a closing fence line reads back as one code
      block holding the trimmed label and the body; whatever follows the
      backticks of the closing line is dropped. */
  lemma FenceRoundTrip(lang: string, body: seq<string>, closer: string)
    requires '\n' !in lang
    requires forall k :: 0 <= k < |body| ==> '\n' !in body[k]
    requires forall k :: 0 <= k < |body| ==> NotFence(body[k])
    requires '\n' !in closer && IsFence(closer)
    ensures ChatContent(Join(["```" + lang] + body + [closer], "\n"))
            == Some([CodeBlock(Trim(lang), Join(body, "\n"))])
  {
    var xs := ["```" + lang] + body + [closer];
    ClosedFenceLines(lang, body, closer);
    OneFence(Join(xs, "\n"), |xs| - 1);
  }

  /** The lines of a closed fence, as the scan sees them. */
  lemma ClosedFenceLines(lang: string, body: seq<string>, closer: string)
    requires '\n' !in lang
    requires forall k :: 0 <= k < |body| ==> '\n' !in body[k]
    requires forall k :: 0 <= k < |body| ==> NotFence(body[k])
    requires '\n' !in closer && IsFence(closer)
    ensures var xs := ["```" + lang] + body + [closer];
            var text := Join(xs, "\n");
            && text != "" && Split(text, '\n') == xs
            && IsFence(xs[0]) && FenceLang(xs[0]) == Trim(lang)
            && RunEnd(xs, 1, NotFence) == |xs| - 1 && xs[1..|xs| - 1] == body
  {
    var first := "```" + lang;
    var xs := [first] + body + [closer];
    OpenerLine(lang);
    NoBreaks([first], body);
    NoBreaks([first] + body, [closer]);
    JoinedLines(xs);
    RunOver(first, body, [closer], NotFence);
  }

  /** A fence that is never closed takes every line after it. */
  lemma UnclosedFence(lang: string, body: seq<string>)
    requires '\n' !in lang
    requires forall k :: 0 <= k < |body| ==> '\n' !in body[k]
    requires forall k :: 0 <= k < |body| ==> NotFence(body[k])
    ensures ChatContent(Join(["```" + lang] + body, "\n"))
            == Some([CodeBlock(Trim(lang), Join(body, "\n"))])
  {
    var first := "```" + lang;
    var xs := [first] + body;
    assert xs == [first] + body + [];
    OpenerLine(lang);
    NoBreaks([first], body);
    JoinedLines(xs);
    RunOver(first, body, [], NotFence);
    OneFence(Join(xs, "\n"), |xs|);
  }

  /** A bulleted list takes the longest run of bulleted lines from where it
      starts; each item indents 8 pixels per leading white-space character
      and, when its text is stray-free, keeps that text. */
  lemma BulletListMaximal(lines: seq<string>, i: nat)
    requires i < |lines| && Classify(lines[i]) == Bullet
    ensures var b, n := Step(lines, i).0, Step(lines, i).1;
            && b.Bullets? && |b.bullets| == n - i
            && (forall k :: i <= k < n ==> IsBulletLine(lines[k]))
            && (n < |lines| ==> !IsBulletLine(lines[n]))
            && forall k :: 0 <= k < |b.bullets| ==>
                 && b.bullets[k].marginPx == 8 * (|lines[i + k]| - |TrimStart(lines[i + k])|)
                 && (StrayFree(BulletMatch(lines[i + k]).value.1) ==>
                       Unformat(b.bullets[k].content) == BulletMatch(lines[i + k]).value.1)
  {
    var b, n := Step(lines, i).0, Step(lines, i).1;
    assert b == Bullets(MapLines(lines, i, n, BulletItem));
    forall k | 0 <= k < |b.bullets| && StrayFree(BulletMatch(lines[i + k]).value.1)
      ensures Unformat(b.bullets[k].content) == BulletMatch(lines[i + k]).value.1
    {
      assert IsBulletLine(lines[i + k]);
      AsWrittenKeepsText(BulletMatch(lines[i + k]).value.1);
    }
  }

  /** A numbered list takes the longest run of numbered lines from where it
      starts, and each entry keeps the text after its number when that text
      is stray-free. */
  lemma OrderedListMaximal(lines: seq<string>, i: nat)
    requires i < |lines| && Classify(lines[i]) == Ordered
    ensures var b, n := Step(lines, i).0, Step(lines, i).1;
            && b.Numbered? && |b.entries| == n - i
            && (forall k :: i <= k < n ==> IsOrderedLine(lines[k]))
            && (n < |lines| ==> !IsOrderedLine(lines[n]))
            && forall k :: 0 <= k < |b.entries| ==>
                 StrayFree(OrderedMatch(lines[i + k]).value) ==>
                   Unformat(b.entries[k]) == OrderedMatch(lines[i + k]).value
  {
    var n := RunEnd(lines, i, IsOrderedLine);
    assert Step(lines, i) == OrderedStep(lines, i);
    EntriesKeepText(lines, i, n);
  }

  /** Each entry of a run of numbered lines shows the text after its number
      when that text is stray-free. */
  lemma EntriesKeepText(lines: seq<string>, lo: nat, hi: nat)
    requires lo <= hi <= |lines|
    requires forall k :: lo <= k < hi ==> IsOrderedLine(lines[k])
    ensures var r := MapLines(lines, lo, hi, OrderedItem);
            forall k :: 0 <= k < |r| ==>
              && IsOrderedLine(lines[lo + k])
              && (StrayFree(OrderedMatch(lines[lo + k]).value) ==>
                    Unformat(r[k]) == OrderedMatch(lines[lo + k]).value)
  {
    var r := MapLines(lines, lo, hi, OrderedItem);
    forall k | 0 <= k < |r|
      ensures && IsOrderedLine(lines[lo + k])
              && (StrayFree(OrderedMatch(lines[lo + k]).value) ==>
                    Unformat(r[k]) == OrderedMatch(lines[lo + k]).value)
    {
      assert IsOrderedLine(lines[lo + k]);
      if StrayFree(OrderedMatch(lines[lo + k]).value) {
        AsWrittenKeepsText(OrderedMatch(lines[lo + k]).value);
      }
    }
  }

  /** A stray-free line keeps its text through the formatter. */
  lemma KeepsTextIfStrayFree(raw: string)
    ensures StrayFree(raw) ==> Unformat(InlineFormatAsWritten(raw)) == raw
  {
    if StrayFree(raw) {
      AsWrittenKeepsText(raw);
    }
  }

  /** A line of a single-line kind makes one block and the scan moves to
      the next line; when the text the pattern captured is stray-free, the
      block shows exactly that text. */
  lemma SingleLineStep(lines: seq<string>, i: nat)
    requires i < |lines|
    requires Classify(lines[i]) !in {Fence, Bullet, Ordered}
    ensures Step(lines, i).1 == i + 1
    ensures var line, b := lines[i], Step(lines, i).0;
            match Classify(line)
            case H1 => b.Heading? && b.level == 1
                       && (StrayFree(HeadingMatch(line, "#").value) ==> Unformat(b.content) == HeadingMatch(line, "#").value)
            case H2 => b.Heading? && b.level == 2
                       && (StrayFree(HeadingMatch(line, "##").value) ==> Unformat(b.content) == HeadingMatch(line, "##").value)
            case H3 => b.Heading? && b.level == 3
                       && (StrayFree(HeadingMatch(line, "###").value) ==> Unformat(b.content) == HeadingMatch(line, "###").value)
            case HorizontalRule => b == Rule
            case QuoteLine => b.Quote? && (StrayFree(line[2..]) ==> "> " + Unformat(b.content) == line)
            case Blank => b == Spacer
            case Text => b.Paragraph? && (StrayFree(line) ==> Unformat(b.content) == line)
            case _ => false
  {
    var line := lines[i];
    match Classify(line)
    case H1 => KeepsTextIfStrayFree(HeadingMatch(line, "#").value);
    case H2 => KeepsTextIfStrayFree(HeadingMatch(line, "##").value);
    case H3 => KeepsTextIfStrayFree(HeadingMatch(line, "###").value);
    case HorizontalRule =>
    case QuoteLine =>
      KeepsTextIfStrayFree(line[2..]);
      assert line == line[..2] + line[2..];
    case Blank =>
    case Text => KeepsTextIfStrayFree(line);
  }

  /** The line at which each block of the scan from `i` starts. */
  function BlockStarts(lines: seq<string>, i: nat): seq<nat>
    decreases |lines| + 1 - i
  {
    if i >= |lines| then [] else [i] + BlockStarts(lines, Step(lines, i).1)
  }

  /** The lines from `c` up to where the block starting at `c` ends. */
  predicate InBlock(lines: seq<string>, c: nat, j: nat) {
    c < |lines| && c <= j < Step(lines, c).1
  }

  /** The scan from `i` makes one block per start, the block its start's
      step makes. */
  lemma {:induction false} BlocksAtStarts(lines: seq<string>, i: nat)
    ensures |BlockStarts(lines, i)| == |ScanFrom(lines, i)|
    ensures var cs := BlockStarts(lines, i);
            forall k :: 0 <= k < |cs| ==> i <= cs[k] < |lines| && ScanFrom(lines, i)[k] == Step(lines, cs[k]).0
    decreases |lines| + 1 - i
  {
    if i < |lines| {
      var n := Step(lines, i).1;
      var cs, rest := BlockStarts(lines, i), BlockStarts(lines, n);
      BlocksAtStarts(lines, n);
      ScanFromStep(lines, i, []);
      assert cs == [i] + rest;
      forall k | 0 <= k < |cs|
        ensures i <= cs[k] < |lines| && ScanFrom(lines, i)[k] == Step(lines, cs[k]).0
      {
        if k > 0 {
          assert cs[k] == rest[k - 1];
        }
      }
    } else {
      ScanFromEnd(lines, i);
    }
  }

  /** The first block starts at `i`, each next one where the last one's
      lines end, and the last one reaches the end of the text. */
  lemma {:induction false} StartsChain(lines: seq<string>, i: nat)
    ensures var cs := BlockStarts(lines, i);
            && (forall k :: 0 <= k < |cs| ==> i <= cs[k] < |lines|)
            && (|cs| == 0 <==> i >= |lines|)
            && (|cs| > 0 ==> cs[0] == i && Step(lines, cs[|cs| - 1]).1 >= |lines|)
            && (forall k :: 0 <= k < |cs| - 1 ==> cs[k + 1] == Step(lines, cs[k]).1)
            && (forall k, m :: 0 <= k < m < |cs| ==> Step(lines, cs[k]).1 <= cs[m])
    decreases |lines| + 1 - i
  {
    if i < |lines| {
      var n := Step(lines, i).1;
      var cs, rest := BlockStarts(lines, i), BlockStarts(lines, n);
      StartsChain(lines, n);
      assert cs == [i] + rest;
      assert forall k :: 0 <= k < |cs| ==> i <= cs[k] < |lines| by {
        forall k | 0 <= k < |cs| ensures i <= cs[k] < |lines| {
          if k > 0 {
            assert cs[k] == rest[k - 1];
          }
        }
      }
      forall k | 0 <= k < |cs| - 1
        ensures cs[k + 1] == Step(lines, cs[k]).1
      {
        if k > 0 {
          assert cs[k] == rest[k - 1];
        }
      }
      forall k, m | 0 <= k < m < |cs|
        ensures Step(lines, cs[k]).1 <= cs[m]
      {
        assert cs[m] == rest[m - 1];
        if k > 0 {
          assert cs[k] == rest[k - 1];
        }
      }
    }
  }

  /** Every line from `i` on belongs to exactly one block of the scan from `i`. */
  lemma {:induction false} LineInOneBlock(lines: seq<string>, i: nat, j: nat)
    requires i <= j < |lines|
    ensures var cs := BlockStarts(lines, i);
            exists k :: 0 <= k < |cs| && InBlock(lines, cs[k], j)
    ensures var cs := BlockStarts(lines, i);
            forall k, m :: 0 <= k < |cs| && 0 <= m < |cs| && InBlock(lines, cs[k], j) && InBlock(lines, cs[m], j)
                           ==> k == m
    decreases j - i
  {
    var cs := BlockStarts(lines, i);
    var n := Step(lines, i).1;
    StartsChain(lines, i);
    assert cs == [i] + BlockStarts(lines, n);
    if j < n {
      assert InBlock(lines, cs[0], j);
    } else {
      LineInOneBlock(lines, n, j);
      var k :| 0 <= k < |BlockStarts(lines, n)| && InBlock(lines, BlockStarts(lines, n)[k], j);
      assert cs[k + 1] == BlockStarts(lines, n)[k];
    }
  }

  /** Every block takes at least one line, so there are never more blocks
      than lines. */
  lemma {:induction false} ScanLength(lines: seq<string>, i: nat)
    ensures |ScanFrom(lines, i)| <= if i <= |lines| then |lines| - i else 0
    decreases |lines| + 1 - i
  {
    if i < |lines| {
      ScanFromStep(lines, i, []);
      ScanLength(lines, Step(lines, i).1);
    } else {
      ScanFromEnd(lines, i);
    }
  }

  /** `ChatContent` makes at most one block per line of its text. */
  lemma BlocksPerLine(text: string)
    requires text != ""
    ensures |ChatContent(text).value| <= |Split(text, '\n')|
  {
    ScanLength(Split(text, '\n'), 0);
  }

  /** The first fit is the only fit that counts: a line that fits a kind
      and none tried before it is classified as that kind. */
  lemma ClassifyIs(line: string, kind: LineKind)
    requires Fits(line, kind)
    requires forall k :: Rank(k) < Rank(kind) ==> !Fits(line, k)
    ensures Classify(line) == kind
  {
    ClassifyFirstFit(line);
  }

  /** A line whose first character is not white space and none of `` ` ``,
      `#`, `-`, `*`, `_`, `+`, a digit or `>` is a paragraph. */
  lemma OrdinaryLine(s: string)
    requires s != [] && !IsSpace(s[0])
    requires s[0] !in "`#-*_+>" && !IsDigit(s[0])
    ensures Classify(s) == Text
  {
    assert TrimStart(s) == s;
    TrimKeepsFirst(s);
    NoHeading(s);
    assert !IsRule(s) && !IsBlank(s);
    assert BulletMatch(s).None?;
    assert DigitRun(s) == 0;
    assert OrderedMatch(s).None?;
  }

  lemma NotHeading(s: string, marks: string, p: nat)
    requires p <= |marks| < |s| && s[p] != (marks + " ")[p]
    ensures HeadingMatch(s, marks).None?
  {
    assert s[..|marks| + 1][p] == s[p];
  }

  /** Four or more hash marks make no heading: only three levels exist,
      and such a line is a paragraph. */
  lemma FourMarksMakeAParagraph(t: string)
    ensures Classify("####" + t) == Text
  {
    var s := "####" + t;
    assert s[0] == '#' && s[1] == '#' && s[2] == '#' && s[3] == '#';
    assert TrimStart(s) == s;
    TrimKeepsFirst(s);
    NotHeading(s, "#", 1);
    NotHeading(s, "##", 2);
    NotHeading(s, "###", 3);
    assert DigitRun(s) == 0;
    ClassifyIs(s, Text);
  }

  /** A line that does not start with `#` is no heading. */
  lemma NoHeading(s: string)
    requires s != [] && s[0] != '#'
    ensures HeadingMatch(s, "#").None? && HeadingMatch(s, "##").None? && HeadingMatch(s, "###").None?
  {
    if |s| > 1 {
      NotHeading(s, "#", 0);
    }
    if |s| > 2 {
      NotHeading(s, "##", 0);
    }
    if |s| > 3 {
      NotHeading(s, "###", 0);
    }
  }

  /** Backticks after any indentation open a fence, before any other rule
      is tried. */
  lemma IndentedFence(w: string, lang: string)
    requires AllSpace(w)
    ensures Classify(w + "```" + lang) == Fence
    ensures FenceLang(w + "```" + lang) == Trim(lang)
  {
    assert w + "```" + lang == w + ("```" + lang);
    TrimStartPadded(w, "```" + lang);
    FenceOpener(lang);
  }

  /** A line that is not all white space keeps its second character when
      trimmed, if it starts with a non-space character followed by a space. */
  lemma TrimKeepsSecond(s: string)
    requires |s| >= 2 && !IsSpace(s[0]) && !AllSpace(s[1..])
    ensures |Trim(s)| >= 2 && Trim(s)[1] == s[1]
  {
    assert TrimStart(s) == s;
    TrimEndShape(s);
  }

  /** A marker and a space never start a horizontal rule: the space is
      kept by trimming, or only the marker is left. */
  lemma MarkerIsNoRule(m: char, t: string)
    requires IsBulletChar(m)
    ensures !IsRule([m, ' '] + t)
  {
    var s := [m, ' '] + t;
    assert s[0] == m && s[1] == ' ';
    if AllSpace(s[1..]) {
      assert s == [m] + s[1..];
      OnlyFirstLeft(m, s[1..]);
    } else {
      TrimKeepsSecond(s);
    }
  }

  lemma OnlyFirstLeft(c: char, w: string)
    requires !IsSpace(c) && AllSpace(w)
    ensures Trim([c] + w) == [c]
  {
    assert TrimStart([c] + w) == [c] + w;
    TrimEndPadded([c], w);
    assert TrimEnd([c]) == [c];
  }

  /** What the patterns tried before lists say about a marker line. */
  lemma MarkerLine(m: char, t: string)
    requires IsBulletChar(m)
    requires t != [] && !IsLineTerminator(t[0])
    ensures var s := [m, ' '] + t;
            && !IsFence(s) && HeadingMatch(s, "#").None? && HeadingMatch(s, "##").None?
            && HeadingMatch(s, "###").None? && !IsRule(s)
            && BulletMatch(s) == Some(([], LineRun(t)))
  {
    var s := [m, ' '] + t;
    assert s[0] == m && s[1] == ' ' && s[2..] == t;
    assert TrimStart(s) == s;
    NoHeading(s);
    MarkerIsNoRule(m, t);
    assert LineRun(t) != [];
  }

  /** A marker, a space and some text make a bulleted line even when the
      text looks like a horizontal rule (`- - -`, `* * *`). */
  lemma MarkerMakesABullet(m: char, t: string)
    requires IsBulletChar(m)
    requires t != [] && !IsLineTerminator(t[0])
    ensures Classify([m, ' '] + t) == Bullet
    ensures BulletMatch([m, ' '] + t) == Some(([], LineRun(t)))
  {
    MarkerLine(m, t);
  }

  /** The number of leading digits of digits followed by something else. */
  lemma {:induction false} DigitsThen(d: string, t: string)
    requires forall k :: 0 <= k < |d| ==> IsDigit(d[k])
    requires t != [] && !IsDigit(t[0])
    ensures DigitRun(d + t) == |d|
  {
    if d != [] {
      assert (d + t)[1..] == d[1..] + t;
      DigitsThen(d[1..], t);
    }
  }

  /** What the patterns tried before numbered lists say about a numbered line. */
  lemma NumberLine(d: string, t: string)
    requires d != [] && forall k :: 0 <= k < |d| ==> IsDigit(d[k])
    requires t != [] && !IsLineTerminator(t[0])
    ensures var s := d + ". " + t;
            && !IsFence(s) && HeadingMatch(s, "#").None? && HeadingMatch(s, "##").None?
            && HeadingMatch(s, "###").None? && !IsRule(s) && BulletMatch(s).None?
            && OrderedMatch(s) == Some(LineRun(t))
  {
    var s := d + ". " + t;
    assert s == d + (". " + t);
    assert s[0] == d[0];
    assert TrimStart(s) == s;
    TrimKeepsFirst(s);
    NoHeading(s);
    DigitsThen(d, ". " + t);
    assert s[|d|] == '.' && s[|d| + 1] == ' ' && s[|d| + 2..] == t;
  }

  /** Digits, a full stop, a space and some text make a numbered line. */
  lemma NumberMakesAnEntry(d: string, t: string)
    requires d != [] && forall k :: 0 <= k < |d| ==> IsDigit(d[k])
    requires t != [] && !IsLineTerminator(t[0])
    ensures Classify(d + ". " + t) == Ordered
    ensures OrderedMatch(d + ". " + t) == Some(LineRun(t))
  {
    NumberLine(d, t);
  }
}
