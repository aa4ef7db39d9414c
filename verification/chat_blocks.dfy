/**
 * The block scanner of `ChatContent`: the text is split into lines, and a
 * cursor walks them, turning each line (or run of lines) into one block by
 * the first rule that fits: fenced code, heading of level 1 to 3,
 * horizontal rule, bulleted list, numbered list, quotation, spacer,
 * paragraph. Rendering to React elements is left as the `Block` values.
 */
module ChatBlocks {
  import opened Wrappers
  import opened JsString
  import opened InlineSpans

  /** A bulleted-list item: its left margin in pixels and its text. */
  datatype ListItem = ListItem(marginPx: nat, content: seq<Inline>)

  /** A rendered block. A code block shows its language label only when the
      label is not empty. */
  datatype Block =
    | CodeBlock(lang: string, code: string)
    | Heading(level: nat, content: seq<Inline>)
    | Rule
    | Bullets(bullets: seq<ListItem>)
    | Numbered(entries: seq<seq<Inline>>)
    | Quote(content: seq<Inline>)
    | Spacer
    | Paragraph(content: seq<Inline>)

  // ---------------------------------------------------------------------
  // Line patterns
  // ---------------------------------------------------------------------

  /** What `(.+)` captures at the start of `s`: the longest prefix without a
      line terminator. */
  function LineRun(s: string): (r: string)
    ensures |r| <= |s| && r == s[..|r|]
    ensures forall k :: 0 <= k < |r| ==> !IsLineTerminator(r[k])
    ensures |r| < |s| ==> IsLineTerminator(s[|r|])
  {
    if s == [] || IsLineTerminator(s[0]) then []
    else
      var r := [s[0]] + LineRun(s[1..]);
      assert s == [s[0]] + s[1..];
      r
  }

  /** `line.trimStart().startsWith('```')`: three backticks after the leading white space. */
  predicate IsFence(line: string) {
    var t := TrimStart(line);
    |t| >= 3 && t[0] == '`' && t[1] == '`' && t[2] == '`'
  }

  /** `line.trimStart().slice(3).trim()`: the language label of a fence. */
  function FenceLang(line: string): string
    requires IsFence(line)
  {
    Trim(TrimStart(line)[3..])
  }

  /** `line.match(/^# (.+)/)` and its deeper variants, `marks` being the
      hash marks: the exact prefix `marks` and a space, then at least one
      character other than a line terminator; the capture is the longest
      such run. */
  function HeadingMatch(line: string, marks: string): (r: Option<string>)
    ensures r.Some? ==> StartsWith(line, marks + " ") && r.value != []
                        && r.value == LineRun(line[|marks| + 1..])
  {
    var prefix := marks + " ";
    if StartsWith(line, prefix) && LineRun(line[|prefix|..]) != [] then Some(LineRun(line[|prefix|..]))
    else None
  }

  predicate IsRuleChar(c: char) {
    c == '-' || c == '*' || c == '_'
  }

  /** `/^[-*_]{3,}$/.test(line.trim())`. */
  predicate IsRule(line: string) {
    var t := Trim(line);
    |t| >= 3 && forall k :: 0 <= k < |t| ==> IsRuleChar(t[k])
  }

  predicate IsBulletChar(c: char) {
    c == '*' || c == '-' || c == '+'
  }

  /** `line.match(/^(\s*)[*\-+] (.+)/)`: the leading white space and the
      item text. The leading run is the longest one, since a marker is never
      white space. */
  function BulletMatch(line: string): (r: Option<(string, string)>)
    ensures r.Some? ==> && |r.value.0| == |line| - |TrimStart(line)|
                        && r.value.0 == line[..|r.value.0|]
                        && AllSpace(r.value.0)
                        && r.value.1 != []
  {
    TrimStartShape(line);
    var w := |line| - |TrimStart(line)|;
    var rest := line[w..];
    if |rest| >= 2 && IsBulletChar(rest[0]) && rest[1] == ' ' && LineRun(rest[2..]) != [] then
      Some((line[..w], LineRun(rest[2..])))
    else None
  }

  predicate IsDigit(c: char) {
    '0' <= c <= '9'
  }

  /** The number of leading ASCII digits of `s`. */
  function DigitRun(s: string): (n: nat)
    ensures n <= |s|
    ensures forall k :: 0 <= k < n ==> IsDigit(s[k])
    ensures n < |s| ==> !IsDigit(s[n])
  {
    if s == [] || !IsDigit(s[0]) then 0 else 1 + DigitRun(s[1..])
  }

  /** `line.match(/^\s*\d+\. (.+)/)`: the item text after the number. */
  function OrderedMatch(line: string): (r: Option<string>)
    ensures r.Some? ==> r.value != []
  {
    var rest := TrimStart(line);
    var n := DigitRun(rest);
    if n >= 1 && n + 2 <= |rest| && rest[n] == '.' && rest[n + 1] == ' ' && LineRun(rest[n + 2..]) != [] then
      Some(LineRun(rest[n + 2..]))
    else None
  }

  /** `line.startsWith('> ')`. */
  predicate IsQuote(line: string) {
    StartsWith(line, "> ")
  }

  /** `line.trim() === ''`. */
  predicate IsBlank(line: string) {
    Trim(line) == []
  }

  // ---------------------------------------------------------------------
  // Precedence
  // ---------------------------------------------------------------------

  datatype LineKind = Fence | H1 | H2 | H3 | HorizontalRule | Bullet | Ordered | QuoteLine | Blank | Text

  /** Whether a line fits a kind's own pattern, whatever the other kinds say. */
  predicate Fits(line: string, kind: LineKind) {
    match kind
    case Fence => IsFence(line)
    case H1 => HeadingMatch(line, "#").Some?
    case H2 => HeadingMatch(line, "##").Some?
    case H3 => HeadingMatch(line, "###").Some?
    case HorizontalRule => IsRule(line)
    case Bullet => BulletMatch(line).Some?
    case Ordered => OrderedMatch(line).Some?
    case QuoteLine => IsQuote(line)
    case Blank => IsBlank(line)
    case Text => true
  }

  /** The order in which the scanner tries the kinds. */
  function Rank(kind: LineKind): nat {
    match kind
    case Fence => 0
    case H1 => 1
    case H2 => 2
    case H3 => 3
    case HorizontalRule => 4
    case Bullet => 5
    case Ordered => 6
    case QuoteLine => 7
    case Blank => 8
    case Text => 9
  }

  /** The kind the scanner gives a line at the start of a block: the first,
      in the scanner's order, whose pattern the line fits. */
  function Classify(line: string): (r: LineKind)
    ensures Fits(line, r)
  {
    if IsFence(line) then Fence
    else if HeadingMatch(line, "#").Some? then H1
    else if HeadingMatch(line, "##").Some? then H2
    else if HeadingMatch(line, "###").Some? then H3
    else if IsRule(line) then HorizontalRule
    else if BulletMatch(line).Some? then Bullet
    else if OrderedMatch(line).Some? then Ordered
    else if IsQuote(line) then QuoteLine
    else if IsBlank(line) then Blank
    else Text
  }

  /** The first fit wins: no kind tried earlier fits a classified line. */
  lemma ClassifyFirstFit(line: string)
    ensures forall kind :: Rank(kind) < Rank(Classify(line)) ==> !Fits(line, kind)
  {
    var r := Classify(line);
    forall kind | Rank(kind) < Rank(r)
      ensures !Fits(line, kind)
    {
      match kind
      case Fence =>
      case H1 =>
      case H2 =>
      case H3 =>
      case HorizontalRule =>
      case Bullet =>
      case Ordered =>
      case QuoteLine =>
      case Blank =>
      case Text =>
    }
  }

  // ---------------------------------------------------------------------
  // The scan, as a specification
  // ---------------------------------------------------------------------

  /** The end of the run of lines from `j` on that `fits` accepts: the
      first line it rejects, or the end of the text. */
  function RunEnd(lines: seq<string>, j: nat, fits: string -> bool): (r: nat)
    requires j <= |lines|
    ensures j <= r <= |lines|
    ensures forall k :: j <= k < r ==> fits(lines[k])
    ensures r < |lines| ==> !fits(lines[r])
    decreases |lines| - j
  {
    if j == |lines| || !fits(lines[j]) then j else RunEnd(lines, j + 1, fits)
  }

  /** A line inside a fence body. */
  predicate NotFence(line: string) {
    !IsFence(line)
  }

  predicate IsBulletLine(line: string) {
    BulletMatch(line).Some?
  }

  predicate IsOrderedLine(line: string) {
    OrderedMatch(line).Some?
  }

  /** A bulleted line as an item: 8 pixels of margin per leading white-space
      character, and its text. Only bulleted lines are ever made items. */
  function BulletItem(line: string): (r: ListItem)
    ensures IsBulletLine(line) ==> r.marginPx == 8 * (|line| - |TrimStart(line)|)
  {
    match BulletMatch(line)
    case Some(m) => ListItem(8 * |m.0|, InlineFormatAsWritten(m.1))
    case None => ListItem(0, [])
  }

  /** A numbered line as an item: its text after the number. Only numbered
      lines are ever made items. */
  function OrderedItem(line: string): seq<Inline> {
    match OrderedMatch(line)
    case Some(t) => InlineFormatAsWritten(t)
    case None => []
  }

  /** `f` applied to the lines `lo` to `hi`, in order. */
  function MapLines<T>(lines: seq<string>, lo: nat, hi: nat, f: string -> T): (r: seq<T>)
    requires lo <= hi <= |lines|
    ensures |r| == hi - lo
    ensures forall k :: 0 <= k < |r| ==> r[k] == f(lines[lo + k])
  {
    seq(hi - lo, k requires 0 <= k < hi - lo => f(lines[lo + k]))
  }

  lemma MapLinesSnoc<T>(lines: seq<string>, lo: nat, hi: nat, f: string -> T)
    requires lo <= hi < |lines|
    ensures MapLines(lines, lo, hi + 1, f) == MapLines(lines, lo, hi, f) + [f(lines[hi])]
  {
  }

  /** A fenced code block opened at line `i`: the language label, the body
      lines up to the next fence line joined back together, and the index
      after the closing fence (one past the end when there is none). */
  function FenceStep(lines: seq<string>, i: nat): (r: (Block, nat))
    requires i < |lines| && IsFence(lines[i])
    ensures i < r.1 <= |lines| + 1
  {
    var e := RunEnd(lines, i + 1, NotFence);
    (CodeBlock(FenceLang(lines[i]), Join(lines[i + 1..e], "\n")), e + 1)
  }

  lemma FenceStepIs(lines: seq<string>, i: nat, codeLines: seq<string>, end: nat)
    requires i < |lines| && IsFence(lines[i])
    requires end == RunEnd(lines, i + 1, NotFence) && codeLines == lines[i + 1..end]
    ensures FenceStep(lines, i).0 == CodeBlock(FenceLang(lines[i]), Join(codeLines, "\n"))
    ensures FenceStep(lines, i).1 == end + 1
  {
  }

  /** A bulleted list starting at line `i`: the longest run of bulleted lines. */
  function BulletStep(lines: seq<string>, i: nat): (r: (Block, nat))
    requires i < |lines| && IsBulletLine(lines[i])
    ensures i < r.1 <= |lines|
  {
    var e := RunEnd(lines, i, IsBulletLine);
    (Bullets(MapLines(lines, i, e, BulletItem)), e)
  }

  /** A numbered list starting at line `i`: the longest run of numbered lines. */
  function OrderedStep(lines: seq<string>, i: nat): (r: (Block, nat))
    requires i < |lines| && IsOrderedLine(lines[i])
    ensures i < r.1 <= |lines|
  {
    var e := RunEnd(lines, i, IsOrderedLine);
    (Numbered(MapLines(lines, i, e, OrderedItem)), e)
  }

  /** The block of a line of a single-line kind. */
  function LineBlock(line: string, kind: LineKind): Block
    requires kind != Fence && kind != Bullet && kind != Ordered && Fits(line, kind)
  {
    match kind
    case H1 => Heading(1, InlineFormatAsWritten(HeadingMatch(line, "#").value))
    case H2 => Heading(2, InlineFormatAsWritten(HeadingMatch(line, "##").value))
    case H3 => Heading(3, InlineFormatAsWritten(HeadingMatch(line, "###").value))
    case HorizontalRule => Rule
    case QuoteLine => Quote(InlineFormatAsWritten(line[2..]))
    case Blank => Spacer
    case Text => Paragraph(InlineFormatAsWritten(line))
  }

  /** One step of the scan at line `i`: the block it produces and the index
      of the line after it. */
  function Step(lines: seq<string>, i: nat): (r: (Block, nat))
    requires i < |lines|
    ensures i < r.1 <= |lines| + 1
  {
    var kind := Classify(lines[i]);
    if kind == Fence then FenceStep(lines, i)
    else if kind == Bullet then BulletStep(lines, i)
    else if kind == Ordered then OrderedStep(lines, i)
    else (LineBlock(lines[i], kind), i + 1)
  }

  /** The blocks from line `i` on. */
  function ScanFrom(lines: seq<string>, i: nat): seq<Block>
    decreases |lines| + 1 - i
  {
    if i >= |lines| then []
    else
      var (b, next) := Step(lines, i);
      [b] + ScanFrom(lines, next)
  }

  lemma ScanFromStep(lines: seq<string>, i: nat, done: seq<Block>)
    requires i < |lines|
    ensures done + ScanFrom(lines, i) == done + [Step(lines, i).0] + ScanFrom(lines, Step(lines, i).1)
  {
  }

  lemma ScanFromEnd(lines: seq<string>, i: nat)
    requires i >= |lines|
    ensures ScanFrom(lines, i) == []
  {
  }

  /** `ChatContent({ text })`: nothing for empty text, otherwise the blocks
      of its lines. */
  function ChatContent(text: string): (r: Option<seq<Block>>)
    ensures r.None? <==> text == ""
  {
    if text == "" then None else Some(ScanFrom(Split(text, '\n'), 0))
  }

  // ---------------------------------------------------------------------
  // The scan, as the source runs it
  // ---------------------------------------------------------------------

  /** The inner loop of a fence opened at line `start`: the body lines, up
      to the next fence line or the end, and where the cursor stops. */
  method CollectFence(lines: seq<string>, start: nat) returns (codeLines: seq<string>, i: nat)
    requires start < |lines|
    ensures i == RunEnd(lines, start + 1, NotFence)
    ensures codeLines == lines[start + 1..i]
  {
    codeLines := [];
    i := start + 1;
    while i < |lines| && !IsFence(lines[i])
      invariant start + 1 <= i <= |lines|
      invariant codeLines == lines[start + 1..i]
      invariant RunEnd(lines, i, NotFence) == RunEnd(lines, start + 1, NotFence)
      decreases |lines| - i
    {
      codeLines := codeLines + [lines[i]];
      i := i + 1;
    }
  }

  /** The inner loop of a bulleted list starting at line `start`: one item
      per line while the lines match, and where the cursor stops. */
  method CollectBullets(lines: seq<string>, start: nat) returns (listItems: seq<ListItem>, i: nat)
    requires start < |lines|
    ensures i == RunEnd(lines, start, IsBulletLine)
    ensures listItems == MapLines(lines, start, i, BulletItem)
  {
    listItems := [];
    i := start;
    while i < |lines| && IsBulletLine(lines[i])
      invariant start <= i <= |lines|
      invariant listItems == MapLines(lines, start, i, BulletItem)
      invariant RunEnd(lines, i, IsBulletLine) == RunEnd(lines, start, IsBulletLine)
      decreases |lines| - i
    {
      var m := BulletMatch(lines[i]).value;
      var item := ListItem(|m.0| * 8, InlineFormatAsWritten(m.1));
      assert item == BulletItem(lines[i]);
      MapLinesSnoc(lines, start, i, BulletItem);
      listItems := listItems + [item];
      i := i + 1;
    }
  }

  /** The inner loop of a numbered list starting at line `start`. */
  method CollectOrdered(lines: seq<string>, start: nat) returns (listItems: seq<seq<Inline>>, i: nat)
    requires start < |lines|
    ensures i == RunEnd(lines, start, IsOrderedLine)
    ensures listItems == MapLines(lines, start, i, OrderedItem)
  {
    listItems := [];
    i := start;
    while i < |lines| && IsOrderedLine(lines[i])
      invariant start <= i <= |lines|
      invariant listItems == MapLines(lines, start, i, OrderedItem)
      invariant RunEnd(lines, i, IsOrderedLine) == RunEnd(lines, start, IsOrderedLine)
      decreases |lines| - i
    {
      var item := InlineFormatAsWritten(OrderedMatch(lines[i]).value);
      assert item == OrderedItem(lines[i]);
      MapLinesSnoc(lines, start, i, OrderedItem);
      listItems := listItems + [item];
      i := i + 1;
    }
  }

  /** One pass of the scanner loop at line `i`: the block it pushes and
      where the cursor goes next. */
  method ScanBlock(lines: seq<string>, i: nat) returns (block: Block, next: nat)
    requires i < |lines|
    ensures block == Step(lines, i).0 && next == Step(lines, i).1
  {
    var line := lines[i];
    if IsFence(line) {
      var lang := Trim(TrimStart(line)[3..]);
      var codeLines, end := CollectFence(lines, i);
      block := CodeBlock(lang, Join(codeLines, "\n"));
      next := end + 1;
      assert Classify(line) == Fence;
      FenceStepIs(lines, i, codeLines, end);
      return;
    }
    var h3 := HeadingMatch(line, "###");
    var h2 := HeadingMatch(line, "##");
    var h1 := HeadingMatch(line, "#");
    if h1.Some? {
      assert Classify(line) == H1;
      block := Heading(1, InlineFormatAsWritten(h1.value));
      next := i + 1;
    } else if h2.Some? {
      assert Classify(line) == H2;
      block := Heading(2, InlineFormatAsWritten(h2.value));
      next := i + 1;
    } else if h3.Some? {
      assert Classify(line) == H3;
      block := Heading(3, InlineFormatAsWritten(h3.value));
      next := i + 1;
    } else if IsRule(line) {
      assert Classify(line) == HorizontalRule;
      block := Rule;
      next := i + 1;
    } else if BulletMatch(line).Some? {
      var listItems;
      assert Classify(line) == Bullet;
      listItems, next := CollectBullets(lines, i);
      block := Bullets(listItems);
    } else if OrderedMatch(line).Some? {
      var listItems;
      assert Classify(line) == Ordered;
      listItems, next := CollectOrdered(lines, i);
      block := Numbered(listItems);
    } else if IsQuote(line) {
      assert Classify(line) == QuoteLine;
      block := Quote(InlineFormatAsWritten(line[2..]));
      next := i + 1;
    } else if IsBlank(line) {
      assert Classify(line) == Blank;
      block := Spacer;
      next := i + 1;
    } else {
      assert Classify(line) == Text;
      block := Paragraph(InlineFormatAsWritten(line));
      next := i + 1;
    }
  }

  /** The scanner loop: a cursor over the lines, each pass appending one
      block to `elements`. */
  method ScanLines(lines: seq<string>) returns (elements: seq<Block>)
    ensures elements == ScanFrom(lines, 0)
  {
    elements := [];
    var i := 0;
    while i < |lines|
      invariant 0 <= i <= |lines| + 1
      invariant elements + ScanFrom(lines, i) == ScanFrom(lines, 0)
      decreases |lines| + 1 - i
    {
      var block, next := ScanBlock(lines, i);
      ScanFromStep(lines, i, elements);
      elements := elements + [block];
      i := next;
    }
    ScanFromEnd(lines, i);
  }

  /** `ChatContent({ text })` as the source runs it. */
  method RenderChat(text: string) returns (out: Option<seq<Block>>)
    ensures out == ChatContent(text)
  {
    if text == "" {
      return None;
    }
    var lines := Split(text, '\n');
    var elements := ScanLines(lines);
    return Some(elements);
  }
}
