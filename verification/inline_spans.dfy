/**
 * `inlineFormat`: a line of chat text cut into inline code, bold and italic
 * spans. The line is split on code spans first; what lies between them is
 * split on bold spans, and what lies between those on italic spans. Each
 * split is JavaScript's `split` with a capturing regular expression, so the
 * pieces alternate between text and matched spans.
 */
module InlineSpans {
  import opened Wrappers
  import opened JsString

  /** A rendered inline piece: text, `<code>`, `<strong>` or `<em>`, each
      holding its text without the delimiters. */
  datatype Inline = Plain(text: string) | Code(text: string) | Strong(text: string) | Em(text: string)

  const CodeMark: string := "`"
  const BoldMark: string := "**"
  const ItalicMark: string := "*"

  /** What the pattern `d[^c]+d` matches, `c` being the delimiter's
      character: the delimiter, one or more other characters, the delimiter. */
  predicate IsSpan(part: string, d: string) {
    && 0 < |d|
    && |part| >= 2 * |d| + 1
    && part[..|d|] == d
    && part[|part| - |d|..] == d
    && d[0] !in part[|d|..|part| - |d|]
  }

  /** Where a match of `d[^c]+d` starting exactly at `q` ends, if there is
      one: the character run stops at the first `c`, which must begin a
      closing delimiter. */
  function MatchEnd(s: string, q: nat, d: string): (r: Option<nat>)
    requires 0 < |d|
    ensures r.Some? ==> q < r.value <= |s| && IsSpan(s[q..r.value], d)
  {
    if q + |d| <= |s| && s[q..q + |d|] == d then
      var k := FirstIndex(s[q + |d|..], d[0]);
      var e := q + |d| + k + |d|;
      if k >= 1 && e <= |s| && s[q + |d| + k..e] == d then
        SpanAt(s, q, k, d);
        Some(e)
      else None
    else None
  }

  /** A delimiter at `q`, `k` characters free of its first character, and
      the delimiter again make a span. */
  lemma SpanAt(s: string, q: nat, k: nat, d: string)
    requires 0 < |d| && 1 <= k && q + |d| + k + |d| <= |s|
    requires s[q..q + |d|] == d && s[q + |d| + k..q + |d| + k + |d|] == d
    requires d[0] !in s[q + |d|..][..k]
    ensures IsSpan(s[q..q + |d| + k + |d|], d)
  {
    var n := |d|;
    var part := s[q..q + n + k + n];
    assert part[..n] == s[q..q + n];
    assert part[|part| - n..] == s[q + n + k..q + n + k + n];
    assert part[n..|part| - n] == s[q + n..][..k];
  }

  /** The pieces concatenated in order. */
  function Concat(parts: seq<string>): string {
    if |parts| == 0 then "" else parts[0] + Concat(parts[1..])
  }

  /** JavaScript's `split` with the capturing pattern `(d[^c]+d)`, from text
      start `p` and search position `q`: a match is sought at each position
      in turn; each one found closes the current text piece and is kept as a
      piece of its own, and the search resumes after it. */
  function SplitFrom(s: string, d: string, p: nat, q: nat): (r: seq<string>)
    requires 0 < |d| && p <= q <= |s|
    ensures |r| % 2 == 1
    ensures Concat(r) == s[p..]
    ensures forall k :: 0 <= k < |r| && k % 2 == 1 ==> IsSpan(r[k], d)
    decreases |s| - q
  {
    if q == |s| then [s[p..]]
    else
      match MatchEnd(s, q, d)
      case Some(e) =>
        var rest := SplitFrom(s, d, e, e);
        ConsPieces(s[p..q], s[q..e], rest, d);
        SliceThree(s, p, q, e);
        [s[p..q], s[q..e]] + rest
      case None => SplitFrom(s, d, p, q + 1)
  }

  /** A suffix cut in three at `q` and `e`. */
  lemma SliceThree(s: string, p: nat, q: nat, e: nat)
    requires p <= q <= e <= |s|
    ensures s[p..] == s[p..q] + (s[q..e] + s[e..])
  {
  }

  /** A text piece and a span put in front of an alternating split. */
  lemma ConsPieces(t: string, m: string, rest: seq<string>, d: string)
    requires IsSpan(m, d)
    requires |rest| % 2 == 1
    requires forall k :: 0 <= k < |rest| && k % 2 == 1 ==> IsSpan(rest[k], d)
    ensures var r := [t, m] + rest;
            && |r| % 2 == 1
            && Concat(r) == t + (m + Concat(rest))
            && forall k :: 0 <= k < |r| && k % 2 == 1 ==> IsSpan(r[k], d)
  {
    var r := [t, m] + rest;
    assert r[1..][1..] == rest;
    forall k | 0 <= k < |r| && k % 2 == 1
      ensures IsSpan(r[k], d)
    {
      if k > 1 {
        assert r[k] == rest[k - 2];
      }
    }
  }

  /** `s.split(/(d[^c]+d)/g)`: text pieces at even positions, matched spans
      at odd positions, and nothing lost. */
  function SplitSpans(s: string, d: string): (r: seq<string>)
    requires 0 < |d|
    ensures |r| % 2 == 1
    ensures Concat(r) == s
    ensures forall k :: 0 <= k < |r| && k % 2 == 1 ==> IsSpan(r[k], d)
  {
    SplitFrom(s, d, 0, 0)
  }

  /** `part.slice(n, -n)`: a span with its delimiters removed. */
  function Inner(part: string, d: string): (r: string)
    requires IsSpan(part, d)
    ensures d + r + d == part
    ensures d[0] !in r
  {
    var r := SliceTrim(part, |d|, |d|);
    assert part == part[..|d|] + r + part[|part| - |d|..];
    r
  }

  /** The source text of an inline piece, delimiters restored. */
  function Show(x: Inline): string {
    match x
    case Plain(t) => t
    case Code(t) => CodeMark + t + CodeMark
    case Strong(t) => BoldMark + t + BoldMark
    case Em(t) => ItalicMark + t + ItalicMark
  }

  /** The source text of a run of inline pieces. */
  function Unformat(xs: seq<Inline>): string {
    if |xs| == 0 then "" else Show(xs[0]) + Unformat(xs[1..])
  }

  lemma {:induction false} UnformatAppend(a: seq<Inline>, b: seq<Inline>)
    ensures Unformat(a + b) == Unformat(a) + Unformat(b)
    decreases |a|
  {
    if |a| > 0 {
      var ab := a + b;
      assert ab[0] == a[0] && ab[1..] == a[1..] + b;
      calc {
        Unformat(ab);
        Show(a[0]) + Unformat(a[1..] + b);
        { UnformatAppend(a[1..], b); }
        Show(a[0]) + Unformat(a[1..]) + Unformat(b);
      }
    } else {
      assert a + b == b;
    }
  }

  // ---------------------------------------------------------------------
  // The corrected splitter: a piece is a span exactly when the split
  // produced it as a match (an odd position).
  // ---------------------------------------------------------------------

  /** Italic level: text pieces stay text, matched spans become emphasis. */
  function ItalicSpans(parts: seq<string>): seq<Inline>
    requires forall k :: 0 <= k < |parts| && k % 2 == 1 ==> IsSpan(parts[k], ItalicMark)
  {
    if |parts| <= 1 then seq(|parts|, k requires 0 <= k < |parts| => Plain(parts[k]))
    else [Plain(parts[0]), Em(Inner(parts[1], ItalicMark))] + ItalicSpans(parts[2..])
  }

  function FormatItalic(t: string): seq<Inline> {
    ItalicSpans(SplitSpans(t, ItalicMark))
  }

  /** Bold level: text pieces go on to the italic split, matched spans
      become strong text. */
  function BoldSpans(parts: seq<string>): seq<Inline>
    requires forall k :: 0 <= k < |parts| && k % 2 == 1 ==> IsSpan(parts[k], BoldMark)
  {
    if |parts| == 0 then []
    else if |parts| == 1 then FormatItalic(parts[0])
    else FormatItalic(parts[0]) + [Strong(Inner(parts[1], BoldMark))] + BoldSpans(parts[2..])
  }

  function FormatBold(t: string): seq<Inline> {
    BoldSpans(SplitSpans(t, BoldMark))
  }

  /** Code level: text pieces go on to the bold split, matched spans become
      code, with no further formatting inside. */
  function CodeSpans(parts: seq<string>): seq<Inline>
    requires forall k :: 0 <= k < |parts| && k % 2 == 1 ==> IsSpan(parts[k], CodeMark)
  {
    if |parts| == 0 then []
    else if |parts| == 1 then FormatBold(parts[0])
    else FormatBold(parts[0]) + [Code(Inner(parts[1], CodeMark))] + CodeSpans(parts[2..])
  }

  /** `inlineFormat(raw)`, classifying pieces by the position the split gave them. */
  function InlineFormat(raw: string): seq<Inline> {
    CodeSpans(SplitSpans(raw, CodeMark))
  }

  lemma {:induction false} ItalicRoundTrip(parts: seq<string>)
    requires forall k :: 0 <= k < |parts| && k % 2 == 1 ==> IsSpan(parts[k], ItalicMark)
    ensures Unformat(ItalicSpans(parts)) == Concat(parts)
    decreases |parts|
  {
    if |parts| == 1 {
      assert Unformat(ItalicSpans(parts)) == parts[0] + Unformat([]);
    } else if |parts| > 1 {
      var head := [Plain(parts[0]), Em(Inner(parts[1], ItalicMark))];
      UnformatAppend(head, ItalicSpans(parts[2..]));
      ItalicRoundTrip(parts[2..]);
      assert Unformat(head) == parts[0] + (parts[1] + Unformat([]));
      assert Concat(parts) == parts[0] + (parts[1] + Concat(parts[2..]));
    }
  }

  lemma FormatItalicRoundTrip(t: string)
    ensures Unformat(FormatItalic(t)) == t
  {
    ItalicRoundTrip(SplitSpans(t, ItalicMark));
  }

  lemma {:induction false} BoldRoundTrip(parts: seq<string>)
    requires forall k :: 0 <= k < |parts| && k % 2 == 1 ==> IsSpan(parts[k], BoldMark)
    ensures Unformat(BoldSpans(parts)) == Concat(parts)
    decreases |parts|
  {
    if |parts| == 1 {
      FormatItalicRoundTrip(parts[0]);
    } else if |parts| > 1 {
      var inner := Inner(parts[1], BoldMark);
      var tail := parts[2..];
      assert forall k :: 0 <= k < |tail| && k % 2 == 1 ==> IsSpan(tail[k], BoldMark) by {
        forall k | 0 <= k < |tail| && k % 2 == 1 ensures IsSpan(tail[k], BoldMark) {
          assert tail[k] == parts[k + 2];
        }
      }
      FormatItalicRoundTrip(parts[0]);
      BoldRoundTrip(tail);
      UnformatAround(FormatItalic(parts[0]), Strong(inner), BoldSpans(tail));
      assert Concat(parts) == parts[0] + (parts[1] + Concat(tail));
    }
  }

  lemma FormatBoldRoundTrip(t: string)
    ensures Unformat(FormatBold(t)) == t
  {
    BoldRoundTrip(SplitSpans(t, BoldMark));
  }

  lemma {:induction false} CodeRoundTrip(parts: seq<string>)
    requires forall k :: 0 <= k < |parts| && k % 2 == 1 ==> IsSpan(parts[k], CodeMark)
    ensures Unformat(CodeSpans(parts)) == Concat(parts)
    decreases |parts|
  {
    if |parts| == 1 {
      FormatBoldRoundTrip(parts[0]);
    } else if |parts| > 1 {
      var inner := Inner(parts[1], CodeMark);
      var tail := parts[2..];
      assert forall k :: 0 <= k < |tail| && k % 2 == 1 ==> IsSpan(tail[k], CodeMark) by {
        forall k | 0 <= k < |tail| && k % 2 == 1 ensures IsSpan(tail[k], CodeMark) {
          assert tail[k] == parts[k + 2];
        }
      }
      FormatBoldRoundTrip(parts[0]);
      CodeRoundTrip(tail);
      UnformatAround(FormatBold(parts[0]), Code(inner), CodeSpans(tail));
      assert Concat(parts) == parts[0] + (parts[1] + Concat(tail));
    }
  }

  /** Unformatting a run with one piece in the middle. */
  lemma UnformatAround(a: seq<Inline>, x: Inline, b: seq<Inline>)
    ensures Unformat(a + [x] + b) == Unformat(a) + (Show(x) + Unformat(b))
  {
    assert a + [x] + b == a + ([x] + b);
    UnformatAppend(a, [x] + b);
    assert ([x] + b)[0] == x && ([x] + b)[1..] == b;
  }

  /** Formatting loses nothing: putting the delimiters back around every
      span gives the line back. */
  lemma InlineRoundTrip(raw: string)
    ensures Unformat(InlineFormat(raw)) == raw
  {
    CodeRoundTrip(SplitSpans(raw, CodeMark));
  }

  // ---------------------------------------------------------------------
  // The splitter as written: a piece is rendered as a span whenever it
  // starts and ends with the delimiter, whether or not the split matched it.
  // ---------------------------------------------------------------------

  /** A piece that starts and ends with `d`. */
  predicate Delimited(part: string, d: string) {
    StartsWith(part, d) && EndsWith(part, d)
  }

  /** The pieces of a split, each rendered by `f`, in order: the `map` of
      the source with its results flattened. */
  function Pieces(parts: seq<string>, f: string -> seq<Inline>): seq<Inline> {
    if |parts| == 0 then [] else f(parts[0]) + Pieces(parts[1..], f)
  }

  /** An italic-level piece: emphasis when it starts and ends with `*`. */
  function ItalicPiece(part: string): seq<Inline> {
    if Delimited(part, ItalicMark) then [Em(SliceTrim(part, 1, 1))] else [Plain(part)]
  }

  function ItalicAsWritten(parts: seq<string>): seq<Inline> {
    Pieces(parts, ItalicPiece)
  }

  /** A bold-level piece: strong text when it starts and ends with `**`,
      otherwise its italic split. */
  function BoldPiece(part: string): seq<Inline> {
    if Delimited(part, BoldMark) then [Strong(SliceTrim(part, 2, 2))]
    else ItalicAsWritten(SplitSpans(part, ItalicMark))
  }

  function BoldAsWritten(parts: seq<string>): seq<Inline> {
    Pieces(parts, BoldPiece)
  }

  /** A code-level piece: code when it starts and ends with a backtick,
      otherwise its bold split. */
  function CodePiece(part: string): seq<Inline> {
    if Delimited(part, CodeMark) then [Code(SliceTrim(part, 1, 1))]
    else BoldAsWritten(SplitSpans(part, BoldMark))
  }

  function CodeAsWritten(parts: seq<string>): seq<Inline> {
    Pieces(parts, CodePiece)
  }

  /** `inlineFormat(raw)` as written. */
  function InlineFormatAsWritten(raw: string): seq<Inline> {
    CodeAsWritten(SplitSpans(raw, CodeMark))
  }

  /** A lone backtick or asterisk is a text piece that starts and ends with
      its delimiter: as written it renders as an empty code or emphasis
      element and the character is lost; the corrected splitter keeps it as
      text. */
  lemma LoneDelimiterLost()
    ensures InlineFormatAsWritten("`") == [Code("")]
    ensures Unformat(InlineFormatAsWritten("`")) != "`"
    ensures InlineFormat("`") == [Plain("`")]
    ensures InlineFormatAsWritten("*") == [Em("")]
    ensures Unformat(InlineFormatAsWritten("*")) != "*"
    ensures InlineFormat("*") == [Plain("*")]
  {
    assert SplitSpans("`", CodeMark) == ["`"];
    assert SplitSpans("*", CodeMark) == ["*"];
    assert SplitSpans("*", BoldMark) == ["*"];
    assert SplitSpans("*", ItalicMark) == ["*"];
    assert SplitSpans("`", BoldMark) == ["`"];
    assert SplitSpans("`", ItalicMark) == ["`"];
    assert Unformat([Code("")]) == "``";
    assert Unformat([Em("")]) == "**";
  }

  // ---------------------------------------------------------------------
  // When the splitter as written agrees with the corrected one
  // ---------------------------------------------------------------------

  /** No text piece (even position) of an italic split starts and ends with `*`. */
  predicate ItalicClean(parts: seq<string>) {
    |parts| == 0
    || (!Delimited(parts[0], ItalicMark) && (|parts| == 1 || ItalicClean(parts[2..])))
  }

  /** No text piece of a bold split starts and ends with `**`, and none
      holds such a piece at the italic level. */
  predicate BoldClean(parts: seq<string>) {
    |parts| == 0
    || (&& !Delimited(parts[0], BoldMark)
        && ItalicClean(SplitSpans(parts[0], ItalicMark))
        && (|parts| == 1 || BoldClean(parts[2..])))
  }

  /** No text piece of a code split starts and ends with a backtick, and
      none holds such a piece at the bold or italic level. */
  predicate CodeClean(parts: seq<string>) {
    |parts| == 0
    || (&& !Delimited(parts[0], CodeMark)
        && BoldClean(SplitSpans(parts[0], BoldMark))
        && (|parts| == 1 || CodeClean(parts[2..])))
  }

  /** A line in which no text piece of the three splits looks like a span. */
  predicate StrayFree(raw: string) {
    CodeClean(SplitSpans(raw, CodeMark))
  }

  /** The number of plain-text pieces in a run. */
  function PlainCount(xs: seq<Inline>): nat {
    if |xs| == 0 then 0 else (if xs[0].Plain? then 1 else 0) + PlainCount(xs[1..])
  }

  lemma {:induction false} PlainCountAppend(a: seq<Inline>, b: seq<Inline>)
    ensures PlainCount(a + b) == PlainCount(a) + PlainCount(b)
    decreases |a|
  {
    if |a| > 0 {
      assert (a + b)[0] == a[0] && (a + b)[1..] == a[1..] + b;
      PlainCountAppend(a[1..], b);
    } else {
      assert a + b == b;
    }
  }

  /** The split pieces after the first two keep the odd-position spans. */
  lemma {:induction false} SpansAfterTwo(parts: seq<string>, d: string)
    requires |parts| >= 2
    requires forall k :: 0 <= k < |parts| && k % 2 == 1 ==> IsSpan(parts[k], d)
    ensures forall k :: 0 <= k < |parts[2..]| && k % 2 == 1 ==> IsSpan(parts[2..][k], d)
  {
    forall k | 0 <= k < |parts[2..]| && k % 2 == 1 ensures IsSpan(parts[2..][k], d) {
      assert parts[2..][k] == parts[k + 2];
    }
  }

  /** Two pieces, then the rest. */
  lemma {:induction false} PiecesPair(parts: seq<string>, f: string -> seq<Inline>)
    requires |parts| >= 2
    ensures Pieces(parts, f) == f(parts[0]) + (f(parts[1]) + Pieces(parts[2..], f))
  {
    assert parts[1..][1..] == parts[2..];
  }

  /** One piece and nothing after it. */
  lemma {:induction false} PiecesOne(parts: seq<string>, f: string -> seq<Inline>)
    requires |parts| == 1
    ensures Pieces(parts, f) == f(parts[0])
  {
    assert Pieces(parts[1..], f) == [];
  }

  /** The plain pieces of a text piece, a span and the rest. */
  lemma PlainCountPair(x0: seq<Inline>, x1: Inline, rest: seq<Inline>)
    requires !x1.Plain?
    ensures PlainCount(x0 + ([x1] + rest)) == PlainCount(x0) + PlainCount(rest)
  {
    PlainCountAppend(x0, [x1] + rest);
    assert ([x1] + rest)[1..] == rest;
  }

  /** The plain pieces of a split whose second piece renders as one span. */
  lemma {:induction false} PiecesCount(parts: seq<string>, f: string -> seq<Inline>, x1: Inline)
    requires |parts| >= 2 && f(parts[1]) == [x1] && !x1.Plain?
    ensures PlainCount(Pieces(parts, f)) == PlainCount(f(parts[0])) + PlainCount(Pieces(parts[2..], f))
  {
    PiecesPair(parts, f);
    PlainCountPair(f(parts[0]), x1, Pieces(parts[2..], f));
  }

  lemma {:induction false} ItalicSpansCount(parts: seq<string>)
    requires |parts| >= 2
    requires forall k :: 0 <= k < |parts| && k % 2 == 1 ==> IsSpan(parts[k], ItalicMark)
    ensures forall k :: 0 <= k < |parts[2..]| && k % 2 == 1 ==> IsSpan(parts[2..][k], ItalicMark)
    ensures PlainCount(ItalicSpans(parts)) == 1 + PlainCount(ItalicSpans(parts[2..]))
  {
    SpansAfterTwo(parts, ItalicMark);
    var x1 := Em(Inner(parts[1], ItalicMark));
    assert ItalicSpans(parts) == [Plain(parts[0])] + ([x1] + ItalicSpans(parts[2..]));
    PlainCountPair([Plain(parts[0])], x1, ItalicSpans(parts[2..]));
  }

  lemma {:induction false} BoldSpansCount(parts: seq<string>)
    requires |parts| >= 2
    requires forall k :: 0 <= k < |parts| && k % 2 == 1 ==> IsSpan(parts[k], BoldMark)
    ensures forall k :: 0 <= k < |parts[2..]| && k % 2 == 1 ==> IsSpan(parts[2..][k], BoldMark)
    ensures PlainCount(BoldSpans(parts)) == PlainCount(FormatItalic(parts[0])) + PlainCount(BoldSpans(parts[2..]))
  {
    SpansAfterTwo(parts, BoldMark);
    var x1 := Strong(Inner(parts[1], BoldMark));
    assert BoldSpans(parts) == FormatItalic(parts[0]) + [x1] + BoldSpans(parts[2..]);
    PlainCountAround(FormatItalic(parts[0]), x1, BoldSpans(parts[2..]));
  }

  lemma {:induction false} CodeSpansCount(parts: seq<string>)
    requires |parts| >= 2
    requires forall k :: 0 <= k < |parts| && k % 2 == 1 ==> IsSpan(parts[k], CodeMark)
    ensures forall k :: 0 <= k < |parts[2..]| && k % 2 == 1 ==> IsSpan(parts[2..][k], CodeMark)
    ensures PlainCount(CodeSpans(parts)) == PlainCount(FormatBold(parts[0])) + PlainCount(CodeSpans(parts[2..]))
  {
    SpansAfterTwo(parts, CodeMark);
    var x1 := Code(Inner(parts[1], CodeMark));
    assert CodeSpans(parts) == FormatBold(parts[0]) + [x1] + CodeSpans(parts[2..]);
    PlainCountAround(FormatBold(parts[0]), x1, CodeSpans(parts[2..]));
  }

  /** Regrouping a run with one piece in the middle. */
  lemma AppendAround(a: seq<Inline>, x: Inline, b: seq<Inline>)
    ensures a + [x] + b == a + ([x] + b)
  {
  }

  /** The same, with the span appended rather than prepended. */
  lemma {:induction false} PlainCountAround(x0: seq<Inline>, x1: Inline, rest: seq<Inline>)
    requires !x1.Plain?
    ensures PlainCount(x0 + [x1] + rest) == PlainCount(x0) + PlainCount(rest)
  {
    assert x0 + [x1] + rest == x0 + ([x1] + rest);
    PlainCountPair(x0, x1, rest);
  }

  /** A bold-level split of two or more pieces, as written and corrected:
      the first text piece, the span, and the rest. */
  lemma {:induction false} BoldSplitPair(parts: seq<string>)
    requires |parts| >= 2
    requires forall k :: 0 <= k < |parts| && k % 2 == 1 ==> IsSpan(parts[k], BoldMark)
    ensures IsSpan(parts[1], BoldMark)
    ensures forall k :: 0 <= k < |parts[2..]| && k % 2 == 1 ==> IsSpan(parts[2..][k], BoldMark)
    ensures BoldAsWritten(parts)
            == BoldPiece(parts[0]) + ([Strong(Inner(parts[1], BoldMark))] + BoldAsWritten(parts[2..]))
    ensures BoldSpans(parts) == FormatItalic(parts[0]) + ([Strong(Inner(parts[1], BoldMark))] + BoldSpans(parts[2..]))
  {
    SpansAfterTwo(parts, BoldMark);
    assert IsSpan(parts[1], BoldMark);
    assert BoldPiece(parts[1]) == [Strong(Inner(parts[1], BoldMark))];
    PiecesPair(parts, BoldPiece);
    var a, x1, b := FormatItalic(parts[0]), Strong(Inner(parts[1], BoldMark)), BoldSpans(parts[2..]);
    assert BoldSpans(parts) == a + [x1] + b;
    AppendAround(a, x1, b);
  }

  /** A code-level split of two or more pieces, as written and corrected:
      the first text piece, the span, and the rest. */
  lemma {:induction false} CodeSplitPair(parts: seq<string>)
    requires |parts| >= 2
    requires forall k :: 0 <= k < |parts| && k % 2 == 1 ==> IsSpan(parts[k], CodeMark)
    ensures IsSpan(parts[1], CodeMark)
    ensures forall k :: 0 <= k < |parts[2..]| && k % 2 == 1 ==> IsSpan(parts[2..][k], CodeMark)
    ensures CodeAsWritten(parts)
            == CodePiece(parts[0]) + ([Code(Inner(parts[1], CodeMark))] + CodeAsWritten(parts[2..]))
    ensures CodeSpans(parts) == FormatBold(parts[0]) + ([Code(Inner(parts[1], CodeMark))] + CodeSpans(parts[2..]))
  {
    SpansAfterTwo(parts, CodeMark);
    assert IsSpan(parts[1], CodeMark);
    assert CodePiece(parts[1]) == [Code(Inner(parts[1], CodeMark))];
    PiecesPair(parts, CodePiece);
    var a, x1, b := FormatBold(parts[0]), Code(Inner(parts[1], CodeMark)), CodeSpans(parts[2..]);
    assert CodeSpans(parts) == a + [x1] + b;
    AppendAround(a, x1, b);
  }

  /** The italic level as written agrees with the corrected one when no text
      piece is delimited. */
  lemma {:induction false} ItalicAgrees(parts: seq<string>)
    requires forall k :: 0 <= k < |parts| && k % 2 == 1 ==> IsSpan(parts[k], ItalicMark)
    ensures ItalicClean(parts) ==> ItalicAsWritten(parts) == ItalicSpans(parts)
    decreases |parts|
  {
    if |parts| == 1 {
      PiecesOne(parts, ItalicPiece);
    } else if |parts| >= 2 {
      SpansAfterTwo(parts, ItalicMark);
      ItalicAgrees(parts[2..]);
      PiecesPair(parts, ItalicPiece);
      assert IsSpan(parts[1], ItalicMark);
    }
  }

  /** The italic level as written shows no more plain pieces than the
      corrected one, and fewer when some text piece is delimited. */
  lemma {:induction false} ItalicLosesText(parts: seq<string>)
    requires forall k :: 0 <= k < |parts| && k % 2 == 1 ==> IsSpan(parts[k], ItalicMark)
    ensures PlainCount(ItalicAsWritten(parts)) <= PlainCount(ItalicSpans(parts))
    ensures !ItalicClean(parts) ==> PlainCount(ItalicAsWritten(parts)) < PlainCount(ItalicSpans(parts))
    decreases |parts|
  {
    if |parts| == 1 {
      PiecesOne(parts, ItalicPiece);
      assert PlainCount(ItalicSpans(parts)) == 1;
    } else if |parts| >= 2 {
      var tail := parts[2..];
      SpansAfterTwo(parts, ItalicMark);
      ItalicLosesText(tail);
      assert IsSpan(parts[1], ItalicMark);
      var x1 := Em(Inner(parts[1], ItalicMark));
      assert ItalicPiece(parts[1]) == [x1];
      PiecesCount(parts, ItalicPiece, x1);
      assert PlainCount(ItalicPiece(parts[0])) == if Delimited(parts[0], ItalicMark) then 0 else 1;
      assert ItalicClean(parts) <==> !Delimited(parts[0], ItalicMark) && ItalicClean(tail);
      ItalicSpansCount(parts);
    }
  }

  /** A run of italic pieces has at least one plain piece. */
  lemma {:induction false} FormatItalicHasText(t: string)
    ensures PlainCount(FormatItalic(t)) >= 1
  {
    var parts := SplitSpans(t, ItalicMark);
    if |parts| >= 2 {
      PlainCountPair([Plain(parts[0])], Em(Inner(parts[1], ItalicMark)), ItalicSpans(parts[2..]));
    }
  }

  /** A text piece at the bold level: as written, against the corrected one. */
  lemma {:induction false} BoldPieceAgrees(p: string)
    ensures !Delimited(p, BoldMark) && ItalicClean(SplitSpans(p, ItalicMark)) ==> BoldPiece(p) == FormatItalic(p)
    ensures PlainCount(BoldPiece(p)) <= PlainCount(FormatItalic(p))
    ensures !(!Delimited(p, BoldMark) && ItalicClean(SplitSpans(p, ItalicMark))) ==>
              PlainCount(BoldPiece(p)) < PlainCount(FormatItalic(p))
  {
    ItalicAgrees(SplitSpans(p, ItalicMark));
    ItalicLosesText(SplitSpans(p, ItalicMark));
    FormatItalicHasText(p);
  }

  /** The bold level as written agrees with the corrected one when it is clean. */
  lemma {:induction false} BoldAgrees(parts: seq<string>)
    requires forall k :: 0 <= k < |parts| && k % 2 == 1 ==> IsSpan(parts[k], BoldMark)
    ensures BoldClean(parts) ==> BoldAsWritten(parts) == BoldSpans(parts)
    decreases |parts|
  {
    if |parts| == 1 {
      BoldPieceAgrees(parts[0]);
      PiecesOne(parts, BoldPiece);
    } else if |parts| >= 2 && BoldClean(parts) {
      var tail, x1 := parts[2..], Strong(Inner(parts[1], BoldMark));
      BoldSplitPair(parts);
      assert !Delimited(parts[0], BoldMark) && ItalicClean(SplitSpans(parts[0], ItalicMark)) && BoldClean(tail);
      BoldAgrees(tail);
      BoldPieceAgrees(parts[0]);
    }
  }

  /** The bold level as written shows no more plain pieces than the
      corrected one, and fewer when it is not clean. */
  lemma {:induction false} BoldLosesText(parts: seq<string>)
    requires forall k :: 0 <= k < |parts| && k % 2 == 1 ==> IsSpan(parts[k], BoldMark)
    ensures PlainCount(BoldAsWritten(parts)) <= PlainCount(BoldSpans(parts))
    ensures !BoldClean(parts) ==> PlainCount(BoldAsWritten(parts)) < PlainCount(BoldSpans(parts))
    decreases |parts|
  {
    if |parts| >= 1 {
      BoldPieceAgrees(parts[0]);
    }
    if |parts| == 1 {
      PiecesOne(parts, BoldPiece);
    } else if |parts| >= 2 {
      var tail := parts[2..];
      SpansAfterTwo(parts, BoldMark);
      BoldLosesText(tail);
      assert IsSpan(parts[1], BoldMark);
      var x1 := Strong(Inner(parts[1], BoldMark));
      assert BoldPiece(parts[1]) == [x1];
      PiecesCount(parts, BoldPiece, x1);
      assert BoldClean(parts) <==>
        (!Delimited(parts[0], BoldMark) && ItalicClean(SplitSpans(parts[0], ItalicMark))) && BoldClean(tail);
      BoldSpansCount(parts);
    }
  }

  /** A run of bold pieces has at least one plain piece. */
  lemma {:induction false} FormatBoldHasText(t: string)
    ensures PlainCount(FormatBold(t)) >= 1
  {
    var parts := SplitSpans(t, BoldMark);
    FormatItalicHasText(parts[0]);
    if |parts| >= 2 {
      PlainCountPair(FormatItalic(parts[0]), Strong(Inner(parts[1], BoldMark)), BoldSpans(parts[2..]));
    }
  }

  /** A text piece at the code level: as written, against the corrected one. */
  lemma {:induction false} CodePieceAgrees(p: string)
    ensures !Delimited(p, CodeMark) && BoldClean(SplitSpans(p, BoldMark)) ==> CodePiece(p) == FormatBold(p)
    ensures PlainCount(CodePiece(p)) <= PlainCount(FormatBold(p))
    ensures !(!Delimited(p, CodeMark) && BoldClean(SplitSpans(p, BoldMark))) ==>
              PlainCount(CodePiece(p)) < PlainCount(FormatBold(p))
  {
    BoldAgrees(SplitSpans(p, BoldMark));
    BoldLosesText(SplitSpans(p, BoldMark));
    FormatBoldHasText(p);
  }

  /** The code level as written agrees with the corrected one when it is clean. */
  lemma {:induction false} CodeAgrees(parts: seq<string>)
    requires forall k :: 0 <= k < |parts| && k % 2 == 1 ==> IsSpan(parts[k], CodeMark)
    ensures CodeClean(parts) ==> CodeAsWritten(parts) == CodeSpans(parts)
    decreases |parts|
  {
    if |parts| == 1 {
      CodePieceAgrees(parts[0]);
      PiecesOne(parts, CodePiece);
    } else if |parts| >= 2 && CodeClean(parts) {
      var tail, x1 := parts[2..], Code(Inner(parts[1], CodeMark));
      CodeSplitPair(parts);
      assert !Delimited(parts[0], CodeMark) && BoldClean(SplitSpans(parts[0], BoldMark)) && CodeClean(tail);
      CodeAgrees(tail);
      CodePieceAgrees(parts[0]);
    }
  }

  /** The code level as written shows no more plain pieces than the
      corrected one, and fewer when it is not clean. */
  lemma {:induction false} CodeLosesText(parts: seq<string>)
    requires forall k :: 0 <= k < |parts| && k % 2 == 1 ==> IsSpan(parts[k], CodeMark)
    ensures PlainCount(CodeAsWritten(parts)) <= PlainCount(CodeSpans(parts))
    ensures !CodeClean(parts) ==> PlainCount(CodeAsWritten(parts)) < PlainCount(CodeSpans(parts))
    decreases |parts|
  {
    if |parts| >= 1 {
      CodePieceAgrees(parts[0]);
    }
    if |parts| == 1 {
      PiecesOne(parts, CodePiece);
    } else if |parts| >= 2 {
      var tail := parts[2..];
      SpansAfterTwo(parts, CodeMark);
      CodeLosesText(tail);
      assert IsSpan(parts[1], CodeMark);
      var x1 := Code(Inner(parts[1], CodeMark));
      assert CodePiece(parts[1]) == [x1];
      PiecesCount(parts, CodePiece, x1);
      assert CodeClean(parts) <==>
        (!Delimited(parts[0], CodeMark) && BoldClean(SplitSpans(parts[0], BoldMark))) && CodeClean(tail);
      CodeSpansCount(parts);
    }
  }

  /** `inlineFormat` as written gives the corrected result exactly when no
      text piece of its three splits starts and ends with its delimiter. */
  lemma AsWrittenAgrees(raw: string)
    ensures InlineFormatAsWritten(raw) == InlineFormat(raw) <==> StrayFree(raw)
  {
    CodeAgrees(SplitSpans(raw, CodeMark));
    CodeLosesText(SplitSpans(raw, CodeMark));
  }

  /** On such a line, `inlineFormat` as written loses nothing either. */
  lemma AsWrittenKeepsText(raw: string)
    requires StrayFree(raw)
    ensures Unformat(InlineFormatAsWritten(raw)) == raw
  {
    AsWrittenAgrees(raw);
    InlineRoundTrip(raw);
  }
}
