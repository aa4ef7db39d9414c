/**
 * `parseCommands`: splits a model reply into the text to display and the
 * command values embedded between two sentinel tokens.
 */
module CommandCodec {
  import opened Wrappers
  import opened JsString
  import opened Json
  import opened Commands

  const CommandsStart: string := "__DASHBOARD_COMMANDS_START__"
  const CommandsEnd: string := "__DASHBOARD_COMMANDS_END__"

  /** What `parseCommands` returns: the display text and the parsed command
      values, passed on without checking their shape. */
  datatype Parsed = Parsed(content: string, commands: seq<Json>)

  /** `Array.isArray(parsed) ? parsed : [parsed]`. */
  function AsList(v: Json): seq<Json> {
    if v.JArray? then v.items else [v]
  }

  /** `parseCommands(raw)`, with `JSON.parse` as `parse` (`None` where it
      throws). It is total: every failure falls back to `(raw, [])`. */
  function ParseCommands(raw: string, parse: string -> Option<Json>): (r: Parsed)
    ensures r.commands != [] ==> Contains(raw, CommandsStart) && Contains(raw, CommandsEnd)
    ensures r.content == raw
            || (IndexOf(raw, CommandsStart) >= 0 && r.content == Trim(raw[..IndexOf(raw, CommandsStart)]))
  {
    var startIdx := IndexOf(raw, CommandsStart);
    var endIdx := IndexOf(raw, CommandsEnd);
    if startIdx == -1 || endIdx == -1 then Parsed(raw, [])
    else ParseBetween(raw, startIdx, endIdx, parse)
  }

  /** The rest of `parseCommands` once the start token is found at
      `startIdx` and the end token at `endIdx`. */
  function ParseBetween(raw: string, startIdx: nat, endIdx: nat, parse: string -> Option<Json>): (r: Parsed)
    ensures r.content == raw || r.content == Trim(Substring(raw, 0, startIdx))
  {
    var content := Trim(Substring(raw, 0, startIdx));
    var jsonStr := Trim(Substring(raw, startIdx + |CommandsStart|, endIdx));
    match parse(jsonStr)
    case Some(v) => Parsed(content, AsList(v))
    case None => Parsed(raw, [])
  }

  /** Without both tokens the whole reply is content and there are no commands. */
  lemma MissingTokenKeepsReply(raw: string, parse: string -> Option<Json>)
    requires !Contains(raw, CommandsStart) || !Contains(raw, CommandsEnd)
    ensures ParseCommands(raw, parse) == Parsed(raw, [])
  {
  }

  /** The text strictly between the first start token and the first end
      token, trimmed: what is handed to the parser when the end token comes
      after the start token. */
  function Payload(raw: string): string
    requires Contains(raw, CommandsStart) && Contains(raw, CommandsEnd)
    requires IndexOf(raw, CommandsStart) + |CommandsStart| <= IndexOf(raw, CommandsEnd)
  {
    Trim(raw[IndexOf(raw, CommandsStart) + |CommandsStart|..IndexOf(raw, CommandsEnd)])
  }

  /** A payload that parses: the content is the text before the start token,
      trimmed; an array gives the commands in its own order, any other value
      a single command. */
  lemma PayloadParsed(raw: string, parse: string -> Option<Json>, v: Json)
    requires Contains(raw, CommandsStart) && Contains(raw, CommandsEnd)
    requires IndexOf(raw, CommandsStart) + |CommandsStart| <= IndexOf(raw, CommandsEnd)
    requires parse(Payload(raw)) == Some(v)
    ensures ParseCommands(raw, parse).content == Trim(raw[..IndexOf(raw, CommandsStart)])
    ensures v.JArray? ==> ParseCommands(raw, parse).commands == v.items
    ensures !v.JArray? ==> ParseCommands(raw, parse).commands == [v]
  {
  }

  /** A payload that does not parse: the reply is kept whole, untrimmed, with
      no commands. */
  lemma PayloadMalformed(raw: string, parse: string -> Option<Json>)
    requires Contains(raw, CommandsStart) && Contains(raw, CommandsEnd)
    requires IndexOf(raw, CommandsStart) + |CommandsStart| <= IndexOf(raw, CommandsEnd)
    requires parse(Payload(raw)) == None
    ensures ParseCommands(raw, parse) == Parsed(raw, [])
  {
  }

  /** When the first end token does not come after the end of the first
      start token, `substring` swaps its bounds; the slice handed to the
      parser is then empty or begins with the end token's `_`, which no JSON
      text does, so the reply is kept whole with no commands. */
  lemma EndTokenTooEarly(raw: string, parse: string -> Option<Json>)
    requires FollowsJsonGrammar(parse)
    requires Contains(raw, CommandsStart) && Contains(raw, CommandsEnd)
    requires IndexOf(raw, CommandsEnd) <= IndexOf(raw, CommandsStart) + |CommandsStart|
    ensures ParseCommands(raw, parse) == Parsed(raw, [])
  {
    var s, e := IndexOf(raw, CommandsStart), IndexOf(raw, CommandsEnd);
    var slice := Substring(raw, s + |CommandsStart|, e);
    if e < s + |CommandsStart| {
      assert slice == raw[e..s + |CommandsStart|];
      assert slice[0] == raw[e] == CommandsEnd[0] == '_';
      TrimKeepsFirst(slice);
      GrammarRejects(parse, Trim(slice));
    } else {
      assert slice == [];
      GrammarRejects(parse, Trim(slice));
    }
  }

  /** The command block as the system prompt teaches it: the start token,
      the payload on lines of its own, the end token. */
  function CommandBlock(payload: string): string {
    CommandsStart + "\n" + payload + "\n" + CommandsEnd
  }

  /** A reply that follows the protocol: the display text, a line break, and
      the command block appended after it. */
  function ReplyWithCommands(text: string, payload: string): string {
    text + "\n" + CommandBlock(payload)
  }

  /** The end token cannot occur inside the start token. */
  lemma EndNotInsideStart()
    ensures !Contains(CommandsStart, CommandsEnd)
  {
    assert CommandsStart[21] == 'S' && CommandsEnd[21] == 'E';
    Mismatch(CommandsStart, CommandsEnd, 0, 21);
    assert CommandsStart[2] == 'D' && CommandsEnd[1] == '_';
    Mismatch(CommandsStart, CommandsEnd, 1, 1);
    assert CommandsEnd[0] == '_';
    Mismatch(CommandsStart, CommandsEnd, 2, 0);
    forall j | 0 <= j <= |CommandsStart|
      ensures !OccursAt(CommandsStart, CommandsEnd, j)
    {
    }
  }

  /** One differing character rules an occurrence out. */
  lemma Mismatch(s: string, t: string, j: nat, i: nat)
    requires i < |t| && j + i < |s| && s[j + i] != t[i]
    ensures !OccursAt(s, t, j)
  {
  }

  /** No occurrence of `t` lies wholly inside a piece of `s` that does not contain it. */
  lemma PieceFree(s: string, t: string, lo: int, hi: int)
    requires 0 <= lo <= hi <= |s|
    requires !Contains(s[lo..hi], t)
    ensures forall q :: lo <= q && q + |t| <= hi ==> !OccursAt(s, t, q)
  {
    forall q | lo <= q && q + |t| <= hi
      ensures !OccursAt(s, t, q)
    {
      var u := s[lo..hi];
      var x, y := s[q..q + |t|], u[q - lo..q - lo + |t|];
      forall k | 0 <= k < |t|
        ensures x[k] == y[k]
      {
        assert y[k] == u[q - lo + k];
      }
      assert x == y;
      assert !OccursAt(u, t, q - lo);
    }
  }

  /** No occurrence of `t` covers a character that `t` does not contain. */
  lemma BarrierFree(s: string, t: string, k: int)
    requires 0 <= k < |s| && s[k] !in t
    ensures forall q :: q <= k < q + |t| ==> !OccursAt(s, t, q)
  {
    forall q | q <= k < q + |t|
      ensures !OccursAt(s, t, q)
    {
      Barrier(s, t, k, q);
    }
  }

  /** No occurrence of `t` starts in a piece free of it that is followed by
      a character `t` does not contain. */
  lemma SegmentFree(s: string, t: string, lo: int, hi: int)
    requires 0 <= lo <= hi < |s|
    requires !Contains(s[lo..hi], t) && s[hi] !in t
    ensures forall q :: lo <= q <= hi ==> !OccursAt(s, t, q)
  {
    PieceFree(s, t, lo, hi);
    BarrierFree(s, t, hi);
  }

  /** The pieces of a protocol reply, by position. */
  lemma ReplyLayout(text: string, payload: string)
    ensures var raw, a, L := ReplyWithCommands(text, payload), |text|, |CommandsStart|;
            var m := a + 2 + L + |payload|;
            && |raw| == m + 1 + |CommandsEnd|
            && raw[..a] == text && raw[a] == '\n'
            && raw[a + 1..a + 1 + L] == CommandsStart && raw[a + 1 + L] == '\n'
            && raw[a + 2 + L..m] == payload && raw[m] == '\n'
            && raw[m + 1..] == CommandsEnd
  {
  }

  /** The two slices `parseCommands` trims, in a protocol reply. */
  lemma ReplySlices(text: string, payload: string)
    ensures var raw, a, L := ReplyWithCommands(text, payload), |text|, |CommandsStart|;
            var m := a + 2 + L + |payload|;
            && raw[..a + 1] == [] + text + "\n"
            && raw[a + 1 + L..m + 1] == "\n" + payload + "\n"
  {
    var raw, a, L := ReplyWithCommands(text, payload), |text|, |CommandsStart|;
    assert raw == (text + "\n") + (CommandsStart + ("\n" + payload + "\n")) + CommandsEnd;
  }

  /** In a protocol reply the first start token is the one after the display text. */
  lemma ReplyStartIndex(text: string, payload: string)
    requires !Contains(text, CommandsStart)
    ensures IndexOf(ReplyWithCommands(text, payload), CommandsStart) == |text| + 1
  {
    var raw, a, L := ReplyWithCommands(text, payload), |text|, |CommandsStart|;
    ReplyLayout(text, payload);
    assert raw[0..a] == text;
    assert '\n' !in CommandsStart;
    SegmentFree(raw, CommandsStart, 0, a);
    assert raw[a + 1..a + 1 + L] == CommandsStart;
    IndexOfIs(raw, CommandsStart, a + 1);
  }

  /** In a protocol reply the first end token is the one closing the block. */
  lemma ReplyEndIndex(text: string, payload: string)
    requires !Contains(text, CommandsEnd) && !Contains(payload, CommandsEnd)
    ensures IndexOf(ReplyWithCommands(text, payload), CommandsEnd)
            == |text| + 3 + |CommandsStart| + |payload|
  {
    var raw, a, L := ReplyWithCommands(text, payload), |text|, |CommandsStart|;
    var m := a + 2 + L + |payload|;
    ReplyLayout(text, payload);
    assert raw[0..a] == text;
    assert '\n' !in CommandsEnd;
    EndNotInsideStart();
    SegmentFree(raw, CommandsEnd, 0, a);
    SegmentFree(raw, CommandsEnd, a + 1, a + 1 + L);
    SegmentFree(raw, CommandsEnd, a + 2 + L, m);
    assert raw[m + 1..m + 1 + |CommandsEnd|] == CommandsEnd;
    IndexOfIs(raw, CommandsEnd, m + 1);
  }

  /** `parseCommands` once the first tokens are located, the end token
      starting no earlier than the end of the start token. */
  lemma ParseAt(raw: string, parse: string -> Option<Json>, s: int, e: int)
    requires IndexOf(raw, CommandsStart) == s >= 0 && IndexOf(raw, CommandsEnd) == e >= 0
    requires s + |CommandsStart| <= e
    ensures var v := parse(Trim(raw[s + |CommandsStart|..e]));
            && (v.Some? ==> ParseCommands(raw, parse).content == Trim(raw[..s])
                            && ParseCommands(raw, parse).commands == AsList(v.value))
            && (v.None? ==> ParseCommands(raw, parse).content == raw
                            && ParseCommands(raw, parse).commands == [])
  {
    assert OccursAt(raw, CommandsEnd, e);
    assert ParseCommands(raw, parse) == ParseBetween(raw, s, e, parse);
    ParseBetweenInside(raw, s, e, parse);
  }

  /** `ParseBetween` with the tokens in order: both `substring` calls are
      plain slices. */
  lemma ParseBetweenInside(raw: string, s: nat, e: nat, parse: string -> Option<Json>)
    requires s + |CommandsStart| <= e <= |raw|
    ensures var v := parse(Trim(raw[s + |CommandsStart|..e]));
            && (v.Some? ==> ParseBetween(raw, s, e, parse).content == Trim(raw[..s])
                            && ParseBetween(raw, s, e, parse).commands == AsList(v.value))
            && (v.None? ==> ParseBetween(raw, s, e, parse).content == raw
                            && ParseBetween(raw, s, e, parse).commands == [])
  {
    SubstringInside(raw, 0, s);
    SubstringInside(raw, s + |CommandsStart|, e);
  }

  /** `substring` with bounds in order and inside the string is a slice. */
  lemma SubstringInside(raw: string, a: int, b: int)
    requires 0 <= a <= b <= |raw|
    ensures Substring(raw, a, b) == raw[a..b]
  {
  }

  /** The round trip of the protocol: a reply built from display text and a
      payload, neither holding a token where it would be found first, is
      read back as the trimmed text and the parsed payload, or kept whole
      when the payload does not parse. */
  lemma ReplyRoundTrip(text: string, payload: string, parse: string -> Option<Json>)
    requires !Contains(text, CommandsStart) && !Contains(text, CommandsEnd)
    requires !Contains(payload, CommandsEnd)
    ensures var raw := ReplyWithCommands(text, payload);
            var r, v := ParseCommands(raw, parse), parse(Trim(payload));
            && (v.Some? ==> r.content == Trim(text) && r.commands == AsList(v.value))
            && (v.None? ==> r.content == raw && r.commands == [])
  {
    ReplyTokens(text, payload);
    ReplyTrims(text, payload);
    ParseFound(ReplyWithCommands(text, payload), parse, |text| + 1, |text| + 3 + |CommandsStart| + |payload|,
               Trim(text), Trim(payload));
  }

  /** Where `parseCommands` finds the two tokens in a protocol reply. */
  lemma ReplyTokens(text: string, payload: string)
    requires !Contains(text, CommandsStart) && !Contains(text, CommandsEnd)
    requires !Contains(payload, CommandsEnd)
    ensures IndexOf(ReplyWithCommands(text, payload), CommandsStart) == |text| + 1
    ensures IndexOf(ReplyWithCommands(text, payload), CommandsEnd) == |text| + 3 + |CommandsStart| + |payload|
  {
    ReplyStartIndex(text, payload);
    ReplyEndIndex(text, payload);
  }

  /** `ParseAt` with the two trimmed slices already known. */
  lemma ParseFound(raw: string, parse: string -> Option<Json>, s: int, e: int, content: string, json: string)
    requires IndexOf(raw, CommandsStart) == s >= 0 && IndexOf(raw, CommandsEnd) == e >= 0
    requires s + |CommandsStart| <= e
    requires Trim(raw[..s]) == content && Trim(raw[s + |CommandsStart|..e]) == json
    ensures var r, v := ParseCommands(raw, parse), parse(json);
            && (v.Some? ==> r.content == content && r.commands == AsList(v.value))
            && (v.None? ==> r.content == raw && r.commands == [])
  {
    ParseAt(raw, parse, s, e);
  }

  /** The two slices of a protocol reply that `parseCommands` trims come
      down to the display text and the payload, trimmed. */
  lemma ReplyTrims(text: string, payload: string)
    ensures Trim(ReplyWithCommands(text, payload)[..|text| + 1]) == Trim(text)
    ensures Trim(ReplyWithCommands(text, payload)[|text| + 1 + |CommandsStart|..|text| + 3 + |CommandsStart| + |payload|])
            == Trim(payload)
  {
    ReplySlices(text, payload);
    TrimPadded([], text, "\n");
    TrimPadded("\n", payload, "\n");
  }

  /** Commands written with their wire objects as a JSON array in the block
      come back, in order, as those commands. */
  lemma EncodedCommandsRoundTrip(text: string, payload: string, cs: seq<DashboardCommand>,
                                 parse: string -> Option<Json>)
    requires !Contains(text, CommandsStart) && !Contains(text, CommandsEnd)
    requires !Contains(payload, CommandsEnd)
    requires parse(Trim(payload)) == Some(JArray(seq(|cs|, k requires 0 <= k < |cs| => ToJson(cs[k]))))
    ensures var r := ParseCommands(ReplyWithCommands(text, payload), parse);
            r.content == Trim(text) && |r.commands| == |cs|
            && forall k :: 0 <= k < |cs| ==> FromJson(r.commands[k]) == Some(cs[k])
  {
    ReplyRoundTrip(text, payload, parse);
    forall k | 0 <= k < |cs|
      ensures FromJson(ToJson(cs[k])) == Some(cs[k])
    {
      FromToJson(cs[k]);
    }
  }
}
