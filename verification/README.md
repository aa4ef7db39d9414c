# Dashboard command codec, panel prompts and chat block scanner

A Dafny model of two text-processing cores of a developer dashboard whose
panels are generated by a remote model.

**Command codec and prompt assembly** (`lib/thesys-client.ts`):

- `parseCommands` splits a model reply into display text and the command
  values embedded between the sentinel tokens `__DASHBOARD_COMMANDS_START__`
  and `__DASHBOARD_COMMANDS_END__`.
- The `DashboardCommand` union type is modelled with its wire objects.
- `callThesysPanel` makes a set of decisions before calling the network:
  - which base system prompt a panel gets (a named panel prompt, otherwise
    the chat or the generic rich-UI prompt);
  - how the current panels are listed;
  - the control-protocol block appended to every system prompt;
  - the default user message;
  - the token limit.
- `callThesysC1Panel` maps its arguments onto `callThesysPanel`.

**Chat block scanner** (`components/ChatContent.tsx`):

- The `while` loop that walks the lines of a chat reply turns each line, or
  run of lines, into one block. It takes the first rule that fits, in this
  order:
  1. fenced code;
  2. heading of level 1 to 3;
  3. horizontal rule;
  4. bulleted list;
  5. numbered list;
  6. quotation;
  7. spacer;
  8. paragraph.
- `inlineFormat` cuts a line into code, bold and italic spans.

**Modules:**

- `JsString`: the ECMAScript string operations the code relies on, with
  their JavaScript meaning. These are `trim`, `trimStart`, `indexOf`,
  `substring` (clamped and swapped bounds), `slice`, `split` and `join`.
- `Json`: JSON values, and the one grammar fact the codec needs.
- `Commands`: the command union type and its JSON encoding.
- `CommandCodec`: `parseCommands`, and the round trip of the protocol.
- `Prompts`: the prompt texts and the decisions of `callThesysPanel` and
  `callThesysC1Panel`.
- `InlineSpans`: `inlineFormat` as written, a corrected formatter that
  formats only the pieces the split matched, and where the two agree.
- `ChatBlocks`: the specification functions of the scanner, and the scanner
  itself as methods with loops proved against them. Both use `inlineFormat`
  as written.
- `ChatFacts`: what the scanner guarantees (precedence, fences, lists, one
  block per line or run of lines).

## Model

| member | source | states |
|---|---|---|
| JsString.TrimStartShape | components/ChatContent.tsx:57-58 | `trimStart` (`JsString.TrimStart`) removes exactly a leading run of white space; what it keeps does not start with white space |
| JsString.TrimShape | lib/thesys-client.ts:100-101 | `trim` (`JsString.Trim`) keeps a string that neither starts nor ends with white space, and keeps nothing exactly when the input is all white space |
| JsString.TrimPadded | lib/thesys-client.ts:100-101 | white space added on either side of a string does not change its `trim` |
| JsString.TrimIdempotent | lib/thesys-client.ts:100-101 | trimming twice is trimming once |
| JsString.IndexOf | lib/thesys-client.ts:93-94 | `indexOf` is -1 exactly when the needle does not occur; otherwise it is an occurrence with none before it |
| JsString.IndexOfIs | lib/thesys-client.ts:93-94 | an occurrence with no earlier occurrence is what `indexOf` returns |
| JsString.Substring | lib/thesys-client.ts:100-101 | `substring` clamps both bounds to the string and swaps them when the first exceeds the second |
| JsString.SliceTrim | components/ChatContent.tsx:29 | `slice(a, -d)` is the slice from `a` to `d` before the end, and empty when that is not after `a` |
| JsString.JoinSplit | components/ChatContent.tsx:16 | joining the pieces of `split` (`JsString.Split`) with the separator gives back the text |
| JsString.SplitJoin | components/ChatContent.tsx:16 | splitting a join of separator-free pieces gives back the pieces |
| Json.GrammarRejects | lib/thesys-client.ts:104 | a parser that follows the JSON-text grammar rejects the empty text and any text starting with a character that is neither white space nor the start of a value |
| Commands.PanelTypeOf | lib/thesys-client.ts:83-86 | a panel-type name is read as the kind whose name it is |
| Commands.Lookup | lib/thesys-client.ts:104 | a member lookup finds nothing exactly when no member has the key |
| Commands.LookupUnique | lib/thesys-client.ts:104 | a key that no other member carries is found with its own value |
| Commands.ReadTagged | lib/thesys-client.ts:80-87 | a command read from the fields of an object tagged `tag` has tag `tag` |
| Commands.FromToJson | lib/thesys-client.ts:80-87 | the wire object of every command (`Commands.ToJson`) is read back by `Commands.FromJson` as that same command |
| Commands.FieldsRead | lib/thesys-client.ts:80-87 | the fields of a command's wire object are read back as that command under its tag |
| Commands.TypeFirst | lib/thesys-client.ts:80-87 | a command's wire object carries its tag under `type` |
| Commands.TagOf | lib/thesys-client.ts:80-87 | a value read as a command is an object carrying that command's tag under `type` |
| Commands.ToFromJson | lib/thesys-client.ts:80-87 | a value read as a command agrees with that command's wire object on every field the variant names |
| Commands.FieldsAgree | lib/thesys-client.ts:80-87 | fields read as a command agree with its wire object on every field but the tag |
| CommandCodec.ParseCommands | lib/thesys-client.ts:92-110 | commands are returned only when both tokens occur; the content is either the whole reply or the trimmed text before the first start token |
| CommandCodec.ParseBetween | lib/thesys-client.ts:100-109 | once the tokens are located, the content is the whole reply or the trimmed `substring(0, startIdx)` |
| CommandCodec.MissingTokenKeepsReply | lib/thesys-client.ts:93-98 | when either token is missing, the result is the whole reply with no commands |
| CommandCodec.PayloadParsed | lib/thesys-client.ts:100-106 | when the payload parses, the content is the trimmed text before the start token; an array becomes the command list in order, and any other value a one-element list |
| CommandCodec.PayloadMalformed | lib/thesys-client.ts:103-109 | when the payload does not parse, the result is the whole, untrimmed reply with no commands |
| CommandCodec.EndTokenTooEarly | lib/thesys-client.ts:93-109 | when the first end token starts before the start token ends, `substring` swaps its bounds, the payload begins with `_`, parsing fails and the reply is kept whole |
| CommandCodec.EndNotInsideStart | lib/thesys-client.ts:89-90 | the end token does not occur inside the start token |
| CommandCodec.ReplyStartIndex | lib/thesys-client.ts:93 | in a protocol reply whose text is free of the start token, `indexOf` finds the start token right after the text and its line break |
| CommandCodec.ReplyEndIndex | lib/thesys-client.ts:94 | in a protocol reply whose text and payload are free of the end token, `indexOf` finds the end token right after the payload |
| CommandCodec.ReplyLayout | lib/thesys-client.ts:89-90 | a protocol reply is the text, a line break, the start token, the payload between line breaks, and the end token |
| CommandCodec.ParseAt | lib/thesys-client.ts:92-110 | with the first tokens in order, the result is the trimmed prefix and the listed payload when the trimmed slice between them parses, and the whole reply otherwise |
| CommandCodec.ReplyTrims | lib/thesys-client.ts:100-101 | the two slices `parseCommands` trims in a protocol reply come down to the trimmed text and the trimmed payload |
| CommandCodec.ReplyRoundTrip | lib/thesys-client.ts:92-110 | a reply built from text and a payload is read back as the trimmed text and the parsed payload, or kept whole when the payload does not parse |
| CommandCodec.EncodedCommandsRoundTrip | lib/thesys-client.ts:92-110 | commands written as a JSON array of their wire objects come back in order as those commands, with the trimmed text as content |
| Prompts.NoteInNamedPrompts | lib/thesys-client.ts:18-65 | every named panel prompt contains the interactive-elements note |
| Prompts.NamedPromptsNotEmpty | lib/thesys-client.ts:18-65 | no named panel prompt is empty |
| Prompts.NoteInGenericPrompts | lib/thesys-client.ts:69-76 | the generic rich-UI prompt contains the interactive-elements note; the chat prompt does not |
| Prompts.FallbackPromptsLong | lib/thesys-client.ts:69-76 | both fallback prompts are longer than the text of any inherited object member |
| Prompts.BasePrompt | lib/thesys-client.ts:153-159 | a non-empty registered panel id selects its named prompt; otherwise a chat panel gets the chat prompt and any other panel the generic prompt |
| Prompts.BasePromptNote | lib/thesys-client.ts:153-159 | the base prompt contains the interactive-elements note exactly when a registered non-empty id is given or the panel is a rich-UI panel, that is, exactly when it is not the chat prompt |
| Prompts.InheritedText | lib/thesys-client.ts:155-156 | an id that is no own key reads an inherited member exactly when it names one of `Object.prototype`'s members; that text is short and not empty |
| Prompts.PropertyRead | lib/thesys-client.ts:155-156 | `PANEL_SYSTEM_PROMPTS[id]` finds an own key's prompt, and otherwise the inherited member's text, if any |
| Prompts.BasePromptAsWritten | lib/thesys-client.ts:153-159 | the source's selection takes whatever a truthy property read finds; when the id is empty or missing, or the read finds nothing truthy, a chat panel gets the chat prompt and any other panel the generic prompt |
| Prompts.BasePromptAsWrittenDiffers | lib/thesys-client.ts:153-159 | the source's selection and the intended one agree except on a panel id that names an inherited member |
| Prompts.SelectionsAgree | lib/thesys-client.ts:153-159 | without an inherited member in play, both selections pick the same prompt |
| Prompts.RegisteredSelectionsAgree | lib/thesys-client.ts:155-156 | a registered, non-empty id gets its own named prompt from the source's read |
| Prompts.UnregisteredSelectionsAgree | lib/thesys-client.ts:155-159 | an id that is neither registered nor inherited falls back the same way in both selections |
| Prompts.InheritedShownInstead | lib/thesys-client.ts:155-159 | an id naming an inherited member gets that member's text as the system prompt, not the fallback prompt |
| Prompts.InheritedKeyReplacesPrompt | lib/thesys-client.ts:155-158 | a chat panel with id `toString` gets the native function text instead of the chat prompt |
| Prompts.PanelLine | lib/thesys-client.ts:163 | the listing line of a panel has no line break when its fields have none |
| Prompts.PanelLines | lib/thesys-client.ts:163 | one listing line per panel, in input order |
| Prompts.PanelContext | lib/thesys-client.ts:162-164 | no panels give `  (no panels currently)`; otherwise the listing is the panels' listing lines joined by line breaks, and when no field holds a line break it splits on line breaks into exactly one line per panel, in order |
| Prompts.PromptLayout | lib/thesys-client.ts:166-186 | a system prompt opens with its base, then shows the listing and the start token before the end token |
| Prompts.Protocol | lib/thesys-client.ts:166-186 | the control protocol contains the panel listing and the start token before the end token |
| Prompts.SystemPrompt | lib/thesys-client.ts:166-172 | the system prompt starts with the base prompt, and the rest is the control protocol |
| Prompts.SystemPromptShows | lib/thesys-client.ts:166-186 | the system prompt opens with the base prompt, contains the listing, and has the start token before the end token |
| Prompts.EffectiveUserPrompt | lib/thesys-client.ts:188-194 | a non-empty user prompt is used unchanged; otherwise a non-empty id gets the named-panel request, even if unregistered, and without one a chat panel gets the introduction and any other panel the generic request |
| Prompts.MaxTokens | lib/thesys-client.ts:203 | the token limit is 2000 exactly when a non-empty panel id is given, and 4000 exactly when none is |
| Prompts.BuildRequest | lib/thesys-client.ts:196-204 | the request has a system message with the system prompt on the base the source selects (`BasePromptAsWritten`), then a user message with the effective user prompt, and the token limit |
| Prompts.CallThesysPanel | lib/thesys-client.ts:206-209 | an empty or missing completion is the error `No content returned from Thesys C1`; otherwise the result is `parseCommands` of the completion |
| Prompts.PlainReply | lib/thesys-client.ts:206-209 | a completion without the start token comes back whole, with no commands |
| Prompts.C1PanelOptions | lib/thesys-client.ts:219-224 | `callThesysC1Panel` passes its id, type `c1` and no panels; the user prompt is present exactly when the context is not empty |
| Prompts.C1PanelRequest | lib/thesys-client.ts:219-224 | the user message is the context when given, otherwise the named-panel request for a non-empty id and the generic request for an empty one; the token limit follows the id |
| Prompts.RequestFollowsCorrectedPrompt | lib/thesys-client.ts:153-204 | the request's system message is the one the corrected selection would give exactly when the panel id is empty or missing, registered, or names no inherited member |
| Prompts.C1PanelSystemPrompt | lib/thesys-client.ts:219-224 | the system prompt lists no panels, and contains the interactive-elements note for every id that names no inherited member |
| Prompts.C1InheritedIdLosesNote | lib/thesys-client.ts:215-226 | for an unregistered id naming an inherited member, the system prompt is built on that member's text, which does not contain the interactive-elements note |
| Prompts.ToStringC1Base | lib/thesys-client.ts:215-226 | for the id `toString`, `callThesysC1Panel`'s base prompt is the native function text, without the interactive-elements note |
| Prompts.CallThesysC1Panel | lib/thesys-client.ts:215-226 | fails exactly when the panel call fails; otherwise it returns only the content of the panel call |
| InlineSpans.MatchEnd | components/ChatContent.tsx:22 | a match of the span pattern starting at a position ends at a span |
| InlineSpans.SplitFrom | components/ChatContent.tsx:22 | `split` with a capturing span pattern gives an odd number of pieces that concatenate to the text, every odd piece a span |
| InlineSpans.SplitSpans | components/ChatContent.tsx:22 | the same for the whole line; used with the code, bold (line 34) and italic (line 40) patterns |
| InlineSpans.Inner | components/ChatContent.tsx:29 | a span is its delimiters around an inner text free of the delimiter's character |
| InlineSpans.UnformatAppend | components/ChatContent.tsx:20-51 | the shown text of concatenated spans is the concatenation of their shown texts |
| InlineSpans.ItalicRoundTrip | components/ChatContent.tsx:40-45 | italic pieces show exactly the text they were split from |
| InlineSpans.FormatItalicRoundTrip | components/ChatContent.tsx:40-45 | italic formatting loses no text |
| InlineSpans.BoldRoundTrip | components/ChatContent.tsx:34-46 | bold pieces, with italic inside their text pieces, show exactly the text they were split from |
| InlineSpans.FormatBoldRoundTrip | components/ChatContent.tsx:34-46 | bold formatting loses no text |
| InlineSpans.CodeRoundTrip | components/ChatContent.tsx:22-48 | code pieces, with bold and italic inside their text pieces, show exactly the text they were split from |
| InlineSpans.InlineRoundTrip | components/ChatContent.tsx:20-51 | the corrected `inlineFormat` shows exactly its input, delimiters aside |
| InlineSpans.LoneDelimiterLost | components/ChatContent.tsx:26-43 | as written, a lone backtick or asterisk renders as an empty code or emphasis element; the corrected formatter keeps it as text |
| InlineSpans.ItalicAgrees | components/ChatContent.tsx:40-45 | at the italic level, the pieces as written equal the corrected pieces when no text piece starts and ends with `*` |
| InlineSpans.ItalicLosesText | components/ChatContent.tsx:40-45 | at the italic level, the pieces as written have no more plain pieces than the corrected ones, and fewer when some text piece starts and ends with `*` |
| InlineSpans.BoldAgrees | components/ChatContent.tsx:34-46 | at the bold level, the pieces as written equal the corrected pieces when no text piece of the bold or italic splits looks like a span |
| InlineSpans.BoldLosesText | components/ChatContent.tsx:34-46 | at the bold level, the pieces as written have no more plain pieces than the corrected ones, and fewer when some text piece looks like a span |
| InlineSpans.CodeAgrees | components/ChatContent.tsx:22-48 | at the code level, the pieces as written equal the corrected pieces when no text piece of the three splits looks like a span |
| InlineSpans.CodeLosesText | components/ChatContent.tsx:22-48 | at the code level, the pieces as written have no more plain pieces than the corrected ones, and fewer when some text piece looks like a span |
| InlineSpans.AsWrittenAgrees | components/ChatContent.tsx:20-51 | `inlineFormat` as written (`InlineSpans.InlineFormatAsWritten`) gives the corrected result (`InlineSpans.InlineFormat`) exactly when no text piece of its three splits starts and ends with its delimiter |
| InlineSpans.AsWrittenKeepsText | components/ChatContent.tsx:20-51 | on such a stray-free line, `inlineFormat` as written shows exactly its input, delimiters aside |
| ChatBlocks.LineRun | components/ChatContent.tsx:76-78 | `(.+)` captures the longest prefix without a line terminator |
| ChatBlocks.HeadingMatch | components/ChatContent.tsx:76-78 | a heading match means the exact prefix of hash marks and a space, with a non-empty capture |
| ChatBlocks.BulletMatch | components/ChatContent.tsx:99 | a bullet match captures the whole leading white space and non-empty item text |
| ChatBlocks.DigitRun | components/ChatContent.tsx:116 | `\d+` consumes the longest run of digits |
| ChatBlocks.OrderedMatch | components/ChatContent.tsx:116 | a numbered-line match captures non-empty item text |
| ChatBlocks.Classify | components/ChatContent.tsx:57-147 | the kind given to a line fits that kind's pattern |
| ChatBlocks.ClassifyFirstFit | components/ChatContent.tsx:57-147 | no kind tried earlier fits a classified line: the first fit wins |
| ChatBlocks.RunEnd | components/ChatContent.tsx:61-64 | a run covers consecutive fitting lines and stops at the first line that does not fit, or at the end |
| ChatBlocks.BulletItem | components/ChatContent.tsx:103-105 | a bulleted item indents 8 pixels per leading white-space character; its content is the as-written `inlineFormat` of the item text |
| ChatBlocks.MapLines | components/ChatContent.tsx:101-110 | list items are made one per line of the run, in order |
| ChatBlocks.FenceStep | components/ChatContent.tsx:57-73 | a fence advances past at least its own line |
| ChatBlocks.BulletStep | components/ChatContent.tsx:99-113 | a bulleted list consumes at least one line and never more than remain |
| ChatBlocks.OrderedStep | components/ChatContent.tsx:116-126 | a numbered list consumes at least one line and never more than remain |
| ChatBlocks.Step | components/ChatContent.tsx:53-149 | every block advances the cursor by at least one line |
| ChatBlocks.ChatContent | components/ChatContent.tsx:14-16 | empty text produces nothing, and any other text produces a list of blocks |
| ChatBlocks.CollectFence | components/ChatContent.tsx:59-64 | the inner loop collects exactly the lines after the opener up to the next fence line, and stops there |
| ChatBlocks.CollectBullets | components/ChatContent.tsx:101-110 | the inner loop stops at the end of the maximal run of bulleted lines, with one item per line |
| ChatBlocks.CollectOrdered | components/ChatContent.tsx:118-123 | the inner loop stops at the end of the maximal run of numbered lines, with one entry per line |
| ChatBlocks.ScanBlock | components/ChatContent.tsx:54-148 | one pass of the loop body produces the block and the next cursor of the specification step |
| ChatBlocks.ScanLines | components/ChatContent.tsx:53-149 | the loop produces the blocks of the specification scan from the first line |
| ChatBlocks.RenderChat | components/ChatContent.tsx:13-16 | the component's output is the specified chat content |
| ChatFacts.FenceOpener | components/ChatContent.tsx:57-58 | three backticks and a label open a fence whose label is the label trimmed |
| ChatFacts.IndentedFence | components/ChatContent.tsx:57-58 | an indented opener is still a fence, with the same trimmed label |
| ChatFacts.LinesOf | components/ChatContent.tsx:16 | splitting joined single lines on line breaks gives back the lines |
| ChatFacts.FenceFirst | components/ChatContent.tsx:57-73 | a fence on the first line gives the code block of the lines up to the next fence |
| ChatFacts.OneFence | components/ChatContent.tsx:57-73 | a text whose opening fence takes every other line renders as that one code block |
| ChatFacts.FenceRoundTrip | components/ChatContent.tsx:57-73 | an opener, body lines that are not fences and a closing fence read back as one code block with the trimmed label and the body |
| ChatFacts.ClosedFenceLines | components/ChatContent.tsx:57-73 | the lines of a closed fence, as the scan sees them: the opener, the body up to the closing fence, the closer |
| ChatFacts.UnclosedFence | components/ChatContent.tsx:61-72 | a fence that is never closed takes every line after it |
| ChatFacts.BulletListMaximal | components/ChatContent.tsx:99-113 | a bulleted list takes the longest run of bulleted lines; each item indents 8 pixels per leading white-space character, and keeps its line's text when that text is stray-free |
| ChatFacts.OrderedListMaximal | components/ChatContent.tsx:116-126 | a numbered list takes the longest run of numbered lines, and each entry keeps the text after its number when that text is stray-free |
| ChatFacts.EntriesKeepText | components/ChatContent.tsx:119-123 | each entry (`ChatBlocks.OrderedItem`) of a run of numbered lines shows the text after its number when that text is stray-free |
| ChatFacts.SingleLineStep | components/ChatContent.tsx:75-148 | headings, rules, quotations, spacers and paragraphs take one line, with the block `ChatBlocks.LineBlock` makes; each block shows the text its pattern captured when that text is stray-free |
| ChatFacts.ScanLength | components/ChatContent.tsx:53-149 | every block takes at least one line, so the scan (`ChatBlocks.ScanFrom`) never makes more blocks than there are lines |
| ChatFacts.BlocksAtStarts | components/ChatContent.tsx:53-149 | the scan makes one block per start line, the block that line's step makes |
| ChatFacts.StartsChain | components/ChatContent.tsx:53-149 | the first block starts at the first line, each next one where the last one's lines end, and the last one reaches the end of the text |
| ChatFacts.LineInOneBlock | components/ChatContent.tsx:53-149 | every line belongs to exactly one block of the scan |
| ChatFacts.BlocksPerLine | components/ChatContent.tsx:13-16 | a chat reply renders to no more blocks than it has lines |
| ChatFacts.ClassifyIs | components/ChatContent.tsx:57-147 | a line that fits a kind, and no kind tried earlier, is classified as that kind |
| ChatFacts.OrdinaryLine | components/ChatContent.tsx:144-148 | a line not starting with white space, a digit or one of the marker characters is a paragraph |
| ChatFacts.NotHeading | components/ChatContent.tsx:76-78 | a line that differs from the heading prefix at some position does not match it |
| ChatFacts.NoHeading | components/ChatContent.tsx:76-78 | a line not starting with `#` is no heading |
| ChatFacts.FourMarksMakeAParagraph | components/ChatContent.tsx:76-90 | four hash marks make no heading: the line becomes a paragraph |
| ChatFacts.MarkerIsNoRule | components/ChatContent.tsx:93 | a list marker followed by a space is not a horizontal rule |
| ChatFacts.MarkerLine | components/ChatContent.tsx:93-99 | a marker, a space and text fit neither a fence, a heading nor a rule, and match the bullet pattern |
| ChatFacts.MarkerMakesABullet | components/ChatContent.tsx:93-100 | a marker, a space and text make a bulleted item with no indent |
| ChatFacts.DigitsThen | components/ChatContent.tsx:116 | the digit run of digits followed by a non-digit is exactly the digits |
| ChatFacts.NumberLine | components/ChatContent.tsx:116-117 | a number, a dot, a space and text fit no earlier kind and match the numbered pattern |
| ChatFacts.NumberMakesAnEntry | components/ChatContent.tsx:116-117 | a number, a dot, a space and text make a numbered entry with that text |

Helper lemmas that unfold one step of a definition have no row:
`ChatBlocks.FenceStepIs`, `ChatBlocks.ScanFromStep`, `ChatBlocks.ScanFromEnd`
and `ChatFacts.RunEndIs`.

## Left out

- `getClient`, the `THESYS_API_KEY` check and the client singleton
  (lib/thesys-client.ts:114-132). The completion service is the `complete`
  parameter of `Prompts.CallThesysPanel`; it returns `None` where no content
  comes back. Its failures (network errors, exceptions) are not modelled, nor
  is `async` scheduling.
- The model name and the `temperature` float of the request
  (lib/thesys-client.ts:197, 202). The model name is kept as a constant;
  the float is left out.
- `JSON.parse` itself. The parser is the `parse` parameter. Only
  `CommandCodec.EndTokenTooEarly` assumes anything of it: that it accepts
  only texts that begin as the JSON-text grammar of RFC 8259, section 2
  allows.
- Command validation. Like the source's type cast, `parseCommands` passes
  parsed values on without checking their shape. `Commands.FromJson` reads
  the union type, for the round trip only.
- Commands.ToFromJson: the nested `panel` object of `add_panel` is compared
  through the command it is read as, not member by member.
- The panel store, the command applier and the fetch orchestrator that
  consume the commands are not part of this model. The pages and the other
  components are not part of this model either.
- React rendering of the blocks: element keys, class names and styles. A
  code block's language label is shown only when it is not empty; this is
  noted on the `Block` datatype.
- The text is split only on `\n`, as in the source, so a `\r` stays in its
  line. The regular-expression `.` excludes all four ECMAScript line
  terminators, and `\s` and `trim` use the full ECMAScript white-space set.
  JavaScript indexes strings by UTF-16 code unit and a Dafny string by
  Unicode scalar value; this changes no result here, because every index the
  code computes falls next to a token, a delimiter or white space, all of
  which are single UTF-16 code units, so the cuts and counts agree.
- The comment at lib/thesys-client.ts:5 says the interactive-elements note
  is appended to every named panel prompt. In the code it sits between a
  prompt's opening lines and its closing suggestion
  (lib/thesys-client.ts:19-64). The model follows the code and states only
  that each named prompt contains the note.
- The comment at lib/thesys-client.ts:140-141 says a panel id that matches a
  named panel selects its dedicated prompt. The code's property read also
  finds members inherited from `Object.prototype`. The model follows the
  code: `Prompts.BuildRequest`, `Prompts.CallThesysPanel` and
  `Prompts.CallThesysC1Panel` use the selection as written, and the
  corrected selection `Prompts.BasePrompt` is related to it by
  `Prompts.RequestFollowsCorrectedPrompt` (see Findings).
- Prompts.C1PanelSystemPrompt: promises the interactive-elements note only
  for ids that name no inherited member, because the code as written drops
  it for the others (`Prompts.C1InheritedIdLosesNote`).
- ChatFacts.BulletListMaximal, ChatFacts.OrderedListMaximal,
  ChatFacts.EntriesKeepText, ChatFacts.SingleLineStep: promise that a block
  keeps its text only when that text is stray-free (`InlineSpans.StrayFree`),
  because the scanner uses `inlineFormat` as written, which drops a lone
  delimiter (see Findings). Their structural claims hold for every line.

## Findings

| source | as written | input that shows it | evidently intended | confidence | as-written member | corrected member |
|---|---|---|---|---|---|---|
| lib/thesys-client.ts:155-156 | `PANEL_SYSTEM_PROMPTS[panelId]` is read on a plain object literal, so an id naming a member inherited from `Object.prototype` is truthy and its function text becomes the system prompt | `panelId = "toString"` with a chat panel: the base prompt is `function toString() { [native code] }` instead of the chat prompt; with `callThesysC1Panel` it also loses the interactive-elements note (`Prompts.ToStringC1Base`) | only the registered panel names select a named prompt; every other id falls back by panel type | not executed | Prompts.InheritedKeyReplacesPrompt | Prompts.BasePrompt |
| components/ChatContent.tsx:26-43 | a piece is rendered as a span when it starts and ends with the delimiter, whether or not the split matched it as a span | the line `` ` `` (or `*`): it renders as an empty `<code>` (or `<em>`) and the character is lost | only the pieces the split matched as spans are formatted; a lone delimiter stays text | not executed | InlineSpans.LoneDelimiterLost | InlineSpans.InlineRoundTrip |
