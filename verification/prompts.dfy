/**
 * The prompt decisions of `callThesysPanel` and the argument mapping of
 * `callThesysC1Panel`: which system prompt a panel gets, the listing of the
 * current panels, the control-protocol block appended to every system
 * prompt, the default user prompt and the token limit. The completion
 * request itself goes over the network; its reply is a parameter here.
 */
module Prompts {
  import opened Wrappers
  import opened JsString
  import opened Json
  import opened Commands
  import opened CommandCodec

  /** The note on interactive form elements; it opens with a line break. */
  const InteractiveElementsNote: string :=
    "\nYou may include interactive HTML form elements to let users configure or filter data:"
    + "\n- Checkboxes (<input type=\"checkbox\" name=\"...\">) for toggling options"
    + "\n- Range sliders (<input type=\"range\" name=\"...\" min=\"0\" max=\"100\">) for numeric values"
    + "\n- Select dropdowns (<select name=\"...\"><option>...</option></select>) for picking from a list"
    + "\n- Text inputs (<input type=\"text\" name=\"...\" placeholder=\"...\">) for search/filter"
    + "\n- Buttons (<button name=\"action\" value=\"...\">) for triggering actions"
    + "\nAlways use descriptive \"name\" attributes on form elements so their values can be collected."
    + "\nWhen present, a \"Save & Submit\" button will automatically appear below the panel."
    + "\nOnly add interactive elements when they add clear value \U{2014} do not force them into every panel."

  /** Opening lines of the `pull-requests` prompt. */
  const PullRequestsLead: string :=
    "You are a Pull Requests dashboard panel. Generate a compact, scannable UI showing:"
    + "\n- 4\U{2013}6 open pull requests, each with: title, author name, target branch, age (e.g. \"2d\"), status badge (Draft / Review Needed / Approved / Conflicts), and comment count"
    + "\n- Color-coded status badges: gray=Draft, amber=Review Needed, green=Approved, red=Conflicts"
    + "\n- A small summary line at the top: total open, how many need review, how many are approved"
    + "\nDark theme (background #16213E, borders rgba(255,255,255,0.07)). Keep it tight and information-dense."

  /** Closing suggestion of the `pull-requests` prompt. */
  const PullRequestsConsider: string :=
    "Consider: checkboxes to select PRs for bulk review, a dropdown to filter by status."

  /** Opening lines of the `cicd-pipeline` prompt. */
  const CicdPipelineLead: string :=
    "You are a CI/CD Pipeline dashboard panel. Generate a compact UI showing:"
    + "\n- Last 6 pipeline runs in a table/list: commit message (truncated), branch, status icon (\U{2713} pass / \U{2717} fail / \U{27F3} running), duration, triggered-by"
    + "\n- A mini test coverage bar at the top (e.g. \"Test coverage: 94.2% \U{2588}\U{2588}\U{2588}\U{2588}\U{2588}\U{2588}\U{2588}\U{2588}\U{2591}\U{2591}\")"
    + "\n- Build success rate for the last 7 days (e.g. \"Build health: 11/12 passing\")"
    + "\nStatus colors: green=passing, red=failing, amber=running. Dark theme. Compact."

  /** Closing suggestion of the `cicd-pipeline` prompt. */
  const CicdPipelineConsider: string :=
    "Consider: a dropdown to filter by branch, a checkbox to show only failed runs."

  /** Opening lines of the `issues` prompt. */
  const IssuesLead: string :=
    "You are an Issues & Bugs dashboard panel. Generate a compact UI showing:"
    + "\n- 5\U{2013}7 open issues, each with: title, priority badge (Critical/High/Medium/Low), assignee, one label chip, and age"
    + "\n- Priority color coding: red=Critical, orange=High, yellow=Medium, blue=Low"
    + "\n- Summary counts by priority at the very top (e.g. \"2 critical \U{00B7} 4 high \U{00B7} 8 medium \U{00B7} 3 low\")"
    + "\nDark theme. Keep rows tight and scannable."

  /** Closing suggestion of the `issues` prompt. */
  const IssuesConsider: string :=
    "Consider: a priority filter dropdown, checkboxes to select issues for bulk assignment."

  /** Opening lines of the `system-logs` prompt. */
  const SystemLogsLead: string :=
    "You are a System Logs dashboard panel. Generate a terminal-style compact UI showing:"
    + "\n- 8\U{2013}10 log lines with: timestamp (HH:MM:SS), level badge (ERROR/WARN/INFO), service name (e.g. \"api\", \"worker\"), and log message (truncated to one line)"
    + "\n- Color per level: red=ERROR, amber=WARN, gray/dim=INFO"
    + "\n- Log summary at the top: e.g. \"Last hour: 2 errors \U{00B7} 5 warnings \U{00B7} 24 info\""
    + "\nMonospace font aesthetic, dark terminal theme. Keep it dense."

  /** Closing suggestion of the `system-logs` prompt. */
  const SystemLogsConsider: string :=
    "Consider: checkboxes or a multi-select for log level filtering, a text input for searching."

  /** Opening lines of the `team-activity` prompt. */
  const TeamActivityLead: string :=
    "You are a Team Activity dashboard panel. Generate a compact activity feed showing:"
    + "\n- 6\U{2013}8 recent events, each with: actor name (with avatar placeholder circle), action verb, target name, and relative timestamp"
    + "\n- Event types to include: pushed commit, opened PR, merged PR, deployed to [env], closed issue, commented on issue"
    + "\n- Subtle color-coded action verbs (e.g. green=merged/deployed, blue=opened, purple=commented)"
    + "\nDark theme. Feed-style layout, newest first."

  /** Closing suggestion of the `team-activity` prompt. */
  const TeamActivityConsider: string :=
    "Consider: a dropdown to filter by event type, a date-range selector."

  /** Opening lines of the `deployments` prompt. */
  const DeploymentsLead: string :=
    "You are a Deployments dashboard panel. Generate a compact UI with two sections:"
    + "\n1. Environment Status (top): 3 environment cards \U{2014} Production, Staging, Preview \U{2014} each showing: status indicator (Live/Deploying/Failed), last deployed relative time, deployed-by name, short commit hash"
    + "\n2. Recent Deploys (bottom): last 4 deploy entries in a compact list: environment, version, who, when, duration"
    + "\nDark theme, green/red/amber status colors."

  /** Closing suggestion of the `deployments` prompt. */
  const DeploymentsConsider: string :=
    "Consider: an environment filter dropdown, a rollback button per deployment."

  /** Opening lines of the generic rich-UI prompt. */
  const C1GenericLead: string :=
    "You are a Developer Operations Dashboard Agent. Generate a compact, interactive developer dashboard panel."
    + "\nInclude realistic sample data, clear visual hierarchy, status indicators, and dark theme styling (background #16213E, borders rgba(255,255,255,0.07))."

  /** The system prompt of plain-text chat panels. */
  const ChatSystemPrompt: string :=
    "You are an expert developer operations assistant embedded in a live dashboard."
    + "\nRespond with clear, concise, and well-structured markdown text."
    + "\nDo NOT generate HTML, JSON component specs, or UI markup \U{2014} only plain markdown."
    + "\nBe direct, technical, and helpful. Use bullet points, code blocks, and headers where appropriate."

  /** The example command array shown inside the protocol block. */
  const ExamplePayload: string :=
    "["
    + "\n  { \"type\": \"reorder\", \"order\": [\"id1\", \"id2\", \"id3\"] },"
    + "\n  { \"type\": \"update\", \"id\": \"panelId\", \"content\": \"...\" },"
    + "\n  { \"type\": \"add_panel\", \"panel\": { \"type\": \"chat\", \"title\": \"...\", \"hasInput\": true } },"
    + "\n  { \"type\": \"remove_panel\", \"id\": \"panelId\" },"
    + "\n  { \"type\": \"set_input\", \"id\": \"panelId\", \"hasInput\": true },"
    + "\n  { \"type\": \"set_title\", \"id\": \"panelId\", \"title\": \"New Title\" }"
    + "\n]"

  /** A named panel prompt: its opening lines, the interactive-elements note
      (which brings its own leading line break), then the closing suggestion. */
  function NamedPrompt(lead: string, consider: string): string {
    lead + "\n" + InteractiveElementsNote + "\n" + consider
  }

  /** The generic rich-UI prompt, used when no named prompt applies. */
  const C1GenericPrompt: string := C1GenericLead + "\n" + InteractiveElementsNote

  /** The opening lines and closing suggestion of each named panel prompt,
      keyed by panel id. */
  const NamedPromptParts: map<string, (string, string)> := map[
    "pull-requests" := (PullRequestsLead, PullRequestsConsider),
    "cicd-pipeline" := (CicdPipelineLead, CicdPipelineConsider),
    "issues" := (IssuesLead, IssuesConsider),
    "system-logs" := (SystemLogsLead, SystemLogsConsider),
    "team-activity" := (TeamActivityLead, TeamActivityConsider),
    "deployments" := (DeploymentsLead, DeploymentsConsider)
  ]

  /** The named panel prompts, keyed by panel id (own keys only). */
  const PanelSystemPrompts: map<string, string> :=
    map k | k in NamedPromptParts :: NamedPrompt(NamedPromptParts[k].0, NamedPromptParts[k].1)

  /** An optional string in a JavaScript condition: present and not empty. */
  predicate Truthy(o: Option<string>) {
    o.Some? && o.value != ""
  }

  /** Every named prompt carries the interactive-elements note. */
  lemma NoteInNamedPrompts()
    ensures forall k :: k in PanelSystemPrompts ==> Contains(PanelSystemPrompts[k], InteractiveElementsNote)
  {
    forall k | k in PanelSystemPrompts
      ensures Contains(PanelSystemPrompts[k], InteractiveElementsNote)
    {
      NoteInNamedPrompt(NamedPromptParts[k].0, NamedPromptParts[k].1);
    }
  }

  lemma NoteInNamedPrompt(lead: string, consider: string)
    ensures Contains(NamedPrompt(lead, consider), InteractiveElementsNote)
  {
    var r := NamedPrompt(lead, consider);
    assert r[|lead| + 1..|lead| + 1 + |InteractiveElementsNote|] == InteractiveElementsNote;
    assert OccursAt(NamedPrompt(lead, consider), InteractiveElementsNote, |lead| + 1);
  }

  /** The generic rich-UI prompt carries the note; the chat prompt, shorter
      than the note, cannot. */
  lemma NoteInGenericPrompts()
    ensures Contains(C1GenericPrompt, InteractiveElementsNote)
    ensures !Contains(ChatSystemPrompt, InteractiveElementsNote)
  {
    var g := C1GenericPrompt;
    assert g[|C1GenericLead| + 1..] == InteractiveElementsNote;
    assert OccursAt(g, InteractiveElementsNote, |C1GenericLead| + 1);
    assert |ChatSystemPrompt| < |InteractiveElementsNote|;
  }

  /** The base system prompt: a present, non-empty panel id that is a
      registered key selects its named prompt; otherwise a chat panel gets
      the chat prompt and every other panel the generic one. */
  function BasePrompt(panelId: Option<string>, panelType: PanelType): (r: string)
    ensures Truthy(panelId) && panelId.value in PanelSystemPrompts ==> r == PanelSystemPrompts[panelId.value]
    ensures !(Truthy(panelId) && panelId.value in PanelSystemPrompts) ==>
              r == if panelType == Chat then ChatSystemPrompt else C1GenericPrompt
  {
    if Truthy(panelId) && panelId.value in PanelSystemPrompts then PanelSystemPrompts[panelId.value]
    else if panelType == Chat then ChatSystemPrompt
    else C1GenericPrompt
  }

  /** The base prompt carries the interactive-elements note exactly when it
      is not the chat prompt: for a registered panel id or a rich-UI panel. */
  lemma BasePromptNote(panelId: Option<string>, panelType: PanelType)
    ensures Contains(BasePrompt(panelId, panelType), InteractiveElementsNote)
            <==> (Truthy(panelId) && panelId.value in PanelSystemPrompts) || panelType == C1
  {
    if Truthy(panelId) && panelId.value in PanelSystemPrompts {
      NoteInNamedPrompts();
    } else {
      NoteInGenericPrompts();
    }
  }

  /** The text `String(f)` gives for a built-in function named `name`. */
  function NativeFunctionText(name: string): string {
    "function " + name + "() { [native code] }"
  }

  /** The methods every plain object inherits from `Object.prototype`, other
      than `constructor`. */
  const InheritedMethodNames: set<string> := {
    "hasOwnProperty", "isPrototypeOf", "propertyIsEnumerable", "toLocaleString",
    "toString", "valueOf", "__defineGetter__", "__defineSetter__",
    "__lookupGetter__", "__lookupSetter__"
  }

  /** A property read on a plain object literal that finds no own key falls
      back to `Object.prototype`; this is that member, as template
      interpolation renders it. */
  function InheritedText(key: string): (r: Option<string>)
    ensures r.Some? ==> 0 < |r.value| <= 50
    ensures r.None? <==> key != "constructor" && key != "__proto__" && key !in InheritedMethodNames
  {
    if key == "constructor" then Some(NativeFunctionText("Object"))
    else if key == "__proto__" then Some("[object Object]")
    else if key in InheritedMethodNames then Some(NativeFunctionText(key))
    else None
  }

  /** `PANEL_SYSTEM_PROMPTS[panelId]` as JavaScript evaluates it: an own
      entry, else an inherited member, else `undefined`. */
  function PropertyRead(key: string): (r: Option<string>)
    ensures key in PanelSystemPrompts ==> r == Some(PanelSystemPrompts[key])
    ensures key !in PanelSystemPrompts ==> r == InheritedText(key)
  {
    if key in PanelSystemPrompts then Some(PanelSystemPrompts[key]) else InheritedText(key)
  }

  /** The base prompt as the source selects it, by a truthy property read
      that also sees inherited members. */
  function BasePromptAsWritten(panelId: Option<string>, panelType: PanelType): (r: string)
    ensures Truthy(panelId) && PropertyRead(panelId.value).Some? ==> r == PropertyRead(panelId.value).value
    ensures !(Truthy(panelId) && Truthy(PropertyRead(panelId.value))) ==>
              r == if panelType == Chat then ChatSystemPrompt else C1GenericPrompt
  {
    if Truthy(panelId) && Truthy(PropertyRead(panelId.value)) then PropertyRead(panelId.value).value
    else if panelType == Chat then ChatSystemPrompt
    else C1GenericPrompt
  }

  /** The two selections agree except on a panel id naming an inherited
      member, where the source renders that member in place of a prompt. */
  lemma BasePromptAsWrittenDiffers(panelId: Option<string>, panelType: PanelType)
    ensures BasePromptAsWritten(panelId, panelType) == BasePrompt(panelId, panelType)
            <==> !Truthy(panelId) || panelId.value in PanelSystemPrompts || InheritedText(panelId.value).None?
  {
    if Truthy(panelId) && panelId.value !in PanelSystemPrompts && InheritedText(panelId.value).Some? {
      InheritedShownInstead(panelId.value, panelType);
    } else {
      SelectionsAgree(panelId, panelType);
    }
  }

  /** Without an inherited member in play, both selections pick the same prompt. */
  lemma SelectionsAgree(panelId: Option<string>, panelType: PanelType)
    requires !Truthy(panelId) || panelId.value in PanelSystemPrompts || InheritedText(panelId.value).None?
    ensures BasePromptAsWritten(panelId, panelType) == BasePrompt(panelId, panelType)
  {
    if Truthy(panelId) {
      if panelId.value in PanelSystemPrompts {
        RegisteredSelectionsAgree(panelId.value, panelType);
      } else {
        UnregisteredSelectionsAgree(panelId.value, panelType);
      }
    }
  }

  /** A registered id: the source's read finds its own, non-empty named
      prompt. */
  lemma RegisteredSelectionsAgree(key: string, panelType: PanelType)
    requires key != "" && key in PanelSystemPrompts
    ensures BasePromptAsWritten(Some(key), panelType) == PanelSystemPrompts[key]
  {
    NamedPromptsNotEmpty(key);
  }

  /** An id neither registered nor inherited: both selections fall back. */
  lemma UnregisteredSelectionsAgree(key: string, panelType: PanelType)
    requires key !in PanelSystemPrompts && InheritedText(key).None?
    ensures BasePromptAsWritten(Some(key), panelType) == BasePrompt(Some(key), panelType)
  {
  }

  /** An id naming an inherited member gets that member's short text, not
      the fallback prompt. */
  lemma InheritedShownInstead(key: string, panelType: PanelType)
    requires key != "" && key !in PanelSystemPrompts && InheritedText(key).Some?
    ensures BasePromptAsWritten(Some(key), panelType) == InheritedText(key).value
    ensures BasePromptAsWritten(Some(key), panelType) != BasePrompt(Some(key), panelType)
  {
    FallbackPromptsLong();
  }

  /** A named prompt is never empty, so a read that finds one is truthy. */
  lemma NamedPromptsNotEmpty(key: string)
    requires key in PanelSystemPrompts
    ensures PanelSystemPrompts[key] != ""
  {
    var (lead, consider) := NamedPromptParts[key];
    assert |NamedPrompt(lead, consider)| > |InteractiveElementsNote|;
  }

  /** Both fallback prompts are longer than any inherited member's text. */
  lemma FallbackPromptsLong()
    ensures |ChatSystemPrompt| > 50 && |C1GenericPrompt| > 50
  {
    assert |ChatSystemPrompt| == |ChatSystemPrompt[..51]| + |ChatSystemPrompt[51..]|;
  }

  /** Concretely: a chat panel with id `toString` is given the engine's
      rendering of `Object.prototype.toString` as its system prompt, which
      has no note and is no prompt of the dashboard; the corrected lookup
      gives the chat prompt. */
  lemma InheritedKeyReplacesPrompt()
    ensures BasePromptAsWritten(Some("toString"), Chat) == NativeFunctionText("toString")
    ensures BasePrompt(Some("toString"), Chat) == ChatSystemPrompt
  {
    assert "toString" !in NamedPromptParts;
  }

  /** One entry of the current-panels listing. */
  datatype PanelInfo = PanelInfo(id: string, kind: string, title: string)

  /** The listing line of one panel. */
  function PanelLine(p: PanelInfo): (r: string)
    ensures '\n' !in p.id && '\n' !in p.kind && '\n' !in p.title ==> '\n' !in r
  {
    "  - id=\"" + p.id + "\" type=\"" + p.kind + "\" title=\"" + p.title + "\""
  }

  /** The listing shown when there are no panels. */
  const NoPanelsLine: string := "  (no panels currently)"

  /** Every panel's fields are free of line breaks. */
  predicate SingleLineFields(panels: seq<PanelInfo>) {
    forall k :: 0 <= k < |panels| ==>
      '\n' !in panels[k].id && '\n' !in panels[k].kind && '\n' !in panels[k].title
  }

  /** The listing lines of the panels, in input order. */
  function PanelLines(panels: seq<PanelInfo>): (r: seq<string>)
    ensures |r| == |panels|
    ensures forall k :: 0 <= k < |r| ==> r[k] == PanelLine(panels[k])
  {
    seq(|panels|, k requires 0 <= k < |panels| => PanelLine(panels[k]))
  }

  /** The current-panels listing: the placeholder for no panels, otherwise
      one line per panel, in input order, which splitting on line breaks
      recovers when no field holds a line break. */
  function PanelContext(panels: seq<PanelInfo>): (r: string)
    ensures |panels| == 0 ==> r == NoPanelsLine
    ensures |panels| > 0 ==> r == Join(PanelLines(panels), "\n")
    ensures |panels| > 0 && SingleLineFields(panels) ==> Split(r, '\n') == PanelLines(panels)
  {
    if |panels| == 0 then NoPanelsLine
    else
      var lines := PanelLines(panels);
      if SingleLineFields(panels) then
        assert forall k :: 0 <= k < |lines| ==> '\n' !in lines[k];
        SplitJoin(lines, '\n');
        Join(lines, "\n")
      else Join(lines, "\n")
  }

  const ProtocolHead: string :=
    "\n\n---\nDASHBOARD CONTROL PROTOCOL"
    + "\nYou can modify this dashboard by appending commands at the very end of your response."
    + "\nCurrent panels:\n"
  const ProtocolMiddle: string :=
    "\n\nTo issue commands append EXACTLY this block AFTER your main response:\n"
  const ProtocolTail: string :=
    "\n\nInclude only the commands you actually want to execute."

  /** The layout of a system prompt, for any base, listing, example and
      protocol prose. */
  lemma PromptLayout(base: string, head: string, ctx: string, middle: string, example: string, tail: string)
    ensures var rest := head + ctx + middle + CommandBlock(example) + tail;
            var r := base + rest;
            var i := |base| + |head| + |ctx| + |middle|;
            && r[..|base|] == base
            && r[|base|..] == rest
            && OccursAt(r, ctx, |base| + |head|)
            && OccursAt(r, CommandsStart, i)
            && OccursAt(r, CommandsEnd, i + |CommandsStart| + 2 + |example|)
  {
    var rest := head + ctx + middle + CommandBlock(example) + tail;
    var r := base + rest;
    var i := |base| + |head| + |ctx| + |middle|;
    var j := i + |CommandsStart| + 2 + |example|;
    assert r[|base| + |head|..|base| + |head| + |ctx|] == ctx;
    assert r[i..i + |CommandsStart|] == CommandsStart;
    assert r[j..j + |CommandsEnd|] == CommandsEnd;
  }

  /** The control protocol appended to every base prompt: the panel
      listing and an example command block, the start token before the end
      token. */
  function Protocol(panels: seq<PanelInfo>): (r: string)
    ensures Contains(r, PanelContext(panels))
    ensures exists i, j :: OccursAt(r, CommandsStart, i) && OccursAt(r, CommandsEnd, j)
                          && i + |CommandsStart| < j
  {
    var ctx := PanelContext(panels);
    PromptLayout("", ProtocolHead, ctx, ProtocolMiddle, ExamplePayload, ProtocolTail);
    ProtocolHead + ctx + ProtocolMiddle + CommandBlock(ExamplePayload) + ProtocolTail
  }

  /** The system prompt: the base prompt, then the control protocol. */
  function SystemPrompt(base: string, panels: seq<PanelInfo>): (r: string)
    ensures StartsWith(r, base) && r[|base|..] == Protocol(panels)
  {
    base + Protocol(panels)
  }

  /** What the system prompt shows: it opens with the base prompt, lists the
      panels and holds an example block with the start token before the end
      token. */
  lemma SystemPromptShows(base: string, panels: seq<PanelInfo>)
    ensures StartsWith(SystemPrompt(base, panels), base)
    ensures Contains(SystemPrompt(base, panels), PanelContext(panels))
    ensures exists i, j :: OccursAt(SystemPrompt(base, panels), CommandsStart, i)
                          && OccursAt(SystemPrompt(base, panels), CommandsEnd, j)
                          && i + |CommandsStart| < j
  {
    var r, p := SystemPrompt(base, panels), Protocol(panels);
    var c :| 0 <= c <= |p| && OccursAt(p, PanelContext(panels), c);
    OccursInSuffix(base, p, PanelContext(panels), c);
    var i, j :| OccursAt(p, CommandsStart, i) && OccursAt(p, CommandsEnd, j) && i + |CommandsStart| < j;
    OccursInSuffix(base, p, CommandsStart, i);
    OccursInSuffix(base, p, CommandsEnd, j);
  }

  const NamedPanelRequest: string := "Generate this panel with realistic sample data."
  const ChatIntroRequest: string := "Introduce yourself and explain how you can help manage this dashboard."
  const GenericPanelRequest: string := "Generate a developer dashboard panel."

  /** The user message: a non-empty user prompt unchanged; otherwise a
      present, non-empty panel id (registered or not) asks for that panel,
      and without one the request depends on the panel type. The message is
      never empty. */
  function EffectiveUserPrompt(userPrompt: Option<string>, panelId: Option<string>,
                               panelType: PanelType): (r: string)
    ensures r != ""
    ensures Truthy(userPrompt) ==> r == userPrompt.value
    ensures !Truthy(userPrompt) ==> r in {NamedPanelRequest, ChatIntroRequest, GenericPanelRequest}
    ensures !Truthy(userPrompt) ==> (r == NamedPanelRequest <==> Truthy(panelId))
    ensures !Truthy(userPrompt) && !Truthy(panelId) ==> (r == ChatIntroRequest <==> panelType == Chat)
  {
    if Truthy(userPrompt) then userPrompt.value
    else if Truthy(panelId) then NamedPanelRequest
    else if panelType == Chat then ChatIntroRequest
    else GenericPanelRequest
  }

  /** The completion's token limit: the smaller one for a named panel. */
  function MaxTokens(panelId: Option<string>): (r: nat)
    ensures r == 2000 <==> Truthy(panelId)
    ensures r == 4000 <==> !Truthy(panelId)
  {
    if Truthy(panelId) then 2000 else 4000
  }

  /** The options `callThesysPanel` takes. */
  datatype PanelOptions = PanelOptions(panelId: Option<string>, userPrompt: Option<string>,
                                       panelType: PanelType, panels: seq<PanelInfo>)

  datatype Role = System | User
  datatype Message = Message(role: Role, content: string)

  /** The chat-completion request, without its sampling temperature. */
  datatype CompletionRequest = CompletionRequest(model: string, messages: seq<Message>, maxTokens: nat)

  const CompletionModel: string := "c1/anthropic/claude-sonnet-4/v-20251230"

  /** The request `callThesysPanel` sends: the system prompt built on the
      base prompt the source selects, then the effective user prompt. */
  function BuildRequest(opts: PanelOptions): (r: CompletionRequest)
    ensures |r.messages| == 2 && r.messages[0].role == System && r.messages[1].role == User
    ensures r.messages[0].content == SystemPrompt(BasePromptAsWritten(opts.panelId, opts.panelType), opts.panels)
    ensures r.messages[1].content == EffectiveUserPrompt(opts.userPrompt, opts.panelId, opts.panelType)
    ensures r.maxTokens == MaxTokens(opts.panelId)
  {
    var base := BasePromptAsWritten(opts.panelId, opts.panelType);
    CompletionRequest(
      CompletionModel,
      [Message(System, SystemPrompt(base, opts.panels)),
       Message(User, EffectiveUserPrompt(opts.userPrompt, opts.panelId, opts.panelType))],
      MaxTokens(opts.panelId))
  }

  const NoContentError: string := "No content returned from Thesys C1"

  /** `callThesysPanel`, with the completion service as `complete` (the
      content of its first choice, `None` when absent) and `JSON.parse` as
      `parse`: a missing or empty reply is an error, any other reply is
      split into content and commands. */
  function CallThesysPanel(opts: PanelOptions, complete: CompletionRequest -> Option<string>,
                           parse: string -> Option<Json>): (r: Result<Parsed>)
    ensures r.Err? <==> !Truthy(complete(BuildRequest(opts)))
    ensures r.Err? ==> r.message == NoContentError
    ensures r.Ok? ==> r.value == ParseCommands(complete(BuildRequest(opts)).value, parse)
  {
    var raw := complete(BuildRequest(opts));
    if !Truthy(raw) then Err(NoContentError)
    else Ok(ParseCommands(raw.value, parse))
  }

  /** The options `callThesysC1Panel` passes on: its panel id, its context
      as the user prompt only when non-empty, a rich-UI panel, no panels. */
  function C1PanelOptions(panelId: string, userContext: string): (r: PanelOptions)
    ensures r.panelId == Some(panelId) && r.panelType == C1 && r.panels == []
    ensures Truthy(r.userPrompt) <==> userContext != ""
    ensures Truthy(r.userPrompt) ==> r.userPrompt.value == userContext
  {
    PanelOptions(Some(panelId), if userContext == "" then None else Some(userContext), C1, [])
  }

  /** `callThesysC1Panel`: the panel call with the mapped options, keeping
      only the display content. */
  function CallThesysC1Panel(panelId: string, userContext: string,
                             complete: CompletionRequest -> Option<string>,
                             parse: string -> Option<Json>): (r: Result<string>)
    ensures r.Err? <==> CallThesysPanel(C1PanelOptions(panelId, userContext), complete, parse).Err?
    ensures r.Ok? ==> r.value == CallThesysPanel(C1PanelOptions(panelId, userContext), complete, parse).value.content
  {
    match CallThesysPanel(C1PanelOptions(panelId, userContext), complete, parse)
    case Ok(p) => Ok(p.content)
    case Err(e) => Err(e)
  }

  /** The request behind `callThesysC1Panel`: the user message is the
      context when given, otherwise the named-panel request for a non-empty
      id and the generic request for an empty one; the token limit follows
      the id. */
  lemma C1PanelRequest(panelId: string, userContext: string)
    ensures var r := BuildRequest(C1PanelOptions(panelId, userContext));
            && r.messages[1].content == (if userContext != "" then userContext
                                         else if panelId != "" then NamedPanelRequest
                                         else GenericPanelRequest)
            && r.maxTokens == (if panelId != "" then 2000 else 4000)
  {
  }

  /** Two system prompts over the same panels are equal only when their
      base prompts are. */
  lemma SystemPromptsDiffer(a: string, b: string, panels: seq<PanelInfo>)
    ensures SystemPrompt(a, panels) == SystemPrompt(b, panels) ==> a == b
  {
    if SystemPrompt(a, panels) == SystemPrompt(b, panels) {
      assert |a| == |b|;
      assert a == SystemPrompt(a, panels)[..|a|];
    }
  }

  /** The request the source sends has the system prompt of the corrected
      selection exactly when the panel id names no inherited member. */
  lemma RequestFollowsCorrectedPrompt(opts: PanelOptions)
    ensures BuildRequest(opts).messages[0].content == SystemPrompt(BasePrompt(opts.panelId, opts.panelType), opts.panels)
            <==> !Truthy(opts.panelId) || opts.panelId.value in PanelSystemPrompts
                 || InheritedText(opts.panelId.value).None?
  {
    BasePromptAsWrittenDiffers(opts.panelId, opts.panelType);
    SystemPromptsDiffer(BasePromptAsWritten(opts.panelId, opts.panelType),
                        BasePrompt(opts.panelId, opts.panelType), opts.panels);
  }

  /** A note in the base prompt is a note in the system prompt. */
  lemma NoteKept(base: string, panels: seq<PanelInfo>)
    requires Contains(base, InteractiveElementsNote)
    ensures Contains(SystemPrompt(base, panels), InteractiveElementsNote)
  {
    var c :| 0 <= c <= |base| && OccursAt(base, InteractiveElementsNote, c);
    OccursInPrefix(base, Protocol(panels), InteractiveElementsNote, c);
  }

  /** A system prompt over no panels says there are none. */
  lemma NoPanelsListed(base: string)
    ensures Contains(SystemPrompt(base, []), NoPanelsLine)
  {
    SystemPromptShows(base, []);
    assert PanelContext([]) == NoPanelsLine;
  }

  /** The system message of `callThesysC1Panel`'s request. */
  lemma C1SystemMessage(panelId: string, userContext: string)
    ensures BuildRequest(C1PanelOptions(panelId, userContext)).messages[0].content
            == SystemPrompt(BasePromptAsWritten(Some(panelId), C1), [])
  {
  }

  /** The system prompt behind `callThesysC1Panel` lists no panels and,
      for any id that names no inherited member, carries the
      interactive-elements note: a registered id keeps its named prompt and
      any other id gets the generic rich-UI prompt, never the chat prompt. */
  lemma C1PanelSystemPrompt(panelId: string, userContext: string)
    ensures Contains(BuildRequest(C1PanelOptions(panelId, userContext)).messages[0].content, NoPanelsLine)
    ensures panelId in PanelSystemPrompts || InheritedText(panelId).None? ==>
              Contains(BuildRequest(C1PanelOptions(panelId, userContext)).messages[0].content,
                       InteractiveElementsNote)
  {
    var base := BasePromptAsWritten(Some(panelId), C1);
    C1SystemMessage(panelId, userContext);
    NoPanelsListed(base);
    if panelId in PanelSystemPrompts || InheritedText(panelId).None? {
      SelectionsAgree(Some(panelId), C1);
      BasePromptNote(Some(panelId), C1);
      NoteKept(base, []);
    }
  }

  /** Text shorter than the interactive-elements note cannot hold it. */
  lemma ShortTextLacksNote(t: string)
    requires |t| <= 50
    ensures !Contains(t, InteractiveElementsNote)
  {
    assert |InteractiveElementsNote| > 50 by {
      assert |InteractiveElementsNote| == |InteractiveElementsNote[..51]| + |InteractiveElementsNote[51..]|;
    }
  }

  /** An id naming an inherited member, `toString` for one, gives
      `callThesysC1Panel` that member's text as its base prompt, which is
      too short to hold the interactive-elements note. */
  lemma C1InheritedIdLosesNote(panelId: string, userContext: string)
    requires panelId != "" && panelId !in PanelSystemPrompts && InheritedText(panelId).Some?
    ensures BuildRequest(C1PanelOptions(panelId, userContext)).messages[0].content
            == SystemPrompt(InheritedText(panelId).value, [])
    ensures !Contains(InheritedText(panelId).value, InteractiveElementsNote)
  {
    C1SystemMessage(panelId, userContext);
    InheritedShownInstead(panelId, C1);
    ShortTextLacksNote(InheritedText(panelId).value);
  }

  /** Concretely: `callThesysC1Panel` for the id `toString` builds its
      system prompt on the engine's rendering of `Object.prototype.toString`,
      without the interactive-elements note. */
  lemma ToStringC1Base()
    ensures BasePromptAsWritten(Some("toString"), C1) == NativeFunctionText("toString")
    ensures !Contains(NativeFunctionText("toString"), InteractiveElementsNote)
  {
    assert "toString" !in NamedPromptParts;
    ShortTextLacksNote(NativeFunctionText("toString"));
  }

  /** A reply without both tokens is shown whole, with no commands. */
  lemma PlainReply(opts: PanelOptions, complete: CompletionRequest -> Option<string>,
                   parse: string -> Option<Json>)
    requires Truthy(complete(BuildRequest(opts)))
    requires !Contains(complete(BuildRequest(opts)).value, CommandsStart)
    ensures CallThesysPanel(opts, complete, parse) == Ok(Parsed(complete(BuildRequest(opts)).value, []))
  {
    MissingTokenKeepsReply(complete(BuildRequest(opts)).value, parse);
  }
}
