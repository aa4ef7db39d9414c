/**
 * The dashboard command vocabulary: the `DashboardCommand` union type and
 * the JSON object each of its variants stands for on the wire.
 */
module Commands {
  import opened Wrappers
  import opened Json

  /** The two panel kinds: rich generated UI (`'c1'`) and plain-text chat (`'chat'`). */
  datatype PanelType = C1 | Chat

  function PanelTypeName(t: PanelType): string {
    match t
    case C1 => "c1"
    case Chat => "chat"
  }

  function PanelTypeOf(name: string): (r: Option<PanelType>)
    ensures r.Some? ==> PanelTypeName(r.value) == name
  {
    if name == "c1" then Some(C1) else if name == "chat" then Some(Chat) else None
  }

  /** The `panel` field of an `add_panel` command. */
  datatype NewPanel = NewPanel(kind: PanelType, caption: string, withInput: Option<bool>)

  /** One variant per member of the union, with its fields; a field marked
      optional in the union is an `Option`. */
  datatype DashboardCommand =
    | Reorder(order: seq<string>)
    | Update(id: string, content: string, maybeTitle: Option<string>)
    | AddPanel(panel: NewPanel)
    | RemovePanel(id: string)
    | SetInput(id: string, hasInput: bool)
    | SetType(id: string, panelType: PanelType)
    | SetTitle(id: string, title: string)

  function Strings(xs: seq<string>): (r: seq<Json>)
    ensures |r| == |xs|
    ensures forall k :: 0 <= k < |xs| ==> r[k] == JString(xs[k])
  {
    if xs == [] then [] else [JString(xs[0])] + Strings(xs[1..])
  }

  /** The JSON object a command is, as the union type describes it: a `type`
      tag and the variant's fields; an absent optional field is left out. */
  function ToJson(c: DashboardCommand): Json {
    match c
    case Reorder(order) =>
      JObject([("type", JString("reorder")), ("order", JArray(Strings(order)))])
    case Update(id, content, title) =>
      if title.Some? then
        JObject([("type", JString("update")), ("id", JString(id)), ("content", JString(content)),
                 ("title", JString(title.value))])
      else
        JObject([("type", JString("update")), ("id", JString(id)), ("content", JString(content))])
    case AddPanel(p) =>
      JObject([("type", JString("add_panel")), ("panel", PanelToJson(p))])
    case RemovePanel(id) =>
      JObject([("type", JString("remove_panel")), ("id", JString(id))])
    case SetInput(id, hasInput) =>
      JObject([("type", JString("set_input")), ("id", JString(id)), ("hasInput", JBool(hasInput))])
    case SetType(id, t) =>
      JObject([("type", JString("set_type")), ("id", JString(id)), ("panelType", JString(PanelTypeName(t)))])
    case SetTitle(id, title) =>
      JObject([("type", JString("set_title")), ("id", JString(id)), ("title", JString(title))])
  }

  function PanelToJson(p: NewPanel): Json {
    if p.withInput.Some? then
      JObject([("type", JString(PanelTypeName(p.kind))), ("title", JString(p.caption)),
               ("hasInput", JBool(p.withInput.value))])
    else
      JObject([("type", JString(PanelTypeName(p.kind))), ("title", JString(p.caption))])
  }

  /** The member `key` of an object as `JSON.parse` leaves it: when a key is
      repeated, the last occurrence wins. */
  function Lookup(members: seq<(string, Json)>, key: string): (r: Option<Json>)
    ensures r.None? <==> forall k :: 0 <= k < |members| ==> members[k].0 != key
  {
    if members == [] then None
    else if members[|members| - 1].0 == key then Some(members[|members| - 1].1)
    else Lookup(members[..|members| - 1], key)
  }

  /** A key that no other member carries is found with its own value. */
  lemma {:induction false} LookupUnique(members: seq<(string, Json)>, i: nat)
    requires i < |members|
    requires forall j :: 0 <= j < |members| && j != i ==> members[j].0 != members[i].0
    ensures Lookup(members, members[i].0) == Some(members[i].1)
  {
    var n := |members|;
    if i < n - 1 {
      var init := members[..n - 1];
      forall j | 0 <= j < |init| && j != i
        ensures init[j].0 != init[i].0
      {
        assert init[j] == members[j] && init[i] == members[i];
      }
      LookupUnique(init, i);
      assert init[i] == members[i];
    }
  }

  function StringField(members: seq<(string, Json)>, key: string): Option<string> {
    match Lookup(members, key)
    case Some(JString(s)) => Some(s)
    case _ => None
  }

  function BoolField(members: seq<(string, Json)>, key: string): Option<bool> {
    match Lookup(members, key)
    case Some(JBool(b)) => Some(b)
    case _ => None
  }

  predicate AllStrings(xs: seq<Json>) {
    forall k :: 0 <= k < |xs| ==> xs[k].JString?
  }

  function StringsOf(xs: seq<Json>): (r: seq<string>)
    requires AllStrings(xs)
    ensures |r| == |xs|
    ensures forall k :: 0 <= k < |xs| ==> xs[k] == JString(r[k])
  {
    if xs == [] then [] else [xs[0].s] + StringsOf(xs[1..])
  }

  /** The command a parsed JSON value is, when it has the shape of a member
      of the union: the right `type` tag and every required field with the
      right JSON type; an optional field that is present must have its type. */
  function FromJson(j: Json): Option<DashboardCommand> {
    if !j.JObject? then None
    else
      match StringField(j.members, "type")
      case Some(tag) => ReadTagged(tag, j.members)
      case None => None
  }

  /** The fields of an object with `type` tag `tag`, read as that variant. */
  function ReadTagged(tag: string, ms: seq<(string, Json)>): (r: Option<DashboardCommand>)
    ensures r.Some? ==> Tag(r.value) == tag
  {
    if tag == "reorder" then ReadReorder(ms)
    else if tag == "update" then ReadUpdate(ms)
    else if tag == "add_panel" then ReadAddPanel(ms)
    else if tag == "remove_panel" then ReadRemovePanel(ms)
    else if tag == "set_input" then ReadSetInput(ms)
    else if tag == "set_type" then ReadSetType(ms)
    else if tag == "set_title" then ReadSetTitle(ms)
    else None
  }

  function ReadReorder(ms: seq<(string, Json)>): Option<DashboardCommand> {
    match Lookup(ms, "order")
    case Some(JArray(xs)) => if AllStrings(xs) then Some(Reorder(StringsOf(xs))) else None
    case _ => None
  }

  /** An optional string field: absent, or present with a string. */
  predicate OptionalString(ms: seq<(string, Json)>, key: string) {
    Lookup(ms, key).None? || StringField(ms, key).Some?
  }

  function ReadUpdate(ms: seq<(string, Json)>): Option<DashboardCommand> {
    if StringField(ms, "id").None? || StringField(ms, "content").None? || !OptionalString(ms, "title") then None
    else Some(Update(StringField(ms, "id").value, StringField(ms, "content").value, StringField(ms, "title")))
  }

  function ReadPanelType(ms: seq<(string, Json)>, key: string): Option<PanelType> {
    match StringField(ms, key)
    case Some(name) => PanelTypeOf(name)
    case None => None
  }

  function ReadAddPanel(ms: seq<(string, Json)>): Option<DashboardCommand> {
    match Lookup(ms, "panel")
    case Some(JObject(ps)) =>
      var t := ReadPanelType(ps, "type");
      if t.None? || StringField(ps, "title").None? then None
      else if Lookup(ps, "hasInput").Some? && BoolField(ps, "hasInput").None? then None
      else Some(AddPanel(NewPanel(t.value, StringField(ps, "title").value, BoolField(ps, "hasInput"))))
    case _ => None
  }

  function ReadRemovePanel(ms: seq<(string, Json)>): Option<DashboardCommand> {
    if StringField(ms, "id").None? then None else Some(RemovePanel(StringField(ms, "id").value))
  }

  function ReadSetInput(ms: seq<(string, Json)>): Option<DashboardCommand> {
    if StringField(ms, "id").None? || BoolField(ms, "hasInput").None? then None
    else Some(SetInput(StringField(ms, "id").value, BoolField(ms, "hasInput").value))
  }

  function ReadSetType(ms: seq<(string, Json)>): Option<DashboardCommand> {
    var t := ReadPanelType(ms, "panelType");
    if StringField(ms, "id").None? || t.None? then None
    else Some(SetType(StringField(ms, "id").value, t.value))
  }

  function ReadSetTitle(ms: seq<(string, Json)>): Option<DashboardCommand> {
    if StringField(ms, "id").None? || StringField(ms, "title").None? then None
    else Some(SetTitle(StringField(ms, "id").value, StringField(ms, "title").value))
  }

  /** Every command's wire object is read back as that same command. */
  lemma FromToJson(c: DashboardCommand)
    ensures FromJson(ToJson(c)) == Some(c)
  {
    TagRead(c);
    FieldsRead(c);
  }

  lemma FieldsRead(c: DashboardCommand)
    ensures ReadTagged(Tag(c), ToJson(c).members) == Some(c)
  {
    match c
    case Reorder(order) => ReorderRead(order);
    case Update(id, content, title) => UpdateRead(id, content, title);
    case AddPanel(p) => AddPanelRead(p);
    case RemovePanel(id) => RemovePanelRead(id);
    case SetInput(id, hasInput) => SetInputRead(id, hasInput);
    case SetType(id, t) => SetTypeRead(id, t);
    case SetTitle(id, title) => SetTitleRead(id, title);
  }

  lemma TagRead(c: DashboardCommand)
    ensures FromJson(ToJson(c)) == ReadTagged(Tag(c), ToJson(c).members)
  {
    TypeFirst(c);
  }

  /** A command's wire object carries its tag under `type`. */
  lemma TypeFirst(c: DashboardCommand)
    ensures Lookup(ToJson(c).members, "type") == Some(JString(Tag(c)))
  {
    match c
    case Reorder(order) => LookupUnique(ToJson(c).members, 0);
    case Update(id, content, title) => LookupUnique(ToJson(c).members, 0);
    case AddPanel(p) => LookupUnique(ToJson(c).members, 0);
    case RemovePanel(id) => LookupUnique(ToJson(c).members, 0);
    case SetInput(id, hasInput) => LookupUnique(ToJson(c).members, 0);
    case SetType(id, t) => LookupUnique(ToJson(c).members, 0);
    case SetTitle(id, title) => LookupUnique(ToJson(c).members, 0);
  }

  lemma ReorderRead(order: seq<string>)
    ensures ReadTagged("reorder", ToJson(Reorder(order)).members) == Some(Reorder(order))
  {
    var ms := ToJson(Reorder(order)).members;
    LookupUnique(ms, 1);
    assert StringsOf(Strings(order)) == order;
  }

  lemma UpdateRead(id: string, content: string, title: Option<string>)
    ensures ReadTagged("update", ToJson(Update(id, content, title)).members) == Some(Update(id, content, title))
  {
    var ms := ToJson(Update(id, content, title)).members;
    LookupUnique(ms, 1);
    LookupUnique(ms, 2);
    if title.Some? {
      LookupUnique(ms, 3);
    }
  }

  lemma AddPanelRead(p: NewPanel)
    ensures ReadTagged("add_panel", ToJson(AddPanel(p)).members) == Some(AddPanel(p))
  {
    var ms := ToJson(AddPanel(p)).members;
    LookupUnique(ms, 1);
    var ps := PanelToJson(p).members;
    LookupUnique(ps, 0);
    LookupUnique(ps, 1);
    assert PanelTypeOf(PanelTypeName(p.kind)) == Some(p.kind);
    if p.withInput.Some? {
      LookupUnique(ps, 2);
    }
  }

  lemma RemovePanelRead(id: string)
    ensures ReadTagged("remove_panel", ToJson(RemovePanel(id)).members) == Some(RemovePanel(id))
  {
    LookupUnique(ToJson(RemovePanel(id)).members, 1);
  }

  lemma SetInputRead(id: string, hasInput: bool)
    ensures ReadTagged("set_input", ToJson(SetInput(id, hasInput)).members) == Some(SetInput(id, hasInput))
  {
    var ms := ToJson(SetInput(id, hasInput)).members;
    LookupUnique(ms, 1);
    LookupUnique(ms, 2);
  }

  lemma SetTypeRead(id: string, t: PanelType)
    ensures ReadTagged("set_type", ToJson(SetType(id, t)).members) == Some(SetType(id, t))
  {
    var ms := ToJson(SetType(id, t)).members;
    LookupUnique(ms, 1);
    LookupUnique(ms, 2);
    assert PanelTypeOf(PanelTypeName(t)) == Some(t);
  }

  lemma SetTitleRead(id: string, title: string)
    ensures ReadTagged("set_title", ToJson(SetTitle(id, title)).members) == Some(SetTitle(id, title))
  {
    var ms := ToJson(SetTitle(id, title)).members;
    LookupUnique(ms, 1);
    LookupUnique(ms, 2);
  }

  /** The `type` tag of each variant. */
  function Tag(c: DashboardCommand): string {
    match c
    case Reorder(_) => "reorder"
    case Update(_, _, _) => "update"
    case AddPanel(_) => "add_panel"
    case RemovePanel(_) => "remove_panel"
    case SetInput(_, _) => "set_input"
    case SetType(_, _) => "set_type"
    case SetTitle(_, _) => "set_title"
  }

  /** A value read as a command has that command's tag. */
  lemma TagOf(j: Json, c: DashboardCommand)
    requires FromJson(j) == Some(c)
    ensures j.JObject? && Lookup(j.members, "type") == Some(JString(Tag(c)))
  {
  }

  /** A value read as a command carries that command's tag and top-level
      fields: it agrees with the command's wire object on every field name
      the command's variant uses. */
  lemma ToFromJson(j: Json, c: DashboardCommand)
    requires FromJson(j) == Some(c)
    ensures j.JObject? && ToJson(c).JObject?
    ensures forall key :: key in FieldNames(c) ==> Lookup(j.members, key) == Lookup(ToJson(c).members, key)
  {
    TagOf(j, c);
    TypeFirst(c);
    FieldsAgree(j.members, c);
  }

  lemma FieldsAgree(ms: seq<(string, Json)>, c: DashboardCommand)
    requires ReadTagged(Tag(c), ms) == Some(c)
    ensures forall key :: key in FieldNames(c) - {"type"} ==> Lookup(ms, key) == Lookup(ToJson(c).members, key)
  {
    match c
    case Reorder(order) => ReorderAgrees(ms, order);
    case Update(id, content, title) => UpdateAgrees(ms, id, content, title);
    case AddPanel(_) =>
    case RemovePanel(id) => RemovePanelAgrees(ms, id);
    case SetInput(id, hasInput) => SetInputAgrees(ms, id, hasInput);
    case SetType(id, t) => SetTypeAgrees(ms, id, t);
    case SetTitle(id, title) => SetTitleAgrees(ms, id, title);
  }

  lemma ReorderAgrees(ms: seq<(string, Json)>, order: seq<string>)
    requires ReadReorder(ms) == Some(Reorder(order))
    ensures Lookup(ms, "order") == Lookup(ToJson(Reorder(order)).members, "order")
  {
    LookupUnique(ToJson(Reorder(order)).members, 1);
    var xs := Lookup(ms, "order").value.items;
    assert xs == Strings(order);
  }

  lemma UpdateAgrees(ms: seq<(string, Json)>, id: string, content: string, title: Option<string>)
    requires ReadUpdate(ms) == Some(Update(id, content, title))
    ensures Lookup(ms, "id") == Lookup(ToJson(Update(id, content, title)).members, "id")
    ensures Lookup(ms, "content") == Lookup(ToJson(Update(id, content, title)).members, "content")
    ensures title.Some? ==> Lookup(ms, "title") == Lookup(ToJson(Update(id, content, title)).members, "title")
  {
    var ws := ToJson(Update(id, content, title)).members;
    LookupUnique(ws, 1);
    LookupUnique(ws, 2);
    if title.Some? {
      LookupUnique(ws, 3);
    }
  }

  lemma RemovePanelAgrees(ms: seq<(string, Json)>, id: string)
    requires ReadRemovePanel(ms) == Some(RemovePanel(id))
    ensures Lookup(ms, "id") == Lookup(ToJson(RemovePanel(id)).members, "id")
  {
    LookupUnique(ToJson(RemovePanel(id)).members, 1);
  }

  lemma SetInputAgrees(ms: seq<(string, Json)>, id: string, hasInput: bool)
    requires ReadSetInput(ms) == Some(SetInput(id, hasInput))
    ensures Lookup(ms, "id") == Lookup(ToJson(SetInput(id, hasInput)).members, "id")
    ensures Lookup(ms, "hasInput") == Lookup(ToJson(SetInput(id, hasInput)).members, "hasInput")
  {
    var ws := ToJson(SetInput(id, hasInput)).members;
    LookupUnique(ws, 1);
    LookupUnique(ws, 2);
  }

  lemma SetTypeAgrees(ms: seq<(string, Json)>, id: string, t: PanelType)
    requires ReadSetType(ms) == Some(SetType(id, t))
    ensures Lookup(ms, "id") == Lookup(ToJson(SetType(id, t)).members, "id")
    ensures Lookup(ms, "panelType") == Lookup(ToJson(SetType(id, t)).members, "panelType")
  {
    var ws := ToJson(SetType(id, t)).members;
    LookupUnique(ws, 1);
    LookupUnique(ws, 2);
    assert PanelTypeOf(PanelTypeName(t)) == Some(t);
    assert StringField(ms, "panelType") == Some(PanelTypeName(t));
  }

  lemma SetTitleAgrees(ms: seq<(string, Json)>, id: string, title: string)
    requires ReadSetTitle(ms) == Some(SetTitle(id, title))
    ensures Lookup(ms, "id") == Lookup(ToJson(SetTitle(id, title)).members, "id")
    ensures Lookup(ms, "title") == Lookup(ToJson(SetTitle(id, title)).members, "title")
  {
    var ws := ToJson(SetTitle(id, title)).members;
    LookupUnique(ws, 1);
    LookupUnique(ws, 2);
  }

  function FieldNames(c: DashboardCommand): set<string> {
    match c
    case Reorder(_) => {"type", "order"}
    case Update(_, _, title) => {"type", "id", "content"} + (if title.Some? then {"title"} else {})
    case AddPanel(_) => {"type"}
    case RemovePanel(_) => {"type", "id"}
    case SetInput(_, _) => {"type", "id", "hasInput"}
    case SetType(_, _) => {"type", "id", "panelType"}
    case SetTitle(_, _) => {"type", "id", "title"}
  }
}
