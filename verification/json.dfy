/**
 * JSON values as `JSON.parse` produces them, and the one fact about the
 * JSON-text grammar (RFC 8259, section 2) that the command codec relies on.
 * The parser itself stays abstract: every operation that parses takes it as
 * a parameter of type `string -> Option<Json>`.
 */
module Json {
  import opened Wrappers

  /** A JSON value (RFC 8259, section 3). A number is kept as
      `mantissa` times ten to the power `exponent`. An object keeps its
      members in text order, duplicates included. */
  datatype Json =
    | JNull
    | JBool(b: bool)
    | JNumber(mantissa: int, exponent: int)
    | JString(s: string)
    | JArray(items: seq<Json>)
    | JObject(members: seq<(string, Json)>)

  /** The insignificant white space of RFC 8259, section 2: space, horizontal
      tab, line feed and carriage return. */
  predicate IsJsonSpace(c: char) {
    c == ' ' || c == '\t' || c == '\n' || c == '\r'
  }

  /** The characters a JSON value can begin with: begin-array, begin-object,
      quotation mark, minus, a digit, and the first letters of the literal
      names `false`, `null` and `true` (RFC 8259, sections 2 to 7). */
  predicate StartsValue(c: char) {
    c == '[' || c == '{' || c == '"' || c == '-' || ('0' <= c <= '9')
    || c == 'f' || c == 'n' || c == 't'
  }

  /** A parser that accepts only JSON texts: since `JSON-text = ws value ws`,
      any text it accepts is non-empty and begins with white space or with
      the first character of a value. */
  ghost predicate FollowsJsonGrammar(parse: string -> Option<Json>) {
    forall s :: parse(s).Some? ==> s != [] && (IsJsonSpace(s[0]) || StartsValue(s[0]))
  }

  /** A grammar-following parser rejects the empty text and any text whose
      first character can neither start a value nor be white space. */
  lemma GrammarRejects(parse: string -> Option<Json>, s: string)
    requires FollowsJsonGrammar(parse)
    requires s == [] || (!IsJsonSpace(s[0]) && !StartsValue(s[0]))
    ensures parse(s) == None
  {
  }
}
