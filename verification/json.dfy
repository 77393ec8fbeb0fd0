/** JSON documents as trees, and the Gson accessors the services chain
    together. Turning text into a tree (the syntax) is not modelled: a parser is
    any function from text to an optional tree, `None` standing for a syntax
    error or an empty document. Everything after the syntax (member lookup,
    casts, null handling) follows Gson. */
module JsonValue {
  import opened Base
  import Numerals

  /** A JSON value; a number keeps its lexeme, as Gson's lazily parsed numbers do. */
  datatype Json =
    | JNull
    | JBool(b: bool)
    | JNum(lexeme: string)
    | JStr(s: string)
    | JArr(items: seq<Json>)
    | JObj(members: map<string, Json>)

  /** A JSON text parser (Gson or Jackson syntax). */
  type Parser = string -> Option<Json>

  /** A JSON number holding a Java `int`. */
  function IntNumber(i: int): Json {
    JNum(Numerals.IntString(i))
  }

  /** Reads back the `int` of a JSON number. */
  function IntOf(j: Json): Option<int> {
    if j.JNum? then Numerals.ParseInt(j.lexeme) else None
  }

  lemma IntOfIntNumber(i: int)
    ensures IntOf(IntNumber(i)) == Some(i)
  {
    Numerals.ParseIntString(i);
  }

  /** `JsonObject.get(key)` / `Map.get(key)`: null when the key is absent. */
  function Member(j: Json, key: string): Option<Json> {
    if j.JObj? && key in j.members then Some(j.members[key]) else None
  }

  /** `JsonElement.getAsJsonObject()`; fails on anything but an object. */
  function AsObject(j: Option<Json>): Option<Json> {
    if j.Some? && j.value.JObj? then j else None
  }

  /** `JsonObject.getAsJsonArray(key)` followed by `.get(0)`: the member must
      be a non-empty array. */
  function FirstOfArrayMember(j: Json, key: string): Option<Json> {
    match Member(j, key)
    case Some(JArr(items)) => if |items| > 0 then Some(items[0]) else None
    case _ => None
  }

  /** `JsonPrimitive.getAsString()`: a string, or the text of a number or boolean. */
  function PrimitiveText(j: Json): Option<string> {
    match j
    case JStr(s) => Some(s)
    case JNum(l) => Some(l)
    case JBool(b) => Some(if b then "true" else "false")
    case _ => None
  }

  /** `JsonElement.getAsString()`: like a primitive's, and an array of exactly
      one element answers for that element; null, objects and other arrays throw. */
  function ElementText(j: Json): Option<string>
    decreases j
  {
    match j
    case JArr(items) => if |items| == 1 then ElementText(items[0]) else None
    case _ => PrimitiveText(j)
  }

  /** What `gson.fromJson(element, ArrayList.class)` produces. */
  datatype ListBinding = NullList | Items(values: seq<Json>)

  /** `gson.fromJson(element, ArrayList.class)`: an absent or JSON-null element
      gives a null list, an array gives its items, anything else throws. */
  function BindList(j: Option<Json>): Option<ListBinding> {
    match j
    case None => Some(NullList)
    case Some(JNull) => Some(NullList)
    case Some(JArr(items)) => Some(Items(items))
    case Some(_) => None
  }
}
