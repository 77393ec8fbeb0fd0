/** The report request (`AIAnalysisRequest`) with its declared defaults, and
    how a JSON request body binds to it: known properties only, absent ones
    keeping their defaults, unknown ones ignored. */
module AnalysisRequestDto {
  import opened Base
  import opened JsonValue

  /** Start and end dates (epoch days); either may be null. */
  datatype DateRange = DateRange(startDate: Option<int>, endDate: Option<int>)

  /** Output language, analysis depth and focus areas; list items may be null. */
  datatype Preferences = Preferences(
    language: Option<string>,
    depth: Option<string>,
    focusAreas: Option<seq<Option<string>>>)

  datatype AnalysisRequest = AnalysisRequest(
    analysisType: Option<string>,
    dateRange: Option<DateRange>,
    preferences: Option<Preferences>)

  const DefaultLanguage: string := "zh-CN"
  const DefaultDepth: string := "detailed"
  const DefaultAnalysisType: string := "weekly"

  const DefaultPreferences: Preferences :=
    Preferences(Some(DefaultLanguage), Some(DefaultDepth), Some([]))

  /** A new date range has neither date. */
  const DefaultDateRange: DateRange := DateRange(None, None)

  const DefaultRequest: AnalysisRequest :=
    AnalysisRequest(Some(DefaultAnalysisType), Some(DefaultDateRange), Some(DefaultPreferences))

  /** A `String` property: JSON strings, and the text of numbers and booleans
      (Jackson's scalar coercion); JSON null gives null. */
  function BindText(j: Json): Option<Option<string>> {
    if j.JNull? then Some(None)
    else match PrimitiveText(j)
      case Some(t) => Some(Some(t))
      case None => None
  }

  /** A `yyyy-MM-dd` date property, read by the given date parser. */
  function BindDate(j: Json, parseDate: string -> Option<int>): Option<Option<int>> {
    match j
    case JNull => Some(None)
    case JStr(s) => (match parseDate(s) case Some(d) => Some(Some(d)) case None => None)
    case _ => None
  }

  function BindTexts(items: seq<Json>): (r: Option<seq<Option<string>>>)
    ensures r.Some? ==> |r.value| == |items|
    decreases |items|
  {
    if |items| == 0 then Some([])
    else match (BindText(items[0]), BindTexts(items[1..]))
      case (Some(x), Some(xs)) => Some([x] + xs)
      case _ => None
  }

  /** Binds property `key` of object `m` with `bind`, or keeps `default` when absent. */
  function Property<T>(m: map<string, Json>, key: string, default: T, bind: Json -> Option<T>): Option<T> {
    if key in m then bind(m[key]) else Some(default)
  }

  function BindDateRange(j: Json, parseDate: string -> Option<int>): Option<Option<DateRange>> {
    match j
    case JNull => Some(None)
    case JObj(m) =>
      (match (Property(m, "startDate", None, x => BindDate(x, parseDate)),
              Property(m, "endDate", None, x => BindDate(x, parseDate)))
       case (Some(s), Some(e)) => Some(Some(DateRange(s, e)))
       case _ => None)
    case _ => None
  }

  function BindFocusAreas(j: Json): Option<Option<seq<Option<string>>>> {
    match j
    case JNull => Some(None)
    case JArr(items) => (match BindTexts(items) case Some(xs) => Some(Some(xs)) case None => None)
    case _ => None
  }

  function BindPreferences(j: Json): Option<Option<Preferences>> {
    match j
    case JNull => Some(None)
    case JObj(m) =>
      (match (Property(m, "language", Some(DefaultLanguage), BindText),
              Property(m, "depth", Some(DefaultDepth), BindText),
              Property(m, "focusAreas", Some([]), BindFocusAreas))
       case (Some(l), Some(d), Some(f)) => Some(Some(Preferences(l, d, f)))
       case _ => None)
    case _ => None
  }

  const KnownProperties: set<string> := {"analysisType", "dateRange", "preferences"}

  /** Jackson's reading of a request body into an `AIAnalysisRequest`; `None`
      stands for a body that cannot be read. */
  function BindRequest(j: Json, parseDate: string -> Option<int>): (r: Option<AnalysisRequest>)
    ensures r.Some? ==> j.JObj?
    ensures j.JObj? && "analysisType" !in j.members && r.Some? ==>
      r.value.analysisType == Some(DefaultAnalysisType)
    ensures j.JObj? && "dateRange" !in j.members && r.Some? ==>
      r.value.dateRange == Some(DateRange(None, None))
    ensures j.JObj? && "preferences" !in j.members && r.Some? ==>
      r.value.preferences == Some(Preferences(Some("zh-CN"), Some("detailed"), Some([])))
    ensures j.JObj? ==> r == BindRequestFields(map k | k in j.members && k in KnownProperties :: j.members[k], parseDate)
  {
    match j
    case JObj(m) => BindRequestFields(m, parseDate)
    case _ => None
  }

  function BindRequestFields(m: map<string, Json>, parseDate: string -> Option<int>): Option<AnalysisRequest> {
    match (Property(m, "analysisType", Some(DefaultAnalysisType), BindText),
           Property(m, "dateRange", Some(DefaultDateRange), x => BindDateRange(x, parseDate)),
           Property(m, "preferences", Some(DefaultPreferences), BindPreferences))
    case (Some(t), Some(d), Some(p)) => Some(AnalysisRequest(t, d, p))
    case _ => None
  }

  /** An empty JSON object binds to the request with every default. */
  lemma EmptyBodyIsDefault(parseDate: string -> Option<int>)
    ensures BindRequest(JObj(map[]), parseDate) == Some(DefaultRequest)
  {
  }
}
