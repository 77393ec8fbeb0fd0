/** Analysis of one mood entry (`AiAnalysisServiceImpl.analyzeMood`): the key
    check, the prompt and request, the exact-200 status check, cleaning and
    two-strategy reading of the reply, tag find-or-create, and how every
    failure is re-thrown. */
module SingleAnalysis {
  import opened Base
  import opened Text
  import Numerals
  import opened JsonValue
  import opened Domain
  import Gemini

  // ----------------------------------------------------------------- prompt

  /** The entry prompt: fixed text around the description, the stress level
      and the physical state. */
  datatype EntryTemplate = EntryTemplate(head: string, afterDescription: string, afterStress: string, tail: string)

  /** The template `buildPrompt` formats. */
  const EntryPrompt: EntryTemplate := EntryTemplate(
    "请你扮演一个专业的心理健康顾问。根据以下用户提交的情绪记录，进行深入分析。用户的记录如下：\n心情描述: \"",
    "\"\n压力指数 (1-10): ",
    "\n体感状态: \"",
    "\"\n\n请严格按照以下 JSON 格式返回你的分析结果，不要添加任何额外的解释或说明文字：\n{\n"
      + "  \"analysisText\": \"(这里是对用户当前情绪状态的详细分析，请专业、共情地描述)\",\n"
      + "  \"suggestion\": \"(这里提供2-3条具体的、可操作的心理健康建议，帮助用户改善状态)\",\n"
      + "  \"matchedTags\": [\"(这里根据分析结果，生成3-5个最相关的用户群体标签，例如：学业压力, 职场焦虑, 情绪低落, 人际关系困扰, 自我怀疑, 轻度抑郁倾向, 积极心态, 成长烦恼等)\"]\n"
      + "}")

  /** How `%d` renders a possibly-null `Integer`. */
  function StressText(level: Option<int>): string {
    match level
    case Some(n) => Numerals.IntString(n)
    case None => "null"
  }

  /** Where the stress slot starts in an entry prompt. */
  function StressAt(tpl: EntryTemplate, entry: MoodEntry): nat {
    |tpl.head| + |NullableText(entry.description)| + |tpl.afterDescription|
  }

  /** Where the physical-state slot starts in an entry prompt. */
  function PhysicalAt(tpl: EntryTemplate, entry: MoodEntry): nat {
    StressAt(tpl, entry) + |StressText(entry.stressLevel)| + |tpl.afterStress|
  }

  /** `buildPrompt`: the description, stress level and physical state in that
      order, each between its fixed texts, nulls rendered as "null". */
  function BuildPrompt(tpl: EntryTemplate, entry: MoodEntry): (r: string)
    ensures |r| == PhysicalAt(tpl, entry) + |NullableText(entry.physicalState)| + |tpl.tail|
    ensures StartsWith(r, tpl.head + NullableText(entry.description) + tpl.afterDescription)
    ensures r[StressAt(tpl, entry)..StressAt(tpl, entry) + |StressText(entry.stressLevel)|] == StressText(entry.stressLevel)
    ensures r[StressAt(tpl, entry) + |StressText(entry.stressLevel)|..PhysicalAt(tpl, entry)] == tpl.afterStress
    ensures r[PhysicalAt(tpl, entry)..PhysicalAt(tpl, entry) + |NullableText(entry.physicalState)|] == NullableText(entry.physicalState)
    ensures r[|r| - |tpl.tail|..] == tpl.tail
  {
    var front := tpl.head + NullableText(entry.description) + tpl.afterDescription;
    var stress := StressText(entry.stressLevel);
    var phys := NullableText(entry.physicalState);
    var back := phys + tpl.tail;
    var r := front + (stress + (tpl.afterStress + back));
    assert r[..|front|] == front;
    assert r[|front|..] == stress + (tpl.afterStress + back);
    assert r[|front|..|front| + |stress|] == stress;
    assert r[|front| + |stress|..] == tpl.afterStress + back;
    assert r[|front| + |stress|..|front| + |stress| + |tpl.afterStress|] == tpl.afterStress;
    assert r[|front| + |stress| + |tpl.afterStress|..] == back;
    assert r[|front| + |stress| + |tpl.afterStress|..|front| + |stress| + |tpl.afterStress| + |phys|] == phys;
    r
  }

  /** A known stress level appears in the prompt's stress slot as its decimal
      text, which reads back as the level. */
  lemma StressTextReadsBack(tpl: EntryTemplate, entry: MoodEntry, level: int)
    requires entry.stressLevel == Some(level)
    ensures var k := StressAt(tpl, entry);
      Numerals.ParseInt(BuildPrompt(tpl, entry)[k..k + |StressText(entry.stressLevel)|]) == Some(level)
  {
    Numerals.ParseIntString(level);
  }

  // ---------------------------------------------------------------- request

  const ServiceUrl: string := "https://generativelanguage.googleapis.com/v1beta/models/gemini-pro:generateContent"

  /** What follows the prompt in this service's request body. */
  const ConfigTail: string := "\"}]}], \"generationConfig\": {\"temperature\": 0.7}}"

  /** The service's configuration: the key read from the environment
      (possibly unset) and the prompt template (`EntryPrompt` in the service). */
  datatype ServiceConfig = ServiceConfig(apiKey: Option<string>, template: EntryTemplate)

  predicate KeyPresent(key: Option<string>) {
    key.Some? && key.value != ""
  }

  /** The POST the service sends for an entry. */
  function EntryRequest(cfg: ServiceConfig, entry: MoodEntry): (r: Gemini.ModelRequest)
    requires KeyPresent(cfg.apiKey)
    ensures r.url == ServiceUrl + "?key=" + cfg.apiKey.value
    ensures |Gemini.BodyHead| + |ConfigTail| <= |r.body|
    ensures UnescapeQuotes(r.body[|Gemini.BodyHead|..|r.body| - |ConfigTail|]) == BuildPrompt(cfg.template, entry)
  {
    Gemini.ModelRequest(Gemini.RequestUrl(ServiceUrl, cfg.apiKey), Gemini.WrapPrompt(BuildPrompt(cfg.template, entry), ConfigTail))
  }

  // ----------------------------------------------------------------- status

  /** What `client.send` gives: a response (its body is never null here), or
      one of the two checked exceptions. */
  datatype HttpReply = Replied(status: int, body: string) | IoError | Interrupted

  const StatusLead: string := "Gemini API 调用失败。状态码: "
  const BodyLead: string := "，响应体: "

  /** The text common to every status failure: the status, then the body. */
  function StatusDetail(status: int, body: string): string {
    StatusLead + (Numerals.IntString(status) + (BodyLead + body))
  }

  /** The status-specific opening of the failure message. */
  function StatusPrefix(status: int): string {
    if status == 400 then "Gemini API 请求无效，请检查 Prompt 或请求格式。"
    else if status == 401 then "Gemini API Key 无效或未授权。"
    else if status == 429 then "Gemini API 请求频率过高，请稍后重试。"
    else if status == 500 then "Gemini API 服务器内部错误，请联系管理员。"
    else "Gemini API 调用失败，未知错误。"
  }

  const GenericStatusPrefix: string := "Gemini API 调用失败，未知错误。"

  /** The exception a non-200 status raises: its own opening for 400, 401,
      429 and 500, the generic one for every other status, then the status
      and body. */
  function StatusFailure(status: int, body: string): (m: string)
    ensures StartsWith(m, StatusPrefix(status)) && m[|StatusPrefix(status)|..] == StatusDetail(status, body)
    ensures status !in {400, 401, 429, 500} <==> StatusPrefix(status) == GenericStatusPrefix
  {
    StatusPrefix(status) + StatusDetail(status, body)
  }

  /** The status detail names the status and the body it was built from. */
  lemma StatusDetailNamesStatus(s1: int, b1: string, s2: int, b2: string)
    requires StatusDetail(s1, b1) == StatusDetail(s2, b2)
    ensures s1 == s2 && b1 == b2
  {
    Gemini.CancelPrefix(StatusLead, Numerals.IntString(s1) + (BodyLead + b1), Numerals.IntString(s2) + (BodyLead + b2));
    Gemini.CountBeforeText(s1, s2, BodyLead + b1, BodyLead + b2);
    Gemini.CancelPrefix(Numerals.IntString(s1), BodyLead + b1, BodyLead + b2);
    Gemini.CancelPrefix(BodyLead, b1, b2);
  }

  // ------------------------------------------------------------- cleaning

  const Fence: string := "```"
  const JsonFence: string := "```json"

  /** `json.replace("```json", "").replace("```", "").trim()`. */
  function Clean(s: string): string {
    Trim(ReplaceAll(ReplaceAll(s, JsonFence, ""), Fence, ""))
  }

  /** Removing fences from a text that does not start with a backtick gives
      a text that does not start with one either. */
  lemma RemovalNoLeadingTick(v: string)
    requires |v| == 0 || v[0] != '`'
    ensures var r := ReplaceAll(v, Fence, ""); |r| == 0 || r[0] != '`'
  {
    if |v| >= |Fence| {
      assert v[..|Fence|] != Fence by {
        assert v[..|Fence|][0] == v[0];
      }
    }
  }

  /** Removing fences from a text that does not start with two backticks
      gives a text that does not start with two either. */
  lemma RemovalNoLeadingTicks(u: string)
    requires !StartsWith(u, "``")
    ensures !StartsWith(ReplaceAll(u, Fence, ""), "``")
  {
    if |u| >= |Fence| {
      assert u[..|Fence|] != Fence by {
        assert u[..|Fence|][..2] == u[..2];
      }
      var rest := ReplaceAll(u[1..], Fence, "");
      assert ReplaceAll(u, Fence, "") == [u[0]] + rest;
      if u[0] == '`' {
        assert u[1..][0] != '`' by {
          assert u[..2] == [u[0], u[1]];
        }
        RemovalNoLeadingTick(u[1..]);
      }
    }
  }

  /** Removing every fence from left to right leaves no fence behind: each
      run of backticks shrinks to fewer than three and runs never merge. */
  lemma {:induction false} RemovalLeavesNoFence(t: string)
    ensures !Occurs(ReplaceAll(t, Fence, ""), Fence)
    decreases |t|
  {
    var r := ReplaceAll(t, Fence, "");
    if |t| < |Fence| {
    } else if t[..|Fence|] == Fence {
      RemovalLeavesNoFence(t[|Fence|..]);
      assert r == ReplaceAll(t[|Fence|..], Fence, "");
    } else {
      var rest := ReplaceAll(t[1..], Fence, "");
      RemovalLeavesNoFence(t[1..]);
      assert r == [t[0]] + rest;
      assert r[1..] == rest;
      if t[0] == '`' {
        assert !StartsWith(t[1..], "``") by {
          assert t[..|Fence|] == [t[0]] + t[1..][..2];
        }
        RemovalNoLeadingTicks(t[1..]);
      }
      assert |r| < |Fence| || r[..|Fence|] != Fence by {
        if |r| >= |Fence| {
          assert r[..|Fence|] == [t[0]] + rest[..2];
        }
      }
    }
  }

  /** A cleaned reply holds no code fence. */
  lemma CleanHasNoFence(s: string)
    ensures !Occurs(Clean(s), Fence)
  {
    RemovalLeavesNoFence(ReplaceAll(s, JsonFence, ""));
    TrimKeepsAbsence(ReplaceAll(ReplaceAll(s, JsonFence, ""), Fence, ""), Fence);
  }

  /** Cleaning twice is cleaning once. */
  lemma CleanIdempotent(s: string)
    ensures Clean(Clean(s)) == Clean(s)
  {
    var c := Clean(s);
    CleanHasNoFence(s);
    if Occurs(c, JsonFence) {
      assert JsonFence == Fence + "json";
      OccursOfPrefix(c, Fence, "json");
    }
    ReplaceAbsent(c, JsonFence, "");
    ReplaceAbsent(c, Fence, "");
    TrimIdempotent(ReplaceAll(ReplaceAll(s, JsonFence, ""), Fence, ""));
  }

  /** A reply wrapped in a json code fence is cleaned to its trimmed content. */
  lemma CleanUnwrapsFencedReply(x: string)
    requires forall i :: 0 <= i < |x| ==> x[i] != '`'
    ensures Clean(JsonFence + x + Fence) == Trim(x)
  {
    var s := JsonFence + x + Fence;
    assert s[..|JsonFence|] == JsonFence;
    assert s[|JsonFence|..] == x + Fence;
    ReplaceSkipsPrefix(x, Fence, JsonFence, "");
    assert ReplaceAll(Fence, JsonFence, "") == Fence;
    assert ReplaceAll(s, JsonFence, "") == x + Fence;
    ReplaceSkipsPrefix(x, Fence, Fence, "");
    assert ReplaceAll(Fence, Fence, "") == "";
    assert x + "" == x;
  }

  // ---------------------------------------------------------------- parsing

  /** The fields read from a reply: the analysis text, the suggestion and the
      tag list as bound. */
  datatype Extracted = Extracted(analysisText: string, suggestion: string, tags: ListBinding)

  /** `gson.fromJson(text, JsonObject.class)` that yields an object; `None`
      for a syntax error, an empty document or any other kind of value. */
  function ParseObject(text: string, parse: Parser): (r: Option<Json>)
    ensures r.Some? <==> parse(text).Some? && parse(text).value.JObj?
    ensures r.Some? ==> r == parse(text)
  {
    match parse(text)
    case Some(JObj(m)) => Some(JObj(m))
    case _ => None
  }

  /** `analysisText`, `suggestion` and `matchedTags` of an object; `None` when
      a step throws. */
  function ReadFields(doc: Json): (r: Option<Extracted>)
    ensures r.Some? <==>
      && Member(doc, "analysisText").Some? && ElementText(Member(doc, "analysisText").value).Some?
      && Member(doc, "suggestion").Some? && ElementText(Member(doc, "suggestion").value).Some?
      && BindList(Member(doc, "matchedTags")).Some?
    ensures r.Some? ==> r.value.tags == BindList(Member(doc, "matchedTags")).value
  {
    match (Member(doc, "analysisText"), Member(doc, "suggestion"))
    case (Some(a), Some(s)) =>
      (match (ElementText(a), ElementText(s), BindList(Member(doc, "matchedTags")))
       case (Some(at), Some(st), Some(tags)) => Some(Extracted(at, st, tags))
       case _ => None)
    case _ => None
  }

  /** `candidates[0].content.parts[0].text` of the model's envelope, as text. */
  function EnvelopeText(doc: Json): Option<string> {
    match FirstOfArrayMember(doc, "candidates")
    case Some(candidate) =>
      (match Member(candidate, "content")
       case Some(content) =>
         (if !candidate.JObj? || !content.JObj? then None
          else match FirstOfArrayMember(content, "parts")
            case Some(part) =>
              (if !part.JObj? then None
               else match Member(part, "text")
                 case Some(text) => PrimitiveText(text)
                 case None => None)
            case None => None)
       case None => None)
    case None => None
  }

  /** The first strategy: the fields of the object inside the envelope's text. */
  function FromEnvelope(doc: Json, parse: Parser): Option<Extracted> {
    match EnvelopeText(doc)
    case Some(text) =>
      (match ParseObject(text, parse)
       case Some(inner) => ReadFields(inner)
       case None => None)
    case None => None
  }

  /** `parseAnalysis` up to the tags: the cleaned reply must be an object;
      the envelope is tried first and the top-level fields second; when both
      fail the reply is malformed. */
  function ParseAnalysis(body: string, parse: Parser): (r: Option<Extracted>)
    ensures ParseObject(Clean(body), parse).None? ==> r.None?
    ensures ParseObject(Clean(body), parse).Some? ==>
      var doc := ParseObject(Clean(body), parse).value;
      r == (if FromEnvelope(doc, parse).Some? then FromEnvelope(doc, parse) else ReadFields(doc))
  {
    match ParseObject(Clean(body), parse)
    case None => None
    case Some(doc) =>
      match FromEnvelope(doc, parse)
      case Some(x) => Some(x)
      case None => ReadFields(doc)
  }

  /** The envelope wins: when it holds readable fields, the top-level ones
      are never consulted. */
  lemma EnvelopeFirst(body: string, parse: Parser, doc: Json)
    requires ParseObject(Clean(body), parse) == Some(doc)
    requires FromEnvelope(doc, parse).Some?
    ensures ParseAnalysis(body, parse) == FromEnvelope(doc, parse)
  {
  }

  /** A reply that is the expected object itself (no envelope) is read from
      its top level. */
  lemma TopLevelFallback(body: string, parse: Parser, doc: Json)
    requires ParseObject(Clean(body), parse) == Some(doc)
    requires FirstOfArrayMember(doc, "candidates").None?
    ensures ParseAnalysis(body, parse) == ReadFields(doc)
  {
  }

  /** The tag names of a bound list: every item must be a JSON string. */
  function TagNames(items: seq<Json>): (r: Option<seq<string>>)
    ensures r.Some? <==> forall i :: 0 <= i < |items| ==> items[i].JStr?
    ensures r.Some? ==> |r.value| == |items| && forall i :: 0 <= i < |items| ==> r.value[i] == items[i].s
    decreases |items|
  {
    if |items| == 0 then Some([])
    else if !items[0].JStr? then None
    else match TagNames(items[1..])
      case Some(rest) => Some([items[0].s] + rest)
      case None => None
  }

  // ------------------------------------------------------------------- tags

  datatype Tag = Tag(id: int, name: string)

  /** The tag table: the id of each name, and the next identity value. */
  datatype TagStore = TagStore(byName: map<string, int>, nextId: int)

  /** Every id is below the next one and no two names share an id. */
  predicate ValidTags(st: TagStore) {
    && (forall n :: n in st.byName ==> st.byName[n] < st.nextId)
    && (forall n, m :: n in st.byName && m in st.byName && n != m ==> st.byName[n] != st.byName[m])
  }

  /** `findByName(key)`, or a new tag with that name. */
  function FindOrCreate(st: TagStore, key: string): (r: (Tag, TagStore))
    ensures r.0.name == key
    ensures key in st.byName ==> r.0.id == st.byName[key] && r.1 == st
    ensures key !in st.byName ==>
      r.0.id == st.nextId && r.1 == TagStore(st.byName[key := st.nextId], st.nextId + 1)
  {
    if key in st.byName then (Tag(st.byName[key], key), st)
    else (Tag(st.nextId, key), TagStore(st.byName[key := st.nextId], st.nextId + 1))
  }

  /** The trimmed names, in order. */
  function Trimmed(names: seq<string>): (r: seq<string>)
    ensures |r| == |names| && forall i :: 0 <= i < |names| ==> r[i] == Trim(names[i])
  {
    seq(|names|, i requires 0 <= i < |names| => Trim(names[i]))
  }

  /** One tag per key, in order, each the stored tag of its key, created
      when missing; existing tags are kept as they are. */
  function ResolveKeys(st: TagStore, keys: seq<string>): (r: (seq<Tag>, TagStore))
    ensures |r.0| == |keys|
    ensures forall i :: 0 <= i < |keys| ==> r.0[i].name == keys[i]
    ensures forall i :: 0 <= i < |keys| ==> keys[i] in r.1.byName && r.1.byName[keys[i]] == r.0[i].id
    ensures forall n :: n in st.byName ==> n in r.1.byName && r.1.byName[n] == st.byName[n]
    ensures st.nextId <= r.1.nextId
    decreases |keys|
  {
    if |keys| == 0 then ([], st)
    else
      var first := FindOrCreate(st, keys[0]);
      var rest := ResolveKeys(first.1, keys[1..]);
      ([first.0] + rest.0, rest.1)
  }

  /** The tag list of a reply: each name trimmed, then found or created. */
  function ResolveTags(st: TagStore, names: seq<string>): (r: (seq<Tag>, TagStore))
    ensures |r.0| == |names|
    ensures forall i :: 0 <= i < |names| ==>
      r.0[i].name == Trim(names[i]) && r.0[i].name in r.1.byName && r.1.byName[r.0[i].name] == r.0[i].id
    ensures forall n :: n in st.byName ==> n in r.1.byName && r.1.byName[n] == st.byName[n]
    ensures st.nextId <= r.1.nextId
  {
    ResolveKeys(st, Trimmed(names))
  }

  /** The only names resolving adds are the keys themselves. */
  lemma {:induction false} ResolveKeysAddsOnlyKeys(st: TagStore, keys: seq<string>)
    ensures forall n :: n in ResolveKeys(st, keys).1.byName && n !in st.byName ==> n in keys
    decreases |keys|
  {
    if |keys| > 0 {
      var st1 := FindOrCreate(st, keys[0]).1;
      ResolveKeysAddsOnlyKeys(st1, keys[1..]);
      assert keys == [keys[0]] + keys[1..];
    }
  }

  /** Every tag resolving adds has an id from the fresh range. */
  lemma {:induction false} ResolveKeysFreshIds(st: TagStore, keys: seq<string>)
    ensures var st' := ResolveKeys(st, keys).1;
      forall n :: n in st'.byName && n !in st.byName ==> st.nextId <= st'.byName[n] < st'.nextId
    decreases |keys|
  {
    if |keys| > 0 {
      var st1 := FindOrCreate(st, keys[0]).1;
      ResolveKeysFreshIds(st1, keys[1..]);
      var st' := ResolveKeys(st1, keys[1..]).1;
      assert ResolveKeys(st, keys).1 == st';
      forall n | n in st'.byName && n !in st.byName
        ensures st.nextId <= st'.byName[n] < st'.nextId
      {
        if n in st1.byName {
          assert st1.byName[n] == st.nextId;
          assert st'.byName[n] == st1.byName[n];
        }
      }
    }
  }

  lemma FindOrCreatePreservesValid(st: TagStore, key: string)
    requires ValidTags(st)
    ensures ValidTags(FindOrCreate(st, key).1)
  {
  }

  /** Resolving keeps ids unique: no two tag names ever share a row. */
  lemma {:induction false} ResolveKeysPreservesValid(st: TagStore, keys: seq<string>)
    requires ValidTags(st)
    ensures ValidTags(ResolveKeys(st, keys).1)
    decreases |keys|
  {
    if |keys| > 0 {
      var st1 := FindOrCreate(st, keys[0]).1;
      FindOrCreatePreservesValid(st, keys[0]);
      ResolveKeysPreservesValid(st1, keys[1..]);
    }
  }

  /** Names resolving adds are trimmed names of the reply, with fresh ids. */
  lemma ResolveTagsAddsOnlyInputs(st: TagStore, names: seq<string>)
    ensures var st' := ResolveTags(st, names).1;
      forall n :: n in st'.byName && n !in st.byName ==>
        (exists i :: 0 <= i < |names| && n == Trim(names[i])) && st.nextId <= st'.byName[n] < st'.nextId
  {
    ResolveKeysAddsOnlyKeys(st, Trimmed(names));
    ResolveKeysFreshIds(st, Trimmed(names));
  }

  /** Repeated names (after trimming) resolve to the same tag, so a reply
      never creates a tag twice. */
  lemma SameNameSameTag(st: TagStore, names: seq<string>, i: nat, j: nat)
    requires i < |names| && j < |names| && Trim(names[i]) == Trim(names[j])
    ensures ResolveTags(st, names).0[i] == ResolveTags(st, names).0[j]
  {
  }

  // ---------------------------------------------------------------- service

  /** A stored entry analysis. */
  datatype EntryAnalysis = EntryAnalysis(id: int, moodEntry: MoodEntry, analysisText: string, suggestion: string, matchedTags: seq<Tag>)

  datatype AnalysisStore = AnalysisStore(rows: seq<EntryAnalysis>, nextId: int)

  /** The exception `analyzeMood` throws: its message and what caused it. */
  datatype AnalysisFault = AnalysisFault(message: string, cause: FaultCause)

  datatype FaultCause =
    | NoCause
    | StatusRejected(message: string)
    | IoFailure
    | Interruption
    | MalformedJson
    | Unexpected

  const KeyMissingMessage: string := "GEMINI_API_KEY 未设置，请检查环境变量。"
  const IoMessage: string := "调用 AI 服务失败，网络或 IO 错误。"
  const InterruptedMessage: string := "调用 AI 服务失败，操作被中断。"
  const SyntaxMessage: string := "解析 AI 分析结果失败，返回的 JSON 格式不正确。"
  const UnknownMessage: string := "分析情绪时发生未知错误。"

  /** One run: the result or exception, the request sent (if any), and the
      two stores afterwards. */
  datatype SingleRun = SingleRun(
    result: Result<EntryAnalysis, AnalysisFault>,
    sent: Option<Gemini.ModelRequest>,
    tags: TagStore,
    analyses: AnalysisStore)

  /** `analyzeMood`. The method is transactional: when it throws, tags
      created on the way are rolled back with everything else. */
  function AnalyzeMood(cfg: ServiceConfig, entry: MoodEntry, reply: HttpReply, parse: Parser,
                       tags: TagStore, analyses: AnalysisStore): (run: SingleRun)
    ensures !KeyPresent(cfg.apiKey) ==> run == SingleRun(Err(AnalysisFault(KeyMissingMessage, NoCause)), None, tags, analyses)
    ensures KeyPresent(cfg.apiKey) ==> run.sent == Some(EntryRequest(cfg, entry))
    ensures run.result.Err? ==> run.tags == tags && run.analyses == analyses
    ensures KeyPresent(cfg.apiKey) && reply.IoError? ==> run.result == Err(AnalysisFault(IoMessage, IoFailure))
    ensures KeyPresent(cfg.apiKey) && reply.Interrupted? ==> run.result == Err(AnalysisFault(InterruptedMessage, Interruption))
    ensures KeyPresent(cfg.apiKey) && reply.Replied? && reply.status != 200 ==>
      run.result == Err(AnalysisFault(UnknownMessage, StatusRejected(StatusFailure(reply.status, reply.body))))
    ensures KeyPresent(cfg.apiKey) && reply.Replied? && reply.status == 200 && ParseAnalysis(reply.body, parse).None? ==>
      run.result == Err(AnalysisFault(SyntaxMessage, MalformedJson))
    ensures KeyPresent(cfg.apiKey) && reply.Replied? && reply.status == 200 && ParseAnalysis(reply.body, parse).Some? ==>
      var x := ParseAnalysis(reply.body, parse).value;
      (x.tags.NullList? || TagNames(x.tags.values).None?) ==> run.result == Err(AnalysisFault(UnknownMessage, Unexpected))
    ensures KeyPresent(cfg.apiKey) && reply.Replied? && reply.status == 200 && ParseAnalysis(reply.body, parse).Some? ==>
      var x := ParseAnalysis(reply.body, parse).value;
      x.tags.Items? && TagNames(x.tags.values).Some? ==>
        && run.result.Ok?
        && run.result.value.matchedTags == ResolveTags(tags, TagNames(x.tags.values).value).0
        && run.tags == ResolveTags(tags, TagNames(x.tags.values).value).1
    ensures run.result.Ok? ==>
      && reply.Replied? && reply.status == 200
      && ParseAnalysis(reply.body, parse).Some?
      && run.result.value.moodEntry == entry
      && run.result.value.analysisText == ParseAnalysis(reply.body, parse).value.analysisText
      && run.result.value.suggestion == ParseAnalysis(reply.body, parse).value.suggestion
      && run.result.value.id == analyses.nextId
      && run.analyses == AnalysisStore(analyses.rows + [run.result.value], analyses.nextId + 1)
  {
    if !KeyPresent(cfg.apiKey) then SingleRun(Err(AnalysisFault(KeyMissingMessage, NoCause)), None, tags, analyses)
    else
      var sent := Some(EntryRequest(cfg, entry));
      match reply
      case IoError => SingleRun(Err(AnalysisFault(IoMessage, IoFailure)), sent, tags, analyses)
      case Interrupted => SingleRun(Err(AnalysisFault(InterruptedMessage, Interruption)), sent, tags, analyses)
      case Replied(status, body) =>
        if status != 200 then
          SingleRun(Err(AnalysisFault(UnknownMessage, StatusRejected(StatusFailure(status, body)))), sent, tags, analyses)
        else
          match ParseAnalysis(body, parse)
          case None => SingleRun(Err(AnalysisFault(SyntaxMessage, MalformedJson)), sent, tags, analyses)
          case Some(x) =>
            match x.tags
            case NullList => SingleRun(Err(AnalysisFault(UnknownMessage, Unexpected)), sent, tags, analyses)
            case Items(items) =>
              match TagNames(items)
              case None => SingleRun(Err(AnalysisFault(UnknownMessage, Unexpected)), sent, tags, analyses)
              case Some(names) =>
                var (resolved, tags') := ResolveTags(tags, names);
                var saved := EntryAnalysis(analyses.nextId, entry, x.analysisText, x.suggestion, resolved);
                SingleRun(Ok(saved), sent, tags', AnalysisStore(analyses.rows + [saved], analyses.nextId + 1))
  }

  /** The saved analysis carries one tag per name the reply listed, in
      order, named by the trimmed name, and existing tags are reused. */
  lemma SavedTagsFollowReply(cfg: ServiceConfig, entry: MoodEntry, reply: HttpReply, parse: Parser,
                             tags: TagStore, analyses: AnalysisStore)
    requires AnalyzeMood(cfg, entry, reply, parse, tags, analyses).result.Ok?
    ensures var run := AnalyzeMood(cfg, entry, reply, parse, tags, analyses);
      var x := ParseAnalysis(reply.body, parse).value;
      && x.tags.Items?
      && TagNames(x.tags.values).Some?
      && var names := TagNames(x.tags.values).value;
      && |run.result.value.matchedTags| == |names|
      && (forall i :: 0 <= i < |names| ==> run.result.value.matchedTags[i].name == Trim(names[i]))
      && (forall i :: 0 <= i < |names| && Trim(names[i]) in tags.byName ==>
            run.result.value.matchedTags[i].id == tags.byName[Trim(names[i])])
      && (ValidTags(tags) ==> ValidTags(run.tags))
  {
    if ValidTags(tags) {
      var x := ParseAnalysis(reply.body, parse).value;
      ResolveKeysPreservesValid(tags, Trimmed(TagNames(x.tags.values).value));
    }
  }
}
