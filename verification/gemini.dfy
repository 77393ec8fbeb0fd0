/** The report path's model client (`GeminiAPIService`): the deterministic
    prompt, the request body and URL, the classification of one HTTP exchange,
    and the retry policy the method declares. */
module Gemini {
  import opened Base
  import opened Text
  import Numerals
  import opened Domain
  import opened AnalysisRequestDto

  /** The numeric summary handed to the model. */
  datatype MoodDataAnalysis = MoodDataAnalysis(totalEntries: int, averageScore: real)

  /** The endpoint the service is configured with. */
  const ApiUrl: string := "https://generativelanguage.googleapis.com/v1beta/models/gemini-2.0-flash-lite:generateContent"

  /** The prompt template: fixed text around five slots, filled in the order
      language, depth, focus areas, entry count, average score. */
  datatype PromptTemplate = PromptTemplate(
    head: string, afterLanguage: string, afterDepth: string, afterFocus: string, afterTotal: string, tail: string)
  {
    /** The filled prompt: the text before the entry count, the count, and the text after it. */
    function Fill(s: PromptSlots): string {
      Before(s) + (s.total + After(s))
    }

    function Before(s: PromptSlots): string {
      head + s.language + afterLanguage + s.depth + afterDepth + s.focus + afterFocus
    }

    function After(s: PromptSlots): string {
      afterTotal + s.score + tail
    }

    /** The entry count is followed by a character that is not a digit. */
    predicate CountDelimited() {
      |afterTotal| > 0 && !Numerals.IsDigit(afterTotal[0])
    }
  }

  /** The template `buildAnalysisPrompt` formats. */
  const AnalysisTemplate: PromptTemplate := PromptTemplate(
    "你是一位专业的心理健康数据分析师。请基于以下7天的情绪数据，生成一份个性化的情绪分析报告。\n# 分析要求\n- 语言: ",
    "\n- 分析深度: ",
    "\n- 关注领域: ",
    "\n# 用户数据摘要\n总记录数: ",
    "\n平均情绪分数: ",
    "\n# 输出格式\n请严格按照以下JSON格式输出分析结果，不要添加任何额外的解释或文本：\n"
      + "{\n"
      + "  \"summary\": {\n"
      + "    \"overallTrend\": \"improving\",\n"
      + "    \"averageScore\": 7.2,\n"
      + "    \"keyInsights\": [\"洞察1\", \"洞察2\"],\n"
      + "    \"urgencyLevel\": \"low\"\n"
      + "  },\n"
      + "  \"patterns\": {\n"
      + "    \"weeklyPattern\": {\n"
      + "      \"bestDays\": [\"Saturday\"],\n"
      + "      \"challengingDays\": [\"Wednesday\"],\n"
      + "      \"volatilityIndex\": 1.8\n"
      + "    },\n"
      + "    \"dailyPattern\": {\n"
      + "      \"morningAverage\": 6.8,\n"
      + "      \"eveningAverage\": 7.4,\n"
      + "      \"peakHours\": [\"19:00-21:00\"]\n"
      + "    },\n"
      + "    \"triggers\": {\n"
      + "      \"positive\": [{\"factor\": \"运动\", \"frequency\": 4, \"impact\": 1.5}],\n"
      + "      \"negative\": [{\"factor\": \"工作压力\", \"frequency\": 5, \"impact\": -1.8}]\n"
      + "    }\n"
      + "  },\n"
      + "  \"recommendations\": {\n"
      + "    \"immediate\": [{\"title\": \"建立晚间放松routine\", \"description\": \"在睡前1小时进行冥想或轻度阅读\", \"priority\": \"high\", \"estimatedImpact\": \"medium\"}],\n"
      + "    \"shortTerm\": [],\n"
      + "    \"longTerm\": []\n"
      + "  },\n"
      + "  \"riskAssessment\": {\n"
      + "    \"level\": \"green\",\n"
      + "    \"indicators\": [\"情绪整体趋势向好\"],\n"
      + "    \"suggestions\": [\"继续保持当前的积极生活方式\"]\n"
      + "  }\n"
      + "}\n"
      + "# 注意事项\n"
      + "1. 必须使用中文（或指定的语言）输出。\n"
      + "2. 提供的建议需要具体、可操作。\n"
      + "3. 避免使用任何医疗诊断性质的语言。\n"
      + "4. 整体语调保持积极和正面。\n"
      + "5. 必须确保输出是严格合法的JSON格式。\n")

  lemma AnalysisTemplateDelimitsCount()
    ensures AnalysisTemplate.CountDelimited()
  {
  }

  /** The client's configuration: the endpoint, the key read from the
      environment (possibly unset), how `%.1f` renders the average score, and
      the prompt template (`AnalysisTemplate` in the service). */
  datatype ClientConfig = ClientConfig(
    apiUrl: string, apiKey: Option<string>, renderScore: real -> string, template: PromptTemplate)

  /** The texts that fill the template's five slots, in template order. */
  datatype PromptSlots = PromptSlots(language: string, depth: string, focus: string, total: string, score: string)

  /** What `String.format` puts in each slot; `None` when filling throws (null
      preferences or a null focus-area list). */
  function SlotsOf(data: MoodDataAnalysis, prefs: Option<Preferences>, renderScore: real -> string): (r: Option<PromptSlots>)
    ensures r.Some? <==> prefs.Some? && prefs.value.focusAreas.Some?
    ensures r.Some? ==> r.value.language == NullableText(prefs.value.language)
    ensures r.Some? ==> r.value.depth == NullableText(prefs.value.depth)
    ensures r.Some? && prefs.value.focusAreas == Some([]) ==> r.value.focus == ""
    ensures r.Some? && |prefs.value.focusAreas.value| == 1 ==> r.value.focus == NullableText(prefs.value.focusAreas.value[0])
    ensures r.Some? ==> Numerals.ParseInt(r.value.total) == Some(data.totalEntries)
    ensures r.Some? ==> r.value.score == renderScore(data.averageScore)
  {
    match prefs
    case None => None
    case Some(p) =>
      match p.focusAreas
      case None => None
      case Some(areas) =>
        Numerals.ParseIntString(data.totalEntries);
        Some(PromptSlots(
          NullableText(p.language),
          NullableText(p.depth),
          Join(seq(|areas|, i requires 0 <= i < |areas| => NullableText(areas[i])), ", "),
          Numerals.IntString(data.totalEntries),
          renderScore(data.averageScore)))
  }

  /** `buildAnalysisPrompt`. */
  function BuildAnalysisPrompt(tpl: PromptTemplate, data: MoodDataAnalysis, prefs: Option<Preferences>, renderScore: real -> string): Option<string> {
    match SlotsOf(data, prefs, renderScore)
    case Some(s) => Some(tpl.Fill(s))
    case None => None
  }

  lemma CancelPrefix(p: string, u: string, v: string)
    requires p + u == p + v
    ensures u == v
  {
    assert u == (p + u)[|p|..];
    assert v == (p + v)[|p|..];
  }

  /** In a digit run followed by a non-digit, the run's length is the
      position of the first non-digit. */
  lemma FirstNonDigit(a: string, x: string)
    requires Numerals.AllDigits(a) && |x| > 0 && !Numerals.IsDigit(x[0])
    ensures !Numerals.IsDigit((a + x)[|a|])
    ensures forall k :: 0 <= k < |a| ==> Numerals.IsDigit((a + x)[k])
  {
  }

  /** A digit run followed by a non-digit is determined by the whole text. */
  lemma DigitRunPrefix(a: string, x: string, b: string, y: string)
    requires Numerals.AllDigits(a) && Numerals.AllDigits(b)
    requires |x| > 0 && !Numerals.IsDigit(x[0]) && |y| > 0 && !Numerals.IsDigit(y[0])
    requires a + x == b + y
    ensures a == b
  {
    FirstNonDigit(a, x);
    FirstNonDigit(b, y);
    assert |a| == |b|;
    assert a == (a + x)[..|a|];
    assert b == (b + y)[..|b|];
  }

  /** A rendered integer followed by text that starts with a non-digit
      determines the integer. */
  lemma CountBeforeText(i: int, j: int, x: string, y: string)
    requires |x| > 0 && !Numerals.IsDigit(x[0]) && |y| > 0 && !Numerals.IsDigit(y[0])
    requires Numerals.IntString(i) + x == Numerals.IntString(j) + y
    ensures i == j
  {
    var t1, t2 := Numerals.IntString(i), Numerals.IntString(j);
    assert (t1 + x)[0] == (t2 + y)[0];
    if i < 0 {
      assert (t1 + x)[1..] == t1[1..] + x;
      assert (t2 + y)[1..] == t2[1..] + y;
      DigitRunPrefix(t1[1..], x, t2[1..], y);
      assert t1 == "-" + t1[1..] && t2 == "-" + t2[1..];
    } else {
      DigitRunPrefix(t1, x, t2, y);
    }
    Numerals.IntStringInjective(i, j);
  }

  /** Two prompts built from the same preferences and average that agree as
      text report the same entry count: the count is recoverable from the prompt. */
  lemma PromptDeterminesTotal(tpl: PromptTemplate, data1: MoodDataAnalysis, data2: MoodDataAnalysis,
                              prefs: Option<Preferences>, renderScore: real -> string)
    requires tpl.CountDelimited()
    requires data1.averageScore == data2.averageScore
    requires BuildAnalysisPrompt(tpl, data1, prefs, renderScore).Some?
    requires BuildAnalysisPrompt(tpl, data1, prefs, renderScore) == BuildAnalysisPrompt(tpl, data2, prefs, renderScore)
    ensures data1.totalEntries == data2.totalEntries
  {
    var s1 := SlotsOf(data1, prefs, renderScore).value;
    var s2 := SlotsOf(data2, prefs, renderScore).value;
    var rest := tpl.After(s1);
    assert tpl.Before(s1) == tpl.Before(s2) && tpl.After(s2) == rest;
    CancelPrefix(tpl.Before(s1), s1.total + rest, s2.total + rest);
    CountBeforeText(data1.totalEntries, data2.totalEntries, rest, rest);
  }

  const BodyHead: string := "{\"contents\": [{\"parts\": [{\"text\": \""
  const BodyTail: string := "\"}]}]}"

  /** A request body: the prompt with its quotes escaped (and nothing else
      changed), inside the `contents[0].parts[0].text` string, followed by
      `tail`. */
  function WrapPrompt(prompt: string, tail: string): (r: string)
    ensures |BodyHead| + |tail| <= |r|
    ensures r[..|BodyHead|] == BodyHead && r[|r| - |tail|..] == tail
    ensures UnescapeQuotes(r[|BodyHead|..|r| - |tail|]) == prompt
    ensures |r| == |BodyHead| + |prompt| + CountOf(prompt, Quote) + |tail|
  {
    var e := EscapeQuotes(prompt);
    UnescapeEscape(prompt);
    EscapeLength(prompt);
    var r := BodyHead + e + tail;
    assert r[|BodyHead|..|r| - |tail|] == e;
    r
  }

  /** This client's request body. */
  function RequestBody(prompt: string): string {
    WrapPrompt(prompt, BodyTail)
  }

  /** The endpoint with the key as query parameter; an unset key is
      concatenated as the text "null". */
  function RequestUrl(apiUrl: string, apiKey: Option<string>): (r: string)
    ensures StartsWith(r, apiUrl + "?key=")
    ensures r[|apiUrl| + 5..] == NullableText(apiKey)
  {
    apiUrl + "?key=" + NullableText(apiKey)
  }

  /** The URL carries the key: two URLs for the same endpoint are equal
      exactly when the keys render alike, so an unset key cannot be told
      from the key "null". */
  lemma RequestUrlDeterminesKey(apiUrl: string, k1: Option<string>, k2: Option<string>)
    ensures RequestUrl(apiUrl, k1) == RequestUrl(apiUrl, k2) <==> NullableText(k1) == NullableText(k2)
    ensures RequestUrl(apiUrl, None) == RequestUrl(apiUrl, Some("null"))
  {
    if RequestUrl(apiUrl, k1) == RequestUrl(apiUrl, k2) {
      assert RequestUrl(apiUrl, k1)[|apiUrl| + 5..] == RequestUrl(apiUrl, k2)[|apiUrl| + 5..];
    }
  }

  /** One POST the client sends. */
  datatype ModelRequest = ModelRequest(url: string, body: string)

  /** What one `restTemplate.exchange` call gives back: a response, or an
      exception (I/O failure, or a 4xx/5xx turned into an exception). */
  datatype Exchange = Responded(status: int, body: Option<string>) | Raised

  /** Why one invocation failed; whatever it was, the caller sees the same
      `RuntimeException("AI分析服务暂时不可用")`. */
  datatype ModelCause = PromptFailed | Rejected(status: int) | ExchangeRaised

  datatype ModelFault = ModelUnavailable(message: string, cause: ModelCause)

  const UnavailableMessage: string := "AI分析服务暂时不可用"

  predicate Is2xx(status: int) {
    200 <= status <= 299
  }

  /** The status check: a 2xx status with a non-null body returns the body
      unchanged; everything else, including the exception the check itself
      throws, surfaces re-wrapped as "service unavailable". */
  function Classify(ex: Exchange): (r: Result<string, ModelFault>)
    ensures r.Ok? <==> ex.Responded? && Is2xx(ex.status) && ex.body.Some?
    ensures r.Ok? ==> r.value == ex.body.value
    ensures r.Err? ==> r.error.message == UnavailableMessage
  {
    match ex
    case Responded(status, body) =>
      if Is2xx(status) && body.Some? then Ok(body.value)
      else Err(ModelUnavailable(UnavailableMessage, Rejected(status)))
    case Raised => Err(ModelUnavailable(UnavailableMessage, ExchangeRaised))
  }

  /** One invocation of `generateAnalysis`: the request it sends (none when
      the prompt cannot be built) and what it returns. */
  datatype Invocation = Invocation(sent: Option<ModelRequest>, result: Result<string, ModelFault>)

  function Invoke(cfg: ClientConfig, data: MoodDataAnalysis, prefs: Option<Preferences>, ex: Exchange): (r: Invocation)
    ensures r.sent.None? <==> BuildAnalysisPrompt(cfg.template, data, prefs, cfg.renderScore).None?
    ensures r.sent.Some? ==>
      && r.sent.value.url == RequestUrl(cfg.apiUrl, cfg.apiKey)
      && |BodyHead| + |BodyTail| <= |r.sent.value.body|
      && UnescapeQuotes(r.sent.value.body[|BodyHead|..|r.sent.value.body| - |BodyTail|])
           == BuildAnalysisPrompt(cfg.template, data, prefs, cfg.renderScore).value
    ensures r.result.Ok? <==> r.sent.Some? && Classify(ex).Ok?
    ensures r.result.Ok? ==> r.result.value == ex.body.value
    ensures r.result.Err? ==> r.result.error.message == UnavailableMessage
  {
    match BuildAnalysisPrompt(cfg.template, data, prefs, cfg.renderScore)
    case None => Invocation(None, Err(ModelUnavailable(UnavailableMessage, PromptFailed)))
    case Some(prompt) =>
      Invocation(Some(ModelRequest(RequestUrl(cfg.apiUrl, cfg.apiKey), RequestBody(prompt))), Classify(ex))
  }

  /** A retry policy: how many invocations in all, and the fixed pause
      between two of them. */
  datatype RetryPolicy = RetryPolicy(maxAttempts: nat, delayMs: nat)

  /** What `@Retryable(value = Exception.class, maxAttempts = 3,
      backoff = @Backoff(delay = 1000))` declares: every exception retried. */
  const DeclaredPolicy: RetryPolicy := RetryPolicy(3, 1000)

  /** What runs without retry support enabled: the method is invoked once. */
  const SingleInvocation: RetryPolicy := RetryPolicy(1, 0)

  /** The outcome of a retried call: the result the caller sees, how many
      invocations were made and how long was waited between them. */
  datatype RetryRun<T, E> = RetryRun(result: Result<T, E>, attempts: nat, waitedMs: nat)

  /** Runs the invocations from index `i` on. */
  function RetryFrom<T, E>(policy: RetryPolicy, outcomes: seq<Result<T, E>>, i: nat): (run: RetryRun<T, E>)
    requires i < policy.maxAttempts <= |outcomes|
    ensures i + 1 <= run.attempts <= policy.maxAttempts
    ensures run.result == outcomes[run.attempts - 1]
    ensures forall k :: i <= k < run.attempts - 1 ==> outcomes[k].Err?
    ensures run.result.Err? ==> run.attempts == policy.maxAttempts
    ensures run.waitedMs == policy.delayMs * (run.attempts - 1 - i)
    decreases policy.maxAttempts - i
  {
    if outcomes[i].Ok? || i + 1 == policy.maxAttempts then RetryRun(outcomes[i], i + 1, 0)
    else
      var rest := RetryFrom(policy, outcomes, i + 1);
      assert policy.delayMs * (rest.attempts - 1 - i) == policy.delayMs + policy.delayMs * (rest.attempts - 1 - (i + 1));
      rest.(waitedMs := policy.delayMs + rest.waitedMs)
  }

  /** The retry combinator over the outcomes successive invocations would
      have: the first success ends the run; otherwise every allowed attempt
      is made and the last failure is rethrown. */
  function Retry<T, E>(policy: RetryPolicy, outcomes: seq<Result<T, E>>): (run: RetryRun<T, E>)
    requires 1 <= policy.maxAttempts <= |outcomes|
    ensures 1 <= run.attempts <= policy.maxAttempts
    ensures run.result == outcomes[run.attempts - 1]
    ensures forall k :: 0 <= k < run.attempts - 1 ==> outcomes[k].Err?
    ensures run.result.Ok? <==> exists k :: 0 <= k < policy.maxAttempts && outcomes[k].Ok?
    ensures run.result.Err? ==> run.attempts == policy.maxAttempts
    ensures run.waitedMs == policy.delayMs * (run.attempts - 1)
  {
    RetryFrom(policy, outcomes, 0)
  }

  /** The outcome each allowed attempt would have: attempt `k` sends the
      same request and is classified on the endpoint's `k`-th reply. */
  function Outcomes(cfg: ClientConfig, data: MoodDataAnalysis, prefs: Option<Preferences>,
                    policy: RetryPolicy, replies: nat -> Exchange): (r: seq<Result<string, ModelFault>>)
    ensures |r| == policy.maxAttempts
    ensures forall k :: 0 <= k < |r| ==> r[k] == Invoke(cfg, data, prefs, replies(k)).result
  {
    seq(policy.maxAttempts, i requires 0 <= i < policy.maxAttempts => Invoke(cfg, data, prefs, replies(i)).result)
  }

  /** Some attempt succeeds exactly when the prompt builds and some allowed
      reply classifies as a success. */
  lemma SomeOutcomeSucceeds(cfg: ClientConfig, data: MoodDataAnalysis, prefs: Option<Preferences>,
                            policy: RetryPolicy, replies: nat -> Exchange)
    ensures var outcomes := Outcomes(cfg, data, prefs, policy, replies);
      (exists k :: 0 <= k < policy.maxAttempts && outcomes[k].Ok?) <==>
        BuildAnalysisPrompt(cfg.template, data, prefs, cfg.renderScore).Some?
        && exists k :: 0 <= k < policy.maxAttempts && Classify(replies(k)).Ok?
  {
    var outcomes := Outcomes(cfg, data, prefs, policy, replies);
    if exists k :: 0 <= k < policy.maxAttempts && outcomes[k].Ok? {
      var k :| 0 <= k < policy.maxAttempts && outcomes[k].Ok?;
      assert Invoke(cfg, data, prefs, replies(k)).result.Ok?;
    }
    if BuildAnalysisPrompt(cfg.template, data, prefs, cfg.renderScore).Some?
       && exists k :: 0 <= k < policy.maxAttempts && Classify(replies(k)).Ok? {
      var k :| 0 <= k < policy.maxAttempts && Classify(replies(k)).Ok?;
      assert outcomes[k] == Invoke(cfg, data, prefs, replies(k)).result;
    }
  }

  /** The model call as the report service makes it: the same request on
      every attempt, attempt `i` classified on the endpoint's `i`-th reply. */
  function CallModel(cfg: ClientConfig, data: MoodDataAnalysis, prefs: Option<Preferences>,
                     policy: RetryPolicy, replies: nat -> Exchange): (run: RetryRun<string, ModelFault>)
    requires policy.maxAttempts >= 1
    ensures 1 <= run.attempts <= policy.maxAttempts
    ensures run.result.Ok? ==> BuildAnalysisPrompt(cfg.template, data, prefs, cfg.renderScore).Some?
    ensures run.result.Ok? ==> run.result == Classify(replies(run.attempts - 1))
    ensures run.result.Err? ==> run.attempts == policy.maxAttempts && run.result.error.message == UnavailableMessage
    ensures run.result.Ok? <==>
      BuildAnalysisPrompt(cfg.template, data, prefs, cfg.renderScore).Some?
      && exists k :: 0 <= k < policy.maxAttempts && Classify(replies(k)).Ok?
    ensures forall k :: 0 <= k < run.attempts - 1 ==> Invoke(cfg, data, prefs, replies(k)).result.Err?
    ensures run.waitedMs == policy.delayMs * (run.attempts - 1)
  {
    var outcomes := Outcomes(cfg, data, prefs, policy, replies);
    var run := Retry(policy, outcomes);
    SomeOutcomeSucceeds(cfg, data, prefs, policy, replies);
    assert run.result == Invoke(cfg, data, prefs, replies(run.attempts - 1)).result;
    run
  }

  /** A successful call returns the body of one of the allowed replies. */
  lemma CallModelReturnsAReply(cfg: ClientConfig, data: MoodDataAnalysis, prefs: Option<Preferences>,
                               policy: RetryPolicy, replies: nat -> Exchange)
    requires policy.maxAttempts >= 1
    ensures var run := CallModel(cfg, data, prefs, policy, replies);
      run.result.Ok? ==>
        var k := run.attempts - 1;
        k < policy.maxAttempts && replies(k).Responded? && replies(k).body == Some(run.result.value)
  {
  }

  /** Replies given in order; after the last one the endpoint is unreachable. */
  function Replies(xs: seq<Exchange>): nat -> Exchange {
    (i: nat) => if i < |xs| then xs[i] else Raised
  }

  /** Under the declared policy, two failures followed by a success end in
      that success after three attempts and two pauses, with the same body a
      first-time success would have returned. */
  lemma FailTwiceThenSucceed(cfg: ClientConfig, data: MoodDataAnalysis, prefs: Option<Preferences>, f1: Exchange, f2: Exchange, ok: Exchange)
    requires BuildAnalysisPrompt(cfg.template, data, prefs, cfg.renderScore).Some?
    requires Classify(f1).Err? && Classify(f2).Err? && Classify(ok).Ok?
    ensures var run := CallModel(cfg, data, prefs, DeclaredPolicy, Replies([f1, f2, ok]));
      && run.attempts == 3
      && run.waitedMs == 2000
      && run.result == CallModel(cfg, data, prefs, SingleInvocation, Replies([ok])).result
      && run.result == Ok(ok.body.value)
  {
  }

  /** Under the declared policy, three failures make exactly three attempts
      and surface "service unavailable". */
  lemma ThreeFailures(cfg: ClientConfig, data: MoodDataAnalysis, prefs: Option<Preferences>, f1: Exchange, f2: Exchange, f3: Exchange)
    requires Classify(f1).Err? && Classify(f2).Err? && Classify(f3).Err?
    ensures var run := CallModel(cfg, data, prefs, DeclaredPolicy, Replies([f1, f2, f3]));
      && run.attempts == 3
      && run.result.Err?
      && run.result.error.message == UnavailableMessage
  {
  }
}
