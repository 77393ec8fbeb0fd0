/** The weekly report pipeline (`AnalysisReportService`) and the record it
    persists (`AiAnalysis`): request defaults, the query window, the
    sufficiency gate, the numeric summary, the model call, reading the reply,
    building and saving the record, and the response. */
module ReportPipeline {
  import opened Base
  import opened Text
  import opened Numerals
  import opened JsonValue
  import opened Domain
  import opened AnalysisRequestDto
  import opened Gemini

  /** What the pipeline throws. */
  datatype ReportFault =
    | Insufficient(exception: InsufficientDataException)
    | NullReference                      // a null dereference: missing emotion type, analysis type or result
    | ModelFailed(fault: ModelFault)     // the model client gave up
    | ParseFailed(message: string)       // the reply could not be read as an analysis result
    | UnknownAnalysisType(name: string)  // `AnalysisType.valueOf` rejected the name
    | ConstraintViolated                 // the store refused the record

  // ---------------------------------------------------------------- request

  /** `processRequest`: a missing range becomes an empty one, a missing end
      date becomes today and a missing start date the end date minus six days. */
  function ProcessRequest(req: AnalysisRequest, today: int): (r: AnalysisRequest)
    ensures r.analysisType == req.analysisType && r.preferences == req.preferences
    ensures r.dateRange.Some? && r.dateRange.value.startDate.Some? && r.dateRange.value.endDate.Some?
    ensures req.dateRange.Some? && req.dateRange.value.endDate.Some? ==>
      r.dateRange.value.endDate == req.dateRange.value.endDate
    ensures req.dateRange.Some? && req.dateRange.value.startDate.Some? ==>
      r.dateRange.value.startDate == req.dateRange.value.startDate
    ensures req.dateRange.None? || req.dateRange.value.endDate.None? ==>
      r.dateRange.value.endDate == Some(today)
    ensures req.dateRange.None? || req.dateRange.value.startDate.None? ==>
      r.dateRange.value.startDate == Some(r.dateRange.value.endDate.value - 6)
  {
    var given := if req.dateRange.Some? then req.dateRange.value else DefaultDateRange;
    var withEnd := if given.endDate.None? then given.(endDate := Some(today)) else given;
    var withStart := if withEnd.startDate.None? then withEnd.(startDate := Some(withEnd.endDate.value - 6)) else withEnd;
    req.(dateRange := Some(withStart))
  }

  /** A processed request is left as it is, whatever day it is processed again. */
  lemma ProcessRequestIdempotent(req: AnalysisRequest, today: int, later: int)
    ensures ProcessRequest(ProcessRequest(req, today), later) == ProcessRequest(req, today)
  {
  }

  // ----------------------------------------------------------------- window

  /** The repository query: entries of one user whose record time lies
      between two instants, both ends included. */
  datatype Window = Window(userId: int, from: int, to: int)

  /** `getMoodData`'s window: from the start date's first instant to the first
      instant of the day after the end date. */
  function QueryWindow(userId: int, range: DateRange): (w: Window)
    requires range.startDate.Some? && range.endDate.Some?
    ensures w.userId == userId
    ensures w.from == StartOfDay(range.startDate.value)
    ensures w.to - w.from == (range.endDate.value - range.startDate.value + 1) * DayMillis
  {
    Window(userId, StartOfDay(range.startDate.value), StartOfDay(range.endDate.value + 1))
  }

  predicate InWindow(w: Window, e: MoodEntry) {
    && e.user.Some? && e.user.value.id == Some(w.userId)
    && e.recordTime.Some? && w.from <= e.recordTime.value <= w.to
  }

  /** The entries the query returns, in store order. */
  function GetMoodData(moods: seq<MoodEntry>, w: Window): (r: seq<MoodEntry>)
    ensures forall e :: e in r <==> e in moods && InWindow(w, e)
  {
    Filter(moods, e => InWindow(w, e))
  }

  /** Without a date range the window covers the seven days ending today,
      through the first instant of tomorrow. */
  lemma DefaultWindowIsSevenDays(req: AnalysisRequest, userId: int, today: int)
    requires req.dateRange.None?
    ensures var w := QueryWindow(userId, ProcessRequest(req, today).dateRange.value);
      w.from == StartOfDay(today - 6) && w.to == StartOfDay(today + 1) && w.to - w.from == 7 * DayMillis
  {
  }

  // ------------------------------------------------------------------- gate

  const RequiredDays: int := 3
  const InsufficientMessage: string := "需要至少3天的情绪记录数据才能生成分析报告"

  /** `validateMoodData`: the exception it throws, if any. */
  function ValidateMoodData(moods: seq<MoodEntry>): (r: Option<InsufficientDataException>)
    ensures r.None? <==> |moods| >= RequiredDays
    ensures r.Some? ==> r.value.requiredDays == RequiredDays && r.value.availableDays == |moods|
    ensures r.Some? ==> r.value.message == Some(InsufficientMessage)
  {
    if |moods| < RequiredDays then Some(InsufficientDataException(Some(InsufficientMessage), RequiredDays, |moods|))
    else None
  }

  // ---------------------------------------------------------------- summary

  predicate AllHaveEmotion(moods: seq<MoodEntry>) {
    forall i :: 0 <= i < |moods| ==> moods[i].emotion.Some?
  }

  function OrdinalSum(moods: seq<MoodEntry>): nat
    requires AllHaveEmotion(moods)
    decreases |moods|
  {
    if |moods| == 0 then 0 else moods[0].emotion.value.ordinal + OrdinalSum(moods[1..])
  }

  /** `preprocessMoodData`: the count and the mean emotion ordinal (0 for no
      entries); an entry without an emotion type throws. */
  function Preprocess(moods: seq<MoodEntry>): (r: Result<MoodDataAnalysis, ReportFault>)
    ensures r.Ok? <==> AllHaveEmotion(moods)
    ensures r.Err? ==> r.error == NullReference
    ensures r.Ok? ==> r.value.totalEntries == |moods|
    ensures r.Ok? ==> r.value.averageScore * |moods| as real == OrdinalSum(moods) as real
  {
    if !AllHaveEmotion(moods) then Err(NullReference)
    else if |moods| == 0 then Ok(MoodDataAnalysis(0, 0.0))
    else Ok(MoodDataAnalysis(|moods|, OrdinalSum(moods) as real / |moods| as real))
  }

  lemma {:induction false} OrdinalSumBound(moods: seq<MoodEntry>, top: nat)
    requires AllHaveEmotion(moods)
    requires forall i :: 0 <= i < |moods| ==> moods[i].emotion.value.ordinal <= top
    ensures OrdinalSum(moods) <= top * |moods|
    decreases |moods|
  {
    if |moods| > 0 {
      OrdinalSumBound(moods[1..], top);
    }
  }

  /** The mean lies between 0 and the largest ordinal present. */
  lemma MeanWithinOrdinals(moods: seq<MoodEntry>, top: nat)
    requires AllHaveEmotion(moods)
    requires forall i :: 0 <= i < |moods| ==> moods[i].emotion.value.ordinal <= top
    ensures 0.0 <= Preprocess(moods).value.averageScore <= top as real
  {
    OrdinalSumBound(moods, top);
    if |moods| > 0 {
      QuotientBound(OrdinalSum(moods) as real, |moods| as real, top as real);
    }
  }

  /** A quotient `s / n` with `0 <= s <= t * n` and `n > 0` lies in `[0, t]`. */
  lemma QuotientBound(s: real, n: real, t: real)
    requires 0.0 < n && 0.0 <= s <= t * n
    ensures 0.0 <= s / n <= t
  {
    var q := s / n;
    assert q * n == s;
    if q > t {
      assert q * n > t * n;
    }
  }

  // ------------------------------------------------------------- the reply

  /** The four sections of an analysis result, each the JSON subtree the
      reply held for it (null when absent or JSON null). */
  datatype AnalysisResult = AnalysisResult(
    summary: Option<Json>,
    patterns: Option<Json>,
    recommendations: Option<Json>,
    riskAssessment: Option<Json>)

  const ParseFailureMessage: string := "Failed to parse AI response"

  /** An absent member and a JSON null both bind to null. */
  function NonNull(j: Option<Json>): Option<Json> {
    if j.Some? && j.value.JNull? then None else j
  }

  /** One section property: null, or a subtree the section type accepts;
      `None` when the subtree does not fit the section type. */
  function ReadSection(doc: Json, key: string, fits: (string, Json) -> bool): (r: Option<Option<Json>>)
    ensures r.Some? ==> r.value == NonNull(Member(doc, key))
    ensures r.None? <==> NonNull(Member(doc, key)).Some? && !fits(key, Member(doc, key).value)
  {
    match NonNull(Member(doc, key))
    case None => Some(None)
    case Some(j) => if fits(key, j) then Some(Some(j)) else None
  }

  /** `objectMapper.readValue(body, AnalysisResult.class)`: the body is read
      as it came, with no fence stripping and no envelope unwrapping. A JSON
      null document gives a null result; anything unreadable, a document that
      is not an object, or a section that does not fit its type fails with
      an I/O error. Other members are ignored. */
  function ReadAnalysisResult(body: string, parse: Parser, fits: (string, Json) -> bool): (r: Result<Option<AnalysisResult>, ReportFault>)
    ensures r.Err? ==> r.error == ParseFailed(ParseFailureMessage)
    ensures parse(body).None? ==> r.Err?
    ensures r == Ok(None) <==> parse(body) == Some(JNull)
    ensures r.Ok? && r.value.Some? ==>
      && parse(body).Some? && parse(body).value.JObj?
      && r.value.value.summary == NonNull(Member(parse(body).value, "summary"))
      && r.value.value.patterns == NonNull(Member(parse(body).value, "patterns"))
      && r.value.value.recommendations == NonNull(Member(parse(body).value, "recommendations"))
      && r.value.value.riskAssessment == NonNull(Member(parse(body).value, "riskAssessment"))
  {
    match parse(body)
    case None => Err(ParseFailed(ParseFailureMessage))
    case Some(JNull) => Ok(None)
    case Some(doc) =>
      if !doc.JObj? then Err(ParseFailed(ParseFailureMessage))
      else
        match (ReadSection(doc, "summary", fits), ReadSection(doc, "patterns", fits),
               ReadSection(doc, "recommendations", fits), ReadSection(doc, "riskAssessment", fits))
        case (Some(s), Some(p), Some(rc), Some(ra)) => Ok(Some(AnalysisResult(s, p, rc, ra)))
        case _ => Err(ParseFailed(ParseFailureMessage))
  }

  // ----------------------------------------------------------------- record

  /** A row of `ai_analysis`. Dates are epoch days, timestamps epoch
      milliseconds, the analysis type the constant's name. */
  datatype AiAnalysis = AiAnalysis(
    id: Option<int>,
    userId: Option<int>,
    reportId: Option<string>,
    analysisType: Option<string>,
    startDate: Option<int>,
    endDate: Option<int>,
    summaryData: Option<Json>,
    patternsData: Option<Json>,
    recommendationsData: Option<Json>,
    riskAssessmentData: Option<Json>,
    dataPoints: Option<int>,
    confidenceScore: Option<Decimal>,
    apiCost: Option<Decimal>,
    createdAt: Option<int>,
    updatedAt: Option<int>)

  const Weekly: string := "WEEKLY"

  /** A record from the builder with nothing set: only the analysis type has
      a default. */
  const BuilderDefaults: AiAnalysis :=
    AiAnalysis(None, None, None, Some(Weekly), None, None, None, None, None, None, None, None, None, None, None)

  /** The fixed confidence 0.85 and cost 0.024 every report records. */
  const Confidence: Decimal := Decimal(85, 2)
  const ApiCost: Decimal := Decimal(24, 3)

  /** The column constraints: the non-null columns, and the digit limits of
      the two decimals. */
  predicate ColumnsHold(a: AiAnalysis) {
    && a.userId.Some? && a.reportId.Some? && a.startDate.Some? && a.endDate.Some?
    && a.summaryData.Some? && a.patternsData.Some? && a.recommendationsData.Some? && a.riskAssessmentData.Some?
    && a.dataPoints.Some? && a.confidenceScore.Some?
    && a.confidenceScore.value.FitsDigits(1, 2)
    && (a.apiCost.Some? ==> a.apiCost.value.FitsDigits(4, 4))
  }

  lemma ConstantsFitTheirColumns()
    ensures Confidence.FitsDigits(1, 2) && 0.0 <= Confidence.Value() <= 1.0
    ensures ApiCost.FitsDigits(4, 4)
    ensures BuilderDefaults.analysisType == Some(Weekly)
  {
    assert DecimalString(85) == DecimalString(8) + [DigitChar(5)];
    assert DecimalString(24) == DecimalString(2) + [DigitChar(4)];
  }

  /** `saveAnalysisResult`'s record before it is stored. The builder reads
      the analysis type before the result: a null analysis type cannot be
      upper-cased, a name that is not an `AnalysisType` constant is rejected
      by `valueOf`, and only then is a null result dereferenced. */
  function BuildRecord(userId: int, request: AnalysisRequest, result: Option<AnalysisResult>, data: MoodDataAnalysis,
                       reportId: string, analysisTypes: set<string>): (r: Result<AiAnalysis, ReportFault>)
    requires request.dateRange.Some?
    ensures request.analysisType.None? ==> r == Err(NullReference)
    ensures request.analysisType.Some? && ToUpper(request.analysisType.value) !in analysisTypes ==>
      r == Err(UnknownAnalysisType(ToUpper(request.analysisType.value)))
    ensures request.analysisType.Some? && ToUpper(request.analysisType.value) in analysisTypes && result.None? ==>
      r == Err(NullReference)
    ensures r.Ok? <==> request.analysisType.Some? && ToUpper(request.analysisType.value) in analysisTypes && result.Some?
    ensures r.Ok? ==>
      && r.value.id.None? && r.value.createdAt.None? && r.value.updatedAt.None?
      && r.value.userId == Some(userId)
      && r.value.reportId == Some(reportId)
      && r.value.analysisType == Some(ToUpper(request.analysisType.value))
      && r.value.startDate == request.dateRange.value.startDate
      && r.value.endDate == request.dateRange.value.endDate
      && r.value.summaryData == result.value.summary
      && r.value.patternsData == result.value.patterns
      && r.value.recommendationsData == result.value.recommendations
      && r.value.riskAssessmentData == result.value.riskAssessment
      && r.value.dataPoints == Some(data.totalEntries)
      && r.value.confidenceScore == Some(Confidence)
      && r.value.apiCost == Some(ApiCost)
  {
    match request.analysisType
    case None => Err(NullReference)
    case Some(t) =>
      var name := ToUpper(t);
      if name !in analysisTypes then Err(UnknownAnalysisType(name))
      else if result.None? then Err(NullReference)
      else Ok(BuilderDefaults.(
        userId := Some(userId),
        reportId := Some(reportId),
        analysisType := Some(name),
        startDate := request.dateRange.value.startDate,
        endDate := request.dateRange.value.endDate,
        summaryData := result.value.summary,
        patternsData := result.value.patterns,
        recommendationsData := result.value.recommendations,
        riskAssessmentData := result.value.riskAssessment,
        dataPoints := Some(data.totalEntries),
        confidenceScore := Some(Confidence),
        apiCost := Some(ApiCost)))
  }

  /** The default request type "weekly" upper-cases to the builder's
      default constant, so `valueOf` accepts it whenever WEEKLY is an
      `AnalysisType` constant. */
  lemma DefaultTypeIsWeekly(analysisTypes: set<string>)
    requires Weekly in analysisTypes
    ensures ToUpper(DefaultRequest.analysisType.value) == Weekly
    ensures ToUpper(DefaultRequest.analysisType.value) in analysisTypes
  {
    assert ToUpper(DefaultAnalysisType) == Weekly;
  }

  // ------------------------------------------------------------------ store

  /** The stored reports, in insertion order, and the next identity value. */
  datatype ReportStore = ReportStore(rows: seq<AiAnalysis>, nextId: int)

  predicate ReportIdTaken(rows: seq<AiAnalysis>, reportId: Option<string>) {
    exists i :: 0 <= i < |rows| && rows[i].reportId == reportId
  }

  /** Every stored row meets the column constraints and no two share a report id. */
  predicate Valid(st: ReportStore) {
    && (forall i :: 0 <= i < |st.rows| ==> ColumnsHold(st.rows[i]))
    && (forall i, j :: 0 <= i < j < |st.rows| ==> st.rows[i].reportId != st.rows[j].reportId)
  }

  /** `aiAnalysisRepository.save`: a record that breaks a column constraint or
      reuses a report id is refused; otherwise it gets the next identity and
      its creation and update timestamps and is appended. */
  function Save(st: ReportStore, a: AiAnalysis, now: int): (r: Result<(ReportStore, AiAnalysis), ReportFault>)
    ensures r.Ok? <==> ColumnsHold(a) && !ReportIdTaken(st.rows, a.reportId)
    ensures r.Err? ==> r.error == ConstraintViolated
    ensures r.Ok? ==>
      && r.value.1 == a.(id := Some(st.nextId), createdAt := Some(now), updatedAt := Some(now))
      && r.value.0 == ReportStore(st.rows + [r.value.1], st.nextId + 1)
  {
    if !ColumnsHold(a) || ReportIdTaken(st.rows, a.reportId) then Err(ConstraintViolated)
    else
      var saved := a.(id := Some(st.nextId), createdAt := Some(now), updatedAt := Some(now));
      Ok((ReportStore(st.rows + [saved], st.nextId + 1), saved))
  }

  lemma SavePreservesValid(st: ReportStore, a: AiAnalysis, now: int)
    requires Valid(st)
    requires Save(st, a, now).Ok?
    ensures Valid(Save(st, a, now).value.0)
  {
    var st' := Save(st, a, now).value.0;
    forall i, j | 0 <= i < j < |st'.rows|
      ensures st'.rows[i].reportId != st'.rows[j].reportId
    {
      if j == |st.rows| {
        assert st'.rows[i] == st.rows[i];
      }
    }
  }

  // --------------------------------------------------------------- response

  datatype AnalysisMetadata = AnalysisMetadata(dataPoints: Option<int>, analysisConfidence: Option<Decimal>, apiCost: Option<Decimal>)

  datatype AnalysisResponse = AnalysisResponse(
    reportId: Option<string>,
    generatedAt: Option<int>,
    analysisResult: AnalysisResult,
    metadata: AnalysisMetadata)

  /** `convertToResponse`. */
  function ConvertToResponse(a: AiAnalysis): (r: AnalysisResponse)
    ensures r.reportId == a.reportId && r.generatedAt == a.createdAt
    ensures r.analysisResult == AnalysisResult(a.summaryData, a.patternsData, a.recommendationsData, a.riskAssessmentData)
    ensures r.metadata == AnalysisMetadata(a.dataPoints, a.confidenceScore, a.apiCost)
  {
    AnalysisResponse(
      a.reportId,
      a.createdAt,
      AnalysisResult(a.summaryData, a.patternsData, a.recommendationsData, a.riskAssessmentData),
      AnalysisMetadata(a.dataPoints, a.confidenceScore, a.apiCost))
  }

  // --------------------------------------------------------------- pipeline

  /** The service's collaborators: the model client and its retry policy,
      the JSON reader with the section types' acceptance test, and the names
      of the `AnalysisType` constants. */
  datatype ReportEnv = ReportEnv(
    client: ClientConfig,
    policy: RetryPolicy,
    parse: Parser,
    fits: (string, Json) -> bool,
    analysisTypes: set<string>)

  /** What the outside world supplies to one run: today's date, the current
      instant, the stored mood entries, the endpoint's successive replies and
      the random report id. */
  datatype World = World(today: int, now: int, moods: seq<MoodEntry>, replies: nat -> Exchange, freshId: string)

  /** The outcome of one run: the response or exception, the number of model
      invocations made, and the report store afterwards. */
  datatype ReportRun = ReportRun(result: Result<AnalysisResponse, ReportFault>, modelCalls: nat, store: ReportStore)

  /** The entries the run selects. */
  function Selected(world: World, req: AnalysisRequest, userId: int): seq<MoodEntry> {
    GetMoodData(world.moods, QueryWindow(userId, ProcessRequest(req, world.today).dateRange.value))
  }

  /** `generateAnalysis`: the stages in order, each failure ending the run.
      The service is transactional, and the only write is the final save, so
      a failed run leaves the store as it was. */
  function GenerateAnalysis(env: ReportEnv, world: World, req: AnalysisRequest, userId: int, store: ReportStore): (run: ReportRun)
    requires env.policy.maxAttempts >= 1
    ensures run.modelCalls <= env.policy.maxAttempts
    ensures run.result.Err? ==> run.store == store
    ensures run.result.Ok? ==> run.modelCalls >= 1 && |run.store.rows| == |store.rows| + 1
  {
    var processed := ProcessRequest(req, world.today);
    var moods := Selected(world, req, userId);
    match ValidateMoodData(moods)
    case Some(e) => ReportRun(Err(Insufficient(e)), 0, store)
    case None =>
      match Preprocess(moods)
      case Err(f) => ReportRun(Err(f), 0, store)
      case Ok(data) =>
        var call := CallModel(env.client, data, processed.preferences, env.policy, world.replies);
        match call.result
        case Err(f) => ReportRun(Err(ModelFailed(f)), call.attempts, store)
        case Ok(body) =>
          match ReadAnalysisResult(body, env.parse, env.fits)
          case Err(f) => ReportRun(Err(f), call.attempts, store)
          case Ok(result) =>
            match BuildRecord(userId, processed, result, data, world.freshId, env.analysisTypes)
            case Err(f) => ReportRun(Err(f), call.attempts, store)
            case Ok(record) =>
              match Save(store, record, world.now)
              case Err(f) => ReportRun(Err(f), call.attempts, store)
              case Ok((st, saved)) => ReportRun(Ok(ConvertToResponse(saved)), call.attempts, st)
  }

  /** The gate runs before the model: with fewer than three entries in the
      window the run throws the insufficiency exception, never calls the
      model, and stores nothing. */
  lemma GateBeforeModel(env: ReportEnv, world: World, req: AnalysisRequest, userId: int, store: ReportStore)
    requires env.policy.maxAttempts >= 1
    requires |Selected(world, req, userId)| < RequiredDays
    ensures var run := GenerateAnalysis(env, world, req, userId, store);
      && run.result == Err(Insufficient(InsufficientDataException(Some(InsufficientMessage), RequiredDays, |Selected(world, req, userId)|)))
      && run.modelCalls == 0
      && run.store == store
  {
  }

  /** A reply that cannot be read fails the run with "Failed to parse AI
      response" and nothing is saved. */
  lemma UnreadableReplyIsNotSaved(env: ReportEnv, world: World, req: AnalysisRequest, userId: int, store: ReportStore)
    requires env.policy.maxAttempts >= 1
    requires forall i :: 0 <= i < env.policy.maxAttempts ==>
      world.replies(i).Responded? && world.replies(i).body.Some? && env.parse(world.replies(i).body.value).None?
    ensures var run := GenerateAnalysis(env, world, req, userId, store);
      && run.store == store
      && (run.modelCalls > 0 ==> run.result == Err(ParseFailed(ParseFailureMessage)) || run.result.error.ModelFailed?)
  {
    var run := GenerateAnalysis(env, world, req, userId, store);
    var moods := Selected(world, req, userId);
    if run.modelCalls > 0 {
      var data := Preprocess(moods).value;
      var call := CallModel(env.client, data, ProcessRequest(req, world.today).preferences, env.policy, world.replies);
      if call.result.Ok? {
        assert env.parse(call.result.value).None?;
      }
    }
  }

  /** An object without any of the four section keys reads as a result
      whose sections are all missing. */
  lemma EnvelopeReadsEmpty(body: string, parse: Parser, fits: (string, Json) -> bool, envelope: map<string, Json>)
    requires "summary" !in envelope && "patterns" !in envelope
    requires "recommendations" !in envelope && "riskAssessment" !in envelope
    requires parse(body) == Some(JObj(envelope))
    ensures ReadAnalysisResult(body, parse, fits) == Ok(Some(AnalysisResult(None, None, None, None)))
  {
  }

  /** A result without sections never reaches the store: either the record
      cannot be built or its null columns make the save fail. */
  lemma EmptyResultNotSaved(userId: int, request: AnalysisRequest, data: MoodDataAnalysis, reportId: string,
                            analysisTypes: set<string>, store: ReportStore, now: int)
    requires request.dateRange.Some?
    ensures var built := BuildRecord(userId, request, Some(AnalysisResult(None, None, None, None)), data, reportId, analysisTypes);
      built.Ok? ==> Save(store, built.value, now).Err?
  {
  }

  /** When every allowed reply parses to the same document, so does the body
      of a successful call. */
  lemma CalledReplyParsesAs(env: ReportEnv, data: MoodDataAnalysis, prefs: Option<Preferences>,
                            replies: nat -> Exchange, doc: Json)
    requires env.policy.maxAttempts >= 1
    requires forall i :: 0 <= i < env.policy.maxAttempts ==>
      replies(i).Responded? && replies(i).body.Some? && env.parse(replies(i).body.value) == Some(doc)
    ensures var call := CallModel(env.client, data, prefs, env.policy, replies);
      call.result.Ok? ==> env.parse(call.result.value) == Some(doc)
  {
    CallModelReturnsAReply(env.client, data, prefs, env.policy, replies);
  }

  /** A reply in the model's own envelope (`{"candidates": …}`) is not
      unwrapped: none of the four sections is found, so the record breaks
      its non-null columns and the run fails without storing anything. */
  lemma EnvelopeReplyIsRefused(env: ReportEnv, world: World, req: AnalysisRequest, userId: int, store: ReportStore,
                               envelope: map<string, Json>)
    requires env.policy.maxAttempts >= 1
    requires "summary" !in envelope && "patterns" !in envelope
    requires "recommendations" !in envelope && "riskAssessment" !in envelope
    requires forall i :: 0 <= i < env.policy.maxAttempts ==>
      world.replies(i).Responded? && world.replies(i).body.Some? && env.parse(world.replies(i).body.value) == Some(JObj(envelope))
    ensures var run := GenerateAnalysis(env, world, req, userId, store);
      run.result.Err? && run.store == store
  {
    var moods := Selected(world, req, userId);
    if |moods| >= RequiredDays && AllHaveEmotion(moods) {
      var processed := ProcessRequest(req, world.today);
      var data := Preprocess(moods).value;
      var call := CallModel(env.client, data, processed.preferences, env.policy, world.replies);
      CalledReplyParsesAs(env, data, processed.preferences, world.replies, JObj(envelope));
      if call.result.Ok? {
        EnvelopeReadsEmpty(call.result.value, env.parse, env.fits, envelope);
        EmptyResultNotSaved(userId, processed, data, world.freshId, env.analysisTypes, store, world.now);
      }
    }
  }

  /** A successful run stores exactly one new report, with the fresh report
      id, the user, the processed dates, the entry count (at least three) and
      the fixed confidence and cost; the response shows that record; and the
      store stays valid. */
  lemma SuccessfulRun(env: ReportEnv, world: World, req: AnalysisRequest, userId: int, store: ReportStore)
    requires env.policy.maxAttempts >= 1
    requires Valid(store)
    requires GenerateAnalysis(env, world, req, userId, store).result.Ok?
    ensures var run := GenerateAnalysis(env, world, req, userId, store);
      var processed := ProcessRequest(req, world.today);
      var saved := run.store.rows[|store.rows|];
      && run.store.rows == store.rows + [saved]
      && !ReportIdTaken(store.rows, Some(world.freshId))
      && saved.reportId == Some(world.freshId)
      && saved.userId == Some(userId)
      && saved.startDate == processed.dateRange.value.startDate
      && saved.endDate == processed.dateRange.value.endDate
      && saved.dataPoints == Some(|Selected(world, req, userId)|)
      && |Selected(world, req, userId)| >= RequiredDays
      && saved.confidenceScore == Some(Confidence) && saved.apiCost == Some(ApiCost)
      && run.result.value == ConvertToResponse(saved)
      && Valid(run.store)
  {
    var processed := ProcessRequest(req, world.today);
    var moods := Selected(world, req, userId);
    var data := Preprocess(moods).value;
    var call := CallModel(env.client, data, processed.preferences, env.policy, world.replies);
    var result := ReadAnalysisResult(call.result.value, env.parse, env.fits).value;
    var record := BuildRecord(userId, processed, result, data, world.freshId, env.analysisTypes).value;
    SavePreservesValid(store, record, world.now);
  }

  /** All four sections are present: what the record's non-null section
      columns demand. */
  predicate HasAllSections(res: AnalysisResult) {
    res.summary.Some? && res.patterns.Some? && res.recommendations.Some? && res.riskAssessment.Some?
  }

  /** The last two stages succeed together exactly when the result is
      non-null with every section, the type names a constant and the report
      id is new. */
  lemma RecordStoredIff(userId: int, request: AnalysisRequest, result: Option<AnalysisResult>, data: MoodDataAnalysis,
                        reportId: string, analysisTypes: set<string>, store: ReportStore, now: int)
    requires request.dateRange.Some? && request.dateRange.value.startDate.Some? && request.dateRange.value.endDate.Some?
    ensures var built := BuildRecord(userId, request, result, data, reportId, analysisTypes);
      built.Ok? && Save(store, built.value, now).Ok? <==>
        && result.Some? && HasAllSections(result.value)
        && request.analysisType.Some? && ToUpper(request.analysisType.value) in analysisTypes
        && !ReportIdTaken(store.rows, Some(reportId))
  {
    var built := BuildRecord(userId, request, result, data, reportId, analysisTypes);
    if built.Ok? {
      ConstantsFitTheirColumns();
      assert ColumnsHold(built.value) <==> HasAllSections(result.value);
    }
  }

  /** When a run succeeds: enough entries, each with an emotion; the model
      eventually answers; the answer reads as a non-null result with every
      section; the analysis type names a constant; and the random report id
      is new. Each of these is necessary, and together they suffice. */
  lemma RunSucceedsIff(env: ReportEnv, world: World, req: AnalysisRequest, userId: int, store: ReportStore)
    requires env.policy.maxAttempts >= 1
    ensures var processed := ProcessRequest(req, world.today);
      var moods := Selected(world, req, userId);
      GenerateAnalysis(env, world, req, userId, store).result.Ok? <==>
        && |moods| >= RequiredDays
        && AllHaveEmotion(moods)
        && var call := CallModel(env.client, Preprocess(moods).value, processed.preferences, env.policy, world.replies);
           && call.result.Ok?
           && var read := ReadAnalysisResult(call.result.value, env.parse, env.fits);
              && read.Ok? && read.value.Some? && HasAllSections(read.value.value)
              && processed.analysisType.Some? && ToUpper(processed.analysisType.value) in env.analysisTypes
              && !ReportIdTaken(store.rows, Some(world.freshId))
  {
    var processed := ProcessRequest(req, world.today);
    var moods := Selected(world, req, userId);
    if |moods| >= RequiredDays && AllHaveEmotion(moods) {
      var data := Preprocess(moods).value;
      var call := CallModel(env.client, data, processed.preferences, env.policy, world.replies);
      if call.result.Ok? {
        var read := ReadAnalysisResult(call.result.value, env.parse, env.fits);
        if read.Ok? {
          RecordStoredIff(userId, processed, read.value, data, world.freshId, env.analysisTypes, store, world.now);
        }
      }
    }
  }

  /** `saveAnalysisResult` reads the analysis type before the result: a JSON
      `null` reply with an unknown analysis type fails on the type, not on
      the null result. */
  lemma NullReplyReportsTypeFirst(env: ReportEnv, world: World, req: AnalysisRequest, userId: int, store: ReportStore)
    requires env.policy.maxAttempts >= 1
    requires |Selected(world, req, userId)| >= RequiredDays && AllHaveEmotion(Selected(world, req, userId))
    requires forall i :: 0 <= i < env.policy.maxAttempts ==>
      world.replies(i).Responded? && world.replies(i).body.Some? && env.parse(world.replies(i).body.value) == Some(JNull)
    requires req.analysisType.Some? && ToUpper(req.analysisType.value) !in env.analysisTypes
    ensures var run := GenerateAnalysis(env, world, req, userId, store);
      run.result == Err(UnknownAnalysisType(ToUpper(req.analysisType.value))) || run.result.error.ModelFailed?
  {
    var processed := ProcessRequest(req, world.today);
    var moods := Selected(world, req, userId);
    var data := Preprocess(moods).value;
    var call := CallModel(env.client, data, processed.preferences, env.policy, world.replies);
    CalledReplyParsesAs(env, data, processed.preferences, world.replies, JNull);
  }
}
