/** The request checks of the mood, comment and post controllers: an
    ordered list of field checks, each answering 400 with no body, then one
    service call answering 201 (or 200) with its result, or 500 with no body
    when the service throws. Services are parameters. */
module Controllers {
  import opened Base
  import opened Text
  import opened Domain
  import SingleAnalysis
  import JsonValue

  const Ok200: int := 200
  const Created201: int := 201
  const BadRequest400: int := 400
  const ServerError500: int := 500

  /** A `ResponseEntity`: status and body (null on every failure). */
  datatype Response<T> = Response(status: int, body: Option<T>)

  /** A handled request: the response, and the input the service was
      called with (none when a check refused the request). */
  datatype Handled<T, X> = Handled(response: Response<T>, served: Option<X>)

  /** The common shape: refuse with 400, or call the service once and
      answer `success` with its result, or 500 when it throws. */
  function Respond<T, X, E>(refused: bool, input: X, service: X -> Result<T, E>, success: int): (r: Handled<T, X>)
    ensures refused ==> r == Handled(Response(BadRequest400, None), None)
    ensures !refused ==> r.served == Some(input)
    ensures !refused && service(input).Ok? ==> r.response == Response(success, Some(service(input).value))
    ensures !refused && service(input).Err? ==> r.response == Response(ServerError500, None)
  {
    if refused then Handled(Response(BadRequest400, None), None)
    else match service(input)
      case Ok(v) => Handled(Response(success, Some(v)), Some(input))
      case Err(_) => Handled(Response(ServerError500, None), Some(input))
  }

  /** A present, non-blank text (`s != null && !s.trim().isEmpty()`). */
  predicate HasText(s: Option<string>) {
    s.Some? && !IsBlank(s.value)
  }

  predicate HasUserId(u: Option<UserRef>) {
    u.Some? && u.value.id.Some?
  }

  // ------------------------------------------------------------------ moods

  /** Why a mood submission is refused, in the order the checks run. */
  datatype SubmitRefusal = NoEntry | NoDescription | StressOutOfRange | NoUser

  /** The first check of `submitMoodEntry` that fails, if any. */
  function SubmitCheck(body: Option<MoodEntry>): (r: Option<SubmitRefusal>)
    ensures r.None? <==>
      && body.Some?
      && HasText(body.value.description)
      && body.value.stressLevel.Some? && 1 <= body.value.stressLevel.value <= 10
      && HasUserId(body.value.user)
    ensures r == Some(NoEntry) <==> body.None?
    ensures r == Some(StressOutOfRange) ==> HasText(body.value.description)
    ensures r == Some(NoUser) ==> body.value.stressLevel.Some? && 1 <= body.value.stressLevel.value <= 10
  {
    if body.None? then Some(NoEntry)
    else
      var e := body.value;
      if !HasText(e.description) then Some(NoDescription)
      else if e.stressLevel.None? || e.stressLevel.value < 1 || e.stressLevel.value > 10 then Some(StressOutOfRange)
      else if !HasUserId(e.user) then Some(NoUser)
      else None
  }

  /** The stress level must lie in 1..10 inclusive: both ends pass, their
      neighbours do not. */
  lemma StressBounds(e: MoodEntry, level: int)
    requires HasText(e.description) && HasUserId(e.user)
    ensures SubmitCheck(Some(e.(stressLevel := Some(level)))).None? <==> 1 <= level <= 10
    ensures SubmitCheck(Some(e.(stressLevel := None))) == Some(StressOutOfRange)
  {
  }

  /** A description of only whitespace counts as missing. */
  lemma WhitespaceDescriptionRefused(e: MoodEntry, d: string)
    requires forall i :: 0 <= i < |d| ==> d[i] <= ' '
    ensures SubmitCheck(Some(e.(description := Some(d)))) == Some(NoDescription)
  {
    BlankIffAllSpace(d);
  }

  /** `submitMoodEntry`: the checks, then save and analyse the saved entry;
      201 with the analysis, 500 when either step throws. */
  function SubmitMoodEntry<A, E1, E2>(body: Option<MoodEntry>, save: MoodEntry -> Result<MoodEntry, E1>,
                                      analyze: MoodEntry -> Result<A, E2>): (r: Handled<A, MoodEntry>)
    ensures r.response.status == BadRequest400 <==> SubmitCheck(body).Some?
    ensures r.response.status == Created201 <==>
      SubmitCheck(body).None? && save(body.value).Ok? && analyze(save(body.value).value).Ok?
    ensures r.response.status == Created201 ==> r.response.body == Some(analyze(save(body.value).value).value)
    ensures r.response.status != Created201 ==> r.response.body.None?
    ensures r.response.status in {BadRequest400, Created201, ServerError500}
    ensures r.served.Some? <==> SubmitCheck(body).None?
  {
    var run := (e: MoodEntry) =>
      match save(e)
      case Err(_) => Err(())
      case Ok(saved) => (match analyze(saved) case Ok(a) => Ok(a) case Err(_) => Err(()));
    Respond(SubmitCheck(body).Some?, if body.Some? then body.value else DefaultEntry, run, Created201)
  }

  /** A placeholder entry for the refused null body (never served). */
  const DefaultEntry: MoodEntry :=
    MoodEntry(None, None, None, None, None, None, None, false, false, None, None, None)

  /** With the analysis service of this model: a valid entry submitted while
      the model key is unset answers 500 and saves no analysis. */
  lemma SubmitWithoutKeyFails(e: MoodEntry, save: MoodEntry -> Result<MoodEntry, ()>,
                              cfg: SingleAnalysis.ServiceConfig, reply: SingleAnalysis.HttpReply, parse: JsonValue.Parser,
                              tags: SingleAnalysis.TagStore, analyses: SingleAnalysis.AnalysisStore)
    requires SubmitCheck(Some(e)).None? && save(e).Ok? && !SingleAnalysis.KeyPresent(cfg.apiKey)
    ensures SubmitMoodEntry(Some(e), save, (m: MoodEntry) => SingleAnalysis.AnalyzeMood(cfg, m, reply, parse, tags, analyses).result).response
      == Response(ServerError500, None)
    ensures SingleAnalysis.AnalyzeMood(cfg, save(e).value, reply, parse, tags, analyses).analyses == analyses
  {
  }

  /** `getRecommendedPosts`: a null or empty tag list is refused; otherwise
      200 with the posts found, or 500. */
  function RecommendedPosts<P, E>(tags: Option<seq<string>>, find: seq<string> -> Result<seq<P>, E>): (r: Handled<seq<P>, seq<string>>)
    ensures r.response.status == BadRequest400 <==> tags.None? || |tags.value| == 0
    ensures r.response.status == Ok200 <==> tags.Some? && |tags.value| > 0 && find(tags.value).Ok?
    ensures r.response.status == Ok200 ==> r.response.body == Some(find(tags.value).value)
    ensures r.response.status != Ok200 ==> r.response.body.None?
    ensures r.served.Some? ==> r.served == tags
  {
    Respond(tags.None? || |tags.value| == 0, if tags.Some? then tags.value else [], find, Ok200)
  }

  // --------------------------------------------------------------- comments

  /** A reference to a post, by id. */
  datatype PostRef = PostRef(id: Option<int>)

  /** The fields of a comment body the checks read. */
  datatype CommentBody = CommentBody(post: Option<PostRef>, commenter: Option<UserRef>, content: Option<string>)

  datatype CommentRefusal = NoComment | NoPost | NoCommenter | NoContent

  function CommentCheck(body: Option<CommentBody>): (r: Option<CommentRefusal>)
    ensures r.None? <==>
      && body.Some?
      && body.value.post.Some? && body.value.post.value.id.Some?
      && HasUserId(body.value.commenter)
      && HasText(body.value.content)
    ensures r == Some(NoComment) <==> body.None?
    ensures r == Some(NoContent) ==> body.value.post.Some? && HasUserId(body.value.commenter)
  {
    if body.None? then Some(NoComment)
    else
      var c := body.value;
      if c.post.None? || c.post.value.id.None? then Some(NoPost)
      else if !HasUserId(c.commenter) then Some(NoCommenter)
      else if !HasText(c.content) then Some(NoContent)
      else None
  }

  /** `createComment`: the checks, then 201 with the saved comment or 500. */
  function CreateComment<C, E>(body: Option<CommentBody>, create: CommentBody -> Result<C, E>): (r: Handled<C, CommentBody>)
    ensures r.response.status == BadRequest400 <==> CommentCheck(body).Some?
    ensures r.response.status == Created201 <==> CommentCheck(body).None? && create(body.value).Ok?
    ensures r.response.status == Created201 ==> r.response.body == Some(create(body.value).value)
    ensures r.response.status != Created201 ==> r.response.body.None?
    ensures r.served.Some? ==> body.Some? && r.served == body
  {
    Respond(CommentCheck(body).Some?, if body.Some? then body.value else CommentBody(None, None, None), create, Created201)
  }

  // ------------------------------------------------------------------ posts

  /** The fields of a post body the checks read. */
  datatype PostBody = PostBody(title: Option<string>, author: Option<UserRef>)

  datatype PostRefusal = NoPostBody | NoTitle | NoAuthor

  function PostCheck(body: Option<PostBody>): (r: Option<PostRefusal>)
    ensures r.None? <==> body.Some? && HasText(body.value.title) && HasUserId(body.value.author)
    ensures r == Some(NoPostBody) <==> body.None?
    ensures r == Some(NoAuthor) ==> HasText(body.value.title)
  {
    if body.None? then Some(NoPostBody)
    else if !HasText(body.value.title) then Some(NoTitle)
    else if !HasUserId(body.value.author) then Some(NoAuthor)
    else None
  }

  /** `createPost`: the checks, then 201 with the created post or 500; the
      optional image goes to the service with the post. */
  function CreatePost<P, F, E>(body: Option<PostBody>, image: Option<F>,
                               create: (PostBody, Option<F>) -> Result<P, E>): (r: Handled<P, (PostBody, Option<F>)>)
    ensures r.response.status == BadRequest400 <==> PostCheck(body).Some?
    ensures r.response.status == Created201 <==> PostCheck(body).None? && create(body.value, image).Ok?
    ensures r.response.status == Created201 ==> r.response.body == Some(create(body.value, image).value)
    ensures r.response.status != Created201 ==> r.response.body.None?
    ensures r.served.Some? ==> body.Some? && r.served == Some((body.value, image))
  {
    Respond(PostCheck(body).Some?, (if body.Some? then body.value else PostBody(None, None), image),
            (x: (PostBody, Option<F>)) => create(x.0, x.1), Created201)
  }

  /** `getAllPosts`: 200 with the list, or 500. */
  function AllPosts<P, E>(list: Result<seq<P>, E>): (r: Response<seq<P>>)
    ensures r.status == Ok200 <==> list.Ok?
    ensures list.Ok? ==> r.body == Some(list.value)
    ensures list.Err? ==> r == Response(ServerError500, None)
  {
    Respond(false, (), (_: ()) => list, Ok200).response
  }
}
