# MoodTrack core, modelled in Dafny

MoodTrack is a Spring Boot mood journal. Users log moods, get an AI analysis of
a single entry, request a weekly AI report, and share posts and comments. This
project models the parts of the backend that make decisions:

- **Weekly report pipeline** (`AnalysisReportService`, `GeminiAPIService`,
  `AiAnalysis`, `AIAnalysisRequest`). The stages run in this order:
  1. request defaults;
  2. the record-time window;
  3. the three-entry sufficiency gate;
  4. the numeric summary;
  5. the prompt, request body and URL;
  6. status classification;
  7. the declared retry policy;
  8. reading the reply;
  9. building and storing the record;
  10. the response.
- **Single-entry analysis** (`AiAnalysisServiceImpl`):
  - the key check and the request;
  - exact-200 status handling;
  - fence cleaning;
  - two-strategy parsing, envelope first and top-level second;
  - tag find-or-create;
  - re-wrapping of every failure.
- **Error responses** (`GlobalExceptionHandler`): the validation and
  insufficient-data handlers, with their JSON bodies.
- **Mood listing and creation** (`MoodEntryServiceImpl`): the conjunctive
  filter, paging, the 1-based pagination block, conversion to responses, and
  `createMood`.
- **Authentication**:
  - the bearer-token filter (`JwtRequestFilter`);
  - token claims, expiry and validation (`JwtUtil`);
  - username-then-email login lookup (`MyUserDetailsService`);
  - the Google login's find, link or create state machine
    (`CustomOAuth2UserService`).
- **Controller checks** (`MoodController`, `CommentController`,
  `PostController`): the ordered field checks that answer 400, then the
  service call that answers 201 or 200, or 500 when it throws.

Everything is a pure function over immutable datatypes:

- Stores (reports, tags, analyses, users, mood entries) are sequences or maps
  with a next-identity counter.
- The outside world is a set of parameters:
  - today's date and the current instant;
  - the endpoint's successive replies;
  - the random report id;
  - the JSON parser (`string -> Option<Json>`);
  - the JWT codec;
  - the ISO time parser.
- Java semantics that matter are written out:
  - `String.trim` drops every char `<= ' '`;
  - `replace` works left to right and does not overlap;
  - `null` renders as `"null"` in `String.format`;
  - `Date.before` is a strict comparison;
  - jjwt drops milliseconds from token times;
  - Spring's `PageImpl` page arithmetic;
  - a derived query given a null argument becomes an `IS NULL` query.

Modules, one per file:

| module | file |
|---|---|
| `Base` | base.dfy |
| `Text` | text.dfy |
| `Numerals` | numerals.dfy |
| `JsonValue` | json.dfy |
| `Domain` | domain.dfy |
| `AnalysisRequestDto` | request.dfy |
| `Gemini` | gemini.dfy |
| `ReportPipeline` | report.dfy |
| `SingleAnalysis` | single_analysis.dfy |
| `ErrorMapping` | errors.dfy |
| `MoodQuery` | moods.dfy |
| `Users` | users.dfy |
| `Jwt` | jwt.dfy |
| `AuthFilter` | auth_filter.dfy |
| `Controllers` | controllers.dfy |

Where the entity classes disagree with the services that use them, the model
follows the services:

- `MoodEntry` is given an emotion type and triggers.
- `User` is given a Google id.
- The repositories are given `findByEmail`, `findByGoogleId` and
  `findByUserIdAndRecordTimeBetween`.
- The pagination block uses the entity's camelCase fields. The service calls
  snake_case setters that the DTO does not declare.

## Model

| member | source | states |
|---|---|---|
| ReportPipeline.ProcessRequest | src/main/java/org/example/service/AnalysisReportService.java:58-69 | A missing range becomes an empty one. A missing end date becomes today. A missing start date becomes the end date minus six days. Supplied dates, the analysis type and the preferences are kept. |
| ReportPipeline.ProcessRequestIdempotent | src/main/java/org/example/service/AnalysisReportService.java:58-69 | Processing an already processed request again, on any later day, changes nothing. |
| ReportPipeline.QueryWindow | src/main/java/org/example/service/AnalysisReportService.java:71-73 | The window starts at the start date's first instant and spans end − start + 1 whole days, up to the first instant after the end date. |
| ReportPipeline.GetMoodData | src/main/java/org/example/service/AnalysisReportService.java:71-73 | An entry is fetched iff it belongs to the user and its record time lies in the window, both ends included. |
| ReportPipeline.DefaultWindowIsSevenDays | src/main/java/org/example/service/AnalysisReportService.java:58-73 | Without a date range, the window is the seven days ending today, closed at tomorrow's first instant. |
| ReportPipeline.ValidateMoodData | src/main/java/org/example/service/AnalysisReportService.java:75-79 | It throws iff there are fewer than 3 entries. The exception carries the fixed message, required = 3 and available = the entry count. |
| ReportPipeline.Preprocess | src/main/java/org/example/service/AnalysisReportService.java:81-87 | totalEntries is the entry count and averageScore × count is the sum of the emotion ordinals. An entry without an emotion throws. |
| ReportPipeline.MeanWithinOrdinals | src/main/java/org/example/service/AnalysisReportService.java:81-87 | The mean lies between 0 and the largest ordinal present. |
| ReportPipeline.ReadSection | src/main/java/org/example/service/AnalysisReportService.java:49 | A section reads as null when absent or JSON null, as its subtree when that fits the section type, and fails otherwise. |
| ReportPipeline.ReadAnalysisResult | src/main/java/org/example/service/AnalysisReportService.java:48-55 | The raw body is read with no unwrapping. Every failure is "Failed to parse AI response". A JSON null gives a null result. Otherwise the four sections are the object's members. |
| ReportPipeline.BuildRecord | src/main/java/org/example/service/AnalysisReportService.java:89-103 | The type is read before the result. A null analysis type throws. An upper-cased name that is not an `AnalysisType` constant is rejected by `valueOf`. Only then does a null result throw. The record is built iff the type is known and the result non-null. It copies the user, report id, processed dates and four sections, with dataPoints = totalEntries, confidence 0.85 and cost 0.024. |
| ReportPipeline.ConstantsFitTheirColumns | src/main/java/org/example/model/AiAnalysis.java:40-76 | 0.85 fits `@Digits(1,2)` and lies in [0,1], and 0.024 fits `@Digits(4,4)`. The builder's default type is WEEKLY. |
| ReportPipeline.Save | src/main/java/org/example/model/AiAnalysis.java:30-84 | A record is stored iff its non-null columns are set, both decimals fit their digits and its report id is new. It then gets the next id and both timestamps and is appended. |
| ReportPipeline.SavePreservesValid | src/main/java/org/example/model/AiAnalysis.java:34-76 | Saving keeps every row within the column constraints and every report id unique. |
| ReportPipeline.ConvertToResponse | src/main/java/org/example/service/AnalysisReportService.java:107-127 | The response carries the stored report id, creation time, four sections, data points, confidence and cost unchanged. |
| ReportPipeline.GenerateAnalysis | src/main/java/org/example/service/AnalysisReportService.java:40-56 | At most the policy's number of model calls are made. A failed run leaves the store as it was. A successful run calls the model and adds exactly one row. When it succeeds is stated by `RunSucceedsIff`. |
| ReportPipeline.RecordStoredIff | src/main/java/org/example/service/AnalysisReportService.java:89-104 | The record is both built and stored iff the result is non-null with all four sections, the type names a constant and the report id is new. |
| ReportPipeline.RunSucceedsIff | src/main/java/org/example/service/AnalysisReportService.java:40-56 | A run succeeds iff: at least 3 entries, each with an emotion; the model eventually answers; the answer reads as a non-null result with every section; the type names a constant; and the random report id is new. |
| ReportPipeline.DefaultTypeIsWeekly | src/main/java/org/example/service/AnalysisReportService.java:93 | The default type "weekly" upper-cases to "WEEKLY", so it passes the type lookup whenever WEEKLY is a declared type. |
| ReportPipeline.NullReplyReportsTypeFirst | src/main/java/org/example/service/AnalysisReportService.java:49-96 | A JSON `null` reply with an unknown analysis type fails on the type (line 93), not on the null result (line 96). |
| ReportPipeline.GateBeforeModel | src/main/java/org/example/service/AnalysisReportService.java:40-46 | With fewer than 3 entries the run throws the insufficiency exception, makes no model call and stores nothing. |
| ReportPipeline.UnreadableReplyIsNotSaved | src/main/java/org/example/service/AnalysisReportService.java:46-55 | If no reply parses, nothing is stored. Once the model was called, the run fails with the parse message or the model failure. |
| ReportPipeline.EnvelopeReadsEmpty | src/main/java/org/example/service/AnalysisReportService.java:49 | An object without the four section keys reads as a result whose sections are all null. |
| ReportPipeline.EmptyResultNotSaved | src/main/java/org/example/service/AnalysisReportService.java:89-104 | A record built from a result without sections is always refused by the store. |
| ReportPipeline.EnvelopeReplyIsRefused | src/main/java/org/example/service/AnalysisReportService.java:46-55 | The report path does not unwrap a reply in the model's `candidates` envelope, so such a reply fails the run and nothing is stored. |
| ReportPipeline.SuccessfulRun | src/main/java/org/example/service/AnalysisReportService.java:40-56 | A successful run appends one record. It has a fresh report id, the user, the processed dates, dataPoints = the selected count (at least 3) and the fixed confidence and cost. The response shows this record and the store stays valid. |
| AnalysisRequestDto.BindRequest | src/main/java/org/example/dto/AIAnalysisRequest.java:18-28 | Only an object binds. A missing property keeps its declared default, and unknown properties are ignored. |
| AnalysisRequestDto.EmptyBodyIsDefault | src/main/java/org/example/dto/AIAnalysisRequest.java:21-51 | `{}` binds to type "weekly", an empty date range, and preferences "zh-CN", "detailed" and no focus areas. |
| Gemini.AnalysisTemplateDelimitsCount | src/main/java/org/example/service/GeminiAPIService.java:71-72 | In the report prompt, a non-digit follows the entry count. |
| Gemini.SlotsOf | src/main/java/org/example/service/GeminiAPIService.java:116 | Filling fails iff the preferences or focus areas are null. Otherwise it gives language and depth (null shown as "null") and the focus areas joined by ", " (empty for none). The count reads back as totalEntries, then comes the rendered average. |
| Gemini.PromptDeterminesTotal | src/main/java/org/example/service/GeminiAPIService.java:63-116 | Equal prompts built from the same preferences and average come from the same entry count. |
| Gemini.WrapPrompt | src/main/java/org/example/service/GeminiAPIService.java:37-40 | The body is the fixed head, the prompt with every `"` escaped, then the tail. Unescaping the middle gives the prompt back, and the length grows by one per quote. |
| Gemini.RequestUrl | src/main/java/org/example/service/GeminiAPIService.java:47 | The URL is the endpoint, then `?key=`, then the key (`null` when unset). |
| Gemini.RequestUrlDeterminesKey | src/main/java/org/example/service/GeminiAPIService.java:47 | Two URLs for one endpoint are equal iff the keys render alike. So an unset key gives the same URL as the key "null". |
| Gemini.Classify | src/main/java/org/example/service/GeminiAPIService.java:51-60 | A reply succeeds iff its status is 2xx and its body is non-null, and then yields that body. Every failure carries "AI分析服务暂时不可用". |
| Gemini.Invoke | src/main/java/org/example/service/GeminiAPIService.java:33-60 | No request is sent iff the prompt cannot be built. The sent request is the URL and wrapped prompt. The invocation succeeds iff a request was sent and the reply classifies as success. |
| Gemini.RetryFrom | src/main/java/org/example/service/GeminiAPIService.java:32 | From attempt i on, the run stops at the first success or at the last allowed attempt. Every earlier attempt failed. The pauses total delay × the extra attempts. |
| Gemini.Retry | src/main/java/org/example/service/GeminiAPIService.java:32 | The run succeeds iff some allowed attempt succeeds, and it returns the first success. A failure uses all attempts. It waits delay × (attempts − 1). |
| Gemini.Outcomes | src/main/java/org/example/service/GeminiAPIService.java:32-60 | One outcome per allowed attempt, each the invocation of that attempt's reply. |
| Gemini.SomeOutcomeSucceeds | src/main/java/org/example/service/GeminiAPIService.java:32-60 | Some attempt succeeds iff the prompt builds and some allowed reply classifies as success. |
| Gemini.CallModel | src/main/java/org/example/service/GeminiAPIService.java:32-60 | It succeeds iff the prompt builds and some allowed reply classifies as success. A success is the classified reply of the last attempt, and every earlier attempt failed. A failure made every allowed attempt and carries the unavailable message. It waits delay × (attempts − 1). |
| Gemini.CallModelReturnsAReply | src/main/java/org/example/service/GeminiAPIService.java:51-60 | A successful call returns the body of the reply to its last attempt, which was answered. |
| Gemini.FailTwiceThenSucceed | src/main/java/org/example/service/GeminiAPIService.java:32 | Under the declared policy (3 attempts, 1000 ms), two failures and a success end after three attempts and 2000 ms, with the body a first-time success returns. |
| Gemini.ThreeFailures | src/main/java/org/example/service/GeminiAPIService.java:32 | Under the declared policy, three failures make exactly three attempts and rethrow the unavailable failure. |
| SingleAnalysis.BuildPrompt | src/main/java/org/example/service/AiAnalysisServiceImpl.java:171-188 | The prompt opens with the fixed head, the description and the stress label. The stress text, the physical-state label and the physical state then sit at stated positions, in that order. The prompt ends with the fixed format instructions. Nulls show as "null". |
| SingleAnalysis.StressTextReadsBack | src/main/java/org/example/service/AiAnalysisServiceImpl.java:176-185 | A known stress level's slot in the prompt reads back as the level. |
| SingleAnalysis.EntryRequest | src/main/java/org/example/service/AiAnalysisServiceImpl.java:94-107 | The URL is the gemini-pro endpoint with the key. The body is the fixed head, the quote-escaped prompt, then the generation-config tail, and it unescapes back to the prompt. |
| SingleAnalysis.StatusFailure | src/main/java/org/example/service/AiAnalysisServiceImpl.java:115-130 | The message opens with the status-specific text for 400, 401, 429 and 500 and the generic text for any other status. The status and body follow. |
| SingleAnalysis.StatusDetailNamesStatus | src/main/java/org/example/service/AiAnalysisServiceImpl.java:116 | The status detail determines both the status and the body it was built from. |
| SingleAnalysis.RemovalLeavesNoFence | src/main/java/org/example/service/AiAnalysisServiceImpl.java:203 | Replacing every "```" from left to right leaves no "```". |
| SingleAnalysis.CleanHasNoFence | src/main/java/org/example/service/AiAnalysisServiceImpl.java:203 | A cleaned reply contains no code fence. |
| SingleAnalysis.CleanIdempotent | src/main/java/org/example/service/AiAnalysisServiceImpl.java:203 | Cleaning twice is the same as cleaning once. |
| SingleAnalysis.CleanUnwrapsFencedReply | src/main/java/org/example/service/AiAnalysisServiceImpl.java:202-203 | A reply wrapped as ```` ```json … ``` ```` (content without backticks) cleans to its trimmed content. |
| SingleAnalysis.ParseObject | src/main/java/org/example/service/AiAnalysisServiceImpl.java:206 | The cleaned text yields a document iff it parses to a JSON object. |
| SingleAnalysis.ReadFields | src/main/java/org/example/service/AiAnalysisServiceImpl.java:228-238 | Fields are read iff analysisText and suggestion are present and readable as text and matchedTags binds as a list. The tags are that binding. |
| SingleAnalysis.ParseAnalysis | src/main/java/org/example/service/AiAnalysisServiceImpl.java:201-243 | A cleaned reply that is not an object fails. Otherwise the envelope's inner fields are used when readable, else the top-level fields. |
| SingleAnalysis.EnvelopeFirst | src/main/java/org/example/service/AiAnalysisServiceImpl.java:215-231 | When the envelope's text holds readable fields, the top level is never consulted. |
| SingleAnalysis.TopLevelFallback | src/main/java/org/example/service/AiAnalysisServiceImpl.java:232-243 | A reply without a `candidates` array is read from its top level. |
| SingleAnalysis.TagNames | src/main/java/org/example/service/AiAnalysisServiceImpl.java:254-255 | The tag list yields names iff every item is a JSON string, one name per item in order. |
| SingleAnalysis.FindOrCreate | src/main/java/org/example/service/AiAnalysisServiceImpl.java:255-260 | A stored name yields its tag and changes nothing. A new name gets the next id and is added. |
| SingleAnalysis.ResolveKeys | src/main/java/org/example/service/AiAnalysisServiceImpl.java:254-261 | One tag per key, in order, each the stored tag of its key. Existing tags keep their ids and the next id never decreases. |
| SingleAnalysis.ResolveTags | src/main/java/org/example/service/AiAnalysisServiceImpl.java:254-261 | One tag per reply name, in order, named by the trimmed name and stored under it. Existing tags are reused unchanged. |
| SingleAnalysis.ResolveKeysAddsOnlyKeys | src/main/java/org/example/service/AiAnalysisServiceImpl.java:254-261 | Resolving adds no name other than the keys resolved. |
| SingleAnalysis.ResolveKeysFreshIds | src/main/java/org/example/service/AiAnalysisServiceImpl.java:256-259 | Every tag created while resolving has an id from the fresh range. |
| SingleAnalysis.FindOrCreatePreservesValid | src/main/java/org/example/model/Tag.java:21-30 | Find-or-create keeps tag ids below the counter and unique. |
| SingleAnalysis.ResolveKeysPreservesValid | src/main/java/org/example/model/Tag.java:21-30 | Resolving a whole list keeps tag ids below the counter and unique. |
| SingleAnalysis.ResolveTagsAddsOnlyInputs | src/main/java/org/example/service/AiAnalysisServiceImpl.java:254-261 | Each tag the reply creates is named by some trimmed reply name and has a fresh id. |
| SingleAnalysis.SameNameSameTag | src/main/java/org/example/service/AiAnalysisServiceImpl.java:254-261 | Names equal after trimming resolve to the same tag, so no tag is created twice. |
| SingleAnalysis.AnalyzeMood | src/main/java/org/example/service/AiAnalysisServiceImpl.java:76-159 | See the breakdown after this table. |
| SingleAnalysis.SavedTagsFollowReply | src/main/java/org/example/service/AiAnalysisServiceImpl.java:246-266 | The saved analysis has one tag per reply name, in order, named by the trimmed name. A stored name reuses its id, and tag validity is kept. |
| ErrorMapping.ErrorsMap | src/main/java/org/example/config/GlobalExceptionHandler.java:21-26 | The field map exists iff every error is a field error; a global error makes the cast throw. |
| ErrorMapping.ErrorsMapKeys | src/main/java/org/example/config/GlobalExceptionHandler.java:21-26 | The map's keys are exactly the fields that have an error. |
| ErrorMapping.ErrorsMapLastWins | src/main/java/org/example/config/GlobalExceptionHandler.java:21-26 | Each field maps to the message of its last error. |
| ErrorMapping.HandleValidation | src/main/java/org/example/config/GlobalExceptionHandler.java:18-34 | See the breakdown after this table. |
| ErrorMapping.HandleInsufficient | src/main/java/org/example/config/GlobalExceptionHandler.java:36-53 | The response is 400 with exactly `success` (false) and `error`. |
| ErrorMapping.InsufficientReadsBack | src/main/java/org/example/config/GlobalExceptionHandler.java:38-50 | The error object gives back the code INSUFFICIENT_DATA, the exception's message and both day counts as integers. |
| ErrorMapping.InsufficientResponseInjective | src/main/java/org/example/config/GlobalExceptionHandler.java:38-52 | Equal responses come only from equal exceptions: nothing the exception carries is lost. |
| ErrorMapping.GateRefusalResponse | src/main/java/org/example/config/GlobalExceptionHandler.java:36-53 | A report refused by the gate reaches the client as 400, with the gate's message, requiredDays 3 and availableDays = the entry count. |
| MoodQuery.Query | src/main/java/org/example/service/MoodEntryServiceImpl.java:33-46 | An entry is listed iff it matches every constraint: the owner, plus each bound and the emotion when given. |
| MoodQuery.OwnerOnlyListsOwnEntries | src/main/java/org/example/service/MoodEntryServiceImpl.java:35 | With no optional constraint, an entry is listed iff it belongs to the user. |
| MoodQuery.ConstraintsOnlyNarrow | src/main/java/org/example/service/MoodEntryServiceImpl.java:33-46 | Dropping any optional constraint never loses a match. |
| MoodQuery.OneDayQuery | src/main/java/org/example/service/MoodEntryServiceImpl.java:36-41 | With start = end = d, an owned entry is listed iff recorded from 00:00:00.000 to 23:59:59.000 of d, and so before the next day. |
| MoodQuery.FinalSecondIsNotListed | src/main/java/org/example/service/MoodEntryServiceImpl.java:39-41 | An entry recorded at 23:59:59.5 on the end date is excluded, though it lies on that day. |
| MoodQuery.Slice | src/main/java/org/example/service/MoodEntryServiceImpl.java:48 | A page is the contiguous run of at most `size` matches starting at `lo`, empty past the end. |
| MoodQuery.FindAll | src/main/java/org/example/service/MoodEntryServiceImpl.java:48 | The page holds at most `size` matching entries, namely matches number×size onward. It reports the request's number and size and the total match count. |
| MoodQuery.HasNextIffMoreMatches | src/main/java/org/example/service/MoodEntryServiceImpl.java:56 | A next page exists iff (number + 1) × size is below the total. |
| MoodQuery.Pagination | src/main/java/org/example/service/MoodEntryServiceImpl.java:51-57 | The current page is number + 1. Size, count, pages and has-next are copied. has-prev holds iff the current page is above 1. |
| MoodQuery.ConvertToResponse | src/main/java/org/example/service/MoodEntryServiceImpl.java:79-90 | Conversion succeeds iff the entry has a user and an emotion. It copies the fields, and the emotion type is the enum name. |
| MoodQuery.ConvertAll | src/main/java/org/example/service/MoodEntryServiceImpl.java:49 | Conversion keeps length and order, and it fails iff some entry fails. |
| MoodQuery.GetMoods | src/main/java/org/example/service/MoodEntryServiceImpl.java:31-64 | A page with an unconvertible entry throws. Otherwise the i-th response converts the page's i-th match, so length and order are kept. The pagination block is the page's own (page number + 1, size, total, pages, has-next, has-prev). |
| MoodQuery.CreateMood | src/main/java/org/example/service/MoodEntryServiceImpl.java:66-77 | It throws iff a record time is given that does not parse. The new entry copies the request fields, gets the next id and the given user, and is appended. Its record time is the parsed time, or now. |
| MoodQuery.CreatedEntryIsListed | src/main/java/org/example/service/MoodEntryServiceImpl.java:66-77 | A created entry appears in its owner's listing, and in the one-day listing of its day when recorded before 23:59:59. |
| Users.FindsTheOnlyUsername | src/main/java/org/example/model/User.java:29-30 | With unique usernames, finding a stored username returns its row. |
| Users.FindsTheOnlyEmail | src/main/java/org/example/model/User.java:36-37 | With unique emails, finding a stored email returns its row. |
| Users.FindsTheOnlyGoogleId | src/main/java/org/example/service/UserServiceImpl.java:92-99 | With unique Google ids, finding a stored Google id returns its row. |
| Users.Details | src/main/java/org/example/service/MyUserDetailsService.java:51 | Details are built iff the username is non-null and non-empty and the password is non-null. They carry both, with no authorities. |
| Users.LoadUserByUsername | src/main/java/org/example/service/MyUserDetailsService.java:39-52 | A username match is used first and an email match only when there is none. It fails with "未找到用户: " + input iff neither matches. Authorities are empty. |
| Users.EmailLoginGivesStoredName | src/main/java/org/example/service/MyUserDetailsService.java:45-51 | Logging in by email yields the stored username and password, not the text typed. |
| Users.UsernameBeforeEmail | src/main/java/org/example/service/MyUserDetailsService.java:42-47 | When the input is one user's name and another's email, the username owner wins. |
| Users.Save | src/main/java/org/example/service/UserServiceImpl.java:127-139 | It fails iff a non-null column is missing or the username or email is taken by another row. An insert fails inside the `try` with "保存或更新用户失败。". An update is flushed at commit, after the `try`, so it fails without that message. A new user is appended with the next id. A stored user replaces its row. |
| Users.LoadUser | src/main/java/org/example/service/CustomOAuth2UserService.java:50-95 | See the breakdown after this table. |
| Users.ReplaceKeepsValid | src/main/java/org/example/model/User.java:21-50 | Replacing a row by one with the same id, no clash and no shared Google id keeps the store valid. |
| Users.AppendKeepsValid | src/main/java/org/example/model/User.java:21-50 | Appending a clash-free row with the next id keeps the store valid. |
| Users.FirstLoginCreates | src/main/java/org/example/service/CustomOAuth2UserService.java:63-77 | In a valid store, a first login whose Google id, email and display name are all new takes the create branch, succeeds, and appends exactly the new user. |
| Users.ReturningLoginRefreshes | src/main/java/org/example/service/CustomOAuth2UserService.java:84-90 | A returning Google user whose new email and display name clash with no other row succeeds. Their row gets the new email and display name in place, and no other row changes. |
| Users.LinkingSucceeds | src/main/java/org/example/service/CustomOAuth2UserService.java:63-83 | In a valid store, an unknown Google id with a stored email takes the link branch and succeeds. That row gains the Google id in place, and no other row changes. |
| Users.RenameClashFailsAtCommit | src/main/java/org/example/service/CustomOAuth2UserService.java:63-90 | A returning Google user whose new display name is another user's username fails at commit, without the save message. |
| Users.LoadUserKeepsValid | src/main/java/org/example/service/CustomOAuth2UserService.java:63-90 | A Google login keeps ids, non-null and unique columns, and one row per Google id. |
| Users.NextLoginRefreshes | src/main/java/org/example/service/CustomOAuth2UserService.java:63-90 | After a login, the Google id finds the returned user, so the next login by the same account takes the refresh branch. |
| Jwt.WholeSeconds | src/main/java/org/example/util/JwtUtil.java:123-124 | A token time loses less than one second on the wire and never grows. |
| Jwt.ParseClaims | src/main/java/org/example/util/JwtUtil.java:86-88 | A token that does not verify is malformed. One whose expiration is before the clock is expired. Otherwise it yields its claims. |
| Jwt.IsTokenExpired | src/main/java/org/example/util/JwtUtil.java:96-98 | The answer is defined iff the expiration is readable and non-null. It is true iff the expiration is strictly before now. A null expiration throws. |
| Jwt.ParsedIsNotExpired | src/main/java/org/example/util/JwtUtil.java:86-98 | A token that parses at an instant is not expired at that instant. |
| Jwt.CreateToken | src/main/java/org/example/util/JwtUtil.java:119-127 | With a faithful codec, the token reads back as the claims, subject, issue time and issue + 10 h, times in whole seconds. |
| Jwt.GenerateToken | src/main/java/org/example/util/JwtUtil.java:106-110 | A generated token has no custom claims and the user's name as subject. |
| Jwt.TokenLifetime | src/main/java/org/example/util/JwtUtil.java:53-55 | A generated token yields its user's name for 10 hours, less the dropped second, and is refused as expired after its expiration. |
| Jwt.ValidateToken | src/main/java/org/example/util/JwtUtil.java:139-142 | True iff the subject equals the user's name and the expiration is non-null and not before now. Another name gives false, a null subject throws, and parse errors propagate. |
| Jwt.FreshTokenValidates | src/main/java/org/example/util/JwtUtil.java:106-142 | A fresh token validates for its user. |
| Jwt.FreshTokenRejectsOtherName | src/main/java/org/example/util/JwtUtil.java:106-142 | A fresh token never validates for a user of another name. |
| AuthFilter.BearerToken | src/main/java/org/example/filter/JwtRequestFilter.java:63-64 | A token is taken iff the header starts with "Bearer ". The header is that prefix followed by the token. |
| AuthFilter.DoFilter | src/main/java/org/example/filter/JwtRequestFilter.java:57-87 | See the breakdown after this table. |
| AuthFilter.FreshTokenAuthenticates | src/main/java/org/example/filter/JwtRequestFilter.java:57-87 | A fresh token for a stored user authenticates that user, with the stored name, password and no authorities, and runs the chain once. |
| AuthFilter.ExpiredTokenIsIgnored | src/main/java/org/example/filter/JwtRequestFilter.java:63-72 | An expired token is swallowed: nothing changes and the chain runs once. |
| Controllers.SubmitCheck | src/main/java/org/example/controller/MoodController.java:70-86 | A submission passes iff the body, a non-blank description, a stress level in 1..10 and a user with an id are all present. The checks apply in that order. |
| Controllers.StressBounds | src/main/java/org/example/controller/MoodController.java:78-81 | With the other fields valid, a submission passes iff 1 ≤ stress ≤ 10. A null stress is refused. |
| Controllers.WhitespaceDescriptionRefused | src/main/java/org/example/controller/MoodController.java:74-77 | A description of only whitespace is refused as missing. |
| Controllers.SubmitMoodEntry | src/main/java/org/example/controller/MoodController.java:67-107 | 400 iff a check fails, and then no service is called. 201 with the analysis iff save and then analysis of the saved entry succeed. Any other outcome is 500 with no body. |
| Controllers.SubmitWithoutKeyFails | src/main/java/org/example/controller/MoodController.java:89-105 | A valid entry submitted while the model key is unset answers 500 and stores no analysis. |
| Controllers.RecommendedPosts | src/main/java/org/example/controller/MoodController.java:122-141 | 400 iff the tag list is null or empty. 200 with the posts found, or 500 when the lookup throws. |
| Controllers.CommentCheck | src/main/java/org/example/controller/CommentController.java:51-67 | A comment passes iff the body, a post with an id, a commenter with an id and non-blank content are all present. The checks apply in that order. |
| Controllers.CreateComment | src/main/java/org/example/controller/CommentController.java:48-77 | 400 iff a check fails, 201 with the created comment iff the service succeeds, else 500 with no body. |
| Controllers.PostCheck | src/main/java/org/example/controller/PostController.java:62-74 | A post passes iff the body, a non-blank title and an author with an id are all present. The checks apply in that order. |
| Controllers.CreatePost | src/main/java/org/example/controller/PostController.java:53-89 | 400 iff a check fails. Otherwise the post and optional image go to the service: 201 with the created post, or 500 with no body. |
| Controllers.AllPosts | src/main/java/org/example/controller/PostController.java:98-107 | 200 with the list iff the service returns one, else 500 with no body. |

The rows marked "see the breakdown" have contracts with many clauses.

`SingleAnalysis.AnalyzeMood`:

- An unset or empty key throws "GEMINI_API_KEY 未设置…" before any request is sent.
- Otherwise the entry's request is sent.
- A 200 reply that parses, with a `matchedTags` list of strings, succeeds. The saved tags and the tag store are those of resolving the listed names.
- A null `matchedTags`, or an item that is not a string, fails with "分析情绪时发生未知错误。".
- I/O errors, interruption and malformed replies each get their own message.
- A non-200 status surfaces as "分析情绪时发生未知错误。", with the status failure as its cause.
- Failure rolls both stores back.
- Success stores one analysis, with the next id, of this entry and of the reply's text and suggestion.

`ErrorMapping.HandleValidation`:

- The handler throws iff some error is a global error.
- Otherwise the response is 400 with exactly `success` (false), `message` ("请求参数错误") and `errors`.
- `errors` has one key per field with an error.
- Each key holds that field's last message, or null.

`Users.LoadUser`:

- It matches by Google id first, which overwrites the email and the username (name, else email).
- It then matches by email, which sets only the Google id.
- Otherwise it creates the user with the Google id, the email, that username, password "" and the login time.
- One save is made, and the row count grows only on creation.
- A successful refresh or link replaces the matched row in place and changes no other row. A successful creation appends the new user.
- A failed creation throws "保存或更新用户失败。". A failed refresh or link fails at commit, without that message.
- The principal's name is the Google id, its authorities are empty and it keeps the attributes.
- A failed save rolls back.

`AuthFilter.DoFilter`:

- The chain runs exactly once unless the filter throws.
- An existing authentication is never replaced.
- A missing token, a missing name or an unparsable token changes nothing.
- A new authentication requires:
  - no existing authentication;
  - a successful user lookup;
  - validation true;
  - the result is the user details, with no credentials and the user's authorities.
- With no existing authentication and a named user:
  - a failed lookup escapes as that failure, and the chain does not run;
  - a validation exception escapes the same way;
  - validation true authenticates the user;
  - validation false leaves the context empty, and the chain runs once.

## Left out

- HTTP transport (`RestTemplate`, `HttpClient`), the Gemini endpoint and thread interruption. Replies are inputs: a status and body, an I/O error or an interruption.
- Spring Retry's proxying and sleeping. The retry combinator counts attempts and the declared delay. No shown configuration enables retry, so the pipeline takes the policy as a parameter.
- JSON syntax (Gson and Jackson lexing). Parsing is a parameter `string -> Option<Json>`. Member access, casts, `getAsString`, null handling and the ignoring of unknown properties are modelled.
- The request body is not claimed to be valid JSON: only quotes are escaped, while newlines and backslashes pass through unchanged.
- Double arithmetic. The mean is a real, and `%.1f` is a rendering parameter.
- The `AnalysisSummary`, `AnalysisPatterns`, `AnalysisRecommendations` and `RiskAssessment` shapes. Each section is kept as a JSON subtree, with a parameter deciding whether it fits the section type.
- UUID generation (the fresh report id is an input) and the wall clock (today, now and each token clock reading are inputs).
- JPA and transactions: stores are sequences or maps with an identity counter. Rollback is modelled by leaving every store unchanged on failure.
- Derived queries that find several rows and throw: the uniqueness invariants exclude them.
- JWT signing, the compact encoding and the secret key. A codec parameter stands in, with `RoundTrips` stating faithfulness. BCrypt and the password encoder are also left out.
- `UserServiceImpl.register` and the `UserServiceImpl` wrappers: the lookups and `save` are modelled directly on the store.
- `AuthController`, `OAuth2LoginSuccessHandler`, `SecurityConfig`, `PasswordEncoderConfig`, `S3Config` and `App`: framework wiring and redirects.
- `FileStorageService`, `PostServiceImpl`, `CommentServiceImpl` and `AIAnalysisController`. Their services appear in the controllers as parameters.
- The upstream OAuth provider call (`super.loadUser`): its result is an input. Attributes are simplified to a string-to-string map.
- `URI.create` validation of the key and the request headers.
- `String.toUpperCase` beyond ASCII letters: only `a`–`z` are mapped.
- Logging, and the web details attached to an authentication.
- `MoodController` calls `moodEntryService.submitMoodEntry`, which the service interface does not declare. The save is a parameter of `SubmitMoodEntry`.
- `createMood` never sets the stress level, although that column is declared non-null. The model stores the entry as built, without the column check.
- The setters `AiAnalysisServiceImpl` calls (`setMoodEntry`, `setAnalysisText`, `setSuggestion`, `setMatchedTags`) do not exist on `AiAnalysis`. The single-entry result is modelled as its own record, `EntryAnalysis`.
- Gemini.SlotsOf: states the joined focus text exactly only for zero or one focus area. Longer lists are joined by `Text.Join`, and only the length of that join is proved (`Text.JoinLength`).
- Jwt.TokenLifetime: the fresh bound is stated for clock readings at least a second before the expiration. Readings inside the final second depend on where the issue instant falls within its second.
