/** The controller advice (`GlobalExceptionHandler`): how a failed bean
    validation and an insufficient-data refusal become 400 responses. A
    response body is the JSON tree Jackson writes for the handler's maps. */
module ErrorMapping {
  import opened Base
  import opened JsonValue
  import opened Domain
  import ReportPipeline

  /** One error of a binding result: a field error names its field (never
      null); a global error names none. Either may lack a default message. */
  datatype ObjectError =
    | FieldError(field: string, message: Option<string>)
    | GlobalError(message: Option<string>)

  /** A handler's response: the status code and the body. */
  datatype ErrorResponse = ErrorResponse(status: int, body: Json)

  /** What escapes a handler: the cast of a global error to `FieldError`. */
  datatype HandlerFault = ClassCast

  const BadRequest: int := 400
  const ValidationMessage: string := "请求参数错误"
  const InsufficientCode: string := "INSUFFICIENT_DATA"

  /** A possibly-null string as Jackson writes it. */
  function TextOrNull(s: Option<string>): (j: Json)
    ensures s.Some? <==> j.JStr?
    ensures s.Some? ==> j.s == s.value
  {
    match s
    case Some(t) => JStr(t)
    case None => JNull
  }

  predicate AllFieldErrors(errors: seq<ObjectError>) {
    forall i :: 0 <= i < |errors| ==> errors[i].FieldError?
  }

  /** The `errors` map, filled in order with `put`, so a later error of a
      field replaces an earlier one; `None` when some error is not a field
      error (the cast throws). */
  function ErrorsMap(errors: seq<ObjectError>): (r: Option<map<string, Option<string>>>)
    ensures r.Some? <==> AllFieldErrors(errors)
    decreases |errors|
  {
    if |errors| == 0 then Some(map[])
    else
      var last := errors[|errors| - 1];
      match ErrorsMap(errors[..|errors| - 1])
      case None => None
      case Some(m) =>
        if last.GlobalError? then None
        else Some(m[last.field := last.message])
  }

  /** Whether no error after position `i` names the same field. */
  predicate LastOfField(errors: seq<ObjectError>, i: int)
    requires 0 <= i < |errors| && AllFieldErrors(errors)
  {
    forall k :: i < k < |errors| ==> errors[k].field != errors[i].field
  }

  lemma FrontFieldErrors(errors: seq<ObjectError>)
    requires |errors| > 0 && AllFieldErrors(errors)
    ensures AllFieldErrors(errors[..|errors| - 1])
  {
    var front := errors[..|errors| - 1];
    forall i | 0 <= i < |front| ensures front[i].FieldError? {
      assert front[i] == errors[i];
    }
  }

  /** The map has one key per field that has an error. */
  lemma {:induction false} ErrorsMapKeys(errors: seq<ObjectError>)
    requires AllFieldErrors(errors)
    ensures forall f :: f in ErrorsMap(errors).value <==> exists i :: 0 <= i < |errors| && errors[i].field == f
    decreases |errors|
  {
    if |errors| > 0 {
      var n := |errors| - 1;
      var front := errors[..n];
      FrontFieldErrors(errors);
      ErrorsMapKeys(front);
      var m := ErrorsMap(front).value;
      assert ErrorsMap(errors).value == m[errors[n].field := errors[n].message];
      forall f ensures f in ErrorsMap(errors).value <==> exists i :: 0 <= i < |errors| && errors[i].field == f {
        if f in m && f != errors[n].field {
          var i :| 0 <= i < |front| && front[i].field == f;
          assert errors[i] == front[i];
        }
        if exists i :: 0 <= i < |errors| && errors[i].field == f {
          var i :| 0 <= i < |errors| && errors[i].field == f;
          if i < n {
            assert front[i] == errors[i];
          }
        }
      }
    }
  }

  /** Each field keeps the message of its last error. */
  lemma {:induction false} ErrorsMapLastWins(errors: seq<ObjectError>)
    requires AllFieldErrors(errors)
    ensures forall i :: 0 <= i < |errors| && LastOfField(errors, i) ==>
      errors[i].field in ErrorsMap(errors).value && ErrorsMap(errors).value[errors[i].field] == errors[i].message
    decreases |errors|
  {
    if |errors| > 0 {
      var n := |errors| - 1;
      var front := errors[..n];
      FrontFieldErrors(errors);
      ErrorsMapLastWins(front);
      var m := ErrorsMap(front).value;
      assert ErrorsMap(errors).value == m[errors[n].field := errors[n].message];
      forall i | 0 <= i < |errors| && LastOfField(errors, i)
        ensures errors[i].field in ErrorsMap(errors).value && ErrorsMap(errors).value[errors[i].field] == errors[i].message
      {
        if i < n {
          assert front[i] == errors[i];
          assert errors[n].field != errors[i].field;
          assert LastOfField(front, i) by {
            forall k | i < k < |front| ensures front[k].field != front[i].field {
              assert front[k] == errors[k];
            }
          }
        }
      }
    }
  }

  /** `handleValidationExceptions`: 400 with `success` false, the fixed
      message and the field-to-message map (null messages written as null). */
  function HandleValidation(errors: seq<ObjectError>): (r: Result<ErrorResponse, HandlerFault>)
    ensures r.Ok? <==> AllFieldErrors(errors)
    ensures r.Ok? ==> r.value.status == BadRequest && r.value.body.JObj?
    ensures r.Ok? ==> r.value.body.members.Keys == {"success", "message", "errors"}
    ensures r.Ok? ==> Member(r.value.body, "success") == Some(JBool(false))
    ensures r.Ok? ==> Member(r.value.body, "message") == Some(JStr(ValidationMessage))
    ensures r.Ok? ==>
      var e := r.value.body.members["errors"];
      && e.JObj?
      && (forall f :: f in e.members <==> exists i :: 0 <= i < |errors| && errors[i].field == f)
      && (forall i :: 0 <= i < |errors| && LastOfField(errors, i) ==>
            e.members[errors[i].field] == TextOrNull(errors[i].message))
  {
    match ErrorsMap(errors)
    case None => Err(ClassCast)
    case Some(m) =>
      ErrorsMapKeys(errors);
      ErrorsMapLastWins(errors);
      var fields := map f | f in m :: TextOrNull(m[f]);
      Ok(ErrorResponse(BadRequest, JObj(map["success" := JBool(false), "message" := JStr(ValidationMessage), "errors" := JObj(fields)])))
  }

  /** `handleInsufficientDataException`: 400 with `success` false and an
      `error` object holding the code, the exception's message and both day
      counts. */
  function HandleInsufficient(ex: InsufficientDataException): (r: ErrorResponse)
    ensures r.status == BadRequest && r.body.JObj?
    ensures r.body.members.Keys == {"success", "error"}
    ensures Member(r.body, "success") == Some(JBool(false))
  {
    var details := JObj(map["requiredDays" := IntNumber(ex.requiredDays), "availableDays" := IntNumber(ex.availableDays)]);
    var error := JObj(map["code" := JStr(InsufficientCode), "message" := TextOrNull(ex.message), "details" := details]);
    ErrorResponse(BadRequest, JObj(map["success" := JBool(false), "error" := error]))
  }

  /** The `error` object of an insufficient-data response. */
  function ErrorObject(r: ErrorResponse): Option<Json> {
    AsObject(Member(r.body, "error"))
  }

  /** A client reading the response gets back the code, the message and
      both day counts the exception carried. */
  lemma InsufficientReadsBack(ex: InsufficientDataException)
    ensures var e := ErrorObject(HandleInsufficient(ex));
      && e.Some?
      && Member(e.value, "code") == Some(JStr(InsufficientCode))
      && Member(e.value, "message") == Some(TextOrNull(ex.message))
      && var d := Member(e.value, "details");
      && d.Some? && d.value.JObj?
      && IntOf(d.value.members["requiredDays"]) == Some(ex.requiredDays)
      && IntOf(d.value.members["availableDays"]) == Some(ex.availableDays)
  {
    IntOfIntNumber(ex.requiredDays);
    IntOfIntNumber(ex.availableDays);
  }

  /** Two insufficient-data responses are equal only when the exceptions are:
      nothing the exception carries is lost. */
  lemma InsufficientResponseInjective(a: InsufficientDataException, b: InsufficientDataException)
    requires HandleInsufficient(a) == HandleInsufficient(b)
    ensures a == b
  {
    InsufficientReadsBack(a);
    InsufficientReadsBack(b);
    assert TextOrNull(a.message) == TextOrNull(b.message);
  }

  /** A report refused for lack of data reaches the client as a 400 naming
      three required days and the number of entries found. */
  lemma GateRefusalResponse(moods: seq<MoodEntry>)
    requires |moods| < ReportPipeline.RequiredDays
    ensures var e := ErrorObject(HandleInsufficient(ReportPipeline.ValidateMoodData(moods).value));
      && HandleInsufficient(ReportPipeline.ValidateMoodData(moods).value).status == BadRequest
      && e.Some?
      && Member(e.value, "message") == Some(JStr(ReportPipeline.InsufficientMessage))
      && IntOf(Member(e.value, "details").value.members["requiredDays"]) == Some(3)
      && IntOf(Member(e.value, "details").value.members["availableDays"]) == Some(|moods|)
  {
    InsufficientReadsBack(ReportPipeline.ValidateMoodData(moods).value);
  }
}
