/** The error envelope (common/filters/global-exception.filter.ts).

    Every exception a handler throws becomes `{success: false, message,
    statusCode, timestamp, path}`, with `details` attached when there are
    any. HTTP exceptions keep their status and say what they carry; any
    other error is reported as a bare 500 whose text stays in the log.
 */
module ExceptionFilter {
  import opened Wrappers
  import opened Json
  import opened Interceptor

  /** What reaches `catch`: an `HttpException` with its status and
      `getResponse()` (a string or an object), or anything else. */
  datatype Exception = HttpException(status: int, response: Json) | OtherError(text: string)

  /** The status, message and details `catch` settles on. */
  datatype Report = Report(status: int, message: Json, details: Option<Json>)

  const InternalServerError := 500
  const ValidationFailed := "Validation failed"
  const AnErrorOccurred := "An error occurred"
  const InternalMessage := "Internal server error"

  /** `typeof x === 'object' && x !== null`. */
  predicate IsObject(v: Json) {
    v.JObj? || v.JArr?
  }

  /** The derivation of status, message and details in `catch`. */
  function Derive(e: Exception): (r: Report)
    ensures e.OtherError? ==> r == Report(InternalServerError, JStr(InternalMessage), None)
    ensures e.HttpException? ==> r.status == e.status
    ensures e.HttpException? && e.response.JStr? ==> r.message == e.response && r.details.None?
    ensures e.HttpException? && IsObject(e.response) ==>
      var m := Member(e.response, "message");
      && (m.Some? && m.value.JArr? ==> r.message == JStr(ValidationFailed) && r.details == m)
      && (!(m.Some? && m.value.JArr?) ==>
        && r.message == Or(m, Or(Member(e.response, "error"), JStr(AnErrorOccurred)))
        && r.details == Member(e.response, "details"))
    ensures e.HttpException? && !e.response.JStr? && !IsObject(e.response) ==>
      r.message == JStr(AnErrorOccurred) && r.details.None?
  {
    match e
    case OtherError(_) => Report(InternalServerError, JStr(InternalMessage), None)
    case HttpException(status, response) =>
      if response.JStr? then Report(status, response, None)
      else if IsObject(response) then
        var m := Member(response, "message");
        if m.Some? && m.value.JArr? then Report(status, JStr(ValidationFailed), m)
        else Report(status, Or(m, Or(Member(response, "error"), JStr(AnErrorOccurred))), Member(response, "details"))
      else Report(status, JStr(AnErrorOccurred), None)
  }

  /** The body written: the envelope, then `details` only when truthy. */
  function Body(r: Report, url: string, timestamp: string): (f: Fields)
    ensures |f| == if Present(r.details) then 6 else 5
  {
    [("success", JBool(false)), ("message", r.message), ("statusCode", Num(r.status)),
     ("timestamp", JStr(timestamp)), ("path", JStr(url))]
    + (if Present(r.details) then [("details", r.details.value)] else [])
  }

  /** `catch`: the status the response is sent with and its JSON body. */
  function Catch(e: Exception, url: string, timestamp: string): (r: (int, Json))
    ensures r.0 == Derive(e).status
    ensures r.1 == JObj(Body(Derive(e), url, timestamp))
  {
    var report := Derive(e);
    (report.status, JObj(Body(report, url, timestamp)))
  }

  /** What the client reads back from an error body: failure, the message,
      the status, the path, and the details exactly when they are truthy. */
  lemma BodyReadsBack(r: Report, url: string, timestamp: string)
    ensures var v := JObj(Body(r, url, timestamp));
      && Member(v, "success") == Some(JBool(false))
      && Member(v, "message") == Some(r.message)
      && Member(v, "statusCode") == Some(Num(r.status))
      && Member(v, "timestamp") == Some(JStr(timestamp))
      && Member(v, "path") == Some(JStr(url))
      && Member(v, "details") == if Present(r.details) then r.details else None
  {
    var f := Body(r, url, timestamp);
    var s, m, c, t, p, d := "success", "message", "statusCode", "timestamp", "path", "details";
    assert s[0] != m[0] && s[0] != d[0] && m[0] != d[0];
    assert |s| != |c| && |s| != |t| && |s| != |p|;
    assert |m| != |c| && |m| != |t| && |m| != |p|;
    assert |c| != |t| && |c| != |p| && |c| != |d| && |t| != |p| && |t| != |d| && |p| != |d|;
    assert f[0].0 == s && f[1].0 == m && f[2].0 == c && f[3].0 == t && f[4].0 == p;
    LookupAt(f, 0);
    LookupAt(f, 1);
    LookupAt(f, 2);
    LookupAt(f, 3);
    LookupAt(f, 4);
    if Present(r.details) {
      assert f[5] == (d, r.details.value);
      LookupAt(f, 5);
    } else {
      NoKeyNoLookup(f, d);
    }
  }

  /** An error body has the four envelope keys, so the success
      interceptor would pass it through untouched. */
  lemma ErrorBodyIsApiResponse(e: Exception, url: string, timestamp: string)
    ensures IsApiResponse(Some(Catch(e, url, timestamp).1))
  {
    BodyReadsBack(Derive(e), url, timestamp);
  }

  /** The text of an unexpected error never reaches the client: any two
      such errors give the same response. */
  lemma InternalErrorsLookAlike(text1: string, text2: string, url: string, timestamp: string)
    ensures Catch(OtherError(text1), url, timestamp) == Catch(OtherError(text2), url, timestamp)
    ensures Catch(OtherError(text1), url, timestamp).0 == 500
  {
  }

  /** A validation error lists the failed constraints as details under a
      fixed message. */
  lemma ValidationErrorsListDetails(status: int, problems: seq<Json>, url: string, timestamp: string)
    ensures var v := Catch(HttpException(status, JObj([("message", JArr(problems)), ("error", JStr("Bad Request"))])), url, timestamp).1;
      && Member(v, "message") == Some(JStr(ValidationFailed))
      && Member(v, "details") == Some(JArr(problems))
  {
    var m, er := "message", "error";
    assert |m| != |er|;
    var f := [("message", JArr(problems)), ("error", JStr("Bad Request"))];
    LookupAt(f, 0);
    BodyReadsBack(Derive(HttpException(status, JObj(f))), url, timestamp);
  }

  // ---------------------------------------------------------------------
  // The errors of this model

  /** The exception each error of the model is thrown as: Nest's built-in
      HTTP exceptions answer `{message, error, statusCode}` with their
      standard reason phrase; a plain error is not an HTTP exception. */
  function Thrown(e: Error): (x: Exception)
    ensures x.HttpException? <==> e.IsHttp()
  {
    match e
    case NotFound(m) => HttpException(404, HttpBody(m, "Not Found", 404))
    case BadRequest(m) => HttpException(400, HttpBody(m, "Bad Request", 400))
    case Forbidden(m) => HttpException(403, HttpBody(m, "Forbidden", 403))
    case Failure(m) => OtherError(m)
  }

  function HttpBody(message: string, reason: string, status: int): Json {
    JObj([("message", JStr(message)), ("error", JStr(reason)), ("statusCode", Num(status))])
  }

  lemma HttpBodyMembers(message: string, reason: string, status: int)
    ensures Member(HttpBody(message, reason, status), "message") == Some(JStr(message))
    ensures Member(HttpBody(message, reason, status), "error") == Some(JStr(reason))
    ensures Member(HttpBody(message, reason, status), "details") == None
  {
    var f := HttpBody(message, reason, status).fields;
    var m, er, sc, d := "message", "error", "statusCode", "details";
    assert m[0] != d[0] && |m| != |er| && |m| != |sc| && |er| != |sc| && |er| != |d| && |sc| != |d|;
    LookupAt(f, 0);
    LookupAt(f, 1);
    NoKeyNoLookup(f, d);
  }

  /** What a client sees for each error of the model: not-found, bad
      request and forbidden keep their status and message (an empty
      message falls back to the reason phrase); every other failure is an
      opaque 500. */
  lemma ModelErrorsReachClient(e: Error, url: string, timestamp: string)
    ensures var r := Derive(Thrown(e));
      && (e.NotFound? ==> r.status == 404)
      && (e.BadRequest? ==> r.status == 400)
      && (e.Forbidden? ==> r.status == 403)
      && (e.IsHttp() && e.message != "" ==> r.message == JStr(e.message) && r.details.None?)
      && (e.Failure? ==> r == Report(500, JStr(InternalMessage), None))
  {
    match e
    case NotFound(m) => HttpBodyMembers(m, "Not Found", 404);
    case BadRequest(m) => HttpBodyMembers(m, "Bad Request", 400);
    case Forbidden(m) => HttpBodyMembers(m, "Forbidden", 403);
    case Failure(_) =>
  }
}
