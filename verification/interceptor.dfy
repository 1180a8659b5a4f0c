/** The success envelope (common/interceptors/response.interceptor.ts).

    Every handler result is wrapped as `{success: true, message, data,
    timestamp, path}` unless it already looks like such an envelope. The
    result is modelled as the JSON the client receives: a `data` of
    `undefined` is dropped by serialisation. The clock is a parameter.
 */
module Interceptor {
  import opened Wrappers
  import opened Strings
  import opened Json

  // ---------------------------------------------------------------------
  // Messages by HTTP method

  datatype Outcome = Created | Updated | Deleted | Completed

  function SuccessText(o: Outcome): string {
    match o
    case Created => "Resource created successfully"
    case Updated => "Resource updated successfully"
    case Deleted => "Resource deleted successfully"
    case Completed => "Request completed successfully"
  }

  /** The `switch` on `method.toUpperCase()`; GET shares the default. */
  function OutcomeOf(httpMethod: string): Outcome {
    var m := ToUpper(httpMethod);
    if m == "POST" then Created
    else if m == "PUT" || m == "PATCH" then Updated
    else if m == "DELETE" then Deleted
    else Completed
  }

  /** `getSuccessMessage`: the method name is matched in any letter case. */
  function GetSuccessMessage(httpMethod: string): (m: string)
    ensures m == "Resource created successfully" <==> SameIgnoringCase(httpMethod, "POST")
    ensures m == "Resource updated successfully" <==>
      SameIgnoringCase(httpMethod, "PUT") || SameIgnoringCase(httpMethod, "PATCH")
    ensures m == "Resource deleted successfully" <==> SameIgnoringCase(httpMethod, "DELETE")
    ensures m == "Request completed successfully" <==>
      !SameIgnoringCase(httpMethod, "POST") && !SameIgnoringCase(httpMethod, "PUT")
      && !SameIgnoringCase(httpMethod, "PATCH") && !SameIgnoringCase(httpMethod, "DELETE")
  {
    OutcomeIgnoresCase(httpMethod);
    SuccessTextDistinct();
    SuccessText(OutcomeOf(httpMethod))
  }

  /** The four messages are pairwise different. */
  lemma SuccessTextDistinct()
    ensures forall o, o' :: SuccessText(o) == SuccessText(o') ==> o == o'
  {
    var c, u, d, q := SuccessText(Created), SuccessText(Updated), SuccessText(Deleted), SuccessText(Completed);
    assert c[9] == 'c' && u[9] == 'u' && d[9] == 'd' && q[0] == 'R' && q[1] == 'e' && q[2] == 'q';
    assert c[2] == 's';
  }

  /** Equal up to ASCII letter case. */
  predicate SameIgnoringCase(a: string, b: string) {
    |a| == |b| && forall i :: 0 <= i < |a| ==> UpperChar(a[i]) == UpperChar(b[i])
  }

  /** Upper-casing gives a word with no lower-case letters exactly when the
      text spells that word in any letter case. */
  lemma UpperIsWord(m: string, w: string)
    requires forall i :: 0 <= i < |w| ==> UpperChar(w[i]) == w[i]
    ensures ToUpper(m) == w <==> SameIgnoringCase(m, w)
  {
    if SameIgnoringCase(m, w) {
      assert forall i :: 0 <= i < |w| ==> ToUpper(m)[i] == w[i];
    }
  }

  /** The method names are matched in any letter case: 'post', 'Post' and
      'POST' all report a creation. */
  lemma OutcomeIgnoresCase(httpMethod: string)
    ensures OutcomeOf(httpMethod) == Created <==> SameIgnoringCase(httpMethod, "POST")
    ensures OutcomeOf(httpMethod) == Updated <==> SameIgnoringCase(httpMethod, "PUT") || SameIgnoringCase(httpMethod, "PATCH")
    ensures OutcomeOf(httpMethod) == Deleted <==> SameIgnoringCase(httpMethod, "DELETE")
  {
    var post, put, patch, delete := "POST", "PUT", "PATCH", "DELETE";
    assert |post| != |put| && |post| != |patch| && |post| != |delete|;
    assert |put| != |patch| && |put| != |delete| && |patch| != |delete|;
    UpperIsWord(httpMethod, post);
    UpperIsWord(httpMethod, put);
    UpperIsWord(httpMethod, patch);
    UpperIsWord(httpMethod, delete);
  }

  // ---------------------------------------------------------------------
  // Envelopes

  /** `isApiResponse`: a non-null object with the four envelope keys.
      JSON arrays never carry them. */
  predicate IsApiResponse(data: Option<Json>): (b: bool)
    ensures b ==> data.Some? && data.value.JObj? && |data.value.fields| >= 4
    ensures data.None? || !data.value.JObj? ==> !b
  {
    var b := && data.Some? && data.value.JObj?
      && HasKey(data.value.fields, "success") && HasKey(data.value.fields, "message")
      && HasKey(data.value.fields, "timestamp") && HasKey(data.value.fields, "path");
    assert b ==> |data.value.fields| >= 4 by {
      if b {
        var s, m, t, p := "success", "message", "timestamp", "path";
        assert s[0] != m[0] && |s| != |t| && |s| != |p| && |m| != |t| && |m| != |p| && |t| != |p|;
        DistinctKeysFit(data.value.fields, [s, m, t, p]);
      }
    }
    b
  }

  /** Pairwise different keys that an object all has take a field each. */
  lemma {:induction false} DistinctKeysFit(f: Fields, ks: seq<string>)
    requires forall i, j :: 0 <= i < j < |ks| ==> ks[i] != ks[j]
    requires forall i :: 0 <= i < |ks| ==> HasKey(f, ks[i])
    ensures |ks| <= |f|
    decreases |f|
  {
    if |ks| > 0 {
      assert HasKey(f, ks[0]);
      var last, init := f[|f| - 1].0, f[..|f| - 1];
      var rest := if last in ks then
        var m :| 0 <= m < |ks| && ks[m] == last; ks[..m] + ks[m + 1..]
      else ks;
      assert |rest| >= |ks| - 1;
      assert forall i :: 0 <= i < |rest| ==> rest[i] in ks && rest[i] != last;
      assert forall i, j :: 0 <= i < j < |rest| ==> rest[i] != rest[j];
      forall i | 0 <= i < |rest|
        ensures HasKey(init, rest[i])
      {
        var j :| 0 <= j < |ks| && ks[j] == rest[i];
        assert HasKey(f, ks[j]);
      }
      DistinctKeysFit(init, rest);
    }
  }

  /** The fields of a wrapped result, in the order they are written. */
  function WrappedFields(message: string, data: Option<Json>, timestamp: string, path: string): (f: Fields)
    ensures |f| == if data.Some? then 5 else 4
  {
    [("success", JBool(true)), ("message", JStr(message))]
    + (if data.Some? then [("data", data.value)] else [])
    + [("timestamp", JStr(timestamp)), ("path", JStr(path))]
  }

  /** `customMessage || this.getSuccessMessage(request.method)`. */
  function Message(customMessage: Option<string>, httpMethod: string): (r: string)
    ensures customMessage.Some? && customMessage.value != "" ==> r == customMessage.value
    ensures customMessage.None? || customMessage.value == "" ==> r == GetSuccessMessage(httpMethod)
  {
    if customMessage.Some? && customMessage.value != "" then customMessage.value else GetSuccessMessage(httpMethod)
  }

  /** `intercept`: an envelope passes through untouched; anything else is
      wrapped, carrying the data as it was. */
  function Intercept(data: Option<Json>, customMessage: Option<string>, httpMethod: string, url: string, timestamp: string): (r: Json)
    ensures IsApiResponse(data) ==> r == data.value
    ensures !IsApiResponse(data) ==> r == JObj(WrappedFields(Message(customMessage, httpMethod), data, timestamp, url))
  {
    if IsApiResponse(data) then data.value
    else JObj(WrappedFields(Message(customMessage, httpMethod), data, timestamp, url))
  }

  /** What a wrapped result reads back: success, the message, the data
      exactly as the handler returned it, and the request path. */
  lemma WrappedReadsBack(message: string, data: Option<Json>, timestamp: string, path: string)
    ensures var v := JObj(WrappedFields(message, data, timestamp, path));
      && Member(v, "success") == Some(JBool(true))
      && Member(v, "message") == Some(JStr(message))
      && Member(v, "data") == data
      && Member(v, "timestamp") == Some(JStr(timestamp))
      && Member(v, "path") == Some(JStr(path))
  {
    var f := WrappedFields(message, data, timestamp, path);
    var s, m, d, t, p := "success", "message", "data", "timestamp", "path";
    assert s[0] != m[0] && |s| != |d| && |s| != |t| && |s| != |p|;
    assert |m| != |d| && |m| != |t| && |m| != |p|;
    assert |d| != |t| && d[0] != p[0] && |t| != |p|;
    var n := |f|;
    assert f[n - 1].0 == p && f[n - 2].0 == t && f[0].0 == s && f[1].0 == m;
    LookupAt(f, 0);
    LookupAt(f, 1);
    LookupAt(f, n - 2);
    LookupAt(f, n - 1);
    if data.Some? {
      assert f[2] == (d, data.value);
      LookupAt(f, 2);
    } else {
      assert forall j :: 0 <= j < |f| ==> f[j].0 != d;
      assert !HasKey(f, d) by { NoKeyNoLookup(f, d); }
    }
  }

  lemma {:induction false} NoKeyNoLookup(f: Fields, k: string)
    requires forall j :: 0 <= j < |f| ==> f[j].0 != k
    ensures !HasKey(f, k)
    decreases |f|
  {
    if |f| > 0 {
      NoKeyNoLookup(f[..|f| - 1], k);
    }
  }

  /** A wrapped result is itself an envelope. */
  lemma WrappedIsApiResponse(message: string, data: Option<Json>, timestamp: string, path: string)
    ensures IsApiResponse(Some(JObj(WrappedFields(message, data, timestamp, path))))
  {
    WrappedReadsBack(message, data, timestamp, path);
  }

  /** So wrapping is idempotent: a result that went through the
      interceptor once comes out of it again unchanged. */
  lemma InterceptIdempotent(data: Option<Json>, customMessage: Option<string>, httpMethod: string, url: string, timestamp: string,
                            customMessage': Option<string>, httpMethod': string, url': string, timestamp': string)
    ensures var once := Intercept(data, customMessage, httpMethod, url, timestamp);
      Intercept(Some(once), customMessage', httpMethod', url', timestamp') == once
  {
    if !IsApiResponse(data) {
      WrappedIsApiResponse(Message(customMessage, httpMethod), data, timestamp, url);
    }
  }

  /** Null, strings, numbers, booleans, arrays and a missing result are
      always wrapped. */
  lemma NonObjectsAreWrapped(data: Option<Json>, customMessage: Option<string>, httpMethod: string, url: string, timestamp: string)
    requires data.None? || !data.value.JObj?
    ensures Member(Intercept(data, customMessage, httpMethod, url, timestamp), "data") == data
  {
    WrappedReadsBack(Message(customMessage, httpMethod), data, timestamp, url);
  }
}
