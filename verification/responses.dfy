/** `parseStructuredResponse`, the same in both model services: a model's
    reply is read as JSON after any Markdown code fence around it is
    removed, and a reply that is not JSON is wrapped as the content of one
    card instead of failing.

    `JSON.parse` is a parameter, `parse`, returning `None` where it throws.
 */
module Responses {
  import opened Wrappers
  import opened Strings
  import opened Json

  const JsonFence := "```json"
  const Fence := "```"

  /** Text with no whitespace at either end, as `trim` leaves it. */
  predicate Trimmed(s: string) {
    |s| == 0 || (!IsSpace(s[0]) && !IsSpace(s[|s| - 1]))
  }

  /** `.replace(/\s*```$/, '')`: a closing fence at the very end goes, with
      the whitespace run in front of it. */
  function DropClosingFence(s: string): (r: string)
    ensures EndsWith(s, Fence) ==> |r| <= |s| - 3 && r == s[..|r|]
    ensures EndsWith(s, Fence) ==> forall i :: |r| <= i < |s| - 3 ==> IsSpace(s[i])
    ensures !EndsWith(s, Fence) ==> r == s
  {
    if EndsWith(s, Fence) then TrimEnd(s[..|s| - 3]) else s
  }

  /** The fence-stripping step on an already trimmed reply: an opening
      ```` ```json ```` or ```` ``` ```` and the whitespace after it go, then
      a closing fence. Text that does not open with a fence is kept. */
  function StripFences(s: string): (r: string)
    ensures !StartsWith(s, Fence) ==> r == s
    ensures |r| <= |s|
  {
    if StartsWith(s, JsonFence) then DropClosingFence(TrimStart(s[7..]))
    else if StartsWith(s, Fence) then DropClosingFence(TrimStart(s[3..]))
    else s
  }

  /** The text handed to `JSON.parse`. */
  function Cleaned(response: string): (r: string)
    ensures Trimmed(r)
  {
    Trim(StripFences(Trim(response)))
  }

  /** What a reply that is not JSON becomes: one card holding the raw reply,
      in an array with the fixed score 7.5 when an array was asked for. */
  function Fallback(response: string, outputFormat: Option<Json>): (r: Json)
    ensures MemberOf(outputFormat, "type") == Some(JStr("array")) ==>
      r.JArr? && |r.items| == 1 && Member(r.items[0], "content") == Some(JStr(response))
      && Member(r.items[0], "score") == Some(JNum(Decimal(75, 1)))
    ensures MemberOf(outputFormat, "type") != Some(JStr("array")) ==>
      r.JObj? && Member(r, "content") == Some(JStr(response)) && Keys(r.fields) == ["content"]
  {
    var content := [("content", JStr(response))];
    if MemberOf(outputFormat, "type") == Some(JStr("array")) then
      var scored := content + [("score", JNum(Decimal(75, 1)))];
      assert scored[..1] == content;
      LookupAppend(content, "score", JNum(Decimal(75, 1)), "content");
      JArr([JObj(scored)])
    else JObj(content)
  }

  /** `parseStructuredResponse`. It never throws: any value the cleaned
      text parses to is returned as it is, whatever its type, and otherwise
      the raw reply is wrapped. */
  function ParseStructuredResponse(parse: string -> Option<Json>, response: string, outputFormat: Option<Json>): (r: Json)
    ensures parse(Cleaned(response)).Some? ==> r == parse(Cleaned(response)).value
    ensures parse(Cleaned(response)).None? ==> r == Fallback(response, outputFormat)
  {
    match parse(Cleaned(response))
    case Some(v) => v
    case None => Fallback(response, outputFormat)
  }

  // ---------------------------------------------------------------------
  // What the cleaning does to the replies a model gives

  /** A reply that does not open with a fence is parsed as it is, trimmed. */
  lemma UnfencedReply(response: string)
    requires !StartsWith(Trim(response), Fence)
    ensures Cleaned(response) == Trim(response)
  {
    TrimIdempotent(response);
  }

  /** A closing fence after the body and a whitespace run goes, and the
      whitespace with it. */
  lemma DropClosingFenceAfterBody(body: string, sep': string)
    requires Trimmed(body)
    requires forall i :: 0 <= i < |sep'| ==> IsSpace(sep'[i])
    ensures DropClosingFence(body + sep' + Fence) == body
  {
    var t := body + sep' + Fence;
    assert t[|t| - 3..] == Fence;
    assert t[..|t| - 3] == body + sep';
    TrimEndPadding(body, sep');
    TrimEndNoop(body);
  }

  /** Stripping the fences of `open + sep + body + sep' + "```"`, with
      whitespace separators, gives back exactly the body. */
  lemma StripFencedBody(open: string, sep: string, body: string, sep': string)
    requires open == JsonFence || open == Fence
    requires open == Fence ==> !StartsWith(open + sep + body + sep' + Fence, JsonFence)
    requires Trimmed(body) && |body| > 0
    requires forall i :: 0 <= i < |sep| ==> IsSpace(sep[i])
    requires forall i :: 0 <= i < |sep'| ==> IsSpace(sep'[i])
    ensures StripFences(open + sep + body + sep' + Fence) == body
  {
    var t := body + sep' + Fence;
    var rest := sep + t;
    assert open + sep + body + sep' + Fence == open + rest;
    TrimStartPadding(sep, t);
    TrimStartNoop(t);
    DropClosingFenceAfterBody(body, sep');
    AfterOpening(open, rest);
  }

  lemma AfterOpening(open: string, rest: string)
    ensures StartsWith(open + rest, open) && (open + rest)[|open|..] == rest
  {
    assert (open + rest)[..|open|] == open;
  }

  /** A reply fenced as a ```` ```json ```` block is parsed from exactly the
      block's body. */
  lemma JsonFencedReply(body: string, sep: string, sep': string)
    requires Trimmed(body) && |body| > 0
    requires forall i :: 0 <= i < |sep| ==> IsSpace(sep[i])
    requires forall i :: 0 <= i < |sep'| ==> IsSpace(sep'[i])
    ensures Cleaned(JsonFence + sep + body + sep' + Fence) == body
  {
    var s := JsonFence + sep + body + sep' + Fence;
    TrimNoop(s);
    StripFencedBody(JsonFence, sep, body, sep');
    TrimNoop(body);
  }

  /** A reply in a bare ```` ``` ```` block is parsed from exactly the body,
      unless the body itself begins with `json` right after the fence. */
  lemma BareFencedReply(body: string, sep: string, sep': string)
    requires Trimmed(body) && |body| > 0
    requires forall i :: 0 <= i < |sep| ==> IsSpace(sep[i])
    requires forall i :: 0 <= i < |sep'| ==> IsSpace(sep'[i])
    requires |sep| > 0
    ensures Cleaned(Fence + sep + body + sep' + Fence) == body
  {
    var s := Fence + sep + body + sep' + Fence;
    TrimNoop(s);
    assert !StartsWith(s, JsonFence) by {
      if |s| >= 7 {
        assert s[..7][3] == sep[0];
      }
    }
    StripFencedBody(Fence, sep, body, sep');
    TrimNoop(body);
  }

  /** So a JSON answer survives any fencing the model puts around it. */
  lemma FencedJsonParses(parse: string -> Option<Json>, body: string, sep: string, sep': string, outputFormat: Option<Json>)
    requires Trimmed(body) && |body| > 0 && parse(body).Some?
    requires forall i :: 0 <= i < |sep| ==> IsSpace(sep[i])
    requires forall i :: 0 <= i < |sep'| ==> IsSpace(sep'[i])
    ensures ParseStructuredResponse(parse, JsonFence + sep + body + sep' + Fence, outputFormat) == parse(body).value
    ensures |sep| > 0 ==> ParseStructuredResponse(parse, Fence + sep + body + sep' + Fence, outputFormat) == parse(body).value
  {
    JsonFencedReply(body, sep, sep');
    if |sep| > 0 {
      BareFencedReply(body, sep, sep');
    }
  }
}
