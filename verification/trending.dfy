/** Trending ideas (trending/trending.service.ts, `getTrendingIdeas`).

    One prompt goes to the Gemini chat completion; its reply is cleaned
    into JSON and kept only for the items that have a string title and a
    string description. Unlike content generation there is no fallback:
    text that does not parse, and a reply with no valid item, are errors,
    and every error is reported under one prefix.

    The prompt's wording is a parameter: only the cleaning and validation
    depend on anything but the model.
 */
module Trending {
  import opened Wrappers
  import opened Strings
  import opened Json
  import opened Providers

  const Fence := "```"

  // ---------------------------------------------------------------------
  // Cleaning

  /** The body of the first fenced block: after the first fence and an
      optional `json` tag, up to the next fence; `None` when no fence
      follows the first one. The pattern
      ```` /```(?:json)?\s*([\s\S]*?)\s*```/ ```` captures this text less
      the whitespace at its ends, so the two agree once trimmed. */
  function FencedBody(s: string): (r: Option<string>)
    ensures r.Some? <==>
      && IndexOf(s, Fence).Some?
      && IndexOf(s[BodyStart(s, IndexOf(s, Fence).value)..], Fence).Some?
    ensures r.Some? ==>
      var tail := s[BodyStart(s, IndexOf(s, Fence).value)..];
      r.value == tail[..IndexOf(tail, Fence).value]
  {
    match IndexOf(s, Fence)
    case None => None
    case Some(o) =>
      var tail := s[BodyStart(s, o)..];
      match IndexOf(tail, Fence)
      case None => None
      case Some(q) => Some(tail[..q])
  }

  /** Where a block's body starts: after the fence at `o` and, when it
      follows directly, the `json` tag. */
  function BodyStart(s: string, o: nat): (g: nat)
    requires OccursAt(s, Fence, o)
    ensures o + 3 <= g <= |s|
    ensures g == o + 7 <==> StartsWith(s[o + 3..], "json")
  {
    if StartsWith(s[o + 3..], "json") then o + 7 else o + 3
  }

  /** A fence after text with no backtick is the first fence. */
  lemma FirstFence(before: string, rest: string)
    requires forall i :: 0 <= i < |before| ==> before[i] != '`'
    ensures IndexOf(before + Fence + rest, Fence) == Some(|before|)
  {
    var s := before + Fence + rest;
    assert s[|before|..|before| + 3] == Fence;
    assert OccursAt(s, Fence, |before|);
    forall j | 0 <= j < |before|
      ensures !OccursAt(s, Fence, j)
    {
      assert s[j] == before[j];
    }
  }

  /** A block written out as text is read back: whatever precedes the
      first fence, the tag and whatever follows the closing fence are
      dropped, and the body comes back. */
  lemma FencedBodyOfBlock(text: string, before: string, tag: string, body: string, after: string)
    requires text == before + (Fence + (tag + (body + (Fence + after))))
    requires forall i :: 0 <= i < |before| ==> before[i] != '`'
    requires forall i :: 0 <= i < |body| ==> body[i] != '`'
    requires tag == "json" || (tag == "" && !StartsWith(body, "json"))
    ensures FencedBody(text) == Some(body)
  {
    var g := BlockLayout(text, before, tag, body, after);
    ReadBack(text, |before|, g, body);
  }

  /** Where the fences and the body of a written-out block are. */
  lemma BlockLayout(text: string, before: string, tag: string, body: string, after: string) returns (g: nat)
    requires text == before + (Fence + (tag + (body + (Fence + after))))
    requires forall i :: 0 <= i < |before| ==> before[i] != '`'
    requires forall i :: 0 <= i < |body| ==> body[i] != '`'
    requires tag == "json" || (tag == "" && !StartsWith(body, "json"))
    ensures IndexOf(text, Fence) == Some(|before|)
    ensures g == BodyStart(text, |before|) && g + |body| <= |text|
    ensures IndexOf(text[g..], Fence) == Some(|body|)
    ensures text[g..][..|body|] == body
  {
    var rest := tag + (body + (Fence + after));
    OpeningFence(text, before, rest);
    var tail := TagSkip(rest, tag, body, after);
    g := BodyStart(text, |before|);
    assert g == |before| + 3 + |tag|;
    assert text[g..] == rest[|tag|..];
  }

  /** The first fence of a text is the one right after a backtick-free
      prefix, and what follows it is the rest. */
  lemma OpeningFence(text: string, before: string, rest: string)
    requires text == before + (Fence + rest)
    requires forall i :: 0 <= i < |before| ==> before[i] != '`'
    ensures OccursAt(text, Fence, |before|)
    ensures IndexOf(text, Fence) == Some(|before|)
    ensures text[|before| + 3..] == rest
  {
    assert text == before + Fence + rest;
    FirstFence(before, rest);
  }

  /** After the opening fence: the tag test sees exactly the tag, and the
      body runs up to the closing fence. */
  lemma TagSkip(rest: string, tag: string, body: string, after: string) returns (tail: string)
    requires rest == tag + (body + (Fence + after))
    requires forall i :: 0 <= i < |body| ==> body[i] != '`'
    requires tag == "json" || (tag == "" && !StartsWith(body, "json"))
    ensures tail == rest[|tag|..]
    ensures StartsWith(rest, "json") <==> tag == "json"
    ensures IndexOf(tail, Fence) == Some(|body|)
    ensures |body| <= |tail| && tail[..|body|] == body
  {
    tail := body + (Fence + after);
    assert tail == rest[|tag|..];
    assert StartsWith(tail, body) && tail[|body|] == '`';
    BodyAfterTag(tag, body, tail);
    assert tail == body + Fence + after;
    FirstFence(body, after);
  }

  /** The body found between the located fences is the one read back. */
  lemma ReadBack(text: string, o: nat, g: nat, body: string)
    requires IndexOf(text, Fence) == Some(o)
    requires g == BodyStart(text, o)
    requires IndexOf(text[g..], Fence) == Some(|body|)
    requires text[g..][..|body|] == body
    ensures FencedBody(text) == Some(body)
  {
  }

  /** The tag test sees the tag when there is one, and nothing otherwise. */
  lemma BodyAfterTag(tag: string, body: string, tail: string)
    requires StartsWith(tail, body) && |body| < |tail| && tail[|body|] == '`'
    requires forall i :: 0 <= i < |body| ==> body[i] != '`'
    requires tag == "json" || (tag == "" && !StartsWith(body, "json"))
    ensures StartsWith(tag + tail, "json") <==> tag == "json"
  {
    var rest := tag + tail;
    if tag == "json" {
      assert rest[..4] == tag;
    } else {
      assert rest == tail;
      if |body| >= 4 {
        assert rest[..4] == body[..4];
      } else if |rest| >= 4 {
        assert rest[..4][|body|] == '`';
      }
    }
  }

  predicate IsQuote(c: char) {
    c == '`' || c == '"' || c == '\''
  }

  function DropLeadingQuotes(s: string): (r: string)
    ensures |r| <= |s| && r == s[|s| - |r|..]
    ensures forall i :: 0 <= i < |s| - |r| ==> IsQuote(s[i])
    ensures |r| > 0 ==> !IsQuote(r[0])
  {
    if |s| > 0 && IsQuote(s[0]) then DropLeadingQuotes(s[1..]) else s
  }

  function DropTrailingQuotes(s: string): (r: string)
    ensures |r| <= |s| && r == s[..|r|]
    ensures forall i :: |r| <= i < |s| ==> IsQuote(s[i])
    ensures |r| > 0 ==> !IsQuote(r[|r| - 1])
  {
    if |s| > 0 && IsQuote(s[|s| - 1]) then DropTrailingQuotes(s[..|s| - 1]) else s
  }

  /** `replace(/^[`"']+|[`"']+$/g, '')`: the leading and the trailing run
      of backticks and quotes go, and nothing in between. */
  function StripQuotes(s: string): (r: string)
    ensures |r| <= |s|
    ensures |r| > 0 ==> !IsQuote(r[0]) && !IsQuote(r[|r| - 1])
    ensures var i := |s| - |DropLeadingQuotes(s)|;
      && i + |r| <= |s| && r == s[i..i + |r|]
      && (forall k :: 0 <= k < i ==> IsQuote(s[k]))
      && (forall k :: i + |r| <= k < |s| ==> IsQuote(s[k]))
  {
    var front := DropLeadingQuotes(s);
    var r := DropTrailingQuotes(front);
    QuoteRuns(s, front, r);
    r
  }

  /** Taking a suffix and then a prefix of it leaves a slice of the
      original, with the dropped tail still quote characters. */
  lemma QuoteRuns(s: string, front: string, r: string)
    requires |front| <= |s| && front == s[|s| - |front|..]
    requires |r| <= |front| && r == front[..|r|]
    requires forall k :: |r| <= k < |front| ==> IsQuote(front[k])
    ensures var i := |s| - |front|;
      && i + |r| <= |s| && r == s[i..i + |r|]
      && forall k :: i + |r| <= k < |s| ==> IsQuote(s[k])
  {
    var i := |s| - |front|;
    assert forall k :: i + |r| <= k < |s| ==> s[k] == front[k - i];
  }

  /** The text handed to `JSON.parse`: the reply trimmed, replaced by its
      first fenced block when it has one, then stripped of quotes. */
  function CleanResponse(reply: string): (r: string)
    ensures |r| <= |reply|
    ensures |r| > 0 ==> !IsQuote(r[0]) && !IsQuote(r[|r| - 1])
  {
    var t := Trim(reply);
    StripQuotes(if FencedBody(t).Some? then Trim(FencedBody(t).value) else t)
  }

  /** A reply that is bare JSON text, with no backtick anywhere and no
      whitespace or quote at either end, reaches `JSON.parse` unchanged. */
  lemma BareReplyUnchanged(reply: string)
    requires forall i :: 0 <= i < |reply| ==> reply[i] != '`'
    requires |reply| > 0 ==> !IsSpace(reply[0]) && !IsSpace(reply[|reply| - 1])
    requires |reply| > 0 ==> !IsQuote(reply[0]) && !IsQuote(reply[|reply| - 1])
    ensures CleanResponse(reply) == reply
  {
    assert Trim(reply) == reply by {
      TrimStartNoop(reply);
      if |reply| > 0 {
        assert reply[..|reply| - 1 + 1] == reply;
      }
    }
    assert IndexOf(reply, Fence).None? by {
      forall j ensures !OccursAt(reply, Fence, j) {
        if 0 <= j && j + 3 <= |reply| {
          assert reply[j..j + 3][0] == reply[j];
        }
      }
    }
    assert FencedBody(reply).None?;
    assert DropLeadingQuotes(reply) == reply;
    assert DropTrailingQuotes(reply) == reply;
  }

  // ---------------------------------------------------------------------
  // Validation

  /** `idea && typeof idea.title === 'string' && typeof idea.description
      === 'string'`. Only an object can have either member. */
  predicate ValidIdea(v: Json) {
    && Member(v, "title").Some? && Member(v, "title").value.JStr?
    && Member(v, "description").Some? && Member(v, "description").value.JStr?
  }

  /** The valid items, in their original order. */
  function KeepValid(items: seq<Json>): (r: seq<Json>)
    ensures |r| <= |items|
    ensures forall x :: x in r <==> x in items && ValidIdea(x)
  {
    if |items| == 0 then []
    else
      var init := KeepValid(items[..|items| - 1]);
      var x := items[|items| - 1];
      assert items == items[..|items| - 1] + [x];
      if ValidIdea(x) then init + [x] else init
  }

  /** Filtering distributes over concatenation, so relative order is kept. */
  lemma {:induction false} KeepValidAppend(a: seq<Json>, b: seq<Json>)
    ensures KeepValid(a + b) == KeepValid(a) + KeepValid(b)
    decreases |b|
  {
    if |b| == 0 {
      assert a + b == a;
    } else {
      var init := b[..|b| - 1];
      assert a + b == (a + init) + [b[|b| - 1]];
      assert (a + b)[..|a + b| - 1] == a + init;
      KeepValidAppend(a, init);
    }
  }

  /** Items that are all valid pass through unchanged. */
  lemma {:induction false} KeepValidAll(items: seq<Json>)
    requires forall i :: 0 <= i < |items| ==> ValidIdea(items[i])
    ensures KeepValid(items) == items
    decreases |items|
  {
    if |items| > 0 {
      KeepValidAll(items[..|items| - 1]);
      assert items == items[..|items| - 1] + [items[|items| - 1]];
    }
  }

  // ---------------------------------------------------------------------
  // getTrendingIdeas

  const TrendingPrefix := "Failed to generate trending ideas: "
  const NotJson := "Failed to parse AI response as JSON"
  const NoValidIdeas := "No valid ideas found in AI response"

  /** `error?.message || 'Unknown error'`. */
  function Reason(e: Error): string {
    if e.message != "" then e.message else "Unknown error"
  }

  /** The ideas of one reply: cleaned, parsed, listed, filtered. */
  function IdeasOf(parse: string -> Option<Json>, reply: string): (r: Result<seq<Json>>)
    ensures parse(CleanResponse(reply)).None? ==> r == Err(Failure(NotJson))
    ensures parse(CleanResponse(reply)).Some? ==>
      var items := AsList(parse(CleanResponse(reply)).value);
      && (r.Ok? <==> KeepValid(items) != [])
      && (r.Ok? ==> r.value == KeepValid(items))
      && (r.Err? ==> r == Err(Failure(NoValidIdeas)))
    ensures r.Ok? ==> |r.value| > 0 && forall i :: 0 <= i < |r.value| ==> ValidIdea(r.value[i])
  {
    match parse(CleanResponse(reply))
    case None => Err(Failure(NotJson))
    case Some(parsed) =>
      var valid := KeepValid(AsList(parsed));
      assert forall i :: 0 <= i < |valid| ==> valid[i] in valid;
      if |valid| == 0 then Err(Failure(NoValidIdeas)) else Ok(valid)
  }

  /** The `catch` of `getTrendingIdeas`: ideas pass through, and any
      error is rethrown under the prefix. */
  function Reported(outcome: Result<seq<Json>>): (r: Result<seq<Json>>)
    ensures outcome.Ok? ==> r == outcome
    ensures outcome.Err? ==> r == Err(Failure(TrendingPrefix + Reason(outcome.error)))
    ensures r.Err? ==> r.error.Failure? && StartsWith(r.error.message, TrendingPrefix)
  {
    match outcome
    case Ok(_) => outcome
    case Err(e) =>
      assert StartsWith(TrendingPrefix + Reason(e), TrendingPrefix) by {
        assert (TrendingPrefix + Reason(e))[..|TrendingPrefix|] == TrendingPrefix;
      }
      Err(Failure(TrendingPrefix + Reason(e)))
  }

  /** `getTrendingIdeas`: a non-empty list of valid ideas, or one error
      whose message starts with the prefix and then gives the reason. */
  function GetTrendingIdeas(c: GeminiClient, parse: string -> Option<Json>, prompt: string): (r: Result<seq<Json>>)
    ensures r.Ok? ==> |r.value| > 0 && forall i :: 0 <= i < |r.value| ==> ValidIdea(r.value[i])
    ensures r.Err? ==> r.error.Failure? && StartsWith(r.error.message, TrendingPrefix)
    ensures var reply := GenerateChatCompletion(GeminiChannel(c), [ChatMessage(User, prompt)]);
      && (reply.Err? ==> r == Err(Failure(TrendingPrefix + Reason(reply.error))))
      && (reply.Ok? ==> (r.Ok? <==> IdeasOf(parse, reply.value).Ok?))
      && (reply.Ok? && r.Ok? ==> r == IdeasOf(parse, reply.value))
      && (reply.Ok? && r.Err? ==> r == Err(Failure(TrendingPrefix + Reason(IdeasOf(parse, reply.value).error))))
  {
    var reply := GenerateChatCompletion(GeminiChannel(c), [ChatMessage(User, prompt)]);
    Reported(if reply.Err? then Err(reply.error) else IdeasOf(parse, reply.value))
  }

  /** A reply that parses to a single valid object yields that one idea:
      a lone object is treated as a list of one. */
  lemma SingleObjectIsOneIdea(parse: string -> Option<Json>, reply: string)
    requires parse(CleanResponse(reply)).Some? && ValidIdea(parse(CleanResponse(reply)).value)
    requires !parse(CleanResponse(reply)).value.JArr?
    ensures IdeasOf(parse, reply) == Ok([parse(CleanResponse(reply)).value])
  {
    OneValid(parse(CleanResponse(reply)).value);
  }

  lemma OneValid(v: Json)
    requires ValidIdea(v) && !v.JArr?
    ensures KeepValid(AsList(v)) == [v]
  {
    KeepValidAll([v]);
  }

  /** The errors name their cause: text that is not JSON, and JSON with no
      valid idea, each under the prefix. */
  lemma ParseFailureMessage(c: GeminiClient, parse: string -> Option<Json>, prompt: string)
    requires GenerateChatCompletion(GeminiChannel(c), [ChatMessage(User, prompt)]).Ok?
    requires parse(CleanResponse(GenerateChatCompletion(GeminiChannel(c), [ChatMessage(User, prompt)]).value)).None?
    ensures GetTrendingIdeas(c, parse, prompt) == Err(Failure(TrendingPrefix + NotJson))
  {
  }
}
