/** What the placeholders of a prompt template become.

    A template is read as a sequence of pieces: literal text that opens no
    placeholder, and placeholders `{{key}}` whose key holds no brace. Over
    such templates, and with substituted values that open no placeholder
    either, `buildPromptFromConfig` (src/gemini/gemini.service.ts and its
    OpenAI copy) fills every placeholder independently of the others: the
    lemmas below give the rendered prompt piece by piece.
 */
module Templates {
  import opened Wrappers
  import opened Strings
  import opened Json
  import opened Prompts

  /** One piece of a template. */
  datatype Piece = Text(text: string) | Slot(key: string)

  function RenderPiece(p: Piece): string {
    match p
    case Text(t) => t
    case Slot(k) => Placeholder(k)
  }

  /** The template text the pieces spell. */
  function Render(ps: seq<Piece>): string {
    if |ps| == 0 then "" else RenderPiece(ps[0]) + Render(ps[1..])
  }

  /** A key that can stand between double braces. */
  predicate PlainKey(k: string) {
    '{' !in k && '}' !in k
  }

  /** Literal text never opens a placeholder and every key is plain. */
  predicate WellFormed(ps: seq<Piece>) {
    forall i :: 0 <= i < |ps| ==> (ps[i].Text? ==> '{' !in ps[i].text) && (ps[i].Slot? ==> PlainKey(ps[i].key))
  }

  /** Every placeholder for `k` turned into the text `r`. */
  function Subst(ps: seq<Piece>, k: string, r: string): seq<Piece> {
    seq(|ps|, i requires 0 <= i < |ps| => SubstPiece(ps[i], k, r))
  }

  function SubstPiece(p: Piece, k: string, r: string): Piece {
    if p == Slot(k) then Text(r) else p
  }

  /** The option loop's view of one piece: the first key of `keys` that
      names a placeholder fills it. */
  function OptionPiece(p: Piece, options: Fields, keys: seq<string>): Piece {
    if p.Slot? && p.key in keys then Text(OptionText(options, p.key)) else p
  }

  /** The option loop applied to every piece, key by key. */
  function SubstKeys(ps: seq<Piece>, options: Fields, keys: seq<string>): seq<Piece>
    decreases |keys|
  {
    if |keys| == 0 then ps
    else SubstKeys(Subst(ps, keys[0], OptionText(options, keys[0])), options, keys[1..])
  }

  function CountText(options: Fields, appSettings: Option<Json>): string {
    ToJsString(PromptCount(options, appSettings))
  }

  function IndustryText(options: Fields): string {
    ToJsString(PromptIndustry(options))
  }

  /** What one piece of the user template becomes. */
  function UserPiece(p: Piece, userInput: string, options: Fields, appSettings: Option<Json>): Piece {
    if p.Text? then p
    else if p.key == "input" then Text(userInput)
    else if p.key == "count" then Text(CountText(options, appSettings))
    else if p.key == "industry" then Text(IndustryText(options))
    else OptionPiece(p, options, Keys(options))
  }

  /** What one piece of the system template becomes: `{{input}}` is not
      among the system template's own placeholders. */
  function SystemPiece(p: Piece, options: Fields, appSettings: Option<Json>): Piece {
    if p.Text? then p
    else if p.key == "count" then Text(CountText(options, appSettings))
    else if p.key == "industry" then Text(IndustryText(options))
    else OptionPiece(p, options, Keys(options))
  }

  function UserPieces(ps: seq<Piece>, userInput: string, options: Fields, appSettings: Option<Json>): seq<Piece> {
    seq(|ps|, i requires 0 <= i < |ps| => UserPiece(ps[i], userInput, options, appSettings))
  }

  function SystemPieces(ps: seq<Piece>, options: Fields, appSettings: Option<Json>): seq<Piece> {
    seq(|ps|, i requires 0 <= i < |ps| => SystemPiece(ps[i], options, appSettings))
  }

  /** No value written into a prompt opens a placeholder, and every option
      key can stand between braces. */
  predicate PlainValues(options: Fields, appSettings: Option<Json>) {
    && '{' !in CountText(options, appSettings)
    && '{' !in IndustryText(options)
    && forall k :: k in Keys(options) ==> PlainKey(k) && '{' !in OptionText(options, k)
  }

  // ---------------------------------------------------------------------
  // One replacement over rendered pieces

  lemma RenderConcat(a: seq<Piece>, b: seq<Piece>)
    ensures Render(a + b) == Render(a) + Render(b)
    decreases |a|
  {
    if |a| > 0 {
      assert (a + b)[1..] == a[1..] + b;
      RenderConcat(a[1..], b);
      ConcatAssoc(RenderPiece(a[0]), Render(a[1..]), Render(b));
    } else {
      assert a + b == b;
    }
  }

  /** One step of `ReplaceAll` where the pattern does not start. */
  lemma ReplaceStep(s: string, p: string, r: string)
    requires |p| > 0 && |s| > 0 && !(|s| >= |p| && s[..|p|] == p)
    ensures ReplaceAll(s, p, r) == [s[0]] + ReplaceAll(s[1..], p, r)
  {
    if |s| < |p| {
      assert s == [s[0]] + s[1..];
    }
  }

  /** Literal text is copied through unchanged. */
  lemma {:induction false} SkipText(t: string, s: string, p: string, r: string)
    requires |p| > 0 && p[0] == '{' && '{' !in t
    ensures ReplaceAll(t + s, p, r) == t + ReplaceAll(s, p, r)
    decreases |t|
  {
    if |t| == 0 {
      assert t + s == s;
    } else {
      var u := t + s;
      assert u[0] == t[0] && t[0] in t;
      if |u| >= |p| {
        assert u[..|p|][0] == u[0];
      }
      ReplaceStep(u, p, r);
      assert u[1..] == t[1..] + s;
      SkipText(t[1..], s, p, r);
      ConcatAssoc([t[0]], t[1..], ReplaceAll(s, p, r));
      assert [t[0]] + t[1..] == t;
    }
  }

  /** A placeholder for another plain key is not a match for `{{k}}`: the
      two differ at the first place where one key ends or the keys differ. */
  lemma NotAtSlot(k': string, k: string, s: string)
    requires PlainKey(k') && PlainKey(k) && k' != k
    ensures var u := Placeholder(k') + s; !(|u| >= |Placeholder(k)| && u[..|Placeholder(k)|] == Placeholder(k))
  {
    var u := Placeholder(k') + s;
    var p := Placeholder(k);
    if |u| >= |p| {
      var w := u[..|p|];
      if |k| < |k'| {
        assert w[2 + |k|] == k'[|k|] && k'[|k|] in k';
        assert p[2 + |k|] == '}';
      } else if |k| > |k'| {
        assert w[2 + |k'|] == '}';
        assert p[2 + |k'|] == k[|k'|] && k[|k'|] in k;
      } else {
        var j :| 0 <= j < |k| && k[j] != k'[j];
        assert w[2 + j] == k'[j];
        assert p[2 + j] == k[j];
      }
    }
  }

  /** A placeholder is replaced where it stands. */
  lemma SlotMatch(k: string, s: string, r: string)
    ensures ReplaceAll(Placeholder(k) + s, Placeholder(k), r) == r + ReplaceAll(s, Placeholder(k), r)
  {
    var p := Placeholder(k);
    var u := p + s;
    assert u[..|p|] == p;
    assert u[|p|..] == s;
  }

  /** A placeholder for another key is copied through unchanged. */
  lemma OtherSlot(k': string, k: string, s: string, r: string)
    requires PlainKey(k') && PlainKey(k) && k' != k
    ensures ReplaceAll(Placeholder(k') + s, Placeholder(k), r) == Placeholder(k') + ReplaceAll(s, Placeholder(k), r)
  {
    var tail := k' + "}}";
    assert '{' !in tail;
    var p := Placeholder(k);
    OtherSlotFirst(k', k, s, r);
    SecondBrace(tail, s, k, r);
    JoinFront("{", "{" + tail, ReplaceAll(Placeholder(k') + s, p, r), ReplaceAll("{" + tail + s, p, r), ReplaceAll(s, p, r));
    assert "{" + ("{" + tail) == Placeholder(k');
  }

  lemma JoinFront(c: string, t: string, x: string, y: string, rest: string)
    requires x == c + y && y == t + rest
    ensures x == (c + t) + rest
  {
  }

  /** The first brace of another key's placeholder is copied through. */
  lemma OtherSlotFirst(k': string, k: string, s: string, r: string)
    requires PlainKey(k') && PlainKey(k) && k' != k
    ensures ReplaceAll(Placeholder(k') + s, Placeholder(k), r) == "{" + ReplaceAll("{" + (k' + "}}") + s, Placeholder(k), r)
  {
    var u := Placeholder(k') + s;
    var v := "{" + (k' + "}}") + s;
    assert u == "{" + v;
    assert u[1..] == v;
    NotAtSlot(k', k, s);
    ReplaceStep(u, Placeholder(k), r);
  }

  /** After a single `{`, brace-free text is copied through. */
  lemma SecondBrace(tail: string, s: string, k: string, r: string)
    requires |tail| > 0 && '{' !in tail
    ensures ReplaceAll("{" + tail + s, Placeholder(k), r) == "{" + tail + ReplaceAll(s, Placeholder(k), r)
  {
    var p := Placeholder(k);
    var v := "{" + tail + s;
    assert v[1] != '{' by {
      assert v[1] == tail[0] && tail[0] in tail;
    }
    if |v| >= |p| {
      assert v[..|p|][1] == v[1];
    }
    ReplaceStep(v, p, r);
    assert v[1..] == tail + s;
    SkipText(tail, s, p, r);
  }

  lemma SubstWellFormed(ps: seq<Piece>, k: string, r: string)
    requires WellFormed(ps) && '{' !in r
    ensures WellFormed(Subst(ps, k, r))
  {
  }

  /** One `replace(/{{k}}/g, r)` over rendered pieces replaces exactly the
      placeholders for `k`, whatever `r` holds. */
  lemma {:induction false} ReplaceRendered(ps: seq<Piece>, k: string, r: string)
    requires WellFormed(ps) && PlainKey(k)
    ensures ReplaceAll(Render(ps), Placeholder(k), r) == Render(Subst(ps, k, r))
    decreases |ps|
  {
    var p := Placeholder(k);
    if |ps| == 0 {
      assert Subst(ps, k, r) == [];
    } else {
      var rest := Render(ps[1..]);
      assert WellFormed(ps[1..]) by {
        forall i | 0 <= i < |ps| - 1 ensures ps[1..][i] == ps[i + 1] { }
      }
      ReplaceRendered(ps[1..], k, r);
      var qs := Subst(ps, k, r);
      assert qs[1..] == Subst(ps[1..], k, r);
      assert qs[0] == SubstPiece(ps[0], k, r);
      ReplaceHead(ps[0], rest, k, r);
    }
  }

  /** One piece in front of the rest: the piece is replaced on its own. */
  lemma ReplaceHead(x: Piece, rest: string, k: string, r: string)
    requires x.Text? ==> '{' !in x.text
    requires x.Slot? ==> PlainKey(x.key)
    requires PlainKey(k)
    ensures ReplaceAll(RenderPiece(x) + rest, Placeholder(k), r)
         == RenderPiece(SubstPiece(x, k, r)) + ReplaceAll(rest, Placeholder(k), r)
  {
    match x
    case Text(t) =>
      SkipText(t, rest, Placeholder(k), r);
    case Slot(k') =>
      if k' == k {
        SlotMatch(k, rest, r);
      } else {
        OtherSlot(k', k, rest, r);
      }
  }

  /** The option loop, key by key, over rendered pieces. */
  lemma {:induction false} ApplyOptionsRendered(ps: seq<Piece>, options: Fields, keys: seq<string>)
    requires WellFormed(ps)
    requires forall i :: 0 <= i < |keys| ==> PlainKey(keys[i]) && '{' !in OptionText(options, keys[i])
    ensures ApplyOptions(Render(ps), options, keys) == Render(SubstKeys(ps, options, keys))
    decreases |keys|
  {
    if |keys| > 0 {
      var qs := Subst(ps, keys[0], OptionText(options, keys[0]));
      ReplaceRendered(ps, keys[0], OptionText(options, keys[0]));
      SubstWellFormed(ps, keys[0], OptionText(options, keys[0]));
      ApplyOptionsRendered(qs, options, keys[1..]);
    }
  }

  /** The option loop fills each piece on its own. */
  lemma {:induction false} SubstKeysPointwise(ps: seq<Piece>, options: Fields, keys: seq<string>)
    ensures SubstKeys(ps, options, keys) == seq(|ps|, i requires 0 <= i < |ps| => OptionPiece(ps[i], options, keys))
    decreases |keys|
  {
    if |keys| > 0 {
      var qs := Subst(ps, keys[0], OptionText(options, keys[0]));
      SubstKeysPointwise(qs, options, keys[1..]);
      forall i | 0 <= i < |ps|
        ensures OptionPiece(qs[i], options, keys[1..]) == OptionPiece(ps[i], options, keys)
      {
        assert keys == [keys[0]] + keys[1..];
      }
    }
  }

  // ---------------------------------------------------------------------
  // The rendered prompts

  /** Every piece as the option loop leaves it. */
  function OptionPieces(ps: seq<Piece>, options: Fields): seq<Piece> {
    seq(|ps|, i requires 0 <= i < |ps| => OptionPiece(ps[i], options, Keys(options)))
  }

  /** The option loop of `buildPromptFromConfig`, piece by piece. */
  lemma OptionsFilled(ps: seq<Piece>, options: Fields, appSettings: Option<Json>)
    requires WellFormed(ps) && PlainValues(options, appSettings)
    ensures ApplyOptions(Render(ps), options, Keys(options)) == Render(OptionPieces(ps, options))
  {
    ApplyOptionsRendered(ps, options, Keys(options));
    SubstKeysPointwise(ps, options, Keys(options));
  }

  /** `{{input}}`, `{{count}}` and `{{industry}}` of the user template. */
  lemma FillUserRendered(ps: seq<Piece>, userInput: string, options: Fields, appSettings: Option<Json>)
    requires WellFormed(ps) && '{' !in userInput && PlainValues(options, appSettings)
    ensures var qs := Subst(Subst(Subst(ps, "input", userInput), "count", CountText(options, appSettings)),
                            "industry", IndustryText(options));
      FillUser(Render(ps), userInput, options, appSettings) == Render(qs) && WellFormed(qs)
  {
    var count, industry := CountText(options, appSettings), IndustryText(options);
    assert Placeholder("input") == "{{input}}";
    assert Placeholder("count") == "{{count}}";
    assert Placeholder("industry") == "{{industry}}";
    ReplaceRendered(ps, "input", userInput);
    var ps1 := Subst(ps, "input", userInput);
    SubstWellFormed(ps, "input", userInput);
    ReplaceRendered(ps1, "count", count);
    var ps2 := Subst(ps1, "count", count);
    SubstWellFormed(ps1, "count", count);
    ReplaceRendered(ps2, "industry", industry);
    SubstWellFormed(ps2, "industry", industry);
  }

  /** `{{count}}` and `{{industry}}` of the system template. */
  lemma FillSystemRendered(ps: seq<Piece>, options: Fields, appSettings: Option<Json>)
    requires WellFormed(ps) && PlainValues(options, appSettings)
    ensures var qs := Subst(Subst(ps, "count", CountText(options, appSettings)), "industry", IndustryText(options));
      FillSystem(Render(ps), options, appSettings) == Render(qs) && WellFormed(qs)
  {
    var count, industry := CountText(options, appSettings), IndustryText(options);
    assert Placeholder("count") == "{{count}}";
    assert Placeholder("industry") == "{{industry}}";
    ReplaceRendered(ps, "count", count);
    var ps1 := Subst(ps, "count", count);
    SubstWellFormed(ps, "count", count);
    ReplaceRendered(ps1, "industry", industry);
    SubstWellFormed(ps1, "industry", industry);
  }

  /** The user template's substitutions, piece by piece. */
  lemma FilledUser(ps: seq<Piece>, userInput: string, options: Fields, appSettings: Option<Json>)
    requires WellFormed(ps) && '{' !in userInput && PlainValues(options, appSettings)
    ensures ApplyOptions(FillUser(Render(ps), userInput, options, appSettings), options, Keys(options))
         == Render(UserPieces(ps, userInput, options, appSettings))
  {
    var count, industry := CountText(options, appSettings), IndustryText(options);
    var qs := Subst(Subst(Subst(ps, "input", userInput), "count", count), "industry", industry);
    FillUserRendered(ps, userInput, options, appSettings);
    OptionsFilled(qs, options, appSettings);
    UserPiecesInOrder(ps, userInput, options, appSettings);
  }

  /** The user pieces are the option loop applied after the three fixed
      substitutions. */
  lemma UserPiecesInOrder(ps: seq<Piece>, userInput: string, options: Fields, appSettings: Option<Json>)
    ensures var qs := Subst(Subst(Subst(ps, "input", userInput), "count", CountText(options, appSettings)),
                            "industry", IndustryText(options));
      OptionPieces(qs, options) == UserPieces(ps, userInput, options, appSettings)
  {
    var count, industry := CountText(options, appSettings), IndustryText(options);
    var qs := Subst(Subst(Subst(ps, "input", userInput), "count", count), "industry", industry);
    forall i | 0 <= i < |ps| ensures OptionPieces(qs, options)[i] == UserPieces(ps, userInput, options, appSettings)[i] {
      assert qs[i] == SubstPiece(SubstPiece(SubstPiece(ps[i], "input", userInput), "count", count), "industry", industry);
    }
  }

  /** The system template's substitutions, piece by piece, with the
      boundary behind them. */
  lemma FilledSystem(ps: seq<Piece>, boundary: string, options: Fields, appSettings: Option<Json>)
    requires WellFormed(ps) && Inert(boundary) && PlainValues(options, appSettings)
    ensures ApplyOptions(FillSystem(Render(ps), options, appSettings) + boundary, options, Keys(options))
         == Render(SystemPieces(ps, options, appSettings)) + boundary
  {
    var count, industry := CountText(options, appSettings), IndustryText(options);
    var qs := Subst(Subst(ps, "count", count), "industry", industry);
    FillSystemRendered(ps, options, appSettings);
    ApplyOptionsInertSuffix(Render(qs), boundary, options, Keys(options));
    OptionsFilled(qs, options, appSettings);
    SystemPiecesInOrder(ps, options, appSettings);
  }

  /** The system pieces are the option loop applied after the two fixed
      substitutions. */
  lemma SystemPiecesInOrder(ps: seq<Piece>, options: Fields, appSettings: Option<Json>)
    ensures var qs := Subst(Subst(ps, "count", CountText(options, appSettings)), "industry", IndustryText(options));
      OptionPieces(qs, options) == SystemPieces(ps, options, appSettings)
  {
    var count, industry := CountText(options, appSettings), IndustryText(options);
    var qs := Subst(Subst(ps, "count", count), "industry", industry);
    forall i | 0 <= i < |ps| ensures OptionPieces(qs, options)[i] == SystemPieces(ps, options, appSettings)[i] {
      assert qs[i] == SubstPiece(SubstPiece(ps[i], "count", count), "industry", industry);
    }
  }

  /** The user prompt, piece by piece: `{{input}}`, `{{count}}` and
      `{{industry}}` take their values, a placeholder for an option key
      takes `String(options[key] || '')`, and any other placeholder is left
      as written. */
  lemma UserPromptRendered(prose: Prose, promptConfig: Option<Json>, userInput: string,
                           appSettings: Option<Json>, options: Fields, ps: seq<Piece>)
    requires BuildPromptFromConfig(prose, promptConfig, userInput, appSettings, options).Ok?
    requires MemberOf(promptConfig, "userTemplate").value.s == Render(ps) && WellFormed(ps)
    requires '{' !in userInput && PlainValues(options, appSettings)
    ensures BuildPromptFromConfig(prose, promptConfig, userInput, appSettings, options).value.userPrompt
         == Render(UserPieces(ps, userInput, options, appSettings))
  {
    FilledUser(ps, userInput, options, appSettings);
  }

  /** The system prompt, piece by piece, followed by the boundary: as for
      the user prompt, except that `{{input}}` is filled only when it is
      also an option key. */
  lemma SystemPromptRendered(prose: Prose, promptConfig: Option<Json>, userInput: string,
                             appSettings: Option<Json>, options: Fields, ps: seq<Piece>)
    requires BuildPromptFromConfig(prose, promptConfig, userInput, appSettings, options).Ok?
    requires InertProse(prose)
    requires MemberOf(promptConfig, "systemTemplate").value.s == Render(ps) && WellFormed(ps)
    requires PlainValues(options, appSettings)
    ensures BuildPromptFromConfig(prose, promptConfig, userInput, appSettings, options).value.systemPrompt
         == Render(SystemPieces(ps, options, appSettings)) + prose.generationBoundary
  {
    FilledSystem(ps, prose.generationBoundary, options, appSettings);
  }

  // ---------------------------------------------------------------------
  // One placeholder at a time

  lemma SystemPiecesAround(a: seq<Piece>, x: Piece, b: seq<Piece>, options: Fields, appSettings: Option<Json>)
    ensures Render(SystemPieces(a + [x] + b, options, appSettings))
         == Render(SystemPieces(a, options, appSettings)) + RenderPiece(SystemPiece(x, options, appSettings))
          + Render(SystemPieces(b, options, appSettings))
  {
    var l, r := SystemPieces(a, options, appSettings), SystemPieces(b, options, appSettings);
    var y := SystemPiece(x, options, appSettings);
    var s := a + [x] + b;
    forall i | 0 <= i < |s| ensures SystemPieces(s, options, appSettings)[i] == (l + [y] + r)[i] {
      if i < |a| {
        assert s[i] == a[i];
      } else if i > |a| {
        assert s[i] == b[i - |a| - 1];
      }
    }
    assert SystemPieces(s, options, appSettings) == l + [y] + r;
    RenderConcat(l + [y], r);
    RenderConcat(l, [y]);
  }

  lemma UserPiecesAround(a: seq<Piece>, x: Piece, b: seq<Piece>, userInput: string, options: Fields, appSettings: Option<Json>)
    ensures Render(UserPieces(a + [x] + b, userInput, options, appSettings))
         == Render(UserPieces(a, userInput, options, appSettings)) + RenderPiece(UserPiece(x, userInput, options, appSettings))
          + Render(UserPieces(b, userInput, options, appSettings))
  {
    var l, r := UserPieces(a, userInput, options, appSettings), UserPieces(b, userInput, options, appSettings);
    var y := UserPiece(x, userInput, options, appSettings);
    var s := a + [x] + b;
    forall i | 0 <= i < |s| ensures UserPieces(s, userInput, options, appSettings)[i] == (l + [y] + r)[i] {
      if i < |a| {
        assert s[i] == a[i];
      } else if i > |a| {
        assert s[i] == b[i - |a| - 1];
      }
    }
    assert UserPieces(s, userInput, options, appSettings) == l + [y] + r;
    RenderConcat(l + [y], r);
    RenderConcat(l, [y]);
  }

  /** A placeholder in the system template whose key is neither `count`,
      `industry` nor an option key reaches the prompt as written; this
      covers `{{input}}` unless `input` is an option key. */
  lemma SystemPlaceholderKept(prose: Prose, promptConfig: Option<Json>, userInput: string,
                              appSettings: Option<Json>, options: Fields,
                              a: seq<Piece>, k: string, b: seq<Piece>)
    requires BuildPromptFromConfig(prose, promptConfig, userInput, appSettings, options).Ok?
    requires InertProse(prose)
    requires MemberOf(promptConfig, "systemTemplate").value.s == Render(a + [Slot(k)] + b)
    requires WellFormed(a + [Slot(k)] + b) && PlainValues(options, appSettings)
    requires k != "count" && k != "industry" && k !in Keys(options)
    ensures BuildPromptFromConfig(prose, promptConfig, userInput, appSettings, options).value.systemPrompt
         == Render(SystemPieces(a, options, appSettings)) + Placeholder(k)
          + Render(SystemPieces(b, options, appSettings)) + prose.generationBoundary
  {
    SystemPromptRendered(prose, promptConfig, userInput, appSettings, options, a + [Slot(k)] + b);
    SystemPiecesAround(a, Slot(k), b, options, appSettings);
  }

  /** A placeholder in the system template whose key is an option key
      (other than `count` and `industry`, which are filled first) becomes
      `String(options[key] || '')`. */
  lemma SystemOptionFilled(prose: Prose, promptConfig: Option<Json>, userInput: string,
                           appSettings: Option<Json>, options: Fields,
                           a: seq<Piece>, k: string, b: seq<Piece>)
    requires BuildPromptFromConfig(prose, promptConfig, userInput, appSettings, options).Ok?
    requires InertProse(prose)
    requires MemberOf(promptConfig, "systemTemplate").value.s == Render(a + [Slot(k)] + b)
    requires WellFormed(a + [Slot(k)] + b) && PlainValues(options, appSettings)
    requires k != "count" && k != "industry" && k in Keys(options)
    ensures BuildPromptFromConfig(prose, promptConfig, userInput, appSettings, options).value.systemPrompt
         == Render(SystemPieces(a, options, appSettings)) + OptionText(options, k)
          + Render(SystemPieces(b, options, appSettings)) + prose.generationBoundary
  {
    SystemPromptRendered(prose, promptConfig, userInput, appSettings, options, a + [Slot(k)] + b);
    SystemPiecesAround(a, Slot(k), b, options, appSettings);
  }

  /** A `{{input}}`, `{{count}}` or `{{industry}}` placeholder in the user
      template becomes the user's input, the count or the industry. */
  lemma UserBuiltinFilled(prose: Prose, promptConfig: Option<Json>, userInput: string,
                          appSettings: Option<Json>, options: Fields,
                          a: seq<Piece>, k: string, b: seq<Piece>)
    requires BuildPromptFromConfig(prose, promptConfig, userInput, appSettings, options).Ok?
    requires MemberOf(promptConfig, "userTemplate").value.s == Render(a + [Slot(k)] + b)
    requires WellFormed(a + [Slot(k)] + b) && '{' !in userInput && PlainValues(options, appSettings)
    requires k == "input" || k == "count" || k == "industry"
    ensures var v := if k == "input" then userInput
                     else if k == "count" then CountText(options, appSettings)
                     else IndustryText(options);
      BuildPromptFromConfig(prose, promptConfig, userInput, appSettings, options).value.userPrompt
        == Render(UserPieces(a, userInput, options, appSettings)) + v
         + Render(UserPieces(b, userInput, options, appSettings))
  {
    UserPromptRendered(prose, promptConfig, userInput, appSettings, options, a + [Slot(k)] + b);
    UserPiecesAround(a, Slot(k), b, userInput, options, appSettings);
  }

  // ---------------------------------------------------------------------
  // No placeholder survives where none is left

  lemma OccursPastText(t: string, s: string, p: string, i: int)
    requires |p| > 0 && p[0] == '{' && '{' !in t && OccursAt(t + s, p, i)
    ensures i >= |t| && OccursAt(s, p, i - |t|)
  {
    var u := t + s;
    assert u[i] == '{' by {
      assert u[i..i + |p|][0] == u[i];
    }
    forall j | 0 <= j < |t| ensures u[j] != '{' {
      assert u[j] == t[j] && t[j] in t;
    }
    assert s[i - |t|..i - |t| + |p|] == u[i..i + |p|];
  }

  lemma OccursPastSlot(k': string, k: string, s: string, i: int)
    requires PlainKey(k') && PlainKey(k) && k' != k && OccursAt(Placeholder(k') + s, Placeholder(k), i)
    ensures i >= |Placeholder(k')| && OccursAt(s, Placeholder(k), i - |Placeholder(k')|)
  {
    var q, p := Placeholder(k'), Placeholder(k);
    var u := q + s;
    var tail := k' + "}}";
    assert q == "{{" + tail;
    NotAtSlot(k', k, s);
    assert i != 0 by {
      assert u[0..|p|] == u[..|p|];
    }
    assert u[i] == '{' && u[i + 1] == '{' by {
      assert u[i..i + |p|][0] == u[i];
      assert u[i..i + |p|][1] == u[i + 1];
    }
    forall j | 2 <= j < |q| ensures u[j] != '{' {
      assert u[j] == tail[j - 2] && tail[j - 2] in tail;
    }
    assert s[i - |q|..i - |q| + |p|] == u[i..i + |p|];
  }

  /** Rendered pieces hold `{{k}}` only where a piece is the placeholder
      for `k`. */
  lemma {:induction false} NoPlaceholderLeft(ps: seq<Piece>, k: string)
    requires WellFormed(ps) && PlainKey(k)
    requires forall i :: 0 <= i < |ps| ==> ps[i] != Slot(k)
    ensures forall i :: !OccursAt(Render(ps), Placeholder(k), i)
    decreases |ps|
  {
    var p := Placeholder(k);
    if |ps| > 0 {
      var rest := Render(ps[1..]);
      assert WellFormed(ps[1..]) by {
        forall i | 0 <= i < |ps| - 1 ensures ps[1..][i] == ps[i + 1] { }
      }
      NoPlaceholderLeft(ps[1..], k);
      forall i ensures !OccursAt(Render(ps), p, i) {
        if OccursAt(Render(ps), p, i) {
          match ps[0]
          case Text(t) =>
            OccursPastText(t, rest, p, i);
          case Slot(k') =>
            OccursPastSlot(k', k, rest, i);
        }
      }
    }
  }

  /** Once the substituted texts open no placeholder, the user prompt
      holds no `{{input}}`. */
  lemma UserPromptHasNoInputPlaceholder(prose: Prose, promptConfig: Option<Json>, userInput: string,
                                        appSettings: Option<Json>, options: Fields, ps: seq<Piece>)
    requires BuildPromptFromConfig(prose, promptConfig, userInput, appSettings, options).Ok?
    requires MemberOf(promptConfig, "userTemplate").value.s == Render(ps) && WellFormed(ps)
    requires '{' !in userInput && PlainValues(options, appSettings)
    ensures forall i :: !OccursAt(BuildPromptFromConfig(prose, promptConfig, userInput, appSettings, options).value.userPrompt,
                                  "{{input}}", i)
  {
    UserPromptRendered(prose, promptConfig, userInput, appSettings, options, ps);
    NoInputInUserPieces(ps, userInput, options, appSettings);
  }

  lemma NoInputInUserPieces(ps: seq<Piece>, userInput: string, options: Fields, appSettings: Option<Json>)
    requires WellFormed(ps) && '{' !in userInput && PlainValues(options, appSettings)
    ensures forall i :: !OccursAt(Render(UserPieces(ps, userInput, options, appSettings)), "{{input}}", i)
  {
    UserPiecesPlain(ps, userInput, options, appSettings);
    NoPlaceholderLeft(UserPieces(ps, userInput, options, appSettings), "input");
    assert Placeholder("input") == "{{input}}";
  }

  /** The filled user template is well formed and holds no `{{input}}`
      piece. */
  lemma UserPiecesPlain(ps: seq<Piece>, userInput: string, options: Fields, appSettings: Option<Json>)
    requires WellFormed(ps) && '{' !in userInput && PlainValues(options, appSettings)
    ensures var qs := UserPieces(ps, userInput, options, appSettings);
      WellFormed(qs) && forall i :: 0 <= i < |qs| ==> qs[i] != Slot("input")
  {
  }
}
