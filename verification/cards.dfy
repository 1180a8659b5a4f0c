/** Card identity: stamping ids and scores onto model output, and finding a
    card again by its id (src/generate/generate.service.ts).

    The values the service draws from outside are infinite oracles: the
    n-th uuid v4 (section 4.4 of RFC 4122), the n-th `Math.random()` draw,
    and `JSON.parse`, which yields `None` where it throws. A `Cursor`
    counts how many of each have been consumed.
 */
module Cards {
  import opened Wrappers
  import opened Json

  /** A `Math.random()` draw: a real in [0, 1). */
  type Unit = r: real | 0.0 <= r < 1.0

  datatype Oracles = Oracles(parse: string -> Option<Json>, uuid: nat -> string, random: nat -> Unit)

  datatype Cursor = Cursor(ids: nat, draws: nat)

  /** A value computed together with the oracle cursor after it. */
  datatype Step<T> = Step(result: Result<T>, next: Cursor)

  /** `JSON.parse` of a string literal yields a shorter string: the quotes
      are gone and escapes only shrink. */
  ghost predicate ParseShrinksStrings(parse: string -> Option<Json>) {
    forall s :: parse(s).Some? && parse(s).value.JStr? ==> |parse(s).value.s| < |s|
  }

  /** uuid v4 values never repeat. */
  ghost predicate FreshIds(uuid: nat -> string) {
    forall a: nat, b: nat :: a != b ==> uuid(a) != uuid(b)
  }

  // ---------------------------------------------------------------------
  // Scores

  /** A generated score: a tenth between 7.0 and 9.5. */
  predicate IsRandomScore(v: Json) {
    v.JNum? && v.n.exponent == 1 && 70 <= v.n.mantissa <= 95
  }

  /** `Math.round((r * 2.5 + 7.0) * 10) / 10`, rounding half up. */
  function RandomScore(r: Unit): (v: Json)
    ensures IsRandomScore(v) && Truthy(v)
    ensures (v.n.mantissa as real) - 0.5 <= 25.0 * r + 70.0 < (v.n.mantissa as real) + 0.5
  {
    var t := (25.0 * r + 70.5).Floor;
    assert 70 <= t <= 95;
    JNum(Decimal(t, 1))
  }

  // ---------------------------------------------------------------------
  // Stamping

  predicate HasId(card: Json, id: string) {
    Member(card, "id") == Some(JStr(id))
  }

  /** `{ ...card, id, score }`: the card's own entries, then `id`, then
      `score`, each overwriting an entry of the same key. */
  function StampCard(card: Json, id: string, score: Json): (out: Json)
    ensures out.JObj?
    ensures HasId(out, id)
    ensures Member(out, "score") == Some(score)
    ensures forall k :: k != "id" && k != "score" ==> Lookup(out.fields, k) == Lookup(Entries(card), k)
  {
    var e := Entries(card);
    var a := Assign([], e);
    var f := Set(Set(a, "id", JStr(id)), "score", score);
    LookupSet(Set(a, "id", JStr(id)), "score", score, "id");
    LookupSet(a, "id", JStr(id), "id");
    LookupSet(Set(a, "id", JStr(id)), "score", score, "score");
    assert forall k :: k != "id" && k != "score" ==> Lookup(f, k) == Lookup(e, k) by {
      forall k | k != "id" && k != "score"
        ensures Lookup(f, k) == Lookup(e, k)
      {
        LookupSet(Set(a, "id", JStr(id)), "score", score, k);
        LookupSet(a, "id", JStr(id), k);
        LookupAssign([], e, k);
      }
    }
    JObj(f)
  }

  /** `out` is `{ ...card, id, score: card.score || <random> }`. */
  ghost predicate StampedFrom(card: Json, out: Json, id: string) {
    && out.JObj?
    && HasId(out, id)
    && Member(out, "score").Some?
    && (Present(Member(card, "score")) ==> Member(out, "score") == Member(card, "score"))
    && (!Present(Member(card, "score")) ==> IsRandomScore(Member(out, "score").value))
    && (forall k :: k != "id" && k != "score" ==> Lookup(out.fields, k) == Lookup(Entries(card), k))
  }

  /** One element of `content.map(card => ({ ...card, id: uuidv4(), score:
      card.score || generateRandomScore() }))`. The uuid is drawn before
      `card.score` is read, so a `null` card consumes an id and then throws. */
  method Stamp(card: Json, o: Oracles, cur: Cursor) returns (r: Result<Json>, next: Cursor)
    ensures r.Err? <==> card.JNull?
    ensures r.Ok? ==> StampedFrom(card, r.value, o.uuid(cur.ids))
    ensures next.ids == cur.ids + 1
    ensures next.draws == if card.JNull? || Present(Member(card, "score")) then cur.draws else cur.draws + 1
  {
    var id := o.uuid(cur.ids);
    if card.JNull? {
      return Err(Failure("Cannot read properties of null (reading 'score')")), Cursor(cur.ids + 1, cur.draws);
    }
    var kept := Member(card, "score");
    if Present(kept) {
      r, next := Ok(StampCard(card, id, kept.value)), Cursor(cur.ids + 1, cur.draws);
    } else {
      r, next := Ok(StampCard(card, id, RandomScore(o.random(cur.draws)))), Cursor(cur.ids + 1, cur.draws + 1);
    }
  }

  /** Stamps every card left to right; the first `null` card aborts the
      map and nothing stamped so far survives. */
  method StampAll(items: seq<Json>, o: Oracles, cur: Cursor) returns (r: Result<seq<Json>>, next: Cursor)
    ensures r.Err? <==> JNull in items
    ensures r.Ok? ==> |r.value| == |items|
    ensures r.Ok? ==> forall i :: 0 <= i < |items| ==> StampedFrom(items[i], r.value[i], o.uuid(cur.ids + i))
    ensures r.Ok? ==> next.ids == cur.ids + |items|
    ensures next.ids >= cur.ids && next.draws >= cur.draws
  {
    var out: seq<Json> := [];
    next := cur;
    var i := 0;
    while i < |items|
      invariant 0 <= i <= |items|
      invariant |out| == i && next.ids == cur.ids + i && next.draws >= cur.draws
      invariant JNull !in items[..i]
      invariant forall j :: 0 <= j < i ==> StampedFrom(items[j], out[j], o.uuid(cur.ids + j))
    {
      var c;
      c, next := Stamp(items[i], o, next);
      if c.Err? {
        return Err(c.error), next;
      }
      assert items[..i + 1] == items[..i] + [items[i]];
      out := out + [c.value];
      i := i + 1;
    }
    assert items[..i] == items;
    return Ok(out), next;
  }

  /** The card an unparseable string becomes: `{ id, content, score }`. */
  function TextCard(text: string, o: Oracles, cur: Cursor): (s: Step<Json>)
    ensures s.result.Ok? && s.result.value.JObj?
    ensures Keys(s.result.value.fields) == ["id", "content", "score"]
    ensures HasId(s.result.value, o.uuid(cur.ids))
    ensures Member(s.result.value, "content") == Some(JStr(text))
    ensures Member(s.result.value, "score").Some? && IsRandomScore(Member(s.result.value, "score").value)
    ensures s.next == Cursor(cur.ids + 1, cur.draws + 1)
  {
    var f := [("id", JStr(o.uuid(cur.ids))), ("content", JStr(text)), ("score", RandomScore(o.random(cur.draws)))];
    var f1, f2 := f[..1], f[..2];
    assert f2[..1] == f1 && f[..2] == f2 && f1[..0] == [];
    assert Keys(f1) == ["id"] && Keys(f2) == ["id", "content"];
    assert Lookup(f1, "id") == Some(JStr(o.uuid(cur.ids)));
    assert Lookup(f, "id") == Lookup(f2, "id") == Lookup(f1, "id");
    assert Lookup(f, "content") == Lookup(f2, "content");
    Step(Ok(JObj(f)), Cursor(cur.ids + 1, cur.draws + 1))
  }

  /** Well-founded rank for `assignCardIds`: only a string recurses, on
      what it parses to. */
  function Rank(v: Json): nat {
    if v.JStr? then |v.s| + 1 else 0
  }

  /** `assignCardIds`. A string is parsed and the result processed again;
      any failure there, unparseable text or a `null` card alike, is caught
      and the original text becomes one card. An array has every element
      stamped; an object is stamped itself; `null`, booleans and numbers
      come back unchanged. */
  method AssignCardIds(content: Json, o: Oracles, cur: Cursor) returns (r: Result<Json>, next: Cursor)
    requires ParseShrinksStrings(o.parse)
    ensures r.Err? <==> content.JArr? && JNull in content.items
    ensures content.JArr? && r.Ok? ==>
      && r.value.JArr?
      && |r.value.items| == |content.items|
      && forall i :: 0 <= i < |content.items| ==> StampedFrom(content.items[i], r.value.items[i], o.uuid(cur.ids + i))
    ensures content.JObj? ==> r.Ok? && StampedFrom(content, r.value, o.uuid(cur.ids))
    ensures content.JNull? || content.JBool? || content.JNum? ==> r == Ok(content) && next == cur
    ensures content.JStr? && o.parse(content.s).None? ==> Step(r, next) == TextCard(content.s, o, cur)
    ensures content.JStr? ==> r.Ok?
    ensures content.JStr? && o.parse(content.s).Some? && (o.parse(content.s).value.JNull? || o.parse(content.s).value.JBool? || o.parse(content.s).value.JNum?) ==>
      r == Ok(o.parse(content.s).value) && next == cur
    ensures content.JStr? && o.parse(content.s).Some? && o.parse(content.s).value.JArr? ==>
      var items := o.parse(content.s).value.items;
      if JNull in items then r.value.JObj? && Member(r.value, "content") == Some(content)
      else
        && r.value.JArr?
        && |r.value.items| == |items|
        && forall i :: 0 <= i < |items| ==> StampedFrom(items[i], r.value.items[i], o.uuid(cur.ids + i))
    ensures content.JStr? && o.parse(content.s).Some? && o.parse(content.s).value.JObj? ==>
      r.Ok? && StampedFrom(o.parse(content.s).value, r.value, o.uuid(cur.ids))
    ensures content.JStr? && o.parse(content.s).Some? && o.parse(content.s).value.JStr? ==>
      var t := o.parse(content.s).value.s;
      o.parse(t).None? ==> Step(r, next) == TextCard(t, o, cur)
    ensures r.Ok? ==> !r.value.JStr?
    ensures r.Ok? && r.value.JArr? ==>
      forall i :: 0 <= i < |r.value.items| ==> HasId(r.value.items[i], o.uuid(cur.ids + i))
    ensures next.ids >= cur.ids
    decreases Rank(content)
  {
    match content
    case JStr(text) =>
      var parsed := o.parse(text);
      if parsed.None? {
        var s := TextCard(text, o, cur);
        return s.result, s.next;
      }
      r, next := AssignCardIds(parsed.value, o, cur);
      if r.Err? {
        var s := TextCard(text, o, next);
        r, next := s.result, s.next;
      }
    case JArr(items) =>
      var stamped;
      stamped, next := StampAll(items, o, cur);
      if stamped.Err? {
        r := Err(stamped.error);
      } else {
        r := Ok(JArr(stamped.value));
      }
    case JObj(_) =>
      r, next := Stamp(content, o, cur);
    case _ =>
      r, next := Ok(content), cur;
  }

  // ---------------------------------------------------------------------
  // Lookup by id

  /** Some element is `null` and no element before it has the id: the
      search reaches that `null` and throws. */
  predicate NullBeforeMatch(items: seq<Json>, id: string) {
    exists j :: 0 <= j < |items| && items[j].JNull? && forall k :: 0 <= k < j ==> !HasId(items[k], id)
  }

  /** Skipping a head that is neither `null` nor a match changes nothing. */
  lemma NullBeforeMatchTail(items: seq<Json>, id: string)
    requires |items| > 0 && !items[0].JNull? && !HasId(items[0], id)
    ensures NullBeforeMatch(items, id) <==> NullBeforeMatch(items[1..], id)
  {
    if NullBeforeMatch(items, id) {
      var j :| 0 <= j < |items| && items[j].JNull? && forall k :: 0 <= k < j ==> !HasId(items[k], id);
      assert items[1..][j - 1].JNull?;
      forall k | 0 <= k < j - 1 ensures !HasId(items[1..][k], id) {
        assert items[1..][k] == items[k + 1];
      }
    }
    if NullBeforeMatch(items[1..], id) {
      var j :| 0 <= j < |items[1..]| && items[1..][j].JNull? && forall k :: 0 <= k < j ==> !HasId(items[1..][k], id);
      assert items[j + 1].JNull?;
      forall k | 0 <= k < j + 1 ensures !HasId(items[k], id) {
        if k > 0 { assert items[k] == items[1..][k - 1]; }
      }
    }
  }

  /** Index `i` holds the first element with the id, and no `null` comes
      before it. */
  predicate FirstMatchAt(items: seq<Json>, id: string, i: int) {
    0 <= i < |items| && HasId(items[i], id) &&
    JNull !in items[..i] && forall k :: 0 <= k < i ==> !HasId(items[k], id)
  }

  /** A first match in the tail is a first match one place further on. */
  lemma FirstMatchShift(items: seq<Json>, id: string, i: int)
    requires |items| > 0 && !items[0].JNull? && !HasId(items[0], id)
    requires FirstMatchAt(items[1..], id, i)
    ensures FirstMatchAt(items, id, i + 1) && items[i + 1] == items[1..][i]
  {
    assert items[..i + 1] == [items[0]] + items[1..][..i];
    forall k | 0 <= k < i + 1 ensures !HasId(items[k], id) {
      if k > 0 { assert items[k] == items[1..][k - 1]; }
    }
  }

  /** A matching head leaves no `null` before the first match. */
  lemma MatchHeadNoNull(items: seq<Json>, id: string)
    requires |items| > 0 && HasId(items[0], id)
    ensures !NullBeforeMatch(items, id) && FirstMatchAt(items, id, 0)
  {
    assert items[..0] == [];
    forall j | 0 <= j < |items| && items[j].JNull?
      ensures !(forall k :: 0 <= k < j ==> !HasId(items[k], id))
    {
      assert j > 0 && HasId(items[0], id);
    }
  }

  /** `content.find(card => card.id === cardId)`: reading `.id` of a `null`
      element throws. */
  function FindIn(items: seq<Json>, id: string): (r: Result<Option<Json>>)
    ensures r.Err? <==> NullBeforeMatch(items, id)
    ensures r == Ok(None) ==> JNull !in items && forall k :: 0 <= k < |items| ==> !HasId(items[k], id)
    ensures r.Ok? && r.value.Some? ==> exists i :: FirstMatchAt(items, id, i) && items[i] == r.value.value
  {
    if |items| == 0 then Ok(None)
    else if items[0].JNull? then
      assert items[0].JNull?;
      Err(Failure("Cannot read properties of null (reading 'id')"))
    else if HasId(items[0], id) then
      MatchHeadNoNull(items, id);
      Ok(Some(items[0]))
    else
      var r := FindIn(items[1..], id);
      NullBeforeMatchTail(items, id);
      if r.Ok? && r.value.Some? then
        var i :| FirstMatchAt(items[1..], id, i) && items[1..][i] == r.value.value;
        FirstMatchShift(items, id, i);
        r
      else
        assert r == Ok(None) ==> items == [items[0]] + items[1..];
        r
  }

  /** `findCardById`: the first array element with that id, a lone object
      whose id matches, or nothing. */
  function FindCardById(content: Json, id: string): (r: Result<Option<Json>>)
    ensures r.Ok? && r.value.Some? ==>
      HasId(r.value.value, id) && if content.JArr? then r.value.value in content.items else r.value.value == content
    ensures r == Ok(None) ==>
      if content.JArr? then JNull !in content.items && forall k :: 0 <= k < |content.items| ==> !HasId(content.items[k], id)
      else !HasId(content, id)
    ensures r.Err? <==> content.JArr? && NullBeforeMatch(content.items, id)
  {
    if content.JArr? then FindIn(content.items, id)
    else if content.JObj? && HasId(content, id) then Ok(Some(content))
    else Ok(None)
  }

  /** Cards whose ids are pairwise distinct. */
  predicate DistinctIds(items: seq<Json>, ids: seq<string>) {
    && |ids| == |items|
    && (forall i :: 0 <= i < |items| ==> HasId(items[i], ids[i]))
    && (forall i, j :: 0 <= i < j < |ids| ==> ids[i] != ids[j])
  }

  lemma {:induction false} FindInDistinct(items: seq<Json>, ids: seq<string>, i: nat)
    requires DistinctIds(items, ids) && i < |items|
    ensures FindIn(items, ids[i]) == Ok(Some(items[i]))
    decreases |items|
  {
    assert !items[0].JNull?;
    if i > 0 {
      assert ids[0] != ids[i];
      FindInDistinct(items[1..], ids[1..], i - 1);
    }
  }

  /** With fresh uuids, `findCardById` is a left inverse of stamping: in
      cards stamped with consecutive uuids, each id handed out finds exactly
      the card that received it. */
  lemma FindAfterStamping(cards: seq<Json>, uuid: nat -> string, base: nat, i: nat)
    requires FreshIds(uuid)
    requires forall j :: 0 <= j < |cards| ==> HasId(cards[j], uuid(base + j))
    requires i < |cards|
    ensures FindCardById(JArr(cards), uuid(base + i)) == Ok(Some(cards[i]))
  {
    var ids := seq(|cards|, k requires 0 <= k < |cards| => uuid(base + k));
    FindInDistinct(cards, ids, i);
  }

  /** A lone stamped object is found by its own id. */
  lemma FindStampedObject(card: Json, id: string)
    requires card.JObj? && HasId(card, id)
    ensures FindCardById(card, id) == Ok(Some(card))
  {
  }
}
