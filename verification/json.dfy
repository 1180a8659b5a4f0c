/** JSON values (RFC 8259) as the services see them after `JSON.parse`,
    with the handful of JavaScript operations the core applies to them:
    truthiness, `||`, own-property lookup, object spread and `String(v)`.

    An object is an association list in insertion order. Lookup takes the
    last entry with the key, as `JSON.parse` keeps the last of duplicate
    keys, and assignment overwrites a key in place or appends it, as
    `{ ...a, k: v }` does.
 */
module Json {
  import opened Wrappers
  import opened Strings

  /** A JSON number written in decimal: `mantissa × 10^-exponent`. */
  datatype Decimal = Decimal(mantissa: int, exponent: nat)

  type Fields = seq<(string, Json)>

  datatype Json =
    | JNull
    | JBool(b: bool)
    | JNum(n: Decimal)
    | JStr(s: string)
    | JArr(items: seq<Json>)
    | JObj(fields: Fields)

  /** JavaScript truthiness: `null`, `false`, `0` and `''` are falsy. */
  predicate Truthy(v: Json) {
    match v
    case JNull => false
    case JBool(b) => b
    case JNum(d) => d.mantissa != 0
    case JStr(s) => |s| > 0
    case JArr(_) => true
    case JObj(_) => true
  }

  /** Truthiness of a value that may be `undefined`. */
  predicate Present(v: Option<Json>) {
    v.Some? && Truthy(v.value)
  }

  /** `a || b` where `a` may be `undefined`. */
  function Or(a: Option<Json>, b: Json): (r: Json)
    ensures Present(a) ==> r == a.value
    ensures !Present(a) ==> r == b
  {
    if Present(a) then a.value else b
  }

  function Num(n: int): Json {
    JNum(Decimal(n, 0))
  }

  // ---------------------------------------------------------------------
  // Objects

  /** The keys in insertion order. `Object.keys` would list integer-like
      keys first, in ascending order; that ordering is not modelled. */
  function Keys(f: Fields): (ks: seq<string>)
    ensures |ks| == |f|
  {
    if |f| == 0 then [] else Keys(f[..|f| - 1]) + [f[|f| - 1].0]
  }

  /** `k in obj` for an own property. */
  predicate HasKey(f: Fields, k: string) {
    |f| > 0 && (f[|f| - 1].0 == k || HasKey(f[..|f| - 1], k))
  }

  /** `obj[k]` on an object's own properties. */
  function Lookup(f: Fields, k: string): (r: Option<Json>)
    ensures r.Some? <==> HasKey(f, k)
  {
    if |f| == 0 then None
    else if f[|f| - 1].0 == k then Some(f[|f| - 1].1)
    else Lookup(f[..|f| - 1], k)
  }

  /** `v.k` (and `v?.k`): an object's own property; `undefined` on any
      other value, including `null` under optional chaining. */
  function Member(v: Json, k: string): (r: Option<Json>)
    ensures r.Some? ==> v.JObj? && HasKey(v.fields, k)
  {
    if v.JObj? then Lookup(v.fields, k) else None
  }

  /** `m?.k` where `m` itself may be `undefined`. */
  function MemberOf(v: Option<Json>, k: string): Option<Json> {
    if v.Some? then Member(v.value, k) else None
  }

  function Rewrite(f: Fields, k: string, v: Json): (r: Fields)
    ensures Keys(r) == Keys(f)
  {
    if |f| == 0 then []
    else
      var last := if f[|f| - 1].0 == k then (k, v) else f[|f| - 1];
      Rewrite(f[..|f| - 1], k, v) + [last]
  }

  /** `{ ...f, [k]: v }`: overwrite in place, or append a new key. */
  function Set(f: Fields, k: string, v: Json): (r: Fields)
    ensures Keys(r) == if HasKey(f, k) then Keys(f) else Keys(f) + [k]
  {
    if HasKey(f, k) then Rewrite(f, k, v) else f + [(k, v)]
  }

  /** `{ ...f, ...m }` for the own entries `m` of the spread value. */
  function Assign(f: Fields, m: Fields): Fields
    decreases |m|
  {
    if |m| == 0 then f else Assign(Set(f, m[0].0, m[0].1), m[1..])
  }

  /** The own enumerable entries a spread copies: an object's fields, an
      array's or a string's index keys, nothing for `null`, booleans and
      numbers. */
  function Entries(v: Json): (r: Fields)
    ensures v.JObj? ==> r == v.fields
    ensures v.JArr? ==> |r| == |v.items|
    ensures v.JStr? ==> |r| == |v.s|
    ensures !(v.JObj? || v.JArr? || v.JStr?) ==> r == []
  {
    match v
    case JObj(fs) => fs
    case JArr(items) => IndexEntries(items)
    case JStr(s) => IndexEntries(CharItems(s))
    case _ => []
  }

  /** The one-character strings a string spreads into. */
  function CharItems(s: string): (r: seq<Json>)
    ensures |r| == |s|
  {
    seq(|s|, i requires 0 <= i < |s| => JStr([s[i]]))
  }

  /** `...v` for a value that may be `undefined`. */
  function SpreadOf(v: Option<Json>): (r: Fields)
    ensures v.None? ==> r == []
    ensures v.Some? ==> r == Entries(v.value)
  {
    if v.Some? then Entries(v.value) else []
  }

  /** `"0": items[0], "1": items[1], …` */
  function IndexEntries(items: seq<Json>): (r: Fields)
    ensures |r| == |items|
  {
    if |items| == 0 then []
    else IndexEntries(items[..|items| - 1]) + [(NatToString(|items| - 1), items[|items| - 1])]
  }

  /** `{ ...a }` followed by `...b` and so on, left to right. */
  function SpreadAll(parts: seq<Fields>): Fields
    decreases |parts|
  {
    if |parts| == 0 then [] else Assign(SpreadAll(parts[..|parts| - 1]), parts[|parts| - 1])
  }

  /** Index keys are numerals: a key that starts with anything but a digit
      is never among them. */
  lemma {:induction false} IndexEntriesLackWords(items: seq<Json>, k: string)
    requires |k| > 0 && !IsDigit(k[0])
    ensures !HasKey(IndexEntries(items), k)
    decreases |items|
  {
    if |items| > 0 {
      var init := items[..|items| - 1];
      IndexEntriesLackWords(init, k);
      var r := IndexEntries(items);
      assert r[..|r| - 1] == IndexEntries(init);
      assert r[|r| - 1].0 == NatToString(|items| - 1);
    }
  }

  /** So spreading a value copies exactly its named own properties: for a
      word key, the spread entries read what `v.k` reads. */
  lemma LookupEntries(v: Json, k: string)
    requires |k| > 0 && !IsDigit(k[0])
    ensures Lookup(Entries(v), k) == Member(v, k)
  {
    match v
    case JArr(items) => IndexEntriesLackWords(items, k);
    case JStr(s) => IndexEntriesLackWords(CharItems(s), k);
    case _ =>
  }

  /** Every entry's key is a key of the object. */
  lemma {:induction false} HasKeyAt(f: Fields, i: nat)
    requires i < |f|
    ensures HasKey(f, f[i].0)
    decreases |f|
  {
    if i < |f| - 1 {
      HasKeyAt(f[..|f| - 1], i);
    }
  }

  /** An entry no later entry overrides is what its key reads. */
  lemma {:induction false} LookupAt(f: Fields, i: nat)
    requires i < |f|
    requires forall j :: i < j < |f| ==> f[j].0 != f[i].0
    ensures Lookup(f, f[i].0) == Some(f[i].1)
    decreases |f|
  {
    if i < |f| - 1 {
      LookupAt(f[..|f| - 1], i);
    }
  }

  lemma {:induction false} LookupRewrite(f: Fields, k: string, v: Json, j: string)
    ensures Lookup(Rewrite(f, k, v), j) == if j == k && HasKey(f, k) then Some(v) else Lookup(f, j)
    decreases |f|
  {
    if |f| > 0 {
      var g := f[..|f| - 1];
      LookupRewrite(g, k, v, j);
      var r := Rewrite(f, k, v);
      assert r[..|r| - 1] == Rewrite(g, k, v);
    }
  }

  lemma LookupAppend(f: Fields, k: string, v: Json, j: string)
    ensures Lookup(f + [(k, v)], j) == if j == k then Some(v) else Lookup(f, j)
  {
    assert (f + [(k, v)])[..|f|] == f;
  }

  /** After `{ ...f, [k]: v }` the key reads `v` and every other key reads
      what it read before. */
  lemma LookupSet(f: Fields, k: string, v: Json, j: string)
    ensures Lookup(Set(f, k, v), j) == if j == k then Some(v) else Lookup(f, j)
  {
    if HasKey(f, k) {
      LookupRewrite(f, k, v, j);
    } else {
      LookupAppend(f, k, v, j);
    }
  }

  /** Last-match lookup split at the first entry. */
  lemma {:induction false} LookupCons(m: Fields, k: string)
    requires |m| > 0
    ensures Lookup(m, k) ==
      if HasKey(m[1..], k) then Lookup(m[1..], k)
      else if m[0].0 == k then Some(m[0].1) else None
    decreases |m|
  {
    if |m| > 1 {
      var g := m[..|m| - 1];
      LookupCons(g, k);
      assert g[1..] == m[1..][..|m| - 2];
      assert g[0] == m[0];
    }
  }

  lemma {:induction false} HasKeyCons(m: Fields, k: string)
    requires |m| > 0
    ensures HasKey(m, k) <==> m[0].0 == k || HasKey(m[1..], k)
    decreases |m|
  {
    if |m| > 1 {
      var g := m[..|m| - 1];
      HasKeyCons(g, k);
      assert g[1..] == m[1..][..|m| - 2];
      assert g[0] == m[0];
    }
  }

  /** Spread semantics: a later source wins for every key it has; a key it
      lacks keeps the earlier value. */
  lemma {:induction false} LookupAssign(f: Fields, m: Fields, k: string)
    ensures Lookup(Assign(f, m), k) == if HasKey(m, k) then Lookup(m, k) else Lookup(f, k)
    decreases |m|
  {
    if |m| > 0 {
      LookupAssign(Set(f, m[0].0, m[0].1), m[1..], k);
      LookupSet(f, m[0].0, m[0].1, k);
      LookupCons(m, k);
      HasKeyCons(m, k);
    }
  }

  /** A spread keeps the keys it started from, in their order, as a prefix. */
  lemma {:induction false} AssignKeepsKeyOrder(f: Fields, m: Fields)
    ensures |Keys(f)| <= |Keys(Assign(f, m))|
    ensures Keys(Assign(f, m))[..|f|] == Keys(f)
    decreases |m|
  {
    if |m| > 0 {
      var g := Set(f, m[0].0, m[0].1);
      AssignKeepsKeyOrder(g, m[1..]);
      assert Keys(g)[..|f|] == Keys(f);
    }
  }

  /** `a === b` between two values read from stored JSON: primitives
      compare by value (numbers numerically), `undefined` equals only
      itself, and two separately parsed objects or arrays are never the
      same reference. */
  predicate StrictEquals(a: Option<Json>, b: Option<Json>) {
    match (a, b)
    case (None, None) => true
    case (Some(JNull), Some(JNull)) => true
    case (Some(JBool(x)), Some(JBool(y))) => x == y
    case (Some(JNum(x)), Some(JNum(y))) => Normalize(x) == Normalize(y)
    case (Some(JStr(x)), Some(JStr(y))) => x == y
    case _ => false
  }

  // ---------------------------------------------------------------------
  // String(v)

  /** The same number with trailing fractional zeros removed. */
  function Normalize(d: Decimal): Decimal
    decreases d.exponent
  {
    if d.exponent > 0 && d.mantissa % 10 == 0 then Normalize(Decimal(d.mantissa / 10, d.exponent - 1))
    else d
  }

  function PadDigits(s: string, width: nat): (r: string)
    ensures |r| >= width && |r| >= |s|
    decreases width - |s|
  {
    if |s| >= width then s else PadDigits("0" + s, width)
  }

  /** `m × 10^-e` written out with `e` fractional digits: the digits of `m`,
      zero-padded to at least one integer digit, with a point `e` places
      from the right. */
  function FormatMagnitude(m: nat, e: nat): string {
    var digits := PadDigits(NatToString(m), e + 1);
    if e == 0 then digits
    else digits[..|digits| - e] + "." + digits[|digits| - e..]
  }

  function Abs(n: int): nat {
    if n < 0 then -n else n
  }

  /** `String(n)` for a number in plain (non-exponential) notation. */
  function NumberToString(d: Decimal): string {
    var n := Normalize(d);
    (if n.mantissa < 0 then "-" else "") + FormatMagnitude(Abs(n.mantissa), n.exponent)
  }

  /** `String(v)`, which is also what a template literal `${v}` prints. */
  function ToJsString(v: Json): string {
    match v
    case JNull => "null"
    case JBool(b) => if b then "true" else "false"
    case JNum(d) => NumberToString(d)
    case JStr(s) => s
    case JArr(items) => JoinItems(items)
    case JObj(_) => "[object Object]"
  }

  /** `items.join(',')`, where `null` elements print as nothing. */
  function JoinItems(items: seq<Json>): string {
    if |items| == 0 then ""
    else
      var head := if items[0].JNull? then "" else ToJsString(items[0]);
      if |items| == 1 then head else head + "," + JoinItems(items[1..])
  }

  /** `Array.isArray(v) ? v : [v]`: an array is its items, any other
      value a list of one. */
  function AsList(v: Json): (r: seq<Json>)
    ensures v.JArr? ==> r == v.items
    ensures !v.JArr? ==> r == [v]
  {
    if v.JArr? then v.items else [v]
  }

  /** `${v}` where `v` may be `undefined`. */
  function Show(v: Option<Json>): string {
    if v.Some? then ToJsString(v.value) else "undefined"
  }
}
