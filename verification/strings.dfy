/** The string operations the core relies on, each with the JavaScript
    behaviour the services use:

    - `Trim`, `TrimStart`, `TrimEnd`: `String.prototype.trim` and the `\s*`
      runs of the regular expressions; whitespace is `IsSpace`.
    - `ReplaceAll`: `s.replace(/literal/g, r)` for a literal pattern, left to
      right and non-overlapping, with `Split`/`Join` as its reference.
    - `ReplaceFirst`: `s.replace('literal', r)`, first occurrence only.
    - `NatToString`: `index.toString()` and `${n}` for a natural number,
      with `ParseNat` as its inverse.
 */
module Strings {
  import opened Wrappers

  /** JavaScript WhiteSpace and LineTerminator code points: the set that
      `trim()` removes and that `\s` matches. */
  predicate IsSpace(c: char) {
    || c == ' ' || c == '\t' || c == '\n' || c == '\r' || c == '\U{B}' || c == '\U{C}'
    || c == '\U{A0}' || c == '\U{1680}' || ('\U{2000}' <= c <= '\U{200A}')
    || c == '\U{2028}' || c == '\U{2029}' || c == '\U{202F}' || c == '\U{205F}'
    || c == '\U{3000}' || c == '\U{FEFF}'
  }

  predicate StartsWith(s: string, p: string) {
    |p| <= |s| && s[..|p|] == p
  }

  predicate EndsWith(s: string, p: string) {
    |p| <= |s| && s[|s| - |p|..] == p
  }

  /** `p` occurs in `s` starting at index `i`. */
  predicate OccursAt(s: string, p: string, i: int) {
    0 <= i && i + |p| <= |s| && s[i..i + |p|] == p
  }

  ghost predicate Contains(s: string, p: string) {
    exists i :: OccursAt(s, p, i)
  }

  /** `s.indexOf(p)`, with `None` for -1. */
  function IndexOf(s: string, p: string): (r: Option<nat>)
    ensures r.Some? ==> OccursAt(s, p, r.value)
    ensures r.Some? ==> forall j :: 0 <= j < r.value ==> !OccursAt(s, p, j)
    ensures r.None? ==> forall j :: !OccursAt(s, p, j)
    decreases |s|
  {
    if |s| < |p| then
      assert forall j :: !OccursAt(s, p, j);
      None
    else if s[..|p|] == p then Some(0)
    else
      match IndexOf(s[1..], p)
      case None =>
        assert forall j :: OccursAt(s, p, j) ==> j == 0 || OccursAt(s[1..], p, j - 1);
        None
      case Some(k) =>
        assert forall j :: 1 <= j ==> (OccursAt(s, p, j) <==> OccursAt(s[1..], p, j - 1));
        assert s[1..][k..k + |p|] == s[k + 1..k + 1 + |p|];
        Some(k + 1)
  }

  // ---------------------------------------------------------------------
  // Trimming

  function TrimStart(s: string): (r: string)
    ensures |r| <= |s| && r == s[|s| - |r|..]
    ensures forall i :: 0 <= i < |s| - |r| ==> IsSpace(s[i])
    ensures |r| > 0 ==> !IsSpace(r[0])
  {
    if |s| > 0 && IsSpace(s[0]) then TrimStart(s[1..]) else s
  }

  function TrimEnd(s: string): (r: string)
    ensures |r| <= |s| && r == s[..|r|]
    ensures forall i :: |r| <= i < |s| ==> IsSpace(s[i])
    ensures |r| > 0 ==> !IsSpace(r[|r| - 1])
  {
    if |s| > 0 && IsSpace(s[|s| - 1]) then TrimEnd(s[..|s| - 1]) else s
  }

  /** `s.trim()`: the longest infix with no whitespace at either end that
      leaves only whitespace outside it. */
  function Trim(s: string): (r: string)
    ensures |r| > 0 ==> !IsSpace(r[0]) && !IsSpace(r[|r| - 1])
    ensures |r| <= |s|
  {
    TrimEnd(TrimStart(s))
  }

  /** One line per item, numbered on from `position`. */
  function Numbered<T>(line: (nat, T) -> string, items: seq<T>, position: nat): string
    decreases |items|
  {
    if |items| == 0 then "" else line(position, items[0]) + Numbered(line, items[1..], position + 1)
  }

  /** Numbering carries on across a split: the second part starts at the
      number after the first part's last. */
  lemma {:induction false} NumberedConcat<T>(line: (nat, T) -> string, a: seq<T>, b: seq<T>, position: nat)
    ensures Numbered(line, a + b, position) == Numbered(line, a, position) + Numbered(line, b, position + |a|)
    decreases |a|
  {
    if |a| == 0 {
      assert a + b == b;
    } else {
      assert (a + b)[0] == a[0] && (a + b)[1..] == a[1..] + b;
      NumberedConcat(line, a[1..], b, position + 1);
      ConcatAssoc(line(position, a[0]), Numbered(line, a[1..], position + 1), Numbered(line, b, position + |a|));
    }
  }

  /** The item at index `i` is printed with the number `position + i`. */
  lemma NumberedAt<T>(line: (nat, T) -> string, items: seq<T>, position: nat, i: nat)
    requires i < |items|
    ensures Numbered(line, items, position)
         == Numbered(line, items[..i], position) + line(position + i, items[i]) + Numbered(line, items[i + 1..], position + i + 1)
  {
    assert items == items[..i] + items[i..];
    NumberedConcat(line, items[..i], items[i..], position);
    assert items[i..][0] == items[i] && items[i..][1..] == items[i + 1..];
    ConcatAssoc(Numbered(line, items[..i], position), line(position + i, items[i]), Numbered(line, items[i + 1..], position + i + 1));
  }

  lemma ConcatAssoc(x: string, y: string, z: string)
    ensures x + y + z == x + (y + z)
  {
  }

  lemma TrimStartNoop(s: string)
    requires |s| == 0 || !IsSpace(s[0])
    ensures TrimStart(s) == s
  {
  }

  lemma TrimEndNoop(s: string)
    requires |s| == 0 || !IsSpace(s[|s| - 1])
    ensures TrimEnd(s) == s
  {
  }

  /** Text with no whitespace at its ends is its own trim; in particular
      trimming twice is trimming once. */
  lemma TrimNoop(s: string)
    requires |s| == 0 || (!IsSpace(s[0]) && !IsSpace(s[|s| - 1]))
    ensures Trim(s) == s
  {
    TrimStartNoop(s);
    TrimEndNoop(s);
  }

  lemma TrimIdempotent(s: string)
    ensures Trim(Trim(s)) == Trim(s)
  {
    TrimNoop(Trim(s));
  }

  /** Whitespace added on either side does not survive a trim. */
  lemma {:induction false} TrimPadding(pre: string, s: string, post: string)
    requires forall i :: 0 <= i < |pre| ==> IsSpace(pre[i])
    requires forall i :: 0 <= i < |post| ==> IsSpace(post[i])
    requires |s| == 0 || (!IsSpace(s[0]) && !IsSpace(s[|s| - 1]))
    ensures Trim(pre + s + post) == s
  {
    assert pre + s + post == pre + (s + post);
    TrimStartPadding(pre, s + post);
    if |s| == 0 {
      assert s + post == post;
      TrimStartAllSpace(post);
    } else {
      assert (s + post)[0] == s[0];
      TrimStartNoop(s + post);
      TrimEndPadding(s, post);
      TrimEndNoop(s);
    }
  }

  lemma {:induction false} TrimStartPadding(pre: string, s: string)
    requires forall i :: 0 <= i < |pre| ==> IsSpace(pre[i])
    ensures TrimStart(pre + s) == TrimStart(s)
    decreases |pre|
  {
    if |pre| > 0 {
      assert (pre + s)[1..] == pre[1..] + s;
      TrimStartPadding(pre[1..], s);
    } else {
      assert pre + s == s;
    }
  }

  lemma {:induction false} TrimEndPadding(s: string, post: string)
    requires forall i :: 0 <= i < |post| ==> IsSpace(post[i])
    ensures TrimEnd(s + post) == TrimEnd(s)
    decreases |post|
  {
    if |post| > 0 {
      assert (s + post)[..|s + post| - 1] == s + post[..|post| - 1];
      TrimEndPadding(s, post[..|post| - 1]);
    } else {
      assert s + post == s;
    }
  }

  lemma TrimStartAllSpace(s: string)
    requires forall i :: 0 <= i < |s| ==> IsSpace(s[i])
    ensures TrimStart(s) == ""
  {
  }

  // ---------------------------------------------------------------------
  // Literal replacement

  /** `s.replace(/p/g, r)` for a pattern with no regular-expression
      metacharacters: scan left to right, replace each match, resume after
      it. */
  function ReplaceAll(s: string, p: string, r: string): string
    requires |p| > 0
    decreases |s|
  {
    if |s| < |p| then s
    else if s[..|p|] == p then r + ReplaceAll(s[|p|..], p, r)
    else [s[0]] + ReplaceAll(s[1..], p, r)
  }

  /** The pieces of `s` between the matches that `ReplaceAll` finds. */
  function Split(s: string, p: string): (parts: seq<string>)
    requires |p| > 0
    ensures |parts| >= 1
    decreases |s|
  {
    if |s| < |p| then [s]
    else if s[..|p|] == p then [""] + Split(s[|p|..], p)
    else
      var t := Split(s[1..], p);
      [[s[0]] + t[0]] + t[1..]
  }

  /** `parts.join(sep)`. */
  function Join(parts: seq<string>, sep: string): string {
    if |parts| == 0 then ""
    else if |parts| == 1 then parts[0]
    else parts[0] + sep + Join(parts[1..], sep)
  }

  lemma JoinConsHead(c: char, t: seq<string>, sep: string)
    requires |t| >= 1
    ensures Join([[c] + t[0]] + t[1..], sep) == [c] + Join(t, sep)
  {
    var u := [[c] + t[0]] + t[1..];
    assert u[1..] == t[1..];
    if |t| == 1 {
    } else {
      assert Join(u, sep) == u[0] + sep + Join(t[1..], sep);
    }
  }

  /** `ReplaceAll` is `split` followed by `join`. */
  lemma {:induction false} ReplaceAllIsSplitJoin(s: string, p: string, r: string)
    requires |p| > 0
    ensures ReplaceAll(s, p, r) == Join(Split(s, p), r)
    decreases |s|
  {
    if |s| < |p| {
    } else if s[..|p|] == p {
      ReplaceAllIsSplitJoin(s[|p|..], p, r);
      var t := Split(s[|p|..], p);
      assert ([""] + t)[1..] == t;
    } else {
      ReplaceAllIsSplitJoin(s[1..], p, r);
      JoinConsHead(s[0], Split(s[1..], p), r);
    }
  }

  /** Replacing a pattern by itself changes nothing. */
  lemma {:induction false} ReplaceAllSelf(s: string, p: string)
    requires |p| > 0
    ensures ReplaceAll(s, p, p) == s
    decreases |s|
  {
    if |s| < |p| {
    } else if s[..|p|] == p {
      ReplaceAllSelf(s[|p|..], p);
      assert s == s[..|p|] + s[|p|..];
    } else {
      ReplaceAllSelf(s[1..], p);
      assert s == [s[0]] + s[1..];
    }
  }

  /** Joining the pieces back with the pattern restores the text. */
  lemma SplitJoinRoundTrip(s: string, p: string)
    requires |p| > 0
    ensures Join(Split(s, p), p) == s
  {
    ReplaceAllIsSplitJoin(s, p, p);
    ReplaceAllSelf(s, p);
  }

  /** A text without the pattern comes back unchanged. */
  lemma {:induction false} ReplaceAllAbsent(s: string, p: string, r: string)
    requires |p| > 0
    requires forall i :: !OccursAt(s, p, i)
    ensures ReplaceAll(s, p, r) == s
    decreases |s|
  {
    if |s| < |p| {
    } else {
      assert !OccursAt(s, p, 0);
      forall i ensures !OccursAt(s[1..], p, i) {
        if OccursAt(s[1..], p, i) {
          assert s[1..][i..i + |p|] == s[i + 1..i + 1 + |p|];
          assert OccursAt(s, p, i + 1);
        }
      }
      ReplaceAllAbsent(s[1..], p, r);
      assert s == [s[0]] + s[1..];
    }
  }

  /** A suffix that lacks the pattern's last character passes through a
      replacement untouched, and no match straddles the seam. */
  lemma {:induction false} ReplaceAllInertSuffix(s: string, b: string, p: string, r: string)
    requires |p| > 0
    requires p[|p| - 1] !in b
    ensures ReplaceAll(s + b, p, r) == ReplaceAll(s, p, r) + b
    decreases |s|, 2
  {
    if |s| == 0 {
      assert s + b == b;
      forall i ensures !OccursAt(b, p, i) {
        if 0 <= i && i + |p| <= |b| {
          assert b[i..i + |p|][|p| - 1] == b[i + |p| - 1];
          assert b[i + |p| - 1] in b;
        }
      }
      ReplaceAllAbsent(b, p, r);
    } else if |s + b| < |p| {
    } else {
      if |s| < |p| {
        assert (s + b)[..|p|][|p| - 1] == b[|p| - 1 - |s|];
        assert b[|p| - 1 - |s|] in b;
        assert (s + b)[..|p|] != p;
      }
      InertSuffixStep(s, b, p, r);
    }
  }

  lemma {:induction false} InertSuffixStep(s: string, b: string, p: string, r: string)
    requires |p| > 0 && |s| > 0 && |s + b| >= |p|
    requires p[|p| - 1] !in b
    requires |s| < |p| ==> (s + b)[..|p|] != p
    ensures ReplaceAll(s + b, p, r) == ReplaceAll(s, p, r) + b
    decreases |s|, 1
  {
    if (s + b)[..|p|] == p {
      InertMatchStep(s, b, p, r);
    } else {
      InertSkipStep(s, b, p, r);
    }
  }

  lemma {:induction false} InertMatchStep(s: string, b: string, p: string, r: string)
    requires |p| > 0 && |s| >= |p|
    requires p[|p| - 1] !in b
    requires s[..|p|] == p
    ensures ReplaceAll(s + b, p, r) == ReplaceAll(s, p, r) + b
    decreases |s|, 0
  {
    var t := s[|p|..];
    assert (s + b)[..|p|] == p;
    assert (s + b)[|p|..] == t + b;
    assert ReplaceAll(s + b, p, r) == r + ReplaceAll(t + b, p, r);
    ReplaceAllInertSuffix(t, b, p, r);
    assert ReplaceAll(s, p, r) == r + ReplaceAll(t, p, r);
  }

  lemma {:induction false} InertSkipStep(s: string, b: string, p: string, r: string)
    requires |p| > 0 && |s| > 0 && |s + b| >= |p|
    requires p[|p| - 1] !in b
    requires (s + b)[..|p|] != p
    ensures ReplaceAll(s + b, p, r) == ReplaceAll(s, p, r) + b
    decreases |s|, 0
  {
    var t := s[1..];
    assert (s + b)[1..] == t + b;
    assert (s + b)[0] == s[0];
    assert ReplaceAll(s + b, p, r) == [s[0]] + ReplaceAll(t + b, p, r);
    ReplaceAllInertSuffix(t, b, p, r);
    if |s| >= |p| {
      assert s[..|p|] == (s + b)[..|p|];
      assert ReplaceAll(s, p, r) == [s[0]] + ReplaceAll(t, p, r);
    } else {
      assert ReplaceAll(t, p, r) == t;
      assert s == [s[0]] + t;
    }
  }

  /** `s.replace(p, r)` with a string pattern: only the first occurrence. */
  /** `t` is `s` with the earliest occurrence of `p`, if any, replaced by
      `r`. */
  ghost predicate FirstReplaced(s: string, p: string, r: string, t: string) {
    forall i :: OccursAt(s, p, i) && (forall j :: 0 <= j < i ==> !OccursAt(s, p, j)) ==>
      t == s[..i] + r + s[i + |p|..]
  }

  function ReplaceFirst(s: string, p: string, r: string): (t: string)
    ensures IndexOf(s, p).None? ==> t == s
    ensures IndexOf(s, p).Some? ==>
      var i := IndexOf(s, p).value;
      t == s[..i] + r + s[i + |p|..] && (forall j :: 0 <= j < i ==> !OccursAt(s, p, j))
    ensures FirstReplaced(s, p, r, t)
  {
    match IndexOf(s, p)
    case None => s
    case Some(i) =>
      assert forall k :: OccursAt(s, p, k) && (forall j :: 0 <= j < k ==> !OccursAt(s, p, j)) ==> k == i;
      s[..i] + r + s[i + |p|..]
  }

  // ---------------------------------------------------------------------
  // Numbers as text

  predicate IsDigit(c: char) { '0' <= c <= '9' }

  function DigitChar(d: nat): char
    requires d < 10
  {
    "0123456789"[d]
  }

  function DigitValue(c: char): nat
    requires IsDigit(c)
  {
    (c as int - '0' as int) as nat
  }

  /** Decimal text of a natural number, as `n.toString()` prints it. */
  function NatToString(n: nat): (s: string)
    ensures |s| >= 1
    ensures forall i :: 0 <= i < |s| ==> IsDigit(s[i])
    ensures |s| > 1 ==> s[0] != '0'
  {
    if n < 10 then [DigitChar(n)] else NatToString(n / 10) + [DigitChar(n % 10)]
  }

  function ParseNat(s: string): nat
    requires forall i :: 0 <= i < |s| ==> IsDigit(s[i])
  {
    if |s| == 0 then 0 else ParseNat(s[..|s| - 1]) * 10 + DigitValue(s[|s| - 1])
  }

  /** Reading the printed digits back gives the number. */
  lemma {:induction false} ParseNatToString(n: nat)
    ensures ParseNat(NatToString(n)) == n
  {
    var s := NatToString(n);
    if n >= 10 {
      ParseNatToString(n / 10);
      assert s[..|s| - 1] == NatToString(n / 10);
    }
  }

  lemma NatToStringInjective(a: nat, b: nat)
    requires NatToString(a) == NatToString(b)
    ensures a == b
  {
    ParseNatToString(a);
    ParseNatToString(b);
  }

  function IntToString(i: int): string {
    if i < 0 then "-" + NatToString(-i) else NatToString(i)
  }

  // ---------------------------------------------------------------------
  // Case mapping (ASCII letters only)

  function UpperChar(c: char): char {
    if 'a' <= c <= 'z' then (c as int - 32) as char else c
  }

  function LowerChar(c: char): char {
    if 'A' <= c <= 'Z' then (c as int + 32) as char else c
  }

  function ToLower(s: string): (r: string)
    ensures |r| == |s|
    ensures forall i :: 0 <= i < |s| ==> r[i] == LowerChar(s[i])
  {
    seq(|s|, i requires 0 <= i < |s| => LowerChar(s[i]))
  }

  /** `s.includes(p)`. */
  predicate Includes(s: string, p: string) {
    IndexOf(s, p).Some?
  }

  function ToUpper(s: string): (r: string)
    ensures |r| == |s|
    ensures forall i :: 0 <= i < |s| ==> r[i] == UpperChar(s[i])
  {
    seq(|s|, i requires 0 <= i < |s| => UpperChar(s[i]))
  }
}
