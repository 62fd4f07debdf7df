/** Building blocks shared by every service: optional values, the outcome of a
    guarded update, row filters, offset/limit pagination, sums, Python's
    `str.strip` and PostgreSQL's `ILIKE '%term%'` substring match. */
module Common {

  datatype Option<T> = None | Some(value: T) {
    function GetOr(default: T): T {
      if Some? then value else default
    }
  }

  /** What a service call that looks a row up, checks a guard and then changes
      the row can end in: the row is absent (the service returns None), a guard
      refused (the service raises ValueError), the database refused the commit
      (SQLAlchemy raises IntegrityError), the code itself failed with an
      exception it did not mean to raise, or the changed value. `Diverges`
      stands for a retry loop that would keep drawing random numbers past the
      draws the caller supplied. */
  datatype Outcome<T> =
    | NotFound
    | Refused(reason: string)
    | IntegrityError(constraint: string)
    | Raises(error: string)
    | Diverges
    | Done(value: T)

  function Min(a: int, b: int): int { if a <= b then a else b }

  // ---------------------------------------------------------------------------
  // Filtering, counting and summing rows

  /** The rows of `s` that satisfy `p`, in their original order (a WHERE clause
      or a list comprehension with an `if`). */
  function Filter<T>(s: seq<T>, p: T -> bool): (r: seq<T>)
    ensures |r| <= |s|
    ensures forall k :: 0 <= k < |r| ==> p(r[k])
    ensures forall k :: 0 <= k < |r| ==> r[k] in s
    ensures forall k :: 0 <= k < |s| && p(s[k]) ==> s[k] in r
  {
    if |s| == 0 then []
    else Filter(s[..|s| - 1], p) + (if p(s[|s| - 1]) then [s[|s| - 1]] else [])
  }

  lemma {:induction false} FilterConcat<T>(a: seq<T>, b: seq<T>, p: T -> bool)
    ensures Filter(a + b, p) == Filter(a, p) + Filter(b, p)
    decreases |b|
  {
    if |b| == 0 {
      assert a + b == a;
    } else {
      var b' := b[..|b| - 1];
      assert (a + b)[..|a + b| - 1] == a + b';
      FilterConcat(a, b', p);
    }
  }

  /** Filtering twice is filtering once by the conjunction (a query that chains
      two `.filter(...)` calls). */
  lemma {:induction false} FilterFilter<T>(s: seq<T>, p: T -> bool, q: T -> bool)
    ensures Filter(Filter(s, p), q) == Filter(s, x => p(x) && q(x))
  {
    if |s| > 0 {
      var s' := s[..|s| - 1];
      FilterFilter(s', p, q);
      FilterConcat(Filter(s', p), if p(s[|s| - 1]) then [s[|s| - 1]] else [], q);
    }
  }

  /** A filter that no row fails keeps every row. */
  lemma {:induction false} FilterAll<T>(s: seq<T>, p: T -> bool)
    requires forall k :: 0 <= k < |s| ==> p(s[k])
    ensures Filter(s, p) == s
  {
    if |s| > 0 {
      FilterAll(s[..|s| - 1], p);
      assert s[..|s| - 1] + [s[|s| - 1]] == s;
    }
  }

  /** `[f(x) for x in s]`. */
  function Map<T, U>(s: seq<T>, f: T -> U): (r: seq<U>)
    ensures |r| == |s| && forall k :: 0 <= k < |s| ==> r[k] == f(s[k])
  {
    seq(|s|, k requires 0 <= k < |s| => f(s[k]))
  }

  lemma MapConcat<T, U>(a: seq<T>, b: seq<T>, f: T -> U)
    ensures Map(a + b, f) == Map(a, f) + Map(b, f)
  {
    assert forall k :: 0 <= k < |a + b| ==> Map(a + b, f)[k] == (Map(a, f) + Map(b, f))[k];
  }

  /** Filtering by two predicates that agree on every row gives the same rows. */
  lemma {:induction false} FilterCongruent<T>(s: seq<T>, p: T -> bool, q: T -> bool)
    requires forall k :: 0 <= k < |s| ==> p(s[k]) == q(s[k])
    ensures Filter(s, p) == Filter(s, q)
  {
    if |s| > 0 {
      FilterCongruent(s[..|s| - 1], p, q);
    }
  }

  /** Rows matching one of two exclusive conditions are counted by adding the
      two counts. */
  lemma {:induction false} CountDisjoint<T>(s: seq<T>, p: T -> bool, q: T -> bool, either: T -> bool)
    requires forall k :: 0 <= k < |s| ==> !(p(s[k]) && q(s[k]))
    requires forall k :: 0 <= k < |s| ==> either(s[k]) == (p(s[k]) || q(s[k]))
    ensures Count(s, either) == Count(s, p) + Count(s, q)
  {
    if |s| > 0 {
      CountDisjoint(s[..|s| - 1], p, q, either);
    }
  }

  /** A count is positive exactly when some row matches. */
  lemma CountPositive<T>(s: seq<T>, p: T -> bool)
    ensures Count(s, p) > 0 <==> exists k :: 0 <= k < |s| && p(s[k])
  {
    if Count(s, p) > 0 {
      assert Filter(s, p)[0] in s;
    }
  }

  /** `len([x for x in s if p(x)])`, or `query.filter(p).count()`. */
  function Count<T>(s: seq<T>, p: T -> bool): nat {
    |Filter(s, p)|
  }

  /** `sum(f(x) for x in s)`. */
  function Sum<T>(s: seq<T>, f: T -> int): int {
    if |s| == 0 then 0 else Sum(s[..|s| - 1], f) + f(s[|s| - 1])
  }

  lemma {:induction false} SumConcat<T>(a: seq<T>, b: seq<T>, f: T -> int)
    ensures Sum(a + b, f) == Sum(a, f) + Sum(b, f)
    decreases |b|
  {
    if |b| == 0 {
      assert a + b == a;
    } else {
      var b' := b[..|b| - 1];
      assert (a + b)[..|a + b| - 1] == a + b';
      SumConcat(a, b', f);
    }
  }

  /** Replacing one term of a sum changes the sum by the difference. */
  lemma {:induction false} SumUpdate<T>(s: seq<T>, f: T -> int, i: nat, x: T)
    requires i < |s|
    ensures Sum(s[i := x], f) == Sum(s, f) - f(s[i]) + f(x)
  {
    var s' := s[i := x];
    if i < |s| - 1 {
      assert s'[..|s'| - 1] == s[..|s| - 1][i := x];
      SumUpdate(s[..|s| - 1], f, i, x);
    } else {
      assert s'[..|s'| - 1] == s[..|s| - 1];
    }
  }

  /** A sum of non-negative terms is non-negative. */
  lemma {:induction false} SumNonNegative<T>(s: seq<T>, f: T -> int)
    requires forall k :: 0 <= k < |s| ==> f(s[k]) >= 0
    ensures Sum(s, f) >= 0
  {
    if |s| > 0 {
      SumNonNegative(s[..|s| - 1], f);
    }
  }

  /** Division guarded the way the services guard every average and rate:
      `n / d if d > 0 else 0`. */
  function Ratio(n: int, d: int): real {
    if d > 0 then n as real / d as real else 0.0
  }

  // ---------------------------------------------------------------------------
  // Pagination: `query.offset(skip).limit(limit)` and Python's `s[skip:skip + limit]`

  function Page<T>(s: seq<T>, skip: nat, limit: nat): (r: seq<T>)
    ensures |r| <= limit
    ensures |r| == if skip >= |s| then 0 else Min(limit, |s| - skip)
    ensures forall k :: 0 <= k < |r| ==> skip + k < |s| && r[k] == s[skip + k]
  {
    if skip >= |s| then [] else s[skip..Min(skip + limit, |s|)]
  }

  /** Every row on a page is a row of the full result. */
  lemma PageWithin<T>(s: seq<T>, skip: nat, limit: nat, x: T)
    requires x in Page(s, skip, limit)
    ensures x in s
  {
    var r := Page(s, skip, limit);
    var k :| 0 <= k < |r| && r[k] == x;
    assert s[skip + k] == x;
  }

  // ---------------------------------------------------------------------------
  // First match: `query.filter(p).first()` and a loop that returns on the first hit

  function FirstIndex<T>(s: seq<T>, p: T -> bool): (r: Option<nat>)
    ensures r.Some? ==> r.value < |s| && p(s[r.value])
    ensures r.Some? ==> forall j :: 0 <= j < r.value ==> !p(s[j])
    ensures r.None? <==> forall j :: 0 <= j < |s| ==> !p(s[j])
  {
    if |s| == 0 then None
    else if p(s[0]) then Some(0)
    else match FirstIndex(s[1..], p)
      case None => None
      case Some(i) => Some(i + 1)
  }

  /** The first match found by scanning is the one `FirstIndex` names. */
  lemma FirstIndexAt<T>(s: seq<T>, p: T -> bool, i: nat)
    requires i < |s| && p(s[i])
    requires forall j :: 0 <= j < i ==> !p(s[j])
    ensures FirstIndex(s, p) == Some(i)
  {
    var r := FirstIndex(s, p);
    assert r.Some?;
    assert !(r.value < i);
    assert !(r.value > i);
  }

  // ---------------------------------------------------------------------------
  // Guarded in-place change of one row

  /** The shape every lifecycle method of the services shares: look the row up,
      run the guarded change on it, and write the row back only when the change
      succeeds; an absent row is reported as NotFound. */
  function UpdateRow<T>(rows: seq<T>, at: Option<nat>, step: T -> Outcome<T>): (r: (seq<T>, Outcome<T>))
    requires at.Some? ==> at.value < |rows|
    ensures |r.0| == |rows|
    ensures at.None? ==> r.1 == NotFound && r.0 == rows
    ensures at.Some? ==> r.1 == step(rows[at.value])
    ensures !r.1.Done? ==> r.0 == rows
    ensures r.1.Done? ==> at.Some? && r.0[at.value] == r.1.value
    ensures forall k :: 0 <= k < |rows| && at != Some(k) ==> r.0[k] == rows[k]
  {
    if at.None? then (rows, NotFound)
    else
      var out := step(rows[at.value]);
      (if out.Done? then rows[at.value := out.value] else rows, out)
  }

  // ---------------------------------------------------------------------------
  // Retrying random identifiers until one is unused

  /** The `while True:` loop of the identifier generators: try each random
      candidate in turn and stop at the first that no row holds yet. The
      candidates stand for the successive draws of the random generator. */
  method FirstFresh(candidates: seq<string>, taken: set<string>) returns (r: Option<nat>)
    ensures r.Some? ==> r.value < |candidates| && candidates[r.value] !in taken
    ensures r.Some? ==> forall j :: 0 <= j < r.value ==> candidates[j] in taken
    ensures r.None? ==> forall j :: 0 <= j < |candidates| ==> candidates[j] in taken
  {
    var i := 0;
    while i < |candidates|
      invariant 0 <= i <= |candidates|
      invariant forall j :: 0 <= j < i ==> candidates[j] in taken
    {
      if candidates[i] !in taken {
        return Some(i);
      }
      i := i + 1;
    }
    return None;
  }

  /** Every character of `s` is drawn from `alphabet`, and there are `n` of them. */
  predicate DrawnFrom(s: string, n: nat, alphabet: set<char>) {
    |s| == n && forall k :: 0 <= k < |s| ==> s[k] in alphabet
  }

  const Digits: set<char> := set c | '0' <= c <= '9'

  const UpperAndDigits: set<char> := (set c | 'A' <= c <= 'Z') + Digits

  // ---------------------------------------------------------------------------
  // Strings

  /** The characters Python's `str.isspace` accepts (so `str.strip` removes). */
  predicate IsPySpace(c: char) {
    c == ' ' || ('\t' <= c <= '\r') || ('\U{1C}' <= c <= '\U{1F}') || c == '\U{85}' || c == '\U{A0}'
    || c == '\U{1680}' || ('\U{2000}' <= c <= '\U{200A}') || c == '\U{2028}' || c == '\U{2029}'
    || c == '\U{202F}' || c == '\U{205F}' || c == '\U{3000}'
  }

  /** `s` consists of whitespace only: `not s.strip()` holds. */
  predicate IsBlank(s: string) {
    forall k :: 0 <= k < |s| ==> IsPySpace(s[k])
  }

  function StripStart(s: string): (r: string)
    ensures |r| <= |s| && r == s[|s| - |r|..]
    ensures r == [] || !IsPySpace(r[0])
    ensures forall k :: 0 <= k < |s| - |r| ==> IsPySpace(s[k])
  {
    if |s| > 0 && IsPySpace(s[0]) then StripStart(s[1..]) else s
  }

  function StripEnd(s: string): (r: string)
    ensures |r| <= |s| && r == s[..|r|]
    ensures r == [] || !IsPySpace(r[|r| - 1])
    ensures forall k :: |r| <= k < |s| ==> IsPySpace(s[k])
  {
    if |s| > 0 && IsPySpace(s[|s| - 1]) then StripEnd(s[..|s| - 1]) else s
  }

  /** Python's `s.strip()`: the infix of `s` left after removing whitespace
      from both ends; it is empty exactly when `s` is blank. */
  function Strip(s: string): (r: string)
    ensures r == [] <==> IsBlank(s)
    ensures r == [] || (!IsPySpace(r[0]) && !IsPySpace(r[|r| - 1]))
    ensures exists i :: StrippedAt(s, r, i)
  {
    StripComposition(s);
    StripEnd(StripStart(s))
  }

  /** `r` sits in `s` at offset `i` with only whitespace around it. */
  predicate StrippedAt(s: string, r: string, i: int) {
    && 0 <= i <= i + |r| <= |s|
    && r == s[i..i + |r|]
    && (forall k :: 0 <= k < i ==> IsPySpace(s[k]))
    && (forall k :: i + |r| <= k < |s| ==> IsPySpace(s[k]))
  }

  lemma StripComposition(s: string)
    ensures StrippedAt(s, StripEnd(StripStart(s)), |s| - |StripStart(s)|)
    ensures StripEnd(StripStart(s)) == [] <==> IsBlank(s)
  {
    var t := StripStart(s);
    var r := StripEnd(t);
    var i := |s| - |t|;
    assert t == s[i..];
    assert r == t[..|r|];
    assert r == s[i..i + |r|];
    assert forall k :: |r| <= k < |t| ==> IsPySpace(t[k]);
    assert forall k :: i + |r| <= k < |s| ==> s[k] == t[k - i];
    assert forall k :: i + |r| <= k < |s| ==> IsPySpace(s[k]);
    assert forall k :: 0 <= k < i ==> IsPySpace(s[k]);
    assert StrippedAt(s, r, i);
    StripBlank(s);
  }

  lemma StripBlank(s: string)
    ensures StripEnd(StripStart(s)) == [] <==> IsBlank(s)
  {
    var t := StripStart(s);
    var i := |s| - |t|;
    assert forall k :: i <= k < |s| ==> s[k] == t[k - i];
  }

  /** Stripping is idempotent: a validator that stores `v.strip()` stores a
      value that would pass through the same validator unchanged. */
  lemma StripIdempotent(s: string)
    ensures Strip(Strip(s)) == Strip(s)
  {
    var r := Strip(s);
    if r != [] {
      assert StripStart(r) == r;
      assert StripEnd(r) == r;
    }
  }

  /** ASCII lower-casing ('A'..'Z' only), the part of ILIKE's case folding
      this model keeps. */
  function Lower(s: string): (r: string)
    ensures |r| == |s|
  {
    seq(|s|, k requires 0 <= k < |s| => if 'A' <= s[k] <= 'Z' then (s[k] as int + 32) as char else s[k])
  }

  predicate IsInfix(needle: string, hay: string) {
    exists i :: 0 <= i <= |hay| - |needle| && InfixAt(needle, hay, i)
  }

  predicate InfixAt(needle: string, hay: string, i: int)
    requires 0 <= i <= |hay| - |needle|
  {
    hay[i..i + |needle|] == needle
  }

  /** `column ILIKE '%term%'` on a non-null column. */
  predicate ContainsIgnoreCase(hay: string, term: string) {
    IsInfix(Lower(term), Lower(hay))
  }

  /** `column ILIKE '%term%'` on a nullable column: NULL never matches. */
  predicate OptContainsIgnoreCase(hay: Option<string>, term: string) {
    hay.Some? && ContainsIgnoreCase(hay.value, term)
  }

  /** Decimal rendering of a natural number (`f"{n}"`). */
  function DecimalText(n: nat): string {
    if n < 10 then [(n + 48) as char] else DecimalText(n / 10) + [(n % 10 + 48) as char]
  }
}
