/**
 * The few pieces of JavaScript semantics the components rely on: truthiness of an
 * optional string, `startsWith`, `Array.prototype.find`, `split(sep)[0]`, capitalising
 * the first character, and the decimal rendering of an array index in a template string.
 */
module Js {
  import opened Wrappers

  /** Truthiness of a `string | null | undefined` value: absent and `""` are falsy. */
  predicate Truthy(v: Option<string>)
    ensures Truthy(v) <==> v != None && v != Some("")
  {
    v.Some? && v.value != ""
  }

  /** `s.startsWith(prefix)`: `s` is `prefix` followed by something. */
  predicate StartsWith(s: string, prefix: string)
    ensures StartsWith(s, prefix) <==> exists rest :: s == prefix + rest
  {
    if |prefix| <= |s| && s[..|prefix|] == prefix then
      assert s == prefix + s[|prefix|..];
      true
    else
      false
  }

  /**
   * `s.find(p)`: the first element satisfying `p`. The model returns its index, so that
   * callers can say which element was found.
   */
  function Find<T>(s: seq<T>, p: T -> bool): (r: Option<nat>)
    ensures r.Some? ==> r.value < |s| && p(s[r.value])
    ensures r.Some? ==> forall k :: 0 <= k < r.value ==> !p(s[k])
    ensures r.None? <==> forall k :: 0 <= k < |s| ==> !p(s[k])
  {
    if |s| == 0 then None
    else if p(s[0]) then Some(0)
    else
      match Find(s[1..], p)
      case None =>
        assert forall k :: 1 <= k < |s| ==> s[k] == s[1..][k - 1];
        None
      case Some(i) =>
        assert forall k :: 1 <= k <= i ==> s[k] == s[1..][k - 1];
        Some(i + 1)
  }

  /** `sep` occurs in `s` starting at index `k`. */
  predicate OccursAt(s: string, sep: string, k: nat) {
    k + |sep| <= |s| && s[k..k + |sep|] == sep
  }

  /** The first index at or after `from` where `sep` occurs in `s`. */
  function FirstOccurrence(s: string, sep: string, from: nat): (r: Option<nat>)
    ensures r.Some? ==> from <= r.value && OccursAt(s, sep, r.value)
    ensures r.Some? ==> forall k :: from <= k < r.value ==> !OccursAt(s, sep, k)
    ensures r.None? ==> forall k :: from <= k ==> !OccursAt(s, sep, k)
    decreases |s| - from
  {
    if from + |sep| > |s| then None
    else if OccursAt(s, sep, from) then Some(from)
    else FirstOccurrence(s, sep, from + 1)
  }

  /**
   * `s.split(sep)[0]`: the part of `s` before the first occurrence of a non-empty `sep`,
   * or all of `s` when `sep` does not occur.
   */
  function SplitHead(s: string, sep: string): (head: string)
    requires sep != ""
    ensures head <= s
    ensures forall k :: 0 <= k < |head| ==> !OccursAt(s, sep, k)
    ensures head == s || OccursAt(s, sep, |head|)
  {
    match FirstOccurrence(s, sep, 0)
    case None => s
    case Some(k) => s[..k]
  }

  /** `split(sep)[0]` of `head + sep + tail` is `head` when no occurrence of `sep` starts inside `head`. */
  lemma SplitHeadOfJoin(head: string, sep: string, tail: string)
    requires sep != ""
    requires forall k :: 0 <= k < |head| ==> !OccursAt(head + sep + tail, sep, k)
    ensures SplitHead(head + sep + tail, sep) == head
  {
    var s := head + sep + tail;
    assert s[|head|..|head| + |sep|] == sep;
    assert OccursAt(s, sep, |head|);
    var h := SplitHead(s, sep);
    assert |h| <= |head|;
    assert h == s[..|h|];
    assert head == s[..|head|];
  }

  /** `c.toUpperCase()` on one character; only the ASCII letters `a`-`z` are mapped. */
  function UpperChar(c: char): (u: char)
    ensures 'a' <= c <= 'z' ==> u as int == c as int - 32
    ensures !('a' <= c <= 'z') ==> u == c
  {
    if 'a' <= c <= 'z' then (c as int - 32) as char else c
  }

  /** `s.charAt(0).toUpperCase() + s.slice(1)`. */
  function UpperFirst(s: string): (r: string)
    ensures |r| == |s|
    ensures s != [] ==> r[0] == UpperChar(s[0]) && r[1..] == s[1..]
  {
    if s == [] then [] else [UpperChar(s[0])] + s[1..]
  }

  lemma UpperFirstIdempotent(s: string)
    ensures UpperFirst(UpperFirst(s)) == UpperFirst(s)
  {
  }

  function DecimalDigit(d: nat): (c: char)
    requires d < 10
    ensures '0' <= c <= '9'
  {
    ('0' as int + d) as char
  }

  /** The decimal text JavaScript gives a non-negative integer in a template string. */
  function Decimal(n: nat): (r: string)
    ensures |r| >= 1
    ensures n < 10 <==> |r| == 1
    decreases n
  {
    if n < 10 then [DecimalDigit(n)] else Decimal(n / 10) + [DecimalDigit(n % 10)]
  }

  /** Different numbers print differently. */
  lemma {:induction false} DecimalInjective(a: nat, b: nat)
    requires Decimal(a) == Decimal(b)
    ensures a == b
    decreases a
  {
    if a >= 10 && b >= 10 {
      var da, db := Decimal(a), Decimal(b);
      assert da[..|da| - 1] == Decimal(a / 10);
      assert db[..|db| - 1] == Decimal(b / 10);
      assert DecimalDigit(a % 10) == da[|da| - 1] == db[|db| - 1] == DecimalDigit(b % 10);
      DecimalInjective(a / 10, b / 10);
    }
  }
}
