/**
 * Shared value-level helpers: optional values, the JavaScript string
 * operations the client relies on (lower-casing, substring search, prefix
 * test, trimming), and the array operations it uses (filter, de-duplication
 * through a Set, removal by index).
 */
module Common {

  datatype Option<T> = None | Some(value: T)
  {
    function GetOr(default: T): T
    {
      match this
      case None => default
      case Some(v) => v
    }
  }

  datatype Result<T, E> = Ok(value: T) | Err(error: E)

  /** JavaScript truthiness of an optional string: present and non-empty. */
  predicate Truthy(s: Option<string>)
  {
    s.Some? && s.value != ""
  }

  /** `a || fallback` on an optional string. */
  function OrElse(a: Option<string>, fallback: string): string
  {
    if Truthy(a) then a.value else fallback
  }

  /** `a || undefined` on a string value. */
  function OrUndefined(s: string): (r: Option<string>)
    ensures r.None? <==> s == ""
    ensures r.Some? ==> r.value == s
  {
    if s == "" then None else Some(s)
  }

  // ---------------------------------------------------------------------
  // Strings

  /** `toLowerCase` on one character (ASCII letters only). */
  function LowerChar(c: char): char
  {
    if 'A' <= c <= 'Z' then (c as int + 32) as char else c
  }

  function Lower(s: string): (r: string)
    ensures |r| == |s|
    ensures forall i :: 0 <= i < |s| ==> r[i] == LowerChar(s[i])
  {
    seq(|s|, i requires 0 <= i < |s| => LowerChar(s[i]))
  }

  /** `s.startsWith(p)`. */
  predicate IsPrefix(p: string, s: string)
  {
    |p| <= |s| && s[..|p|] == p
  }

  /** `s.includes(sub)`, written as a scan over the start positions. */
  predicate Contains(s: string, sub: string)
    decreases |s|
  {
    IsPrefix(sub, s) || (|s| > 0 && Contains(s[1..], sub))
  }

  /** Reference definition of `includes`: `sub` occurs at some position. */
  predicate OccursAt(s: string, sub: string, k: int)
  {
    0 <= k && k + |sub| <= |s| && s[k..k + |sub|] == sub
  }

  /** An occurrence in the tail is an occurrence one position later in the whole. */
  lemma OccursShift(s: string, sub: string, k: int)
    requires |s| > 0 && k >= 0
    ensures OccursAt(s[1..], sub, k) <==> OccursAt(s, sub, k + 1)
  {
    if k + 1 + |sub| <= |s| {
      assert s[1..][k..k + |sub|] == s[k + 1..k + 1 + |sub|];
    }
  }

  lemma {:induction false} ContainsIffOccurs(s: string, sub: string)
    ensures Contains(s, sub) <==> exists k :: OccursAt(s, sub, k)
    decreases |s|
  {
    if IsPrefix(sub, s) {
      assert OccursAt(s, sub, 0);
    } else if |s| == 0 {
      assert forall k :: !OccursAt(s, sub, k);
    } else {
      ContainsIffOccurs(s[1..], sub);
      assert !OccursAt(s, sub, 0);
      if k :| OccursAt(s[1..], sub, k) {
        OccursShift(s, sub, k);
      }
      if k :| OccursAt(s, sub, k) {
        OccursShift(s, sub, k - 1);
      }
    }
  }

  /** Every string includes the empty string. */
  lemma ContainsEmpty(s: string)
    ensures Contains(s, "")
  {
    assert IsPrefix("", s);
  }

  /** `haystack.toLowerCase().includes(term.toLowerCase())`. */
  predicate ContainsIgnoringCase(haystack: string, term: string)
  {
    Contains(Lower(haystack), Lower(term))
  }

  /** A character removed by `trim()` (ASCII whitespace). */
  predicate IsSpace(c: char)
  {
    c == ' ' || c == '\t' || c == '\n' || c == '\r' || c == '\U{0B}' || c == '\U{0C}'
  }

  /** `s.trim() === ""`. */
  predicate IsBlank(s: string)
  {
    forall i :: 0 <= i < |s| ==> IsSpace(s[i])
  }

  // ---------------------------------------------------------------------
  // Sequences

  /** `xs.filter(p)`: keeps the elements satisfying `p`, in order. */
  function Filter<T(==,!new)>(xs: seq<T>, p: T -> bool): (r: seq<T>)
    ensures |r| <= |xs|
    ensures forall x :: x in r <==> x in xs && p(x)
    ensures forall x :: multiset(r)[x] == if p(x) then multiset(xs)[x] else 0
    ensures IsSubsequence(r, xs)
  {
    if xs == [] then []
    else
      var rest := Filter(xs[1..], p);
      assert xs == [xs[0]] + xs[1..];
      if p(xs[0]) then [xs[0]] + rest else rest
  }

  /** `a` is `b` with some elements dropped and the rest in their order. */
  predicate IsSubsequence<T(==)>(a: seq<T>, b: seq<T>)
    decreases |b|
  {
    if a == [] then true
    else if b == [] then false
    else if a[0] == b[0] then IsSubsequence(a[1..], b[1..])
    else IsSubsequence(a, b[1..])
  }

  /** A subsequence of the tail is a subsequence of the whole. */
  lemma {:induction false} SubsequencePrepend<T>(x: seq<T>, b: seq<T>)
    requires b != [] && IsSubsequence(x, b[1..])
    ensures IsSubsequence(x, b)
    decreases |b|, 0
  {
    if x != [] && x[0] == b[0] {
      SubsequenceDropHead(x, b[1..]);
    }
  }

  /** Dropping the first element of a subsequence leaves a subsequence. */
  lemma {:induction false} SubsequenceDropHead<T>(a: seq<T>, b: seq<T>)
    requires a != [] && IsSubsequence(a, b)
    ensures IsSubsequence(a[1..], b)
    decreases |b|, 1
  {
    if a[0] != b[0] {
      SubsequenceDropHead(a, b[1..]);
    }
    if a[1..] != [] {
      SubsequencePrepend(a[1..], b);
    }
  }

  /** The position of the first occurrence of `x` in `xs`. */
  function FirstIndex<T(==)>(xs: seq<T>, x: T): (k: nat)
    requires x in xs
    ensures k < |xs| && xs[k] == x
    ensures forall i :: 0 <= i < k ==> xs[i] != x
  {
    if xs[0] == x then 0 else 1 + FirstIndex(xs[1..], x)
  }

  /** An element of a prefix first occurs in the whole where it first occurs in the prefix. */
  lemma {:induction false} FirstIndexPrefix<T>(xs: seq<T>, n: nat, x: T)
    requires n <= |xs| && x in xs[..n]
    ensures FirstIndex(xs, x) == FirstIndex(xs[..n], x)
    decreases n
  {
    assert xs[..n][0] == xs[0];
    if xs[0] != x {
      assert xs[1..][..n - 1] == xs[..n][1..];
      FirstIndexPrefix(xs[1..], n - 1, x);
    }
  }

  /** Every element of `r` occurs in `xs`, and `r` lists them by their first occurrence there. */
  predicate InFirstSeenOrder<T(==)>(r: seq<T>, xs: seq<T>)
  {
    (forall i :: 0 <= i < |r| ==> r[i] in xs)
    && forall i, j :: 0 <= i < j < |r| ==> FirstIndex(xs, r[i]) < FirstIndex(xs, r[j])
  }

  /** `Array.from(new Set(xs))`: the distinct elements, in first-seen order. */
  function Unique<T(==,!new)>(xs: seq<T>): (r: seq<T>)
    ensures NoDuplicates(r)
    ensures forall x :: x in r <==> x in xs
    ensures InFirstSeenOrder(r, xs)
    ensures |r| <= |xs|
  {
    if xs == [] then []
    else
      var init := xs[..|xs| - 1];
      var last := xs[|xs| - 1];
      var r := Unique(init);
      assert xs == init + [last];
      forall i | 0 <= i < |r|
        ensures FirstIndex(xs, r[i]) == FirstIndex(init, r[i])
      {
        FirstIndexPrefix(xs, |xs| - 1, r[i]);
      }
      if last in r then r
      else
        assert FirstIndex(xs, last) == |xs| - 1;
        r + [last]
  }

  predicate NoDuplicates<T(==)>(s: seq<T>)
  {
    forall i, j :: 0 <= i < j < |s| ==> s[i] != s[j]
  }

  /** `xs.filter((_, i) => i !== index)`: the element at `index` is removed. */
  function WithoutIndex<T>(xs: seq<T>, index: int): (r: seq<T>)
    ensures 0 <= index < |xs| ==> r == xs[..index] + xs[index + 1..]
    ensures !(0 <= index < |xs|) ==> r == xs
  {
    if xs == [] then []
    else
      var rest := WithoutIndex(xs[1..], index - 1);
      assert xs == [xs[0]] + xs[1..];
      if index == 0 then rest else [xs[0]] + rest
  }
}
