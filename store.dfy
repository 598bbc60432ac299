/** What the list-backed stores share: filtering by a comprehension, the
    first match of `next(...)`, and the page window `[offset:offset+size]`. */
module Store {
  import opened Common
  import opened Pageable

  /** `[x for x in s if keep(x)]`. */
  function FilterSeq<T>(s: seq<T>, keep: T -> bool): (r: seq<T>)
    ensures |r| <= |s|
    ensures forall k :: 0 <= k < |r| ==> r[k] in s && keep(r[k])
    ensures forall k :: 0 <= k < |s| && keep(s[k]) ==> s[k] in r
  {
    if s == [] then []
    else FilterSeq(s[..|s| - 1], keep) + (if keep(s[|s| - 1]) then [s[|s| - 1]] else [])
  }

  /** `if present: s = [x for x in s if keep(x)]`. */
  function Stage<T>(s: seq<T>, present: bool, keep: T -> bool): seq<T> {
    if present then FilterSeq(s, keep) else s
  }

  /** Filtering twice is filtering once by both conditions, in the same
      order. */
  lemma {:induction false} FilterTwice<T>(s: seq<T>, a: T -> bool, b: T -> bool, c: T -> bool)
    requires forall x :: c(x) == (a(x) && b(x))
    ensures FilterSeq(FilterSeq(s, a), b) == FilterSeq(s, c)
  {
    if s != [] {
      FilterTwice(s[..|s| - 1], a, b, c);
      var init := FilterSeq(s[..|s| - 1], a);
      var last := s[|s| - 1];
      if a(last) {
        assert (init + [last])[..|init + [last]| - 1] == init;
      } else {
        assert init + [] == init;
      }
    }
  }

  /** A condition every element meets keeps the list whole. */
  lemma {:induction false} FilterAll<T>(s: seq<T>, keep: T -> bool)
    requires forall x :: x in s ==> keep(x)
    ensures FilterSeq(s, keep) == s
  {
    if s != [] {
      FilterAll(s[..|s| - 1], keep);
      assert s == s[..|s| - 1] + [s[|s| - 1]];
    }
  }

  /** A stage after a filter is one filter by the conjunction, the stage's
      condition counting only when it is present. */
  lemma StageAfter<T>(s: seq<T>, a: T -> bool, present: bool, keep: T -> bool, c: T -> bool)
    requires forall x :: c(x) == (a(x) && (!present || keep(x)))
    ensures Stage(FilterSeq(s, a), present, keep) == FilterSeq(s, c)
  {
    if present {
      FilterTwice(s, a, keep, c);
    } else {
      FilterAll(s, x => true);
      FilterTwice(s, a, x => true, c);
    }
  }

  /** The index of the first element meeting `hit`. */
  function FirstIndex<T>(s: seq<T>, hit: T -> bool): (r: Option<nat>)
    ensures r.Some? ==> r.value < |s| && hit(s[r.value]) && forall j :: 0 <= j < r.value ==> !hit(s[j])
    ensures r.None? ==> forall j :: 0 <= j < |s| ==> !hit(s[j])
  {
    if s == [] then None
    else if hit(s[0]) then Some(0)
    else
      var r := FirstIndex(s[1..], hit);
      if r.Some? then Some(r.value + 1) else None
  }

  /** `next((x for x in s if hit(x)), None)`. */
  function FirstMatch<T>(s: seq<T>, hit: T -> bool): (r: Option<T>)
    ensures r.Some? <==> exists j :: 0 <= j < |s| && hit(s[j])
    ensures r.Some? ==> r.value in s && hit(r.value)
    ensures r.Some? ==> exists j :: 0 <= j < |s| && s[j] == r.value && forall k :: 0 <= k < j ==> !hit(s[k])
  {
    var i := FirstIndex(s, hit);
    if i.Some? then Some(s[i.value]) else None
  }

  /** `s[offset:offset + size]`. */
  function Window<T>(s: seq<T>, p: Pageable): (r: seq<T>)
    requires Valid(p)
    ensures |r| <= p.size
    ensures forall k :: 0 <= k < |r| ==> Offset(p) + k < |s| && r[k] == s[Offset(p) + k]
    ensures Offset(p) + p.size <= |s| ==> |r| == p.size
  {
    Slice(s, Offset(p), Offset(p) + p.size)
  }
}
