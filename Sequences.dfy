/** The two list operations the client uses everywhere: `Array.prototype.filter`
    (written here as "filter out the elements that match") and
    `Array.prototype.find` (the first element that matches). */
module Sequences {
  import opened Outcomes

  /** The elements of `s` for which `drop` is false, in their original order. */
  function FilterOut<T>(s: seq<T>, drop: T -> bool): (r: seq<T>)
    ensures |r| <= |s|
    ensures forall i :: 0 <= i < |r| ==> r[i] in s && !drop(r[i])
    ensures forall i :: 0 <= i < |s| && !drop(s[i]) ==> s[i] in r
  {
    if s == [] then []
    else if drop(s[0]) then FilterOut(s[1..], drop)
    else [s[0]] + FilterOut(s[1..], drop)
  }

  /** Filtering distributes over concatenation: the kept elements keep their
      relative order. */
  lemma {:induction false} FilterOutConcat<T>(a: seq<T>, b: seq<T>, drop: T -> bool)
    ensures FilterOut(a + b, drop) == FilterOut(a, drop) + FilterOut(b, drop)
  {
    if a != [] {
      var t := a[1..];
      assert (a + b)[0] == a[0];
      assert (a + b)[1..] == t + b;
      FilterOutConcat(t, b, drop);
      if !drop(a[0]) {
        var ft, fb := FilterOut(t, drop), FilterOut(b, drop);
        assert [a[0]] + (ft + fb) == ([a[0]] + ft) + fb;
      }
    } else {
      assert a + b == b;
    }
  }

  /** Filtering a second time with the same test changes nothing. */
  lemma {:induction false} FilterOutIdempotent<T>(s: seq<T>, drop: T -> bool)
    ensures FilterOut(FilterOut(s, drop), drop) == FilterOut(s, drop)
  {
    if s != [] {
      FilterOutIdempotent(s[1..], drop);
      if !drop(s[0]) {
        var rest := FilterOut(s[1..], drop);
        assert ([s[0]] + rest)[1..] == rest;
      }
    }
  }

  /** When no element matches, the filter returns its input. */
  lemma {:induction false} FilterOutNoneDropped<T>(s: seq<T>, drop: T -> bool)
    requires forall i :: 0 <= i < |s| ==> !drop(s[i])
    ensures FilterOut(s, drop) == s
  {
    if s != [] {
      FilterOutNoneDropped(s[1..], drop);
      assert [s[0]] + s[1..] == s;
    }
  }

  /** `rel` holds between every element and every later one. */
  ghost predicate Pairwise<T(!new)>(s: seq<T>, rel: (T, T) -> bool) {
    forall i, j :: 0 <= i < j < |s| ==> rel(s[i], s[j])
  }

  /** A relation between each element and every later one survives filtering. */
  lemma {:induction false} FilterOutPairwise<T(!new)>(s: seq<T>, drop: T -> bool, rel: (T, T) -> bool)
    requires Pairwise(s, rel)
    ensures Pairwise(FilterOut(s, drop), rel)
  {
    if s != [] {
      assert Pairwise(s[1..], rel) by {
        forall i, j | 0 <= i < j < |s[1..]| ensures rel(s[1..][i], s[1..][j]) {
          assert s[1..][i] == s[i + 1] && s[1..][j] == s[j + 1];
        }
      }
      FilterOutPairwise(s[1..], drop, rel);
      var rest := FilterOut(s[1..], drop);
      if !drop(s[0]) {
        var r := [s[0]] + rest;
        forall i, j | 0 <= i < j < |r| ensures rel(r[i], r[j]) {
          if i == 0 {
            assert r[j] == rest[j - 1];
            assert r[j] in s[1..];
            var k :| 0 <= k < |s[1..]| && s[1..][k] == r[j];
            assert s[k + 1] == r[j];
          } else {
            assert r[i] == rest[i - 1] && r[j] == rest[j - 1];
          }
        }
      }
    }
  }

  /** The index of the first element that matches, if any. */
  function FirstIndex<T>(s: seq<T>, matches: T -> bool): (r: Option<nat>)
    ensures r.Some? ==> r.value < |s| && matches(s[r.value])
    ensures r.Some? ==> forall j :: 0 <= j < r.value ==> !matches(s[j])
    ensures r.None? <==> forall j :: 0 <= j < |s| ==> !matches(s[j])
  {
    if s == [] then None
    else if matches(s[0]) then Some(0)
    else match FirstIndex(s[1..], matches)
      case None => None
      case Some(k) => Some(k + 1)
  }
}
