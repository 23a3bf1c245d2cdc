/** The three list operations the store is built from — `find`, a `map` that
    rewrites the elements matching a test, and `filter` — and `join`, each
    with the facts the rest of the model relies on. */
module Seqs {
  import opened Types

  /** `Array.prototype.find`: the first element that satisfies `p`. */
  function FindFirst<T>(s: seq<T>, p: T -> bool): (r: Option<T>)
    ensures r.Some? ==> r.value in s && p(r.value)
    ensures r.None? <==> forall i :: 0 <= i < |s| ==> !p(s[i])
  {
    if s == [] then None
    else if p(s[0]) then Some(s[0])
    else FindFirst(s[1..], p)
  }

  /** What `FindFirst` returns is the element at the first index that satisfies `p`. */
  lemma {:induction false} FindFirstAt<T>(s: seq<T>, p: T -> bool, i: nat)
    requires i < |s| && p(s[i])
    requires forall j :: 0 <= j < i ==> !p(s[j])
    ensures FindFirst(s, p) == Some(s[i])
  {
    if i > 0 {
      assert !p(s[0]);
      FindFirstAt(s[1..], p, i - 1);
    }
  }

  /** `FindFirstAt` for every index at once. */
  lemma FindFirstIsFirst<T>(s: seq<T>, p: T -> bool)
    ensures forall i :: 0 <= i < |s| && p(s[i]) && (forall j :: 0 <= j < i ==> !p(s[j])) ==>
              FindFirst(s, p) == Some(s[i])
  {
    forall i | 0 <= i < |s| && p(s[i]) && (forall j :: 0 <= j < i ==> !p(s[j])) {
      FindFirstAt(s, p, i);
    }
  }

  /** A rewrite that keeps the test's verdict on every element does not move
      what `find` lands on: it finds the rewritten form of the same element. */
  lemma {:induction false} FindFirstMapWhere<T>(s: seq<T>, p: T -> bool, f: T -> T, q: T -> bool)
    requires forall x :: q(f(x)) == q(x)
    ensures FindFirst(MapWhere(s, p, f), q) ==
              match FindFirst(s, q)
              case Some(x) => Some(if p(x) then f(x) else x)
              case None => None
  {
    if s != [] {
      assert MapWhere(s, p, f)[1..] == MapWhere(s[1..], p, f);
      FindFirstMapWhere(s[1..], p, f, q);
    }
  }

  /** Splits a list around one occurrence of `x`; the rest holds every other
      element, with its multiplicity. */
  lemma RemoveOne<T>(s: seq<T>, x: T) returns (s1: seq<T>, s2: seq<T>)
    requires x in multiset(s)
    ensures s == s1 + [x] + s2
    ensures multiset(s1 + s2) == multiset(s) - multiset{x}
  {
    var k :| 0 <= k < |s| && s[k] == x;
    s1, s2 := s[..k], s[k + 1..];
    assert s == s1 + [x] + s2;
  }

  /** `xs.map(e => p(e) ? f(e) : e)`: rewrites exactly the matching elements, in place. */
  function MapWhere<T>(s: seq<T>, p: T -> bool, f: T -> T): (r: seq<T>)
    ensures |r| == |s|
    ensures forall i :: 0 <= i < |s| ==> r[i] == if p(s[i]) then f(s[i]) else s[i]
  {
    if s == [] then [] else [if p(s[0]) then f(s[0]) else s[0]] + MapWhere(s[1..], p, f)
  }

  /** With no element matching, the rewrite leaves the list as it was. */
  lemma MapWhereNoMatch<T>(s: seq<T>, p: T -> bool, f: T -> T)
    requires forall x :: x in s ==> !p(x)
    ensures MapWhere(s, p, f) == s
  {
    var r := MapWhere(s, p, f);
    assert forall i :: 0 <= i < |s| ==> r[i] == s[i] by {
      forall i | 0 <= i < |s| ensures r[i] == s[i] {
        assert s[i] in s;
      }
    }
  }

  /** `xs.filter(p)`: keeps exactly the elements satisfying `p`. */
  function Filter<T>(s: seq<T>, p: T -> bool): (r: seq<T>)
    ensures |r| <= |s|
  {
    if s == [] then []
    else if p(s[0]) then [s[0]] + Filter(s[1..], p)
    else Filter(s[1..], p)
  }

  /** The filtered list holds exactly the elements of the list that pass. */
  lemma {:induction false} FilterMembers<T(!new)>(s: seq<T>, p: T -> bool)
    ensures forall x :: x in Filter(s, p) <==> x in s && p(x)
  {
    if s != [] {
      FilterMembers(s[1..], p);
      assert s == [s[0]] + s[1..];
    }
  }

  /** Filtering distributes over concatenation, so the kept elements stay in their
      original relative order. */
  lemma {:induction false} FilterAppend<T>(a: seq<T>, b: seq<T>, p: T -> bool)
    ensures Filter(a + b, p) == Filter(a, p) + Filter(b, p)
  {
    if a != [] {
      assert (a + b)[0] == a[0] && (a + b)[1..] == a[1..] + b;
      FilterAppend(a[1..], b, p);
      if p(a[0]) {
        assert Filter(a + b, p) == [a[0]] + (Filter(a[1..], p) + Filter(b, p));
      }
    } else {
      assert a + b == b;
    }
  }

  /** A list whose every element passes is kept whole. */
  lemma {:induction false} FilterAll<T>(s: seq<T>, p: T -> bool)
    requires forall i :: 0 <= i < |s| ==> p(s[i])
    ensures Filter(s, p) == s
  {
    if s != [] {
      FilterAll(s[1..], p);
    }
  }

  /** A list none of whose elements passes is filtered away entirely. */
  lemma {:induction false} FilterNone<T>(s: seq<T>, p: T -> bool)
    requires forall i :: 0 <= i < |s| ==> !p(s[i])
    ensures Filter(s, p) == []
  {
    if s != [] {
      FilterNone(s[1..], p);
    }
  }

  /** Filtering twice by the same test changes nothing more. */
  lemma FilterIdempotent<T(!new)>(s: seq<T>, p: T -> bool)
    ensures Filter(Filter(s, p), p) == Filter(s, p)
  {
    var r := Filter(s, p);
    FilterMembers(s, p);
    forall i | 0 <= i < |r| ensures p(r[i]) {
      assert r[i] in Filter(s, p);
    }
    FilterAll(r, p);
  }

  /** The first element kept by a filter is the one `find` returns. */
  lemma {:induction false} FilterHeadIsFindFirst<T>(s: seq<T>, p: T -> bool)
    ensures |Filter(s, p)| > 0 <==> FindFirst(s, p).Some?
    ensures |Filter(s, p)| > 0 ==> FindFirst(s, p) == Some(Filter(s, p)[0])
  {
    if s != [] && !p(s[0]) {
      FilterHeadIsFindFirst(s[1..], p);
    }
  }

  /** No element occurs twice. */
  predicate Distinct<T(==)>(s: seq<T>) {
    forall i, j :: 0 <= i < j < |s| ==> s[i] != s[j]
  }

  /** Filtering a list without repetitions leaves one without repetitions. */
  lemma {:induction false} FilterDistinct<T(!new)>(s: seq<T>, p: T -> bool)
    requires Distinct(s)
    ensures Distinct(Filter(s, p))
  {
    if s != [] {
      var t := s[1..];
      assert Distinct(t) by {
        forall i, j | 0 <= i < j < |t| ensures t[i] != t[j] {
          assert t[i] == s[i + 1] && t[j] == s[j + 1];
        }
      }
      FilterDistinct(t, p);
      if p(s[0]) {
        var r := Filter(t, p);
        FilterMembers(t, p);
        assert s[0] !in t by {
          forall k | 0 <= k < |t| ensures t[k] != s[0] {
            assert t[k] == s[k + 1];
          }
        }
        assert s[0] !in r;
        var q := [s[0]] + r;
        forall i, j | 0 <= i < j < |q| ensures q[i] != q[j] {
          if i == 0 {
            assert q[j] == r[j - 1] && r[j - 1] in r;
          } else {
            assert q[i] == r[i - 1] && q[j] == r[j - 1];
          }
        }
      }
    }
  }

  /** A filter that every element passes keeps the list; one that none passes leaves nothing. */
  lemma FilterAllOrNone<T>(s: seq<T>, p: T -> bool)
    ensures (forall i :: 0 <= i < |s| ==> p(s[i])) ==> Filter(s, p) == s
    ensures (forall i :: 0 <= i < |s| ==> !p(s[i])) ==> Filter(s, p) == []
  {
    if forall i :: 0 <= i < |s| ==> p(s[i]) {
      FilterAll(s, p);
    }
    if forall i :: 0 <= i < |s| ==> !p(s[i]) {
      FilterNone(s, p);
    }
  }

  /** `segments.join(sep)`. */
  function Join(segments: seq<string>, sep: string): (r: string)
    ensures segments == [] ==> r == []
    ensures |segments| == 1 ==> r == segments[0]
  {
    if segments == [] then []
    else if |segments| == 1 then segments[0]
    else segments[0] + sep + Join(segments[1..], sep)
  }

  /** Joining one more segment adds the separator and that segment at the end. */
  lemma {:induction false} JoinSnoc(segments: seq<string>, x: string, sep: string)
    requires segments != []
    ensures Join(segments + [x], sep) == Join(segments, sep) + sep + x
  {
    if |segments| == 1 {
      assert segments + [x] == [segments[0], x];
    } else {
      assert (segments + [x])[1..] == segments[1..] + [x];
      JoinSnoc(segments[1..], x, sep);
    }
  }

  /** The joined string is the segments' lengths plus one separator between each pair. */
  lemma {:induction false} JoinLength(segments: seq<string>, sep: string)
    requires segments != []
    ensures |Join(segments, sep)| == TotalLength(segments) + (|segments| - 1) * |sep|
  {
    if |segments| > 1 {
      JoinLength(segments[1..], sep);
    }
  }

  /** n segments joined hold at least the n - 1 separators. */
  lemma JoinSeparators(segments: seq<string>, sep: string)
    ensures |segments| >= 1 ==> |Join(segments, sep)| >= (|segments| - 1) * |sep|
  {
    if segments != [] {
      JoinLength(segments, sep);
    }
  }

  function TotalLength(segments: seq<string>): nat {
    if segments == [] then 0 else |segments[0]| + TotalLength(segments[1..])
  }
}
