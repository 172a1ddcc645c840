/** Ordering of stations by display name, as used when the widget setup screen
    lists the stations of each state. The comparator itself is not part of this
    model; it is stood in for by the lexicographic order on character codes,
    which is a total order, and `sortedWith` by a stable insertion sort. */
module StationOrder {
  import opened Api

  /** Lexicographic "less than or equal" on names. */
  predicate NameLeq(a: string, b: string)
    decreases |a|
  {
    a == [] || (b != [] && (a[0] < b[0] || (a[0] == b[0] && NameLeq(a[1..], b[1..]))))
  }

  lemma {:induction false} NameLeqReflexive(a: string)
    ensures NameLeq(a, a)
    decreases |a|
  {
    if a != [] {
      NameLeqReflexive(a[1..]);
    }
  }

  lemma {:induction false} NameLeqTotal(a: string, b: string)
    ensures NameLeq(a, b) || NameLeq(b, a)
    decreases |a|
  {
    if a != [] && b != [] && a[0] == b[0] {
      NameLeqTotal(a[1..], b[1..]);
    }
  }

  lemma {:induction false} NameLeqTransitive(a: string, b: string, c: string)
    requires NameLeq(a, b) && NameLeq(b, c)
    ensures NameLeq(a, c)
    decreases |a|
  {
    if a != [] && b != [] && c != [] && a[0] == b[0] && b[0] == c[0] {
      NameLeqTransitive(a[1..], b[1..], c[1..]);
    }
  }

  lemma {:induction false} NameLeqAntisymmetric(a: string, b: string)
    requires NameLeq(a, b) && NameLeq(b, a)
    ensures a == b
    decreases |a|
  {
    if a != [] && b != [] {
      NameLeqAntisymmetric(a[1..], b[1..]);
      assert a == [a[0]] + a[1..] && b == [b[0]] + b[1..];
    }
  }

  predicate StationLeq(x: Station, y: Station)
  {
    NameLeq(x.displayName, y.displayName)
  }

  /** Every earlier station's display name is at most every later one's. */
  ghost predicate SortedByDisplayName(s: seq<Station>)
  {
    forall i, j :: 0 <= i < j < |s| ==> StationLeq(s[i], s[j])
  }

  /** Inserts `x` before the first station whose name is not below it. */
  function Insert(x: Station, s: seq<Station>): (r: seq<Station>)
    ensures multiset(r) == multiset(s) + multiset{x}
    ensures |r| == |s| + 1
    ensures SortedByDisplayName(s) ==> SortedByDisplayName(r)
  {
    if s == [] then [x]
    else if StationLeq(x, s[0]) then
      InsertFrontSorted(x, s);
      [x] + s
    else
      var rest := Insert(x, s[1..]);
      NameLeqTotal(x.displayName, s[0].displayName);
      assert s == [s[0]] + s[1..];
      InsertAfterSorted(s[0], x, s[1..], rest);
      [s[0]] + rest
  }

  lemma InsertFrontSorted(x: Station, s: seq<Station>)
    requires s != [] && StationLeq(x, s[0])
    ensures SortedByDisplayName(s) ==> SortedByDisplayName([x] + s)
  {
    if SortedByDisplayName(s) {
      forall j | 0 < j < |s| + 1
        ensures StationLeq(x, ([x] + s)[j])
      {
        if j > 1 {
          NameLeqTransitive(x.displayName, s[0].displayName, s[j - 1].displayName);
        }
      }
    }
  }

  lemma InsertAfterSorted(h: Station, x: Station, tail: seq<Station>, rest: seq<Station>)
    requires StationLeq(h, x)
    requires multiset(rest) == multiset(tail) + multiset{x}
    requires SortedByDisplayName([h] + tail) ==> SortedByDisplayName(tail)
    requires SortedByDisplayName(tail) ==> SortedByDisplayName(rest)
    ensures SortedByDisplayName([h] + tail) ==> SortedByDisplayName([h] + rest)
  {
    if SortedByDisplayName([h] + tail) {
      forall j | 0 <= j < |rest|
        ensures StationLeq(h, rest[j])
      {
        assert rest[j] in multiset(rest);
        if rest[j] != x {
          assert rest[j] in multiset(tail);
          var k :| 0 <= k < |tail| && tail[k] == rest[j];
          assert ([h] + tail)[0] == h && ([h] + tail)[k + 1] == tail[k];
          assert StationLeq(([h] + tail)[0], ([h] + tail)[k + 1]);
        }
      }
    }
  }

  /** A stable sort of `s` by display name. */
  function SortByDisplayName(s: seq<Station>): (r: seq<Station>)
    ensures multiset(r) == multiset(s)
    ensures |r| == |s|
    ensures SortedByDisplayName(r)
  {
    if s == [] then []
    else
      assert s == [s[0]] + s[1..];
      Insert(s[0], SortByDisplayName(s[1..]))
  }
}
