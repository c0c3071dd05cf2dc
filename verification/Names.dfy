/** Sorted lists of names. The sources compare name lists by sorting them; the results here say what such a
    comparison decides: equality of sets after `UniqueSorted`, equality of multisets after `Sort`. */
module Names {

  /** Lexicographic order, as `sort.Strings` uses it. */
  predicate Leq(a: string, b: string) {
    a == [] || (b != [] && (a[0] < b[0] || (a[0] == b[0] && Leq(a[1..], b[1..]))))
  }

  lemma {:induction false} LeqTotal(a: string, b: string)
    ensures Leq(a, b) || Leq(b, a)
  {
    if a != [] && b != [] {
      LeqTotal(a[1..], b[1..]);
    }
  }

  lemma {:induction false} LeqTransitive(a: string, b: string, c: string)
    requires Leq(a, b) && Leq(b, c)
    ensures Leq(a, c)
  {
    if a != [] && b != [] && c != [] && a[0] == b[0] == c[0] {
      LeqTransitive(a[1..], b[1..], c[1..]);
    }
  }

  lemma {:induction false} LeqAntisymmetric(a: string, b: string)
    requires Leq(a, b) && Leq(b, a)
    ensures a == b
  {
    if a != [] {
      LeqAntisymmetric(a[1..], b[1..]);
      assert a == [a[0]] + a[1..] && b == [b[0]] + b[1..];
    }
  }

  predicate Sorted(s: seq<string>) {
    forall i, j | 0 <= i < j < |s| :: Leq(s[i], s[j])
  }

  function Insert(x: string, s: seq<string>): (r: seq<string>)
    requires Sorted(s)
    ensures Sorted(r) && multiset(r) == multiset(s) + multiset{x}
  {
    if s == [] then [x]
    else
      assert s == [s[0]] + s[1..];
      if Leq(x, s[0]) then
        assert forall i | 0 <= i < |s| :: Leq(x, s[i]) by {
          forall i | 0 <= i < |s| ensures Leq(x, s[i]) {
            if i > 0 { LeqTransitive(x, s[0], s[i]); }
          }
        }
        [x] + s
      else
        LeqTotal(x, s[0]);
        var rest := Insert(x, s[1..]);
        assert forall y | y in rest :: Leq(s[0], y) by {
          forall y | y in rest ensures Leq(s[0], y) {
            assert y in multiset(rest);
          }
        }
        [s[0]] + rest
  }

  function Sort(s: seq<string>): (r: seq<string>)
    ensures Sorted(r) && multiset(r) == multiset(s)
  {
    if s == [] then []
    else
      assert s == [s[0]] + s[1..];
      Insert(s[0], Sort(s[1..]))
  }

  lemma HeadIsLeast(s: seq<string>, x: string)
    requires Sorted(s) && x in multiset(s)
    ensures s != [] && Leq(s[0], x)
  {
    var i :| 0 <= i < |s| && s[i] == x;
    LeqTotal(x, x);
  }

  lemma SameHead(a: seq<string>, b: seq<string>)
    requires Sorted(a) && Sorted(b) && multiset(a) == multiset(b) && a != [] && b != []
    ensures a[0] == b[0] && Sorted(a[1..]) && Sorted(b[1..])
  {
    assert a[0] in multiset(a) && b[0] in multiset(b);
    HeadIsLeast(a, b[0]);
    HeadIsLeast(b, a[0]);
    LeqAntisymmetric(a[0], b[0]);
  }

  lemma MultisetTail(s: seq<string>)
    requires s != []
    ensures multiset(s[1..]) == multiset(s) - multiset{s[0]}
  {
    assert s == [s[0]] + s[1..];
  }

  lemma SameList(a: seq<string>, b: seq<string>)
    requires a != [] && b != [] && a[0] == b[0] && a[1..] == b[1..]
    ensures a == b
  {
    assert a == [a[0]] + a[1..] && b == [b[0]] + b[1..];
  }

  /** A sorted list is determined by its multiset. */
  lemma {:induction false} SortedIsCanonical(a: seq<string>, b: seq<string>)
    requires Sorted(a) && Sorted(b) && multiset(a) == multiset(b)
    ensures a == b
  {
    assert |a| == |multiset(a)| == |multiset(b)| == |b|;
    if a != [] {
      SameHead(a, b);
      MultisetTail(a);
      MultisetTail(b);
      SortedIsCanonical(a[1..], b[1..]);
      SameList(a, b);
    }
  }

  lemma SortDecidesMultisets(a: seq<string>, b: seq<string>)
    ensures Sort(a) == Sort(b) <==> multiset(a) == multiset(b)
  {
    if multiset(a) == multiset(b) {
      SortedIsCanonical(Sort(a), Sort(b));
    }
  }

  function Elements(s: seq<string>): set<string> {
    set x | x in s
  }

  predicate NoDuplicates(s: seq<string>) {
    forall i, j | 0 <= i < j < |s| :: s[i] != s[j]
  }

  /** The non-empty names of a list, each once, in order of first occurrence. */
  function Distinct(s: seq<string>): (r: seq<string>)
    ensures NoDuplicates(r) && Elements(r) == Elements(s) - {""}
    decreases |s|
  {
    if s == [] then []
    else
      var init, x := s[..|s| - 1], s[|s| - 1];
      assert s == init + [x];
      var r := Distinct(init);
      assert x in Elements(r) <==> x in Elements(s[..|s| - 1]) && x != "";
      if x == "" || x in r then
        assert Elements(s) - {""} == Elements(init) - {""} by {
          if x in r { assert x in Elements(r); }
        }
        r
      else
        assert Elements(r + [x]) == Elements(r) + {x};
        assert Elements(s) == Elements(init) + {x};
        r + [x]
  }

  function UniqueSorted(s: seq<string>): (r: seq<string>)
    ensures Sorted(r) && NoDuplicates(r) && Elements(r) == Elements(s) - {""}
  {
    var d := Distinct(s);
    SortKeepsDistinct(d);
    Sort(d)
  }

  lemma MultisetOfDistinct(s: seq<string>)
    requires NoDuplicates(s)
    ensures forall x :: multiset(s)[x] == if x in s then 1 else 0
  {
    if s != [] {
      assert s == [s[0]] + s[1..];
      MultisetOfDistinct(s[1..]);
    }
  }

  lemma RepeatedCounts(s: seq<string>, i: nat, j: nat)
    requires i < j < |s| && s[i] == s[j]
    ensures multiset(s)[s[i]] >= 2
  {
    assert s == s[..j] + s[j..];
    assert s[..j][i] == s[i] && s[j..][0] == s[i];
    assert s[i] in multiset(s[..j]) && s[i] in multiset(s[j..]);
  }

  lemma SortKeepsDistinct(s: seq<string>)
    requires NoDuplicates(s)
    ensures NoDuplicates(Sort(s)) && Elements(Sort(s)) == Elements(s)
  {
    var r := Sort(s);
    MultisetOfDistinct(s);
    forall x ensures x in r <==> x in s {
      assert x in multiset(r) <==> x in multiset(s);
    }
    forall i, j | 0 <= i < j < |r| ensures r[i] != r[j] {
      if r[i] == r[j] {
        RepeatedCounts(r, i, j);
      }
    }
  }

  /** Two name lists sort to the same unique list exactly when they hold the same non-empty names. */
  lemma UniqueSortedDecidesSets(a: seq<string>, b: seq<string>)
    ensures UniqueSorted(a) == UniqueSorted(b) <==> Elements(a) - {""} == Elements(b) - {""}
  {
    var x, y := UniqueSorted(a), UniqueSorted(b);
    if Elements(a) - {""} == Elements(b) - {""} {
      MultisetOfDistinct(x);
      MultisetOfDistinct(y);
      forall n ensures multiset(x)[n] == multiset(y)[n] {
        assert n in x <==> n in Elements(x);
        assert n in y <==> n in Elements(y);
      }
      SortedIsCanonical(x, y);
    }
  }

  lemma {:induction false} DistinctSize(names: seq<string>)
    requires NoDuplicates(names)
    ensures |Elements(names)| == |names|
    decreases |names|
  {
    if names != [] {
      var init, last := names[..|names| - 1], names[|names| - 1];
      DistinctSize(init);
      assert names == init + [last];
      assert Elements(names) == Elements(init) + {last} && last !in Elements(init);
    }
  }
}
