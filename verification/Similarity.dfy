/** How alike two bodies are: the Dice coefficient of their token multisets, as a percentage. */
module Similarity {
  import opened Labels

  /** A body as its blank-separated tokens; `size` is its length in bytes, `hash` is empty when not computed. */
  datatype Body = Body(size: nat, tokens: seq<string>, hash: string)

  function Lowered(tokens: seq<string>): (r: seq<string>)
    ensures |r| == |tokens| && forall i | 0 <= i < |r| :: r[i] == Lower(tokens[i])
  {
    seq(|tokens|, i requires 0 <= i < |tokens| => Lower(tokens[i]))
  }

  function Common(left: seq<string>, right: seq<string>): nat {
    |multiset(left) * multiset(right)|
  }

  function Percent(overlap: nat, left: nat, right: nat): real
    requires left + right > 0
  {
    200.0 * overlap as real / (left + right) as real
  }

  function Score(left: Body, right: Body): real {
    if left.size == 0 && right.size == 0 then 0.0
    else if left.hash != "" && left.hash == right.hash then 100.0
    else if left.tokens == [] || right.tokens == [] then 0.0
    else Percent(Common(Lowered(left.tokens), Lowered(right.tokens)), |left.tokens|, |right.tokens|)
  }

  /** What is left of the counts after matching some tokens. */
  ghost predicate Counted(counts: map<string, nat>, left: multiset<string>, matched: multiset<string>) {
    forall t :: (if t in counts then counts[t] else 0) == if left[t] > matched[t] then left[t] - matched[t] else 0
  }

  lemma MatchOne(left: multiset<string>, matched: multiset<string>, t: string)
    ensures |left * (matched + multiset{t})| == |left * matched| + if left[t] > matched[t] then 1 else 0
  {
    var more := if left[t] > matched[t] then multiset{t} else multiset{};
    forall u ensures (left * (matched + multiset{t}))[u] == (left * matched + more)[u] {
    }
    assert left * (matched + multiset{t}) == left * matched + more;
  }

  lemma CountedOne(counts: map<string, nat>, left: multiset<string>, matched: multiset<string>, t: string)
    requires Counted(counts, left, matched)
    ensures Counted(if t in counts && counts[t] > 0 then counts[t := counts[t] - 1] else counts, left, matched + multiset{t})
    ensures (t in counts && counts[t] > 0) <==> left[t] > matched[t]
  {
  }

  method CountTokens(tokens: seq<string>) returns (counts: map<string, nat>)
    ensures forall t :: (if t in counts then counts[t] else 0) == multiset(tokens)[t]
  {
    counts := map[];
    var i := 0;
    while i < |tokens|
      invariant i <= |tokens|
      invariant forall t :: (if t in counts then counts[t] else 0) == multiset(tokens[..i])[t]
    {
      assert tokens[..i + 1] == tokens[..i] + [tokens[i]];
      counts := counts[tokens[i] := (if tokens[i] in counts then counts[tokens[i]] else 0) + 1];
      i := i + 1;
    }
    assert tokens[..i] == tokens;
  }

  lemma OneMoreToken(tokens: seq<string>, i: nat)
    requires i < |tokens|
    ensures multiset(tokens[..i + 1]) == multiset(tokens[..i]) + multiset{tokens[i]}
  {
    assert tokens[..i + 1] == tokens[..i] + [tokens[i]];
  }

  /** Each right token uses up one equal left token: together, the multiset intersection. */
  method Overlap(left: seq<string>, right: seq<string>) returns (overlap: nat)
    ensures overlap == Common(left, right)
  {
    var counts := CountTokens(left);
    overlap := 0;
    var i := 0;
    while i < |right|
      invariant i <= |right|
      invariant overlap == |multiset(left) * multiset(right[..i])|
      invariant Counted(counts, multiset(left), multiset(right[..i]))
    {
      var t := right[i];
      OneMoreToken(right, i);
      MatchOne(multiset(left), multiset(right[..i]), t);
      CountedOne(counts, multiset(left), multiset(right[..i]), t);
      if t in counts && counts[t] > 0 {
        overlap := overlap + 1;
        counts := counts[t := counts[t] - 1];
      }
      i := i + 1;
    }
    assert right[..i] == right;
  }

  method BodySimilarity(left: Body, right: Body) returns (score: real)
    ensures score == Score(left, right)
  {
    if left.size == 0 && right.size == 0 {
      return 0.0;
    }
    if left.hash != "" && left.hash == right.hash {
      return 100.0;
    }
    var leftFields, rightFields := Lowered(left.tokens), Lowered(right.tokens);
    if |leftFields| == 0 || |rightFields| == 0 {
      return 0.0;
    }
    var overlap := Overlap(leftFields, rightFields);
    score := Percent(overlap, |leftFields|, |rightFields|);
  }

  // ---------------------------------------------------------------- what the score means

  lemma CommonBounds(left: seq<string>, right: seq<string>)
    ensures Common(left, right) <= |left| && Common(left, right) <= |right|
    ensures Common(left, right) == Common(right, left)
    ensures Common(left, right) == |left| == |right| <==> multiset(left) == multiset(right)
  {
    var a, b := multiset(left), multiset(right);
    assert a * b == b * a;
    Parts(a, b);
    Parts(b, a);
    if |a * b| == |a| == |b| {
      assert a - b == multiset{} && b - a == multiset{};
      forall t ensures a[t] == b[t] {
        assert (a - b)[t] == 0 && (b - a)[t] == 0;
      }
    }
    if a == b {
      assert a * b == a;
    }
  }

  lemma Parts(a: multiset<string>, b: multiset<string>)
    ensures |a * b| + |a - b| == |a|
  {
    forall t ensures (a * b + (a - b))[t] == a[t] {
    }
    assert a * b + (a - b) == a;
  }

  lemma Scaled(q: real, n: real, top: real)
    requires n > 0.0 && q * n == top && 0.0 <= top <= 100.0 * n
    ensures 0.0 <= q <= 100.0
    ensures q == 100.0 <==> top == 100.0 * n
  {
    assert (q - 100.0) * n == top - 100.0 * n;
    assert (100.0 - q) * n == 100.0 * n - top;
    assert (0.0 - q) * n == 0.0 - top;
    if q > 100.0 {
      Positive(q - 100.0, n);
    } else if q < 100.0 {
      Positive(100.0 - q, n);
    }
    if q < 0.0 {
      Positive(0.0 - q, n);
    }
  }

  lemma Positive(x: real, y: real)
    requires x > 0.0 && y > 0.0
    ensures x * y > 0.0
  {
  }

  lemma Quotient(top: real, n: real)
    requires n > 0.0
    ensures top / n * n == top
  {
  }

  lemma PercentBounds(overlap: nat, left: nat, right: nat)
    requires left + right > 0 && overlap <= left && overlap <= right
    ensures 0.0 <= Percent(overlap, left, right) <= 100.0
    ensures Percent(overlap, left, right) == 100.0 <==> overlap == left == right
  {
    var n, top := (left + right) as real, 200.0 * overlap as real;
    Quotient(top, n);
    Scaled(top / n, n, top);
    assert top == 100.0 * n <==> 2 * overlap == left + right;
  }

  /** The score lies in 0..100, does not depend on the order of the bodies, and is 100 on token lists exactly
      when they hold the same tokens, each as often, up to case. */
  lemma ScoreMeaning(left: Body, right: Body)
    ensures 0.0 <= Score(left, right) <= 100.0 && Score(left, right) == Score(right, left)
    ensures (left.size > 0 || right.size > 0) && (left.hash == "" || left.hash != right.hash)
            && left.tokens != [] && right.tokens != [] ==>
              (Score(left, right) == 100.0 <==> multiset(Lowered(left.tokens)) == multiset(Lowered(right.tokens)))
  {
    if left.tokens != [] && right.tokens != [] {
      var a, b := Lowered(left.tokens), Lowered(right.tokens);
      CommonBounds(a, b);
      PercentBounds(Common(a, b), |a|, |b|);
      assert |left.tokens| + |right.tokens| == |right.tokens| + |left.tokens|;
    }
  }
}
