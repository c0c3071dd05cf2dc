/** Depth-first expansion of nested lists, and walks that stop after a number of items. `next` says what list
    an item opens, if any, given the context it stands in. */
module DepthFirst {
  import opened Options

  datatype Level<T, C> = Level(items: seq<T>, context: C)

  type Next<!T, !C> = (T, C) -> Option<Level<T, C>>

  /** The items in depth-first order, nested lists expanded `depth` levels deep. */
  function Expansion<T, C>(next: Next<T, C>, depth: nat, items: seq<T>, context: C): seq<T>
    decreases depth, |items| + 1
  {
    if items == [] then []
    else [items[0]] + Under(next, depth, next(items[0], context)) + Expansion(next, depth, items[1..], context)
  }

  function Under<T, C>(next: Next<T, C>, depth: nat, level: Option<Level<T, C>>): seq<T>
    decreases depth, 0
  {
    if level.Some? && depth > 0 then Expansion(next, depth - 1, level.value.items, level.value.context) else []
  }

  /** The items a walk meets when it may meet at most `budget` of them, nested ones included. */
  function Met<T, C>(next: Next<T, C>, budget: nat, items: seq<T>, context: C): (met: seq<T>)
    ensures |met| <= budget
    decreases budget, |items|
  {
    if items == [] || budget == 0 then []
    else
      var inner := MetUnder(next, budget - 1, next(items[0], context));
      [items[0]] + inner + Met(next, budget - 1 - |inner|, items[1..], context)
  }

  function MetUnder<T, C>(next: Next<T, C>, budget: nat, level: Option<Level<T, C>>): (met: seq<T>)
    ensures |met| <= budget
    decreases budget + 1, 0
  {
    if level.Some? then Met(next, budget, level.value.items, level.value.context) else []
  }

  function Take<T>(s: seq<T>, n: nat): seq<T> {
    if |s| <= n then s else s[..n]
  }

  lemma TakeThree<T>(a: T, b: seq<T>, c: seq<T>, n: nat)
    requires 1 <= n
    ensures Take([a] + b + c, n) == [a] + Take(b, n - 1) + Take(c, n - 1 - |Take(b, n - 1)|)
  {
  }

  /** A budgeted walk meets exactly the first items of the expansion, however deep that is taken. */
  lemma {:induction false} MetIsPrefix<T, C>(next: Next<T, C>, budget: nat, depth: nat, items: seq<T>, context: C)
    requires depth >= budget
    ensures Met(next, budget, items, context) == Take(Expansion(next, depth, items, context), budget)
    decreases budget, |items|
  {
    if items != [] && budget > 0 {
      var level := next(items[0], context);
      var deeper := Under(next, depth, level);
      UnderIsPrefix(next, budget - 1, depth, level);
      MetIsPrefix(next, budget - 1 - |Take(deeper, budget - 1)|, depth, items[1..], context);
      TakeThree(items[0], deeper, Expansion(next, depth, items[1..], context), budget);
    }
  }

  lemma {:induction false} UnderIsPrefix<T, C>(next: Next<T, C>, budget: nat, depth: nat, level: Option<Level<T, C>>)
    requires depth > budget
    ensures MetUnder(next, budget, level) == Take(Under(next, depth, level), budget)
    decreases budget + 1, 0
  {
    if level.Some? {
      MetIsPrefix(next, budget, depth - 1, level.value.items, level.value.context);
    }
  }

  lemma {:induction false} ExpansionConcat<T, C>(next: Next<T, C>, depth: nat, a: seq<T>, b: seq<T>, context: C)
    ensures Expansion(next, depth, a + b, context) == Expansion(next, depth, a, context) + Expansion(next, depth, b, context)
    decreases |a|
  {
    if a == [] {
      assert a + b == b;
    } else {
      assert (a + b)[1..] == a[1..] + b;
      ExpansionConcat(next, depth, a[1..], b, context);
    }
  }
}
