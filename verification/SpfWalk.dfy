/** The recursive evaluation of an SPF policy: nested policies are walked depth first, with one counter of
    lookup terms shared by the whole walk (at most ten, section 4.6.4 of RFC 7208) and a set of the domains
    on the current path.

    The resolver is a function of the name. */
module SpfWalk {
  import opened Sequences
  import opened Options
  import opened DepthFirst
  import opened Labels
  import opened SpfTerms

  datatype Status = Resolved | NoData | NXDomain | Error

  datatype Answer = Answer(status: Status, txts: seq<string>)

  const LIMIT := 10

  /** The policy a queried name leads to. */
  function Nested(answer: Answer): Option<string> {
    if answer.status.NXDomain? || answer.status.NoData? then None else FirstPolicy(answer.txts)
  }

  type Resolver = string -> Answer

  /** What a walk looks things up with: the resolver, the reading of a term, and the key of a name in the set of
      names on the path. */
  datatype Tools = Tools(dns: Resolver, parse: Parser, key: string -> string)

  /** The lookup terms of a policy, in order. */
  function Lookups(parse: Parser, tokens: seq<string>): seq<Term> {
    if tokens == [] then []
    else (match parse(tokens[0]) case None => [] case Some(term) => [term]) + Lookups(parse, tokens[1..])
  }

  /** The policy a term opens, unless its name is on the path already. */
  function Open(tools: Tools, term: Term, path: set<string>): Option<Level<Term, set<string>>> {
    match term.query
    case None => None
    case Some(name) =>
      var key, nested := tools.key(name), Nested(tools.dns(name));
      if key in path || nested.None? then None else Some(Level(Lookups(tools.parse, Fields(nested.value)), path + {key}))
  }

  /** The term names a policy whose domain is on the path already. */
  predicate LeadsBack(tools: Tools, term: Term, path: set<string>) {
    && term.query.Some? && Nested(tools.dns(term.query.value)).Some?
    && tools.key(term.query.value) in path
  }

  function Opening(tools: Tools): Next<Term, set<string>> {
    (term, path) => Open(tools, term, path)
  }

  // ---------------------------------------------------------------- the walk

  function Queries(terms: seq<Term>): seq<string>
    decreases |terms|
  {
    if terms == [] then []
    else
      var init, last := terms[..|terms| - 1], terms[|terms| - 1];
      Queries(init) + if last.query.Some? then [last.query.value] else []
  }

  lemma {:induction false} QueriesConcat(a: seq<Term>, b: seq<Term>)
    ensures Queries(a + b) == Queries(a) + Queries(b)
    decreases |b|
  {
    if b == [] {
      assert a + b == a;
    } else {
      var init, last := b[..|b| - 1], b[|b| - 1];
      QueriesConcat(a, init);
      assert (a + b)[..|a + b| - 1] == a + init;
    }
  }

  /** Of the names queried, those that do not exist. */
  function Missing(dns: Resolver, names: seq<string>): seq<string>
    decreases |names|
  {
    if names == [] then []
    else
      var last := names[|names| - 1];
      Missing(dns, names[..|names| - 1]) + if dns(last).status.NXDomain? then [last] else []
  }

  predicate WithoutPolicy(answer: Answer) {
    answer.status.NoData? || (answer.status.Resolved? && FirstPolicy(answer.txts).None?)
  }

  /** Of the names queried, those that exist and publish no policy. */
  function Bare(dns: Resolver, names: seq<string>): seq<string>
    decreases |names|
  {
    if names == [] then []
    else
      var last := names[|names| - 1];
      Bare(dns, names[..|names| - 1]) + if WithoutPolicy(dns(last)) then [last] else []
  }

  function Visited(key: string -> string, chain: seq<string>): set<string> {
    set name | name in chain :: key(name)
  }

  /** What is left of the allowance: the eleventh term is still met, and reported. */
  function Left(lookups: nat): nat {
    if lookups > LIMIT then 0 else LIMIT + 1 - lookups
  }

  /** The counter after meeting `met` within what was left: past the limit exactly when nothing is left. */
  predicate Spent(before: nat, met: seq<Term>, after: nat) {
    && |met| <= Left(before)
    && (if |met| < Left(before) then after == before + |met| else after > LIMIT)
  }

  /** The eleventh term is met but not queried. */
  lemma QueriesMore(done: seq<Term>, more: seq<Term>, before: nat, now: nat)
    requires before + |done| == now <= LIMIT
    ensures Queries(Take(done + more, LIMIT - before)) == Queries(Take(done, LIMIT - before)) + Queries(Take(more, LIMIT - now))
  {
    QueriesConcat(done, Take(more, LIMIT - now));
    assert Take(done + more, LIMIT - before) == done + Take(more, LIMIT - now);
  }

  class Walk {
    const tools: Tools
    var lookups: nat
    var limitReported: bool
    var path: set<string>
    var queried: seq<string>
    var limitReports: nat
    var missing: seq<string>
    var bare: seq<string>
    var cycles: seq<seq<string>>

    /** What holds whenever control enters or leaves a level of the walk. */
    ghost predicate Valid()
      reads this
    {
      && (limitReported <==> lookups > LIMIT)
      && limitReports == (if limitReported then 1 else 0)
      && |queried| <= lookups && |queried| <= LIMIT
      && missing == Missing(tools.dns, queried) && bare == Bare(tools.dns, queried)
      && Repeating(tools.key, cycles)
    }

    constructor (tools: Tools)
      ensures Valid() && this.tools == tools && lookups == 0 && path == {} && queried == [] && cycles == []
    {
      this.tools := tools;
      lookups, limitReported, path, queried, limitReports, missing, bare, cycles := 0, false, {}, [], 0, [], [], [];
    }

    /** One level of the walk: the policy `record` of `domain`, reached through `chain`. */
    method Descend(domain: string, record: string, chain: seq<string>)
      requires Valid() && lookups <= LIMIT
      requires chain != [] && chain[|chain| - 1] == domain && path == Visited(tools.key, chain[..|chain| - 1])
      modifies this
      ensures Valid() && path == old(path)
      ensures Walked(MetAt(domain, record, old(path), old(lookups)), old(lookups), old(queried), lookups, queried)
      ensures old(cycles) <= cycles
      ensures tools.key(domain) in old(path) ==> cycles == old(cycles) + [chain + [tools.key(domain)]]
      decreases Left(lookups), 3
    {
      var current := tools.key(domain);
      if current in path {
        NoTerms(lookups, queried);
        cycles := cycles + [chain + [current]];
        return;
      }
      path := path + {current};
      Extended(tools.key, chain);
      Terms(record, chain);
      path := path - {current};
    }

    /** What a level meets, given the names on the path and the counter: nothing when it closes a cycle. */
    ghost function MetAt(domain: string, record: string, path: set<string>, lookups: nat): seq<Term> {
      if tools.key(domain) in path then []
      else Met(Opening(tools), Left(lookups), Lookups(tools.parse, Fields(record)), path + {tools.key(domain)})
    }

    /** The terms of a record, with its domain on the path. */
    method Terms(record: string, chain: seq<string>)
      requires Valid() && lookups <= LIMIT && chain != [] && path == Visited(tools.key, chain)
      modifies this
      ensures Valid() && path == old(path) && old(cycles) <= cycles
      ensures Walked(Met(Opening(tools), Left(old(lookups)), Lookups(tools.parse, Fields(record)), path),
                     old(lookups), old(queried), lookups, queried)
      decreases Left(lookups), 2
    {
      ghost var next, here := Opening(tools), path;
      ghost var ahead := Lookups(tools.parse, Fields(record));
      ghost var met, done: seq<Term> := Met(next, Left(lookups), ahead, here), [];
      WalkStarts(next, ahead, here, lookups, queried);
      var rest := Fields(record);
      while rest != []
        invariant Valid() && lookups >= old(lookups) && path == here && old(cycles) <= cycles
        invariant ahead == Lookups(tools.parse, rest)
        invariant Walking(next, ahead, here, met, old(lookups), old(queried), done, lookups, queried)
        decreases |rest|
      {
        var found := tools.parse(rest[0]);
        LookupsStep(tools.parse, rest);
        rest := rest[1..];
        ghost var tail := Lookups(tools.parse, rest);
        if found.Some? {
          var stop;
          stop, done := CountNext(found.value, chain, tail, met, old(lookups), old(queried), done);
          if stop {
            return;
          }
        }
        ahead := tail;
      }
      WalkEnds(next, here, met, old(lookups), old(queried), done, lookups, queried);
    }

    /** Counts the next term of a record, with `tail` still to come. */
    method CountNext(term: Term, chain: seq<string>, ghost tail: seq<Term>, ghost met: seq<Term>, ghost before: nat,
                     ghost asked: seq<string>, ghost done: seq<Term>)
      returns (stop: bool, ghost doneNow: seq<Term>)
      requires Valid() && before <= lookups && chain != [] && path == Visited(tools.key, chain)
      requires Walking(Opening(tools), [term] + tail, path, met, before, asked, done, lookups, queried)
      modifies this
      ensures Valid() && path == old(path) && lookups > old(lookups) && old(cycles) <= cycles
      ensures stop ==> Walked(met, before, asked, lookups, queried)
      ensures !stop ==> Walking(Opening(tools), tail, path, met, before, asked, doneNow, lookups, queried)
      decreases Left(lookups), 1
    {
      ghost var now, q := lookups, queried;
      stop := Count(term, chain);
      doneNow := CountedOn(tools, term, tail, path, met, before, asked, done, now, q, stop, lookups, queried);
    }

    /** Counts one term of a record; past the limit the record is abandoned. */
    method Count(term: Term, chain: seq<string>) returns (stop: bool)
      requires Valid() && chain != [] && path == Visited(tools.key, chain)
      modifies this
      ensures Valid() && path == old(path) && old(cycles) <= cycles && lookups > old(lookups)
      ensures Counted(tools, term, path, old(lookups), old(queried), stop, lookups, queried)
      decreases Left(lookups), 0
    {
      lookups := lookups + 1;
      if lookups > LIMIT {
        if !limitReported {
          limitReported, limitReports := true, limitReports + 1;
        }
        return true;
      }
      Visit(term, chain);
      stop := false;
    }

    /** One counted term: query its name, and descend into the policy found there. */
    method Visit(term: Term, chain: seq<string>)
      requires Valid() && 1 <= lookups <= LIMIT && |queried| < lookups && chain != [] && path == Visited(tools.key, chain)
      modifies this
      ensures Valid() && path == old(path) && old(cycles) <= cycles
      ensures Stepped(tools, term, path, old(lookups), old(queried), lookups, queried)
      ensures LeadsBack(tools, term, path) ==>
                cycles == old(cycles) + [chain + [term.query.value] + [tools.key(term.query.value)]]
      ensures Opening(tools)(term, path).None? && !LeadsBack(tools, term, path) ==> cycles == old(cycles)
      decreases Left(lookups), 4
    {
      ghost var start, before := lookups, queried;
      if term.query.None? {
        Unopened(tools, term, path, before, start);
        return;
      }
      var name := term.query.value;
      var nested := Ask(name);
      if nested.Some? {
        assert (chain + [name])[..|chain|] == chain;
        Descend(name, nested.value, chain + [name]);
        Opened(tools, term, path, nested.value, before, start);
        assert queried == before + [name] + Queries(Take(MetAt(name, nested.value, path, start), LIMIT - start));
      } else {
        Unopened(tools, term, path, before, start);
      }
    }

    /** One query: the policy to descend into, if the name has one; a name without is reported. */
    method Ask(name: string) returns (nested: Option<string>)
      requires Valid() && 1 <= lookups <= LIMIT && |queried| < lookups
      modifies this`queried, this`missing, this`bare
      ensures Valid() && queried == old(queried) + [name] && nested == Nested(tools.dns(name))
    {
      var answer := tools.dns(name);
      Asked(tools.dns, queried, name);
      queried := queried + [name];
      if answer.status.NXDomain? {
        missing := missing + [name];
        return None;
      }
      if WithoutPolicy(answer) {
        bare := bare + [name];
        return None;
      }
      nested := FirstPolicy(answer.txts);
    }
  }

  /** A term that opens no policy adds at most its own query. */
  lemma Unopened(tools: Tools, term: Term, path: set<string>, queried: seq<string>, lookups: nat)
    requires lookups <= LIMIT
    requires term.query.None? || Nested(tools.dns(term.query.value)).None?
    ensures var inner := MetUnder(Opening(tools), Left(lookups), Opening(tools)(term, path));
            && Spent(lookups, inner, lookups)
            && queried + (Queries([term]) + Queries(Take(inner, LIMIT - lookups))) ==
               if term.query.Some? then queried + [term.query.value] else queried
  {
    OneQuery(term);
    NoTerms(lookups, queried);
    assert MetUnder(Opening(tools), Left(lookups), Opening(tools)(term, path)) == [];
  }

  lemma Opened(tools: Tools, term: Term, path: set<string>, nested: string, queried: seq<string>, lookups: nat)
    requires lookups <= LIMIT && term.query.Some? && Nested(tools.dns(term.query.value)) == Some(nested)
    ensures var key := tools.key(term.query.value);
            var inner := MetUnder(Opening(tools), Left(lookups), Opening(tools)(term, path));
            && inner == (if key in path then [] else Met(Opening(tools), Left(lookups), Lookups(tools.parse, Fields(nested)), path + {key}))
            && queried + (Queries([term]) + Queries(Take(inner, LIMIT - lookups)))
               == queried + [term.query.value] + Queries(Take(inner, LIMIT - lookups))
  {
    var inner := MetUnder(Opening(tools), Left(lookups), Opening(tools)(term, path));
    OpensPolicy(tools, term, path, nested);
    OneQuery(term);
    Regroup(queried, [term.query.value], Queries(Take(inner, LIMIT - lookups)));
  }

  lemma OpensPolicy(tools: Tools, term: Term, path: set<string>, nested: string)
    requires term.query.Some? && Nested(tools.dns(term.query.value)) == Some(nested)
    ensures var key := tools.key(term.query.value);
            Opening(tools)(term, path) ==
            if key in path then None else Some(Level(Lookups(tools.parse, Fields(nested)), path + {key}))
  {
  }

  ghost predicate Repeating(key: string -> string, cycles: seq<seq<string>>) {
    forall chain | chain in cycles :: |chain| >= 2 && key(chain[|chain| - 2]) == chain[|chain| - 1]
  }

  lemma NoTerms(lookups: nat, queried: seq<string>)
    requires lookups <= LIMIT
    ensures Spent(lookups, [], lookups) && queried == queried + Queries(Take([], LIMIT - lookups))
  {
  }

  lemma OneQuery(term: Term)
    ensures Queries([term]) == if term.query.Some? then [term.query.value] else []
  {
    assert [term][..0] == [];
  }

  lemma Extended(key: string -> string, chain: seq<string>)
    requires chain != []
    ensures Visited(key, chain[..|chain| - 1]) + {key(chain[|chain| - 1])} == Visited(key, chain)
  {
    assert chain == chain[..|chain| - 1] + [chain[|chain| - 1]];
  }

  /** The counter passes the limit: the eleventh term is met and reported, later ones are not met. */
  lemma LimitHit(next: Next<Term, set<string>>, term: Term, tail: seq<Term>, path: set<string>, before: nat, done: seq<Term>,
                 now: nat, met: seq<Term>)
    requires before <= LIMIT <= now && Spent(before, done, now)
    requires done + Met(next, Left(now), [term] + tail, path) == met
    ensures Spent(before, met, now + 1) && Take(met, LIMIT - before) == Take(done, LIMIT - before)
  {
    if now == LIMIT {
      assert Met(next, 1, [term] + tail, path) == [term];
    }
  }

  lemma SpentTerm(before: nat, done: seq<Term>, now: nat, term: Term, inner: seq<Term>, after: nat)
    requires before <= now < LIMIT && Spent(before, done, now) && Spent(now + 1, inner, after)
    ensures Spent(before, done + ([term] + inner), after) && Left(after) == Left(now) - 1 - |inner|
  {
  }

  lemma Onward<T>(done: seq<T>, ahead: seq<T>, first: seq<T>, rest: seq<T>, all: seq<T>)
    requires ahead == first + rest && done + ahead == all
    ensures done + first + rest == all
  {
  }

  lemma TermDone(next: Next<Term, set<string>>, term: Term, tail: seq<Term>, path: set<string>, before: nat, done: seq<Term>,
                 now: nat, inner: seq<Term>, after: nat, met: seq<Term>)
    requires before <= now < LIMIT && Spent(before, done, now)
    requires done + Met(next, Left(now), [term] + tail, path) == met
    requires inner == MetUnder(next, Left(now + 1), next(term, path)) && Spent(now + 1, inner, after)
    ensures Spent(before, done + ([term] + inner), after)
    ensures done + ([term] + inner) + Met(next, Left(after), tail, path) == met
  {
    SpentTerm(before, done, now, term, inner, after);
    MetSplit(next, Left(now), term, tail, path);
    Onward(done, Met(next, Left(now), [term] + tail, path), [term] + inner, Met(next, Left(after), tail, path), met);
  }

  lemma MetSplit(next: Next<Term, set<string>>, budget: nat, term: Term, tail: seq<Term>, path: set<string>)
    requires budget > 0
    ensures var inner := MetUnder(next, budget - 1, next(term, path));
            Met(next, budget, [term] + tail, path) == ([term] + inner) + Met(next, budget - 1 - |inner|, tail, path)
  {
    assert ([term] + tail)[1..] == tail;
  }

  lemma QueriesDone(before: nat, done: seq<Term>, now: nat, term: Term, inner: seq<Term>)
    requires before <= now < LIMIT && Spent(before, done, now)
    ensures Queries(Take(done + ([term] + inner), LIMIT - before))
            == Queries(Take(done, LIMIT - before)) + (Queries([term]) + Queries(Take(inner, LIMIT - now - 1)))
  {
    var all := [term] + inner;
    QueriesMore(done, all, before, now);
    assert Take(all, LIMIT - now) == [term] + Take(inner, LIMIT - now - 1);
    QueriesConcat([term], Take(inner, LIMIT - now - 1));
  }

  /** A walk that met `met` has counted those terms and queried the names of those within the limit. */
  ghost predicate Walked(met: seq<Term>, before: nat, asked: seq<string>, lookups: nat, queried: seq<string>) {
    before <= LIMIT && Spent(before, met, lookups) && queried == asked + Queries(Take(met, LIMIT - before))
  }

  /** Part of the way: `done` of `met` is behind, `terms` are ahead. */
  ghost predicate Walking(next: Next<Term, set<string>>, terms: seq<Term>, path: set<string>, met: seq<Term>,
                          before: nat, asked: seq<string>, done: seq<Term>, lookups: nat, queried: seq<string>) {
    Walked(done, before, asked, lookups, queried) && done + Met(next, Left(lookups), terms, path) == met
  }

  lemma WalkStarts(next: Next<Term, set<string>>, terms: seq<Term>, path: set<string>, lookups: nat, queried: seq<string>)
    requires lookups <= LIMIT
    ensures Walking(next, terms, path, Met(next, Left(lookups), terms, path), lookups, queried, [], lookups, queried)
  {
    NoTerms(lookups, queried);
  }

  lemma WalkEnds(next: Next<Term, set<string>>, path: set<string>, met: seq<Term>, before: nat, asked: seq<string>,
                 done: seq<Term>, lookups: nat, queried: seq<string>)
    requires Walking(next, [], path, met, before, asked, done, lookups, queried)
    ensures Walked(met, before, asked, lookups, queried)
  {
    assert done + [] == done;
  }

  lemma LookupsStep(parse: Parser, tokens: seq<string>)
    requires tokens != []
    ensures Lookups(parse, tokens) ==
            match parse(tokens[0])
            case None => Lookups(parse, tokens[1..])
            case Some(term) => [term] + Lookups(parse, tokens[1..])
  {
  }

  lemma WalkStops(next: Next<Term, set<string>>, term: Term, tail: seq<Term>, path: set<string>, met: seq<Term>,
                  before: nat, asked: seq<string>, done: seq<Term>, now: nat, queried: seq<string>)
    requires Walking(next, [term] + tail, path, met, before, asked, done, now, queried) && now >= LIMIT
    ensures Walked(met, before, asked, now + 1, queried)
  {
    LimitHit(next, term, tail, path, before, done, now, met);
  }

  lemma WalkStep(next: Next<Term, set<string>>, term: Term, tail: seq<Term>, path: set<string>, met: seq<Term>,
                 before: nat, asked: seq<string>, done: seq<Term>, now: nat, q: seq<string>,
                 inner: seq<Term>, lookups: nat, queried: seq<string>)
    requires Walking(next, [term] + tail, path, met, before, asked, done, now, q) && before <= now < LIMIT
    requires inner == MetUnder(next, Left(now + 1), next(term, path)) && Spent(now + 1, inner, lookups)
    requires queried == q + (Queries([term]) + Queries(Take(inner, LIMIT - now - 1)))
    ensures Walking(next, tail, path, met, before, asked, done + ([term] + inner), lookups, queried)
  {
    TermDone(next, term, tail, path, before, done, now, inner, lookups, met);
    QueriesAfter(before, asked, done, now, q, term, inner, queried);
  }

  /** What visiting a counted term comes to: its own query, and what it opens within what is left. */
  ghost predicate Stepped(tools: Tools, term: Term, path: set<string>, start: nat, asked: seq<string>,
                          lookups: nat, queried: seq<string>) {
    var inner := MetUnder(Opening(tools), Left(start), Opening(tools)(term, path));
    start <= LIMIT && Spent(start, inner, lookups) && queried == asked + (Queries([term]) + Queries(Take(inner, LIMIT - start)))
  }

  /** What counting a term comes to: past the limit nothing is asked any more. */
  ghost predicate Counted(tools: Tools, term: Term, path: set<string>, now: nat, asked: seq<string>, stop: bool,
                          lookups: nat, queried: seq<string>) {
    && stop == (now >= LIMIT)
    && if stop then lookups == now + 1 && queried == asked else Stepped(tools, term, path, now + 1, asked, lookups, queried)
  }

  lemma CountedOn(tools: Tools, term: Term, tail: seq<Term>, path: set<string>, met: seq<Term>, before: nat, asked: seq<string>,
                  done: seq<Term>, now: nat, q: seq<string>, stop: bool, lookups: nat, queried: seq<string>)
    returns (doneNow: seq<Term>)
    requires Walking(Opening(tools), [term] + tail, path, met, before, asked, done, now, q) && before <= now
    requires Counted(tools, term, path, now, q, stop, lookups, queried)
    ensures stop ==> Walked(met, before, asked, lookups, queried)
    ensures !stop ==> Walking(Opening(tools), tail, path, met, before, asked, doneNow, lookups, queried)
  {
    if stop {
      WalkStops(Opening(tools), term, tail, path, met, before, asked, done, now, q);
      doneNow := done;
    } else {
      doneNow := StepOver(tools, term, tail, path, met, before, asked, done, now, q, lookups, queried);
    }
  }

  lemma StepOver(tools: Tools, term: Term, tail: seq<Term>, path: set<string>, met: seq<Term>, before: nat, asked: seq<string>,
                 done: seq<Term>, now: nat, q: seq<string>, lookups: nat, queried: seq<string>)
    returns (doneNow: seq<Term>)
    requires Walking(Opening(tools), [term] + tail, path, met, before, asked, done, now, q) && before <= now < LIMIT
    requires Stepped(tools, term, path, now + 1, q, lookups, queried)
    ensures Walking(Opening(tools), tail, path, met, before, asked, doneNow, lookups, queried)
  {
    var inner := MetUnder(Opening(tools), Left(now + 1), Opening(tools)(term, path));
    WalkStep(Opening(tools), term, tail, path, met, before, asked, done, now, q, inner, lookups, queried);
    doneNow := done + ([term] + inner);
  }

  lemma QueriesAfter(before: nat, asked: seq<string>, done: seq<Term>, now: nat, q: seq<string>, term: Term, inner: seq<Term>,
                     queried: seq<string>)
    requires before <= now < LIMIT && Spent(before, done, now)
    requires q == asked + Queries(Take(done, LIMIT - before))
    requires queried == q + (Queries([term]) + Queries(Take(inner, LIMIT - now - 1)))
    ensures queried == asked + Queries(Take(done + ([term] + inner), LIMIT - before))
  {
    QueriesDone(before, done, now, term, inner);
    Regroup(asked, Queries(Take(done, LIMIT - before)), Queries([term]) + Queries(Take(inner, LIMIT - now - 1)));
  }

  lemma Asked(dns: Resolver, queried: seq<string>, name: string)
    ensures Missing(dns, queried + [name]) == Missing(dns, queried) + if dns(name).status.NXDomain? then [name] else []
    ensures Bare(dns, queried + [name]) == Bare(dns, queried) + if WithoutPolicy(dns(name)) then [name] else []
  {
    assert (queried + [name])[..|queried|] == queried;
  }

  /** `word` is an `include:` or `redirect=` with a name for its target. */
  predicate LinksTo(word: string, target: string) {
    TrimDot(target) != "" && (Spells(word, INCLUDE + target) || Spells(word, REDIRECT + target))
  }

  /** The targets among the words of a record that are queried: those that at most ten lookup terms precede or
      include, nested terms counted. */
  ghost predicate LinksAsked(dns: Resolver, depth: nat, domain: string, words: seq<string>, queried: seq<string>) {
    forall i, target | 0 <= i < |words| && LinksTo(words[i], target) && |Terms(dns, depth, domain, words[..i])| < LIMIT ::
      TrimDot(target) in queried
  }

  /** Evaluates the policy of a domain. `reports` counts the reports of an exceeded limit, `missing` and `bare`
      the nested policies found absent. Against the full depth-first expansion, to any depth past the limit:
      the queries are those of its first ten terms - so each target of the record that the limit leaves within
      reach is queried - and the limit is reported, once, exactly when it has an eleventh. */
  method ValidateSPF(dns: Resolver, domain: string, txts: seq<string>)
    returns (queried: seq<string>, reports: nat, missing: seq<string>, bare: seq<string>)
    ensures |queried| <= LIMIT && reports <= 1
    ensures missing == Missing(dns, queried) && bare == Bare(dns, queried)
    ensures FirstPolicy(txts).None? ==> queried == [] && reports == 0
    ensures FirstPolicy(txts).Some? ==>
              forall depth: nat | depth > LIMIT ::
                var words := Fields(FirstPolicy(txts).value);
                && Evaluated(Terms(dns, depth, domain, words), queried, reports)
                && LinksAsked(dns, depth, domain, words, queried)
  {
    var spf := FirstPolicy(txts);
    if spf.None? {
      return [], 0, [], [];
    }
    var tools := Tools(dns, LookupTerm, Canonical);
    var walk := new Walk(tools);
    assert [domain][..0] == [];
    walk.Descend(domain, spf.value, [domain]);
    queried, reports, missing, bare := walk.queried, walk.limitReports, walk.missing, walk.bare;
    forall depth: nat | depth > LIMIT
      ensures var words := Fields(spf.value);
              Evaluated(Terms(dns, depth, domain, words), queried, reports) && LinksAsked(dns, depth, domain, words, queried)
    {
      WalkOfExpansion(tools, depth, domain, spf.value, walk.lookups, queried);
      LinksAreAsked(dns, depth, domain, Fields(spf.value), queried);
    }
  }

  /** The lookup terms among `words`, the front of a domain's policy, in depth-first order to a nesting depth. */
  function Terms(dns: Resolver, depth: nat, domain: string, words: seq<string>): seq<Term> {
    Expansion(Opening(Tools(dns, LookupTerm, Canonical)), depth, Lookups(LookupTerm, words), {Canonical(domain)})
  }

  predicate Evaluated(terms: seq<Term>, queried: seq<string>, reports: nat) {
    queried == Queries(Take(terms, LIMIT)) && (reports == 1 <==> |terms| > LIMIT)
  }

  lemma WalkOfExpansion(tools: Tools, depth: nat, domain: string, record: string, lookups: nat, queried: seq<string>)
    requires depth > LIMIT
    requires Walked(Met(Opening(tools), Left(0), Lookups(tools.parse, Fields(record)), {} + {tools.key(domain)}), 0, [], lookups, queried)
    ensures var terms := Expansion(Opening(tools), depth, Lookups(tools.parse, Fields(record)), {tools.key(domain)});
            queried == Queries(Take(terms, LIMIT)) && (lookups > LIMIT <==> |terms| > LIMIT)
  {
    var path := {} + {tools.key(domain)};
    assert path == {tools.key(domain)};
    var found := Lookups(tools.parse, Fields(record));
    MetIsPrefix(Opening(tools), Left(0), depth, found, path);
    var terms := Expansion(Opening(tools), depth, found, path);
    assert Take(Take(terms, Left(0)), LIMIT - 0) == Take(terms, LIMIT);
  }

  lemma {:induction false} LookupsConcat(parse: Parser, a: seq<string>, b: seq<string>)
    ensures Lookups(parse, a + b) == Lookups(parse, a) + Lookups(parse, b)
  {
    if a == [] {
      assert a + b == b;
    } else {
      assert (a + b)[1..] == a[1..] + b;
      LookupsConcat(parse, a[1..], b);
    }
  }

  lemma {:induction false} QueriesHas(terms: seq<Term>, k: nat)
    requires k < |terms| && terms[k].query.Some?
    ensures terms[k].query.value in Queries(terms)
    decreases |terms|
  {
    if k < |terms| - 1 {
      QueriesHas(terms[..|terms| - 1], k);
    }
  }

  lemma LinkIsLookup(word: string, target: string)
    requires LinksTo(word, target)
    ensures LookupTerm(word).Some? && LookupTerm(word).value.query == Some(TrimDot(target))
  {
    if Spells(word, INCLUDE + target) {
      IncludeReads(word, Asks(target));
    } else {
      RedirectReads(word, Asks(target));
    }
  }

  /** A term of the record stands in the expansion after those of the words before it. */
  lemma TermStands(dns: Resolver, depth: nat, domain: string, words: seq<string>, i: nat)
    requires i < |words| && LookupTerm(words[i]).Some?
    ensures var before := |Terms(dns, depth, domain, words[..i])|;
            var all := Terms(dns, depth, domain, words);
            before < |all| && all[before] == LookupTerm(words[i]).value
  {
    var next, path := Opening(Tools(dns, LookupTerm, Canonical)), {Canonical(domain)};
    var rest := words[i..];
    assert words == words[..i] + rest;
    LookupsConcat(LookupTerm, words[..i], rest);
    LookupsStep(LookupTerm, rest);
    ExpansionConcat(next, depth, Lookups(LookupTerm, words[..i]), Lookups(LookupTerm, rest), path);
  }

  lemma LinksAreAsked(dns: Resolver, depth: nat, domain: string, words: seq<string>, queried: seq<string>)
    requires queried == Queries(Take(Terms(dns, depth, domain, words), LIMIT))
    ensures LinksAsked(dns, depth, domain, words, queried)
  {
    forall i, target | 0 <= i < |words| && LinksTo(words[i], target) && |Terms(dns, depth, domain, words[..i])| < LIMIT
      ensures TrimDot(target) in queried
    {
      LinkIsLookup(words[i], target);
      TermStands(dns, depth, domain, words, i);
      QueriesHas(Take(Terms(dns, depth, domain, words), LIMIT), |Terms(dns, depth, domain, words[..i])|);
    }
  }

  /** The policy a name leads to is the first among its texts, unless the name or its texts do not exist. */
  lemma NestedIs(answer: Answer, text: string)
    ensures Nested(answer) == Some(text) <==>
            && !answer.status.NXDomain? && !answer.status.NoData?
            && exists i | 0 <= i < |answer.txts| ::
                 answer.txts[i] == text && IsPolicy(text) && forall j | 0 <= j < i :: !IsPolicy(answer.txts[j])
  {
    FirstPolicyIs(answer.txts, text);
  }
}
