/** The values a discovery run works on: seeds, candidates, the catalog of candidates, and the checkpoint. */
module Catalog {
  import opened Names
  import Labels

  datatype Origin = Origin(source: string, technique: string, parent: string, depth: nat)

  datatype Record = Record(a: set<string>, aaaa: set<string>, cname: set<string>, status: string)

  /** Origins are kept without repetition, so a set of them loses only their order. */
  datatype Candidate = Candidate(name: string, resolved: bool, wildcard: bool, dns: Record, origins: set<Origin>)

  /** `name` is normalized; a name that cannot be normalized is empty. */
  datatype Seed = Seed(name: string, origin: Origin, keep: bool)

  datatype Limits = Limits(root: string, maxDepth: nat, maxCandidates: nat, maxTested: nat)

  /** The account of one source: how many names under the root it saw, and whether some were left out. */
  datatype SourceRun = SourceRun(name: string, count: nat, truncated: bool, failed: bool)

  datatype State = State(candidates: seq<Candidate>, round: nat, frontier: seq<string>, attempted: seq<string>,
                         sources: seq<SourceRun>)

  type Table = map<string, Candidate>

  const ZONE_TRANSFER := "axfr"
  const RESOLVED := "RESOLVED"

  // ---------------------------------------------------------------- scope

  predicate Under(name: string, root: string) {
    name == root || (|name| > |root| && name[|name| - |root|..] == root && name[|name| - |root| - 1] == '.')
  }

  function Depth(name: string, root: string): nat
    requires Under(name, root)
  {
    if name == root then 0 else |Labels.Split(name[..|name| - |root| - 1], '.')|
  }

  predicate Eligible(l: Limits, name: string) {
    name != "" && Under(name, l.root) && Depth(name, l.root) <= l.maxDepth
  }

  // ---------------------------------------------------------------- seeds

  function NamesOf(seeds: seq<Seed>): set<string> {
    set s | s in seeds :: s.name
  }

  /** The seeds that are taken up: in scope, not attempted, each name once, at most `limit` of them. */
  function Unseen(l: Limits, seeds: seq<Seed>, attempted: set<string>, limit: int): seq<Seed> {
    if seeds == [] || limit <= 0 then []
    else if Eligible(l, seeds[0].name) && seeds[0].name !in attempted then
      [seeds[0]] + Unseen(l, seeds[1..], attempted + {seeds[0].name}, limit - 1)
    else Unseen(l, seeds[1..], attempted, limit)
  }

  lemma NamesOfCons(s: Seed, rest: seq<Seed>)
    ensures NamesOf([s] + rest) == {s.name} + NamesOf(rest)
  {
    forall n | n in {s.name} + NamesOf(rest) ensures n in NamesOf([s] + rest) {
      if n == s.name {
        assert s in [s] + rest;
      } else {
        var t :| t in rest && t.name == n;
        assert t in [s] + rest;
      }
    }
  }

  lemma NamesOfConcat(a: seq<Seed>, b: seq<Seed>)
    ensures NamesOf(a + b) == NamesOf(a) + NamesOf(b)
  {
    forall n | n in NamesOf(a) + NamesOf(b) ensures n in NamesOf(a + b) {
      if n in NamesOf(a) {
        var s :| s in a && s.name == n;
        assert s in a + b;
      } else {
        var s :| s in b && s.name == n;
        assert s in a + b;
      }
    }
  }

  /** `taken` is a choice among the seeds: in scope, new, no name twice, within the limit; and below the limit
      no seed in scope is left out. */
  ghost predicate TakenUp(l: Limits, seeds: seq<Seed>, attempted: set<string>, limit: int, taken: seq<Seed>) {
    && (forall s | s in taken :: s in seeds && Eligible(l, s.name) && s.name !in attempted)
    && |NamesOf(taken)| == |taken|
    && (taken == [] || |taken| <= limit)
    && (|taken| < limit ==> forall s | s in seeds && Eligible(l, s.name) :: s.name in attempted || s.name in NamesOf(taken))
  }

  lemma TakeOne(l: Limits, s: Seed, rest: seq<Seed>, attempted: set<string>, limit: int, taken: seq<Seed>)
    requires Eligible(l, s.name) && s.name !in attempted && limit > 0
    requires TakenUp(l, rest, attempted + {s.name}, limit - 1, taken)
    ensures TakenUp(l, [s] + rest, attempted, limit, [s] + taken)
  {
    NamesOfCons(s, taken);
    assert s.name !in NamesOf(taken);
  }

  lemma {:induction false} UnseenIsNew(l: Limits, seeds: seq<Seed>, attempted: set<string>, limit: int)
    ensures TakenUp(l, seeds, attempted, limit, Unseen(l, seeds, attempted, limit))
  {
    if seeds != [] && limit > 0 {
      var s, rest := seeds[0], seeds[1..];
      assert seeds == [s] + rest;
      if Eligible(l, s.name) && s.name !in attempted {
        UnseenIsNew(l, rest, attempted + {s.name}, limit - 1);
        TakeOne(l, s, rest, attempted, limit, Unseen(l, rest, attempted + {s.name}, limit - 1));
      } else {
        UnseenIsNew(l, rest, attempted, limit);
      }
    }
  }

  /** Taking up seeds that were already screened against the same names changes nothing. */
  lemma {:induction false} UnseenTwice(l: Limits, seeds: seq<Seed>, attempted: set<string>, limit: int)
    ensures var taken := Unseen(l, seeds, attempted, limit); Unseen(l, taken, attempted, limit) == taken
  {
    if seeds != [] && limit > 0 {
      if Eligible(l, seeds[0].name) && seeds[0].name !in attempted {
        UnseenTwice(l, seeds[1..], attempted + {seeds[0].name}, limit - 1);
      } else {
        UnseenTwice(l, seeds[1..], attempted, limit);
      }
    }
  }

  // ---------------------------------------------------------------- the catalog

  function MergeRecords(x: Record, y: Record): Record {
    Record(x.a + y.a, x.aaaa + y.aaaa, x.cname + y.cname, if x.status == "" || y.status == RESOLVED then y.status else x.status)
  }

  function Merge(x: Candidate, y: Candidate): Candidate {
    x.(wildcard := if !x.resolved then y.wildcard else if y.resolved then x.wildcard && y.wildcard else x.wildcard,
       resolved := x.resolved || y.resolved,
       dns := MergeRecords(x.dns, y.dns),
       origins := x.origins + y.origins)
  }

  /** The catalog after `incoming`: known names are merged, new names enter until the catalog is full. */
  function Merged(catalog: Table, incoming: seq<Candidate>, limit: nat): Table
    decreases |incoming|
  {
    if incoming == [] then catalog
    else
      var c := incoming[0];
      if c.name in catalog then Merged(catalog[c.name := Merge(catalog[c.name], c)], incoming[1..], limit)
      else if |catalog| >= limit then catalog
      else Merged(catalog[c.name := c], incoming[1..], limit)
  }

  /** The next frontier: the names that entered, and those that became resolved. */
  function Added(catalog: Table, incoming: seq<Candidate>, limit: nat): seq<Candidate>
    decreases |incoming|
  {
    if incoming == [] then []
    else
      var c := incoming[0];
      if c.name in catalog then
        var now := Merge(catalog[c.name], c);
        (if !catalog[c.name].resolved && c.resolved then [now] else []) + Added(catalog[c.name := now], incoming[1..], limit)
      else if |catalog| >= limit then []
      else [c] + Added(catalog[c.name := c], incoming[1..], limit)
  }

  function FrontierNames(frontier: seq<Candidate>): (names: seq<string>)
    ensures |names| == |frontier| && forall i | 0 <= i < |names| :: names[i] == frontier[i].name
  {
    seq(|frontier|, i requires 0 <= i < |frontier| => frontier[i].name)
  }

  ghost predicate Holds(catalog: Table, candidates: seq<Candidate>) {
    forall c | c in candidates :: c.name in catalog && catalog[c.name] == c
  }

  ghost predicate Covers(candidates: seq<Candidate>, catalog: Table) {
    forall n | n in catalog :: exists c :: c in candidates && c.name == n
  }

  predicate DistinctNames(candidates: seq<Candidate>) {
    forall i, j | 0 <= i < j < |candidates| :: candidates[i].name != candidates[j].name
  }

  predicate NewTo(catalog: Table, candidates: seq<Candidate>) {
    forall c | c in candidates :: c.name !in catalog
  }

  /** Names only enter, what is resolved stays resolved, and the limit holds whatever arrives. */
  lemma {:induction false} MergeGrows(catalog: Table, incoming: seq<Candidate>, limit: nat)
    ensures var now := Merged(catalog, incoming, limit);
            && (forall n | n in catalog :: n in now && (catalog[n].resolved ==> now[n].resolved))
            && |now| <= if |catalog| <= limit then limit else |catalog|
    decreases |incoming|
  {
    if incoming != [] {
      var c := incoming[0];
      if c.name in catalog {
        var next := catalog[c.name := Merge(catalog[c.name], c)];
        assert next.Keys == catalog.Keys;
        assert |next| == |next.Keys| == |catalog.Keys| == |catalog|;
        MergeGrows(next, incoming[1..], limit);
      } else if |catalog| < limit {
        MergeGrows(catalog[c.name := c], incoming[1..], limit);
      }
    }
  }

  lemma HeadIsNew(catalog: Table, incoming: seq<Candidate>)
    requires incoming != [] && DistinctNames(incoming) && NewTo(catalog, incoming)
    ensures var c := incoming[0];
            c.name !in catalog && DistinctNames(incoming[1..]) && NewTo(catalog[c.name := c], incoming[1..])
  {
    var c := incoming[0];
    assert c in incoming;
    forall d | d in incoming[1..] ensures d.name !in catalog[c.name := c] {
      var i :| 0 <= i < |incoming[1..]| && incoming[1..][i] == d;
      assert incoming[i + 1] == d && d in incoming;
    }
  }

  lemma {:induction false} MergeNewKeys(catalog: Table, incoming: seq<Candidate>, limit: nat)
    requires DistinctNames(incoming) && NewTo(catalog, incoming) && |catalog| + |incoming| <= limit
    ensures var now := Merged(catalog, incoming, limit);
            && |now| == |catalog| + |incoming|
            && forall n | n in now && n !in catalog :: exists i :: 0 <= i < |incoming| && incoming[i].name == n
    decreases |incoming|
  {
    if incoming != [] {
      var c, rest := incoming[0], incoming[1..];
      HeadIsNew(catalog, incoming);
      MergeNewKeys(catalog[c.name := c], rest, limit);
      var now := Merged(catalog[c.name := c], rest, limit);
      forall n | n in now && n !in catalog ensures exists i :: 0 <= i < |incoming| && incoming[i].name == n {
        if n != c.name {
          var i :| 0 <= i < |rest| && rest[i].name == n;
          assert incoming[i + 1].name == n;
        } else {
          assert incoming[0].name == n;
        }
      }
    }
  }

  lemma HoldsCons(now: Table, c: Candidate, rest: seq<Candidate>)
    requires c.name in now && now[c.name] == c && Holds(now, rest)
    ensures Holds(now, [c] + rest)
  {
  }

  lemma {:induction false} MergeNewHolds(catalog: Table, incoming: seq<Candidate>, limit: nat)
    requires DistinctNames(incoming) && NewTo(catalog, incoming) && |catalog| + |incoming| <= limit
    ensures var now := Merged(catalog, incoming, limit);
            Holds(now, incoming) && forall n | n in catalog :: n in now && now[n] == catalog[n]
    decreases |incoming|
  {
    if incoming != [] {
      var c, rest := incoming[0], incoming[1..];
      HeadIsNew(catalog, incoming);
      var next := catalog[c.name := c];
      MergeNewHolds(next, rest, limit);
      var now := Merged(next, rest, limit);
      assert now[c.name] == next[c.name];
      HoldsCons(now, c, rest);
      assert incoming == [c] + rest;
      forall n | n in catalog ensures n in now && now[n] == catalog[n] {
        assert n in next && next[n] == catalog[n];
      }
    }
  }

  lemma {:induction false} MergeNewAdded(catalog: Table, incoming: seq<Candidate>, limit: nat)
    requires DistinctNames(incoming) && NewTo(catalog, incoming) && |catalog| + |incoming| <= limit
    ensures Added(catalog, incoming, limit) == incoming
    decreases |incoming|
  {
    if incoming != [] {
      HeadIsNew(catalog, incoming);
      MergeNewAdded(catalog[incoming[0].name := incoming[0]], incoming[1..], limit);
      assert incoming == [incoming[0]] + incoming[1..];
    }
  }

  /** New names that fit all enter as they are, and make up the frontier; nothing else changes. */
  lemma MergeNew(catalog: Table, incoming: seq<Candidate>, limit: nat)
    requires DistinctNames(incoming) && NewTo(catalog, incoming) && |catalog| + |incoming| <= limit
    ensures Added(catalog, incoming, limit) == incoming
    ensures var now := Merged(catalog, incoming, limit);
            && |now| == |catalog| + |incoming| && Holds(now, incoming)
            && (forall n | n in catalog :: n in now && now[n] == catalog[n])
            && (forall n | n in now && n !in catalog :: exists i :: 0 <= i < |incoming| && incoming[i].name == n)
  {
    MergeNewAdded(catalog, incoming, limit);
    MergeNewKeys(catalog, incoming, limit);
    MergeNewHolds(catalog, incoming, limit);
  }

  lemma {:induction false} MergeCut(catalog: Table, incoming: seq<Candidate>, limit: nat)
    requires DistinctNames(incoming) && NewTo(catalog, incoming) && |catalog| <= limit < |catalog| + |incoming|
    ensures |Merged(catalog, incoming, limit)| == limit
    decreases |incoming|
  {
    if |catalog| < limit {
      HeadIsNew(catalog, incoming);
      MergeCut(catalog[incoming[0].name := incoming[0]], incoming[1..], limit);
    }
  }

  /** Another origin for a catalogued name; a zone transfer proves the name is not a wildcard answer. */
  function WithOrigin(catalog: Table, s: Seed): Table {
    if s.name in catalog then
      var c := catalog[s.name];
      catalog[s.name := c.(origins := c.origins + {s.origin}, wildcard := c.wildcard && s.origin.technique != ZONE_TRANSFER)]
    else catalog
  }

  function WithOrigins(catalog: Table, seeds: seq<Seed>): Table
    decreases |seeds|
  {
    if seeds == [] then catalog else WithOrigin(WithOrigins(catalog, seeds[..|seeds| - 1]), seeds[|seeds| - 1])
  }

  predicate Explicit(origins: set<Origin>) {
    exists o | o in origins :: o.technique == ZONE_TRANSFER
  }

  /** The same candidate at a later moment: the answer stands, origins accumulate, and the wildcard mark is
      lifted by a zone transfer only. */
  predicate Later(x: Candidate, y: Candidate) {
    && y.name == x.name && y.resolved == x.resolved && y.dns == x.dns
    && x.origins <= y.origins
    && (y.wildcard ==> x.wildcard)
    && (x.wildcard && !y.wildcard ==> Explicit(y.origins))
  }

  predicate Grown(x: Table, y: Table) {
    forall n | n in x :: n in y && Later(x[n], y[n])
  }

  lemma LaterTransitive(x: Candidate, y: Candidate, z: Candidate)
    requires Later(x, y) && Later(y, z)
    ensures Later(x, z)
  {
  }

  lemma GrownTransitive(x: Table, y: Table, z: Table)
    requires Grown(x, y) && Grown(y, z)
    ensures Grown(x, z)
  {
    forall n | n in x ensures n in z && Later(x[n], z[n]) {
      LaterTransitive(x[n], y[n], z[n]);
    }
  }

  lemma {:induction false} OriginsGrow(catalog: Table, seeds: seq<Seed>)
    ensures Grown(catalog, WithOrigins(catalog, seeds)) && WithOrigins(catalog, seeds).Keys == catalog.Keys
    decreases |seeds|
  {
    if seeds != [] {
      var before := WithOrigins(catalog, seeds[..|seeds| - 1]);
      OriginsGrow(catalog, seeds[..|seeds| - 1]);
      OriginGrows(before, seeds[|seeds| - 1]);
      GrownTransitive(catalog, before, WithOrigins(catalog, seeds));
    }
  }

  lemma OriginGrows(catalog: Table, s: Seed)
    ensures Grown(catalog, WithOrigin(catalog, s)) && WithOrigin(catalog, s).Keys == catalog.Keys
  {
    if s.name in catalog && s.origin.technique == ZONE_TRANSFER {
      assert s.origin in WithOrigin(catalog, s)[s.name].origins;
    }
  }

  // ---------------------------------------------------------------- resolution

  predicate Answered(dns: Record) {
    dns.a != {} || dns.aaaa != {} || dns.cname != {} || dns.status == RESOLVED
  }

  function OriginsOf(seeds: seq<Seed>, name: string): set<Origin> {
    set s | s in seeds && s.name == name :: s.origin
  }

  predicate KeptName(seeds: seq<Seed>, name: string) {
    exists s | s in seeds :: s.name == name && s.keep
  }

  /** What resolving a name can yield: `wild` says that the answer matches a wildcard of a parent zone. */
  function Outcome(seeds: seq<Seed>, name: string, dns: Record, wild: bool): seq<Candidate> {
    var resolved, origins, keep := Answered(dns), OriginsOf(seeds, name), KeptName(seeds, name);
    if resolved && wild then
      if keep then [Candidate(name, true, !Explicit(origins), dns, origins)] else []
    else if resolved || keep then [Candidate(name, resolved, false, dns, origins)]
    else []
  }

  /** The resolver's word on a name: its records, and whether they match a wildcard of a parent zone. */
  datatype Reply = Reply(dns: Record, wild: bool)

  function Yield(seeds: seq<Seed>, name: string, reply: string -> Reply): seq<Candidate> {
    Outcome(seeds, name, reply(name).dns, reply(name).wild)
  }

  /** The result of resolving a set of names: what the reply to each of them yields, in some order. */
  ghost predicate Resolution(seeds: seq<Seed>, names: set<string>, reply: string -> Reply, out: seq<Candidate>) {
    && DistinctNames(out) && |out| <= |names|
    && (forall c | c in out :: c.name in names && Yield(seeds, c.name, reply) == [c])
    && (forall n | n in names && Yield(seeds, n, reply) != [] :: exists c :: c in out && c.name == n)
  }

  // ---------------------------------------------------------------- checkpoints

  /** `state` lists the catalog, the attempted names and the frontier's names, each in sorted order. */
  ghost predicate Reports(state: State, catalog: Table, attempted: set<string>, frontier: seq<Candidate>, round: nat) {
    && DistinctNames(state.candidates)
    && Holds(catalog, state.candidates) && Covers(state.candidates, catalog)
    && state.round == round
    && state.frontier == Sort(FrontierNames(frontier))
    && Sorted(state.attempted) && NoDuplicates(state.attempted) && Elements(state.attempted) == attempted
  }

  /** The frontier a checkpoint restores: the catalogued candidates of the names it lists. */
  function Restored(catalog: Table, names: seq<string>): seq<Candidate>
    decreases |names|
  {
    if names == [] then []
    else
      var last := names[|names| - 1];
      Restored(catalog, names[..|names| - 1]) + if last in catalog then [catalog[last]] else []
  }

  lemma {:induction false} RestoredAll(catalog: Table, names: seq<string>)
    requires forall n | n in names :: n in catalog
    ensures |Restored(catalog, names)| == |names|
    ensures forall i | 0 <= i < |names| :: Restored(catalog, names)[i] == catalog[names[i]]
    decreases |names|
  {
    if names != [] {
      RestoredAll(catalog, names[..|names| - 1]);
    }
  }

  lemma ReportSize(state: State, catalog: Table, attempted: set<string>, frontier: seq<Candidate>, round: nat)
    requires Reports(state, catalog, attempted, frontier, round)
    ensures |state.candidates| == |catalog|
  {
    var names := FrontierNames(state.candidates);
    assert Elements(names) == catalog.Keys by {
      forall n | n in catalog ensures n in names {
        var c :| c in state.candidates && c.name == n;
        var i :| 0 <= i < |state.candidates| && state.candidates[i] == c;
        assert names[i] == n;
      }
    }
    DistinctSize(names);
  }

  lemma SameTable(x: Table, y: Table, candidates: seq<Candidate>)
    requires Holds(x, candidates) && Holds(y, candidates) && Covers(candidates, x)
    requires forall n | n in y :: exists i :: 0 <= i < |candidates| && candidates[i].name == n
    ensures x == y
  {
    forall n | n in y ensures n in x && x[n] == y[n] {
      var i :| 0 <= i < |candidates| && candidates[i].name == n;
      assert candidates[i] in candidates;
    }
    forall n | n in x ensures n in y {
      var c :| c in candidates && c.name == n;
    }
  }

  lemma ListRebuilds(candidates: seq<Candidate>, catalog: Table, limit: nat)
    requires DistinctNames(candidates) && |candidates| <= limit
    requires Holds(catalog, candidates) && Covers(candidates, catalog)
    ensures Merged(map[], candidates, limit) == catalog
  {
    MergeNew(map[], candidates, limit);
    SameTable(catalog, Merged(map[], candidates, limit), candidates);
  }

  /** A reported catalog comes back from the checkpoint exactly when it fits the limit. */
  lemma CatalogReturns(state: State, catalog: Table, attempted: set<string>, frontier: seq<Candidate>, round: nat, limit: nat)
    requires Reports(state, catalog, attempted, frontier, round)
    ensures Merged(map[], state.candidates, limit) == catalog <==> |catalog| <= limit
  {
    ReportSize(state, catalog, attempted, frontier, round);
    if |catalog| <= limit {
      ListRebuilds(state.candidates, catalog, limit);
    } else {
      MergeCut(map[], state.candidates, limit);
    }
  }

  predicate InCatalog(frontier: seq<Candidate>, catalog: Table) {
    forall c | c in frontier :: c.name in catalog && Later(c, catalog[c.name])
  }

  predicate Current(frontier: seq<Candidate>, catalog: Table) {
    forall c | c in frontier :: c.name in catalog && c == catalog[c.name]
  }

  lemma {:induction false} RestoredNames(catalog: Table, names: seq<string>)
    requires forall n | n in names :: n in catalog && catalog[n].name == n
    ensures FrontierNames(Restored(catalog, names)) == names && Current(Restored(catalog, names), catalog)
  {
    RestoredAll(catalog, names);
  }

  lemma SortedNames(names: seq<string>, known: set<string>)
    requires forall n | n in names :: n in known
    ensures forall n | n in Sort(names) :: n in known
  {
    forall n | n in Sort(names) ensures n in known {
      assert n in multiset(Sort(names));
      assert n in multiset(names);
    }
  }

  /** The restored frontier holds the same names, each as the catalog has it. */
  lemma FrontierReturns(state: State, catalog: Table, attempted: set<string>, frontier: seq<Candidate>, round: nat)
    requires Reports(state, catalog, attempted, frontier, round) && InCatalog(frontier, catalog)
    ensures var back := Restored(catalog, state.frontier);
            multiset(FrontierNames(back)) == multiset(FrontierNames(frontier)) && Current(back, catalog)
  {
    SortedNames(FrontierNames(frontier), catalog.Keys);
    forall n | n in state.frontier ensures catalog[n].name == n {
      var c :| c in state.candidates && c.name == n;
    }
    RestoredNames(catalog, state.frontier);
  }

  // ---------------------------------------------------------------- what a resumed frontier differs in

  lemma {:induction false} RestoredCounts(catalog: Table, names: seq<string>, c: Candidate)
    requires forall n | n in catalog :: catalog[n].name == n
    ensures multiset(Restored(catalog, names))[c] ==
            if c.name in catalog && catalog[c.name] == c then multiset(names)[c.name] else 0
    decreases |names|
  {
    if names != [] {
      RestoredCounts(catalog, names[..|names| - 1], c);
      assert names == names[..|names| - 1] + [names[|names| - 1]];
    }
  }

  lemma {:induction false} CurrentIsRestored(catalog: Table, frontier: seq<Candidate>)
    requires Current(frontier, catalog)
    ensures Restored(catalog, FrontierNames(frontier)) == frontier
    decreases |frontier|
  {
    if frontier != [] {
      var init, last := frontier[..|frontier| - 1], frontier[|frontier| - 1];
      CurrentIsRestored(catalog, init);
      assert last in frontier;
      assert FrontierNames(frontier)[..|frontier| - 1] == FrontierNames(init);
      assert frontier == init + [last];
    }
  }

  lemma CurrentDecides(catalog: Table, frontier: seq<Candidate>, names: seq<string>)
    requires forall n | n in catalog :: catalog[n].name == n
    requires multiset(names) == multiset(FrontierNames(frontier))
    ensures multiset(Restored(catalog, names)) == multiset(frontier) <==> Current(frontier, catalog)
  {
    if Current(frontier, catalog) {
      CurrentIsRestored(catalog, frontier);
      forall c ensures multiset(Restored(catalog, names))[c] == multiset(frontier)[c] {
        RestoredCounts(catalog, names, c);
        RestoredCounts(catalog, FrontierNames(frontier), c);
      }
    }
    if multiset(Restored(catalog, names)) == multiset(frontier) {
      forall c | c in frontier ensures c.name in catalog && c == catalog[c.name] {
        assert c in multiset(frontier);
        RestoredCounts(catalog, names, c);
      }
    }
  }

  /** What a round reads of a frontier candidate: everything but its origins. */
  function View(c: Candidate): Candidate {
    c.(origins := {})
  }

  function Views(frontier: seq<Candidate>): (views: seq<Candidate>)
    ensures |views| == |frontier| && forall i | 0 <= i < |views| :: views[i] == View(frontier[i])
  {
    seq(|frontier|, i requires 0 <= i < |frontier| => View(frontier[i]))
  }

  function TableView(catalog: Table): Table {
    map n | n in catalog :: View(catalog[n])
  }

  predicate SameMarks(frontier: seq<Candidate>, catalog: Table) {
    forall c | c in frontier :: c.name in catalog && c.wildcard == catalog[c.name].wildcard
  }

  lemma {:induction false} RestoredViews(catalog: Table, names: seq<string>)
    ensures Restored(TableView(catalog), names) == Views(Restored(catalog, names))
    decreases |names|
  {
    if names != [] {
      RestoredViews(catalog, names[..|names| - 1]);
    }
  }

  /** The resumed frontier reads the same as the one of the interrupted run exactly when no wildcard mark was
      lifted after its name entered the frontier. */
  lemma ResumeReadsTheSame(catalog: Table, frontier: seq<Candidate>)
    requires InCatalog(frontier, catalog) && forall n | n in catalog :: catalog[n].name == n
    ensures multiset(Views(Restored(catalog, Sort(FrontierNames(frontier))))) == multiset(Views(frontier))
            <==> SameMarks(frontier, catalog)
  {
    var names := Sort(FrontierNames(frontier));
    assert FrontierNames(Views(frontier)) == FrontierNames(frontier);
    RestoredViews(catalog, names);
    CurrentDecides(TableView(catalog), Views(frontier), names);
    CurrentViews(catalog, frontier);
  }

  lemma CurrentViews(catalog: Table, frontier: seq<Candidate>)
    requires InCatalog(frontier, catalog)
    ensures Current(Views(frontier), TableView(catalog)) <==> SameMarks(frontier, catalog)
  {
    if SameMarks(frontier, catalog) {
      forall v | v in Views(frontier) ensures v.name in TableView(catalog) && v == TableView(catalog)[v.name] {
        var i :| 0 <= i < |frontier| && Views(frontier)[i] == v;
        assert frontier[i] in frontier;
      }
    }
    if Current(Views(frontier), TableView(catalog)) {
      forall c | c in frontier ensures c.name in catalog && c.wildcard == catalog[c.name].wildcard {
        var i :| 0 <= i < |frontier| && frontier[i] == c;
        assert Views(frontier)[i] in Views(frontier);
      }
    }
  }

  predicate Transferred(seeds: seq<Seed>, name: string) {
    exists s | s in seeds :: s.name == name && s.origin.technique == ZONE_TRANSFER
  }

  lemma {:induction false} MarkAfter(catalog: Table, seeds: seq<Seed>, name: string)
    requires name in catalog
    ensures name in WithOrigins(catalog, seeds)
    ensures WithOrigins(catalog, seeds)[name].wildcard <==> catalog[name].wildcard && !Transferred(seeds, name)
    decreases |seeds|
  {
    if seeds != [] {
      var init, last := seeds[..|seeds| - 1], seeds[|seeds| - 1];
      MarkAfter(catalog, init, name);
      assert seeds == init + [last];
      assert Transferred(seeds, name) <==> Transferred(init, name) || (last.name == name && last.origin.technique == ZONE_TRANSFER);
    }
  }

  /** When marks are lifted: exactly when a zone transfer lists a wildcard name that is in the frontier. */
  lemma TransferLiftsMarks(catalog: Table, frontier: seq<Candidate>, seeds: seq<Seed>)
    requires SameMarks(frontier, catalog)
    ensures SameMarks(frontier, WithOrigins(catalog, seeds)) <==>
            forall c | c in frontier && c.wildcard :: !Transferred(seeds, c.name)
  {
    OriginsGrow(catalog, seeds);
    forall c | c in frontier
      ensures WithOrigins(catalog, seeds)[c.name].wildcard <==> c.wildcard && !Transferred(seeds, c.name)
    {
      MarkAfter(catalog, seeds, c.name);
    }
  }
}
