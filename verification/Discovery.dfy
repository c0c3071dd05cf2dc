/** A discovery run: rounds that resolve new names, under two budgets, with a checkpoint after each round.

    The network answers arbitrarily: which names the sources observe, what a name resolves to, which names a
    zone transfer, a page or a reverse lookup mentions. `queried` lists, in order, the names sent to
    resolution, and `before` the names that were attempted when the run started. */
module Discovery {
  import opened Sequences
  import opened Options
  import opened Names
  import opened Catalog
  import opened Generation
  import RoundRobin

  ghost predicate CatalogOk(l: Limits, catalog: Table, attempted: set<string>) {
    && (forall n | n in catalog :: catalog[n].name == n && n in attempted)
    && ("" in attempted ==> "" in catalog)
    && |catalog| <= l.maxCandidates
  }

  /** The limits bind what a run attempts itself; what it was resumed with may lie outside them. */
  ghost predicate AttemptedOk(l: Limits, attempted: set<string>, before: set<string>) {
    && (forall n | n in attempted :: n in before || Eligible(l, n))
    && (|attempted| <= l.maxTested || attempted == before)
  }

  ghost predicate QueriesOk(queried: seq<string>, attempted: set<string>, before: set<string>) {
    && NoDuplicates(queried)
    && (forall n | n in queried :: n in attempted && n !in before)
    && before <= attempted
  }

  /** What holds of the loop state between rounds. */
  ghost predicate LoopOk(l: Limits, catalog: Table, attempted: set<string>, frontier: seq<Candidate>, before: set<string>) {
    CatalogOk(l, catalog, attempted) && AttemptedOk(l, attempted, before) && InCatalog(frontier, catalog)
  }

  ghost predicate Sound(l: Limits, catalog: Table, attempted: set<string>, frontier: seq<Candidate>,
                        queried: seq<string>, before: set<string>) {
    Workable(l) && LoopOk(l, catalog, attempted, frontier, before) && QueriesOk(queried, attempted, before)
  }

  /** `now` is the catalog with the candidates `added` in it and everything before as it was. */
  ghost predicate Entered(catalog: Table, now: Table, added: seq<Candidate>) {
    Holds(now, added) && forall n | n in catalog :: n in now && now[n] == catalog[n]
  }

  predicate AllTried(l: Limits, seeds: seq<Seed>, attempted: set<string>) {
    forall s | s in seeds && Eligible(l, s.name) :: s.name in attempted
  }

  predicate NoTransfer(seeds: seq<Seed>) {
    forall s | s in seeds :: s.origin.technique != ZONE_TRANSFER
  }

  /** The replies are in the catalog: each name with what its reply yields, and no name whose reply yields nothing. */
  ghost predicate Answers(seeds: seq<Seed>, names: set<string>, reply: string -> Reply, now: Table) {
    forall n | n in names :: Yield(seeds, n, reply) == if n in now then [now[n]] else []
  }

  /** From `catalog` to `now` by resolving `names` once each: `added` is what entered, and no kept name is lost. */
  ghost predicate Absorbed(seeds: seq<Seed>, names: set<string>, catalog: Table, queried: seq<string>,
                           now: Table, asked: seq<string>, added: seq<Candidate>) {
    && Grown(catalog, now) && Entered(catalog, now, added)
    && queried <= asked && Lists(asked[|queried|..], names)
    && (forall n | n in names && KeptName(seeds, n) :: n in now)
    && (forall n | n in now :: n in catalog || n in names)
    && Entrants(catalog, now, added)
  }

  /** The frontier holds every name that entered the catalog. */
  ghost predicate Entrants(catalog: Table, now: Table, frontier: seq<Candidate>) {
    forall n | n in now && n !in catalog :: n in FrontierNames(frontier)
  }

  lemma EntrantsFurther(x: Table, y: Table, z: Table, frontier: seq<Candidate>, more: seq<Candidate>)
    requires Entrants(x, y, frontier) && Entrants(y, z, more)
    ensures Entrants(x, z, frontier + more)
  {
    assert FrontierNames(frontier + more) == FrontierNames(frontier) + FrontierNames(more);
  }

  /** What taking up seeds comes to: only they are attempted, all in scope unless the limit is reached, and with a
      resolver every kept one enters. */
  ghost predicate Expanded(l: Limits, resolver: bool, seeds: seq<Seed>, limit: int, catalog: Table, attempted: set<string>,
                           now: Table, tried: set<string>) {
    && tried <= attempted + NamesOf(seeds)
    && (|tried| - |attempted| < limit ==> AllTried(l, seeds, tried))
    && (resolver && AllKept(seeds) ==> |now| - |catalog| >= |tried| - |attempted|)
  }

  lemma TakenExpands(l: Limits, resolver: bool, seeds: seq<Seed>, limit: int, catalog: Table, attempted: set<string>,
                     taken: seq<Seed>, now: Table, tried: set<string>)
    requires TakenUp(l, seeds, attempted, limit, taken) && tried == attempted + NamesOf(taken) && |tried| == |attempted| + |taken|
    requires Grown(catalog, now) && catalog.Keys <= attempted
    requires resolver ==> forall n | n in NamesOf(taken) && Eligible(l, n) && KeptName(taken, n) :: n in now
    ensures Expanded(l, resolver, seeds, limit, catalog, attempted, now, tried)
  {
    if resolver && AllKept(seeds) {
      KeptFill(seeds, taken, catalog, now);
    }
  }

  /** What is left of both budgets. */
  function Room(l: Limits, catalog: Table, attempted: set<string>): int {
    Min(l.maxCandidates - |catalog|, l.maxTested - |attempted|)
  }

  /** What learning names comes to: nothing else is attempted, and no name in scope is missed unless a budget runs
      out. */
  ghost predicate Learned(l: Limits, resolver: bool, seeds: seq<Seed>, catalog: Table, attempted: set<string>,
                          now: Table, tried: set<string>) {
    && tried <= attempted + NamesOf(seeds)
    && (|tried| - |attempted| < Room(l, catalog, attempted) ==> AllTried(l, seeds, tried))
    && (resolver && AllKept(seeds) && Room(l, now, tried) > 0 ==> AllTried(l, seeds, tried))
  }

  lemma ExpandedIsLearned(l: Limits, resolver: bool, seeds: seq<Seed>, catalog: Table, filed: Table, attempted: set<string>,
                          now: Table, tried: set<string>)
    requires |filed| == |catalog| && Expanded(l, resolver, seeds, Room(l, catalog, attempted), filed, attempted, now, tried)
    ensures Learned(l, resolver, seeds, catalog, attempted, now, tried)
  {
  }

  /** The targets of these candidates' aliases. */
  predicate TargetOf(frontier: seq<Candidate>, name: string) {
    exists c | c in frontier :: name in c.dns.cname
  }

  predicate AliasesTried(l: Limits, frontier: seq<Candidate>, attempted: set<string>) {
    forall c, t | c in frontier && t in c.dns.cname && Eligible(l, t) :: t in attempted
  }

  /** The seeds of the aliases: their targets under the root. */
  predicate AliasSeeds(root: string, frontier: seq<Candidate>, seeds: seq<Seed>) {
    && NoTransfer(seeds) && AllKept(seeds)
    && (forall s | s in seeds :: TargetOf(frontier, s.name))
    && (forall c, t | c in frontier && t in c.dns.cname && Under(t, root) :: t in NamesOf(seeds))
  }

  lemma AliasesAreTried(l: Limits, frontier: seq<Candidate>, seeds: seq<Seed>, attempted: set<string>)
    requires AliasSeeds(l.root, frontier, seeds) && AllTried(l, seeds, attempted)
    ensures AliasesTried(l, frontier, attempted)
  {
    forall c, t | c in frontier && t in c.dns.cname && Eligible(l, t) ensures t in attempted {
      assert t in NamesOf(seeds);
    }
  }

  function PagesOf(l: Limits, network: Network, setup: Setup, frontier: seq<Candidate>, room: int): seq<Seed> {
    if setup.mode.Passive? || !setup.client then [] else PageSeeds(network, frontier, room, l.root)
  }

  /** What the start picks of the observations: the names, out of what each source saw under the root, and the
      accounts of the sources. */
  datatype Pick = Pick(names: set<string>, items: seq<seq<string>>, sources: seq<SourceRun>)

  /** As many names are picked as the budgets admit, and the accounts of the sources are drawn up. */
  ghost predicate Picked(l: Limits, observed: seq<Observation>, pick: Pick) {
    && pick.names <= InScope(l.root, observed)
    && |pick.names| == Min(Min(l.maxCandidates, l.maxTested) - 1, |InScope(l.root, observed)|)
    && ScopedItems(l.root, observed, pick.items) && Accounts(observed, pick.items, pick.names, pick.sources)
  }

  predicate FitsFirst(l: Limits, seeds: seq<Seed>) {
    l.root in NamesOf(seeds) && KeptName(seeds, l.root) && |NamesOf(seeds)| <= Min(l.maxCandidates, l.maxTested)
  }

  ghost predicate Marked(l: Limits, chosen: set<string>, attempted: set<string>) {
    forall n :: n in attempted <==> n in chosen && Eligible(l, n)
  }

  /** What learning from DNS adds to a start that has `seen` the observations: unless a budget runs out, all that the
      root's records, a zone transfer and the addresses met so far name is attempted, and nothing else. */
  ghost predicate Enriched(l: Limits, resolver: bool, network: Network, setup: Setup, seen: Moment, met: Moment, now: Moment) {
    var back := ReverseSeeds(network, met.frontier, l.root);
    var looksBack := setup.reverse && !setup.mode.Passive? && met.frontier != [];
    && seen.attempted <= met.attempted && Grown(seen.catalog, now.catalog)
    && Entrants(seen.catalog, met.catalog, met.frontier) && Entrants(met.catalog, now.catalog, now.frontier)
    && seen.frontier <= met.frontier <= now.frontier
    && now.attempted <= met.attempted + NamesOf(back)
    && met.attempted <= seen.attempted + NamesOf(RootSeeds(network, l.root)) + NamesOf(TransferSeeds(network, l.root))
    && (resolver && Room(l, now.catalog, now.attempted) > 0 ==>
          && (!setup.mode.Passive? ==> AllTried(l, RootSeeds(network, l.root), now.attempted))
          && (setup.zones && setup.mode.Exhaustive? ==> AllTried(l, TransferSeeds(network, l.root), now.attempted))
          && (looksBack ==> AllTried(l, back, now.attempted)))
  }

  lemma EnrichedBy(l: Limits, resolver: bool, network: Network, setup: Setup, seen: Moment, told: Moment, met: Moment, now: Moment)
    requires Entrants(seen.catalog, told.catalog, told.frontier)
    requires Entrants(told.catalog, met.catalog, met.frontier) && Entrants(met.catalog, now.catalog, now.frontier)
    requires Grown(seen.catalog, told.catalog) && Grown(told.catalog, met.catalog) && Grown(met.catalog, now.catalog)
    requires seen.attempted <= told.attempted <= met.attempted <= now.attempted
    requires seen.frontier <= told.frontier <= met.frontier <= now.frontier
    requires if !setup.mode.Passive? && resolver then
               Learned(l, resolver, RootSeeds(network, l.root), seen.catalog, seen.attempted, told.catalog, told.attempted)
             else told.attempted == seen.attempted
    requires if setup.zones && setup.mode.Exhaustive? && network.transfer.Some? then
               Learned(l, resolver, TransferSeeds(network, l.root), told.catalog, told.attempted, met.catalog, met.attempted)
             else met.attempted == told.attempted
    requires if setup.reverse && !setup.mode.Passive? && met.frontier != [] then
               Learned(l, resolver, ReverseSeeds(network, met.frontier, l.root), met.catalog, met.attempted, now.catalog, now.attempted)
             else now.attempted == met.attempted
    ensures Enriched(l, resolver, network, setup, seen, met, now)
  {
    EntrantsKept(seen.catalog, told.catalog, met.catalog, told.frontier, met.frontier);
    RoomShrinks(l, told.catalog, told.attempted, met.catalog, met.attempted);
    RoomShrinks(l, met.catalog, met.attempted, now.catalog, now.attempted);
    GrownTransitive(seen.catalog, told.catalog, met.catalog);
    GrownTransitive(seen.catalog, met.catalog, now.catalog);
  }

  /** A fresh run has attempted what was picked, and then learned from DNS. */
  ghost predicate Started(l: Limits, resolver: bool, network: Network, setup: Setup, chosen: set<string>, seen: Moment,
                          met: Moment, now: Moment) {
    && Marked(l, chosen, seen.attempted) && Entrants(map[], seen.catalog, seen.frontier)
    && Enriched(l, resolver, network, setup, seen, met, now)
  }

  /** The moments between the rounds of a run, and what each round went through. */
  datatype Course = Course(moments: seq<Moment>, logs: seq<RoundLog>)

  ghost function StepOf(l: Limits, resolver: bool, network: Network, setup: Setup): (Moment, RoundLog, Moment) -> bool {
    (was: Moment, log: RoundLog, now: Moment) => Performed(l, resolver, network, setup, was, log, now)
  }

  ghost predicate Follows(course: Course, step: (Moment, RoundLog, Moment) -> bool) {
    && |course.moments| == |course.logs| + 1
    && forall k | 0 <= k < |course.logs| :: step(course.moments[k], course.logs[k], course.moments[k + 1])
  }

  lemma FollowsFurther(course: Course, step: (Moment, RoundLog, Moment) -> bool, log: RoundLog, now: Moment)
    requires Follows(course, step) && step(course.moments[|course.logs|], log, now)
    ensures Follows(Course(course.moments + [now], course.logs + [log]), step)
  {
  }

  /** The course so far: every round did all it had to, and its checkpoint was stored, except perhaps the last one's. */
  ghost predicate Running(step: (Moment, RoundLog, Moment) -> bool, stores: nat -> bool, course: Course, first: nat,
                          rounds: nat, storing: bool, now: Moment) {
    && first <= rounds && |course.logs| == rounds - first && Follows(course, step)
    && course.moments[|course.logs|] == now
    && (forall k | first < k < rounds :: stores(k))
    && storing == (rounds == first || stores(rounds))
  }

  /** A run does not stop early: its rounds ended because the limit, the frontier or a budget was exhausted, or
      because the checkpoint of the last one could not be stored. */
  ghost predicate Ran(l: Limits, resolver: bool, network: Network, setup: Setup, course: Course, first: nat, rounds: nat,
                      now: Moment) {
    exists storing ::
      && Running(StepOf(l, resolver, network, setup), network.stores, course, first, rounds, storing, now)
      && (rounds >= RoundLimit(setup) || now.frontier == [] || Room(l, now.catalog, now.attempted) <= 0 || !storing)
  }

  lemma RanFurther(step: (Moment, RoundLog, Moment) -> bool, stores: nat -> bool, course: Course, first: nat, rounds: nat,
                   was: Moment, log: RoundLog, now: Moment)
    requires Running(step, stores, course, first, rounds, true, was) && step(was, log, now)
    ensures Running(step, stores, Course(course.moments + [now], course.logs + [log]), first, rounds + 1, stores(rounds + 1), now)
  {
    FollowsFurther(course, step, log, now);
  }

  /** The loop state a checkpoint is loaded to. */
  ghost function LoadedMoment(l: Limits, state: State): Moment {
    Moment(LoadedCatalog(l, state), LoadedAttempted(l, state), Restored(LoadedCatalog(l, state), state.frontier))
  }

  /** How the seeds of a round are chosen: first those of the pages, then proposals for what is left. */
  ghost predicate Chosen(l: Limits, g: Generator, was: Table, catalog: Table, frontier: seq<Candidate>, pages: seq<Seed>,
                         attempted: set<string>, budget: int, first: seq<Seed>, zones: seq<string>, seeds: seq<Seed>) {
    && first <= seeds && TakenUp(l, pages, attempted, budget, first)
    && if |first| >= budget then seeds == first
       else
         && Sorted(zones) && NoDuplicates(zones) && Elements(zones) == BusyZones(l.root, frontier, catalog, g.threshold)
         && TakenUp(l, Proposals(l.root, g, g.words(was), zones, catalog, frontier), attempted + NamesOf(first),
                    budget - |first|, seeds[|first|..])
  }

  lemma ChosenMore(l: Limits, g: Generator, was: Table, catalog: Table, frontier: seq<Candidate>, pages: seq<Seed>,
                   attempted: set<string>, budget: int, first: seq<Seed>, zones: seq<string>, more: seq<Seed>)
    requires TakenUp(l, pages, attempted, budget, first) && |first| < budget
    requires Sorted(zones) && NoDuplicates(zones) && Elements(zones) == BusyZones(l.root, frontier, catalog, g.threshold)
    requires TakenUp(l, Proposals(l.root, g, g.words(was), zones, catalog, frontier), attempted + NamesOf(first),
                     budget - |first|, more)
    ensures Chosen(l, g, was, catalog, frontier, pages, attempted, budget, first, zones, first + more)
  {
    assert (first + more)[|first|..] == more;
  }

  lemma NewlyTaken(l: Limits, seeds: seq<Seed>, attempted: set<string>, limit: int, taken: seq<Seed>)
    requires TakenUp(l, seeds, attempted, limit, taken) && limit > 0
    ensures NewNames(taken, attempted) && |NamesOf(taken)| == |taken| <= limit
  {
  }

  /** Below the budget a round leaves out neither a name its pages mention nor a proposal. */
  lemma ChosenTried(l: Limits, g: Generator, was: Table, catalog: Table, frontier: seq<Candidate>, pages: seq<Seed>,
                    attempted: set<string>, budget: int, first: seq<Seed>, zones: seq<string>, seeds: seq<Seed>)
    requires Chosen(l, g, was, catalog, frontier, pages, attempted, budget, first, zones, seeds) && |seeds| < budget
    ensures AllTried(l, pages, attempted + NamesOf(seeds))
    ensures AllTried(l, Proposals(l.root, g, g.words(was), zones, catalog, frontier), attempted + NamesOf(seeds))
  {
    assert seeds == first + seeds[|first|..];
    NamesOfConcat(first, seeds[|first|..]);
  }

  datatype Moment = Moment(catalog: Table, attempted: set<string>, frontier: seq<Candidate>)

  /** What a round goes through: its seeds, those of them the pages gave, the busy zones, the aliases followed, and
      the moments before aliases are followed and before addresses are looked up. */
  datatype RoundLog = RoundLog(seeds: seq<Seed>, first: seq<Seed>, zones: seq<string>, aliases: seq<Seed>,
                               searched: Moment, aliased: Moment)

  /** A round does all it has to: it chooses its seeds, puts every name that enters on the next frontier, follows the
      aliases of what it found and looks back from its addresses, unless a budget runs out. And it attempts nothing
      else. */
  ghost predicate Performed(l: Limits, resolver: bool, network: Network, setup: Setup, was: Moment, log: RoundLog, now: Moment) {
    var pages := PagesOf(l, network, setup, was.frontier, Room(l, was.catalog, was.attempted));
    var back := ReverseSeeds(network, log.aliased.frontier, l.root);
    && Chosen(l, setup.generator, was.catalog, WithOrigins(was.catalog, pages), was.frontier, pages, was.attempted,
              Room(l, was.catalog, was.attempted), log.first, log.zones, log.seeds)
    && log.searched.attempted == was.attempted + NamesOf(log.seeds)
    && log.searched.frontier <= log.aliased.frontier <= now.frontier
    && AliasSeeds(l.root, log.searched.frontier, log.aliases)
    && now.attempted <= log.searched.attempted + NamesOf(log.aliases) + NamesOf(back)
    && Entrants(was.catalog, log.searched.catalog, log.searched.frontier)
    && Entrants(was.catalog, log.aliased.catalog, log.aliased.frontier)
    && Entrants(was.catalog, now.catalog, now.frontier)
    && (resolver && Room(l, now.catalog, now.attempted) > 0 ==>
          && AliasesTried(l, log.searched.frontier, now.attempted)
          && (setup.reverse && !setup.mode.Passive? && log.aliased.frontier != [] ==> AllTried(l, back, now.attempted)))
  }

  lemma EntrantsKept(x: Table, y: Table, z: Table, frontier: seq<Candidate>, longer: seq<Candidate>)
    requires Entrants(x, y, frontier) && Entrants(y, z, longer) && frontier <= longer
    ensures Entrants(x, z, longer)
  {
    assert longer == frontier + longer[|frontier|..];
    assert FrontierNames(longer) == FrontierNames(frontier) + FrontierNames(longer[|frontier|..]);
  }

  lemma RoomShrinks(l: Limits, catalog: Table, attempted: set<string>, now: Table, tried: set<string>)
    requires Grown(catalog, now) && attempted <= tried
    ensures Room(l, now, tried) <= Room(l, catalog, attempted)
  {
    Smaller(catalog.Keys, now.Keys);
    Smaller(attempted, tried);
  }

  lemma RoundPerformed(l: Limits, resolver: bool, network: Network, setup: Setup, was: Moment, log: RoundLog, now: Moment)
    requires var pages := PagesOf(l, network, setup, was.frontier, Room(l, was.catalog, was.attempted));
             Chosen(l, setup.generator, was.catalog, WithOrigins(was.catalog, pages), was.frontier, pages, was.attempted,
                    Room(l, was.catalog, was.attempted), log.first, log.zones, log.seeds)
    requires log.searched.attempted == was.attempted + NamesOf(log.seeds)
    requires log.searched.frontier <= log.aliased.frontier <= now.frontier
    requires Grown(log.searched.catalog, log.aliased.catalog) && Grown(log.aliased.catalog, now.catalog)
    requires log.searched.attempted <= log.aliased.attempted <= now.attempted
    requires Entrants(was.catalog, log.searched.catalog, log.searched.frontier)
    requires Entrants(log.searched.catalog, log.aliased.catalog, log.aliased.frontier)
    requires Entrants(log.aliased.catalog, now.catalog, now.frontier)
    requires AliasSeeds(l.root, log.searched.frontier, log.aliases)
    requires Learned(l, resolver, log.aliases, log.searched.catalog, log.searched.attempted, log.aliased.catalog, log.aliased.attempted)
    requires resolver && Room(l, log.aliased.catalog, log.aliased.attempted) > 0 ==>
               AliasesTried(l, log.searched.frontier, log.aliased.attempted)
    requires var back := ReverseSeeds(network, log.aliased.frontier, l.root);
             if setup.reverse && !setup.mode.Passive? && log.aliased.frontier != [] then
               Learned(l, resolver, back, log.aliased.catalog, log.aliased.attempted, now.catalog, now.attempted)
             else now.attempted == log.aliased.attempted
    ensures Performed(l, resolver, network, setup, was, log, now)
  {
    EntrantsKept(was.catalog, log.searched.catalog, log.aliased.catalog, log.searched.frontier, log.aliased.frontier);
    EntrantsKept(was.catalog, log.aliased.catalog, now.catalog, log.aliased.frontier, now.frontier);
    RoomShrinks(l, log.aliased.catalog, log.aliased.attempted, now.catalog, now.attempted);
  }

  predicate AllKept(seeds: seq<Seed>) {
    forall s | s in seeds :: s.keep
  }

  /** With a resolver each kept name that is taken up enters the catalog, so what runs out leaves no room. */
  lemma KeptFill(seeds: seq<Seed>, taken: seq<Seed>, catalog: Table, now: Table)
    requires AllKept(seeds) && (forall s | s in taken :: s in seeds) && Grown(catalog, now)
    requires forall n | n in NamesOf(taken) && KeptName(taken, n) :: n in now
    requires NamesOf(taken) !! catalog.Keys
    ensures |now| >= |catalog| + |NamesOf(taken)|
  {
    forall n | n in NamesOf(taken) ensures n in now {
      var s :| s in taken && s.name == n;
      assert s.keep && KeptName(taken, n);
    }
    Card(catalog.Keys, NamesOf(taken));
    Smaller(catalog.Keys + NamesOf(taken), now.Keys);
  }

  /** What the replies to these names say is in the catalog: every name that resolves, except to a wildcard, and no
      record but the one the resolver gave. */
  ghost predicate Heard(reply: string -> Reply, names: seq<string>, now: Table) {
    && (forall n | n in names && Answered(reply(n).dns) && !reply(n).wild :: n in now)
    && (forall n | n in names && n in now :: now[n].dns == reply(n).dns && now[n].resolved == Answered(reply(n).dns))
  }

  lemma AnswersAreHeard(seeds: seq<Seed>, names: seq<string>, reply: string -> Reply, now: Table)
    requires Answers(seeds, Elements(names), reply, now)
    ensures Heard(reply, names, now)
  {
    forall n | n in names ensures (Answered(reply(n).dns) && !reply(n).wild ==> n in now) &&
                                  (n in now ==> now[n].dns == reply(n).dns && now[n].resolved == Answered(reply(n).dns)) {
      assert n in Elements(names) && Yield(seeds, n, reply) == if n in now then [now[n]] else [];
    }
  }

  /** From one moment of a run to a later one: the catalog and the attempted names only grow, the catalog by names
      resolved in between, which were not attempted before, and their replies are in it. */
  ghost predicate Advanced(reply: string -> Reply, catalog: Table, attempted: set<string>, queried: seq<string>,
                           now: Table, tried: set<string>, asked: seq<string>) {
    && Grown(catalog, now) && attempted <= tried && queried <= asked
    && (forall n | n in asked[|queried|..] :: n !in attempted && n in tried)
    && (forall n | n in now :: n in catalog || n in asked[|queried|..])
    && Heard(reply, asked[|queried|..], now)
  }

  lemma AdvancedFurther(reply: string -> Reply, c0: Table, a0: set<string>, q0: seq<string>, c1: Table, a1: set<string>, q1: seq<string>,
                        c2: Table, a2: set<string>, q2: seq<string>)
    requires Advanced(reply, c0, a0, q0, c1, a1, q1) && Advanced(reply, c1, a1, q1, c2, a2, q2)
    ensures Advanced(reply, c0, a0, q0, c2, a2, q2)
  {
    GrownTransitive(c0, c1, c2);
    assert q2[|q0|..] == q1[|q0|..] + q2[|q1|..];
    HeardFurther(reply, q1[|q0|..], c1, q2[|q1|..], c2);
  }

  lemma HeardFurther(reply: string -> Reply, names: seq<string>, x: Table, more: seq<string>, y: Table)
    requires Heard(reply, names, x) && Heard(reply, more, y) && Grown(x, y)
    requires forall n | n in y :: n in x || n in more
    requires forall n | n in names :: n !in more
    ensures Heard(reply, names + more, y)
  {
  }

  /** A checkpoint written by a run under these limits, from the loop state given. */
  ghost predicate WrittenFrom(l: Limits, state: State, catalog: Table, attempted: set<string>, frontier: seq<Candidate>,
                              before: set<string>) {
    && LoopOk(l, catalog, attempted, frontier, before)
    && Reports(state, catalog, attempted, frontier, state.round)
    && (state.round >= 1 ==> SameMarks(frontier, catalog))
  }

  ghost predicate Genuine(l: Limits, state: State) {
    exists catalog, attempted, frontier, before :: WrittenFrom(l, state, catalog, attempted, frontier, before)
  }

  predicate Workable(l: Limits) {
    l.root != "" && l.maxCandidates >= 1 && l.maxTested >= 1
  }

  function Min(a: int, b: int): int {
    if a < b then a else b
  }

  class Recon {
    const l: Limits
    const resolver: bool
    const network: Network
    var catalog: Table
    var attempted: set<string>
    var frontier: seq<Candidate>
    var sources: seq<SourceRun>
    ghost var queried: seq<string>
    ghost var before: set<string>

    ghost predicate Valid()
      reads this
    {
      Sound(l, catalog, attempted, frontier, queried, before)
    }

    constructor (l: Limits, resolver: bool, network: Network)
      requires Workable(l)
      ensures Valid() && this.l == l && this.resolver == resolver && this.network == network
      ensures catalog == map[] && attempted == {} && frontier == [] && queried == [] && before == {}
    {
      this.l, this.resolver, this.network := l, resolver, network;
      catalog, attempted, frontier, sources, queried, before := map[], {}, [], [], [], {};
    }

    /** The names a batch of resolutions may cover: attempted, and neither catalogued nor resolved before. */
    ghost predicate Untried(names: set<string>)
      reads this
    {
      forall n | n in names :: n in attempted && n !in catalog && n !in queried && n !in before
    }

    function Budget(): int
      reads this
    {
      Room(l, catalog, attempted)
    }

    method UnseenSeeds(seeds: seq<Seed>, limit: int) returns (taken: seq<Seed>)
      modifies this`attempted
      ensures taken == Unseen(l, seeds, old(attempted), limit)
      ensures attempted == old(attempted) + NamesOf(taken)
    {
      taken := [];
      var rest := seeds;
      while rest != [] && |taken| < limit
        invariant taken + Unseen(l, rest, attempted, limit - |taken|) == Unseen(l, seeds, old(attempted), limit)
        invariant attempted == old(attempted) + NamesOf(taken)
      {
        var item := rest[0];
        if Eligible(l, item.name) && item.name !in attempted {
          Regroup(taken, [item], Unseen(l, rest[1..], attempted + {item.name}, limit - |taken| - 1));
          NamesOfConcat(taken, [item]);
          attempted := attempted + {item.name};
          taken := taken + [item];
        }
        rest := rest[1..];
      }
    }

    method MarkSeeds(seeds: seq<Seed>)
      modifies this`attempted
      ensures attempted == old(attempted) + set n | n in NamesOf(seeds) && Eligible(l, n)
    {
      var i := 0;
      while i < |seeds|
        invariant i <= |seeds|
        invariant attempted == old(attempted) + set n | n in NamesOf(seeds[..i]) && Eligible(l, n)
      {
        assert seeds[..i + 1] == seeds[..i] + [seeds[i]];
        NamesOfConcat(seeds[..i], [seeds[i]]);
        if Eligible(l, seeds[i].name) {
          attempted := attempted + {seeds[i].name};
        }
        i := i + 1;
      }
      assert seeds[..i] == seeds;
    }

    method MergeSeedOrigins(seeds: seq<Seed>)
      modifies this`catalog
      ensures catalog == WithOrigins(old(catalog), seeds)
    {
      var i := 0;
      while i < |seeds|
        invariant i <= |seeds|
        invariant catalog == WithOrigins(old(catalog), seeds[..i])
      {
        assert seeds[..i + 1][..i] == seeds[..i];
        catalog := WithOrigin(catalog, seeds[i]);
        i := i + 1;
      }
      assert seeds[..i] == seeds;
    }

    method MergeCandidates(incoming: seq<Candidate>, limit: nat) returns (added: seq<Candidate>)
      modifies this`catalog
      ensures catalog == Merged(old(catalog), incoming, limit)
      ensures added == Added(old(catalog), incoming, limit)
    {
      added := [];
      var rest := incoming;
      while rest != []
        invariant Merged(catalog, rest, limit) == Merged(old(catalog), incoming, limit)
        invariant added + Added(catalog, rest, limit) == Added(old(catalog), incoming, limit)
      {
        var c := rest[0];
        var gain := [];
        if c.name in catalog {
          var was := catalog[c.name];
          var now := Merge(was, c);
          gain := if !was.resolved && c.resolved then [now] else [];
          assert Added(catalog, rest, limit) == gain + Added(catalog[c.name := now], rest[1..], limit);
          catalog := catalog[c.name := now];
        } else if |catalog| >= limit {
          return;
        } else {
          gain := [c];
          assert Added(catalog, rest, limit) == gain + Added(catalog[c.name := c], rest[1..], limit);
          catalog := catalog[c.name := c];
        }
        Regroup(added, gain, Added(catalog, rest[1..], limit));
        added := added + gain;
        rest := rest[1..];
      }
    }

    /** Resolves every eligible name of the seeds once, in an order nobody controls. */
    method ResolveSeeds(seeds: seq<Seed>) returns (out: seq<Candidate>)
      modifies this`queried
      ensures Resolution(seeds, Asked(seeds), network.reply, out)
      ensures old(queried) <= queried
      ensures Lists(queried[|old(queried)|..], Asked(seeds))
    {
      ghost var done: set<string> := {};
      out := [];
      var todo := Asked(seeds);
      NothingResolved(seeds, network.reply, queried);
      while todo != {}
        invariant todo !! done && todo + done == Asked(seeds)
        invariant Resolving(seeds, done, network.reply, out, old(queried), queried)
        decreases todo
      {
        var name :| name in todo;
        out := ResolveName(seeds, done, out, name, old(queried));
        todo, done := todo - {name}, done + {name};
      }
      assert done == Asked(seeds);
    }

    /** One name: what the resolver answers, and whether the answer matches a wildcard. */
    method ResolveName(seeds: seq<Seed>, ghost done: set<string>, out: seq<Candidate>, name: string, ghost start: seq<string>)
      returns (outNow: seq<Candidate>)
      requires Resolving(seeds, done, network.reply, out, start, queried) && name !in done
      modifies this`queried
      ensures Resolving(seeds, done + {name}, network.reply, outNow, start, queried)
    {
      var answer := network.reply(name);
      Resolved(seeds, done, network.reply, out, name);
      OneMoreListed(start, queried, done, name);
      queried := queried + [name];
      outNow := out + Outcome(seeds, name, answer.dns, answer.wild);
    }

    /** Resolves a batch of untried names and files the outcome; nothing is lost for lack of space. */
    method Absorb(seeds: seq<Seed>) returns (added: seq<Candidate>)
      requires Valid() && Untried(Asked(seeds)) && |catalog| + |Asked(seeds)| <= l.maxCandidates
      modifies this`catalog, this`queried
      ensures Valid() && Absorbed(seeds, Asked(seeds), old(catalog), old(queried), catalog, queried, added)
      ensures Answers(seeds, Asked(seeds), network.reply, catalog)
    {
      var out := ResolveSeeds(seeds);
      ghost var was := catalog;
      added := MergeCandidates(out, l.maxCandidates);
      AbsorbKeeps(l, was, attempted, frontier, old(queried), before, seeds, Asked(seeds), network.reply, queried, out);
    }

    /** Marks unseen seeds as attempted and returns them. */
    method TakeUp(seeds: seq<Seed>, limit: int) returns (taken: seq<Seed>)
      requires Valid() && limit <= l.maxTested - |attempted|
      modifies this`attempted
      ensures Valid() && taken == Unseen(l, seeds, old(attempted), limit)
      ensures TakenUp(l, seeds, old(attempted), limit, taken)
      ensures attempted == old(attempted) + NamesOf(taken) && |attempted| == |old(attempted)| + |taken|
    {
      taken := UnseenSeeds(seeds, limit);
      UnseenIsNew(l, seeds, old(attempted), limit);
      TakeKeeps(l, catalog, old(attempted), frontier, queried, before, seeds, limit, taken);
    }

    /** Takes up seeds and resolves them. */
    method Expand(seeds: seq<Seed>, limit: int) returns (added: seq<Candidate>)
      requires Valid() && limit <= Budget()
      modifies this`catalog, this`attempted, this`queried
      ensures Sound(l, catalog, attempted, frontier + added, queried, before)
      ensures Advanced(network.reply, old(catalog), old(attempted), old(queried), catalog, attempted, queried)
      ensures Entered(old(catalog), catalog, added) && Entrants(old(catalog), catalog, added)
      ensures Expanded(l, resolver, seeds, limit, old(catalog), old(attempted), catalog, attempted)
    {
      var taken := TakeUp(seeds, limit);
      Fresh(l, catalog, old(attempted), frontier, queried, before, taken, Asked(taken));
      added := Absorb(taken);
      AddedKeeps(l, network.reply, old(catalog), old(attempted), frontier, old(queried), before, taken, Asked(taken), catalog, attempted, queried, added);
      TakenExpands(l, resolver, seeds, limit, old(catalog), old(attempted), taken, catalog, attempted);
    }

    /** The common end of every step that learns names: file their origins, take up the new ones, resolve
        those, and add what enters to the frontier. No name is missed unless a budget runs out. */
    method AddSeeds(seeds: seq<Seed>)
      requires Valid()
      modifies this`catalog, this`attempted, this`frontier, this`queried
      ensures Valid() && Advanced(network.reply, old(catalog), old(attempted), old(queried), catalog, attempted, queried)
      ensures old(frontier) <= frontier && Entrants(old(catalog), catalog, frontier)
      ensures Learned(l, resolver, seeds, old(catalog), old(attempted), catalog, attempted)
      ensures SameMarks(old(frontier), old(catalog)) && NoTransfer(seeds) ==> SameMarks(frontier, catalog)
    {
      var limit := Budget();
      OriginsGrow(old(catalog), seeds);
      MergeSeedOrigins(seeds);
      OriginsKeep(l, network.reply, old(catalog), attempted, frontier, queried, before, seeds);
      ghost var filed := catalog;
      var added := Expand(seeds, limit);
      AdvancedFurther(network.reply, old(catalog), old(attempted), old(queried), filed, old(attempted), old(queried), catalog, attempted, queried);
      ExpandedIsLearned(l, resolver, seeds, old(catalog), filed, old(attempted), catalog, attempted);
      MarksKeep(frontier, old(catalog), seeds, catalog, added);
      EntrantsFurther(old(catalog), filed, catalog, frontier, added);
      frontier := frontier + added;
    }

    /** The first frontier: the root and what the passive sources observed, then what DNS tells about them. */
    method Start(seeds: seq<Seed>, runs: seq<SourceRun>, setup: Setup)
      returns (ghost seen: Moment, ghost met: Moment)
      requires Valid() && catalog == map[] && attempted == {} && frontier == [] && queried == [] && before == {}
      requires FitsFirst(l, seeds)
      modifies this`catalog, this`attempted, this`frontier, this`queried, this`sources
      ensures Valid() && l.root in attempted && (resolver ==> l.root in catalog) && sources == runs
      ensures Advanced(network.reply, map[], {}, [], catalog, attempted, queried)
      ensures Started(l, resolver, network, setup, NamesOf(seeds), seen, met, Now())
    {
      Observe(seeds, runs);
      seen := Now();
      ghost var q := queried;
      met := Enrich(setup);
      AdvancedFurther(network.reply, map[], {}, [], seen.catalog, seen.attempted, q, catalog, attempted, queried);
    }

    /** What the root's records, a zone transfer and the addresses met so far name. */
    method Enrich(setup: Setup) returns (ghost met: Moment)
      requires Valid()
      modifies this`catalog, this`attempted, this`frontier, this`queried
      ensures Valid() && Advanced(network.reply, old(catalog), old(attempted), old(queried), catalog, attempted, queried)
      ensures Enriched(l, resolver, network, setup, old(Now()), met, Now())
    {
      AddDnsSeeds(setup);
      ghost var told, q := Now(), queried;
      AddZoneSeeds(setup);
      met := Now();
      AdvancedFurther(network.reply, old(catalog), old(attempted), old(queried), told.catalog, told.attempted, q, catalog, attempted, queried);
      q := queried;
      AddPtrSeeds(setup);
      AdvancedFurther(network.reply, old(catalog), old(attempted), old(queried), met.catalog, met.attempted, q, catalog, attempted, queried);
      EnrichedBy(l, resolver, network, setup, old(Now()), told, met, Now());
    }

    /** Marks and resolves the root and the observed names. */
    method Observe(seeds: seq<Seed>, runs: seq<SourceRun>)
      requires Valid() && catalog == map[] && attempted == {} && frontier == [] && queried == [] && before == {}
      requires FitsFirst(l, seeds)
      modifies this`catalog, this`attempted, this`frontier, this`queried, this`sources
      ensures Valid() && l.root in attempted && (resolver ==> l.root in catalog) && sources == runs
      ensures Advanced(network.reply, map[], {}, [], catalog, attempted, queried) && Entrants(map[], catalog, frontier)
      ensures Marked(l, NamesOf(seeds), attempted)
    {
      sources := runs;
      MarkSeeds(seeds);
      FirstNames(l, seeds, attempted, Asked(seeds));
      var added := Absorb(seeds);
      FirstFrontier(l, network.reply, catalog, attempted, queried, before, added, seeds, Asked(seeds));
      frontier := added;
    }

    predicate AsksDns(setup: Setup) {
      !setup.mode.Passive? && resolver
    }

    method AddDnsSeeds(setup: Setup)
      requires Valid()
      modifies this`catalog, this`attempted, this`frontier, this`queried
      ensures Valid() && Advanced(network.reply, old(catalog), old(attempted), old(queried), catalog, attempted, queried)
      ensures old(frontier) <= frontier && Entrants(old(catalog), catalog, frontier)
      ensures if AsksDns(setup) then Learned(l, resolver, RootSeeds(network, l.root), old(catalog), old(attempted), catalog, attempted)
              else attempted == old(attempted)
    {
      if setup.mode.Passive? || !resolver {
        AdvancedStill(network.reply, catalog, attempted, queried);
        return;
      }
      AddSeeds(RootSeeds(network, l.root));
    }

    method AddZoneSeeds(setup: Setup)
      requires Valid()
      modifies this`catalog, this`attempted, this`frontier, this`queried
      ensures Valid() && Advanced(network.reply, old(catalog), old(attempted), old(queried), catalog, attempted, queried)
      ensures old(frontier) <= frontier && Entrants(old(catalog), catalog, frontier)
      ensures if setup.zones && setup.mode.Exhaustive? && network.transfer.Some? then
                Learned(l, resolver, TransferSeeds(network, l.root), old(catalog), old(attempted), catalog, attempted)
              else attempted == old(attempted)
    {
      if !setup.zones || !setup.mode.Exhaustive? || network.transfer.None? {
        AdvancedStill(network.reply, catalog, attempted, queried);
        return;
      }
      AddSeeds(TransferSeeds(network, l.root));
    }

    /** Follows the aliases of the frontier. */
    method AddCnameSeeds() returns (ghost seeds: seq<Seed>)
      requires Valid()
      modifies this`catalog, this`attempted, this`frontier, this`queried
      ensures Valid() && Advanced(network.reply, old(catalog), old(attempted), old(queried), catalog, attempted, queried)
      ensures old(frontier) <= frontier && Entrants(old(catalog), catalog, frontier)
      ensures SameMarks(old(frontier), old(catalog)) ==> SameMarks(frontier, catalog)
      ensures AliasSeeds(l.root, old(frontier), seeds)
      ensures Learned(l, resolver, seeds, old(catalog), old(attempted), catalog, attempted)
      ensures |attempted| - |old(attempted)| < old(Budget()) ==> AliasesTried(l, old(frontier), attempted)
      ensures resolver && Budget() > 0 ==> AliasesTried(l, old(frontier), attempted)
    {
      var aliases := CnameSeeds(l.root, frontier);
      seeds := aliases;
      AddSeeds(aliases);
      if AllTried(l, aliases, attempted) {
        AliasesAreTried(l, old(frontier), aliases, attempted);
      }
    }

    predicate LooksBack(setup: Setup) {
      setup.reverse && !setup.mode.Passive?
    }

    /** Looks up the names of the frontier's addresses. */
    method AddPtrSeeds(setup: Setup)
      requires Valid()
      modifies this`catalog, this`attempted, this`frontier, this`queried
      ensures Valid() && Advanced(network.reply, old(catalog), old(attempted), old(queried), catalog, attempted, queried)
      ensures old(frontier) <= frontier && Entrants(old(catalog), catalog, frontier)
      ensures SameMarks(old(frontier), old(catalog)) ==> SameMarks(frontier, catalog)
      ensures LooksBack(setup) && old(frontier) != [] ==>
                Learned(l, resolver, ReverseSeeds(network, old(frontier), l.root), old(catalog), old(attempted), catalog, attempted)
      ensures !LooksBack(setup) || old(frontier) == [] ==> attempted == old(attempted)
    {
      if !LooksBack(setup) || frontier == [] {
        AdvancedStill(network.reply, catalog, attempted, queried);
        return;
      }
      AddSeeds(ReverseSeeds(network, frontier, l.root));
    }

    /** What the pages of the frontier mention; a passive run, or one without a client, reads none. */
    function Pages(setup: Setup): seq<Seed>
      reads this
    {
      PagesOf(l, network, setup, frontier, Budget())
    }

    /** The names the frontier's pages mention: known ones gain an origin, new ones are taken up. */
    method ScrapeSeeds(setup: Setup) returns (seeds: seq<Seed>)
      requires Valid()
      modifies this`catalog, this`attempted
      ensures Valid() && catalog == WithOrigins(old(catalog), old(Pages(setup)))
      ensures catalog.Keys == old(catalog).Keys && Grown(old(catalog), catalog)
      ensures attempted == old(attempted) + NamesOf(seeds) && |attempted| == |old(attempted)| + |seeds|
      ensures TakenUp(l, old(Pages(setup)), old(attempted), old(Budget()), seeds)
    {
      var budget, scraped := Budget(), Pages(setup);
      MergeSeedOrigins(scraped);
      OriginsKeep(l, network.reply, old(catalog), attempted, frontier, queried, before, scraped);
      OriginsGrow(old(catalog), scraped);
      seeds := TakeUp(scraped, budget);
    }

    /** The seeds carry new names, and these are all that was attempted since `was`. */
    ghost predicate Recent(seeds: seq<Seed>, was: set<string>)
      reads this
    {
      && NewNames(seeds, was) && attempted == was + NamesOf(seeds)
      && catalog.Keys <= was && before <= was && forall n | n in queried :: n in was
    }

    /** The seeds of a round: names mentioned by the frontier's pages, then generated names for what is left
        of the budget. `first` are those of the pages and `zones` the busy zones. */
    method RoundSeeds(setup: Setup) returns (seeds: seq<Seed>, ghost first: seq<Seed>, ghost zones: seq<string>)
      requires Valid() && Budget() > 0
      modifies this`catalog, this`attempted
      ensures Valid() && catalog == WithOrigins(old(catalog), old(Pages(setup)))
      ensures catalog.Keys == old(catalog).Keys && Grown(old(catalog), catalog)
      ensures Recent(seeds, old(attempted)) && |NamesOf(seeds)| <= old(Budget())
      ensures Chosen(l, setup.generator, old(catalog), catalog, frontier, old(Pages(setup)), old(attempted), old(Budget()),
                     first, zones, seeds)
    {
      assert catalog.Keys <= attempted;
      var words := setup.generator.words(catalog);
      var budget := Budget();
      seeds := ScrapeSeeds(setup);
      first, zones := seeds, [];
      var remaining := budget - |seeds|;
      NewlyTaken(l, old(Pages(setup)), old(attempted), budget, seeds);
      if remaining > 0 {
        var more;
        more, zones := ProposedSeeds(setup.generator, words, remaining);
        Joined(seeds, more, old(attempted));
        ChosenMore(l, setup.generator, old(catalog), catalog, frontier, old(Pages(setup)), old(attempted), budget, seeds, zones, more);
        seeds := seeds + more;
      }
    }

    /** Generated names, taken up. Screening them a second time drops none. */
    method ProposedSeeds(g: Generator, words: seq<string>, remaining: int) returns (more: seq<Seed>, ghost zones: seq<string>)
      requires Valid() && 0 < remaining <= l.maxTested - |attempted|
      modifies this`attempted
      ensures Valid() && attempted == old(attempted) + NamesOf(more) && NewNames(more, old(attempted))
      ensures |NamesOf(more)| == |more| <= remaining
      ensures Sorted(zones) && NoDuplicates(zones) && Elements(zones) == BusyZones(l.root, frontier, catalog, g.threshold)
      ensures TakenUp(l, Proposals(l.root, g, words, zones, catalog, frontier), old(attempted), remaining, more)
    {
      var generated;
      generated, zones := GenerateSeeds(l, g, words, catalog, frontier, attempted, remaining);
      more := TakeUp(generated, remaining);
      ghost var proposals := Proposals(l.root, g, words, zones, catalog, frontier);
      UnseenTwice(l, proposals, old(attempted), remaining);
      UnseenIsNew(l, proposals, old(attempted), remaining);
    }

    /** The loop state at a moment of a round. */
    ghost function Now(): Moment
      reads this
    {
      Moment(catalog, attempted, frontier)
    }

    /** One round, from a frontier to the next. `log` is what it went through. */
    method Round(setup: Setup) returns (ghost log: RoundLog)
      requires Valid() && Budget() > 0
      modifies this`catalog, this`attempted, this`frontier, this`queried
      ensures Valid() && Advanced(network.reply, old(catalog), old(attempted), old(queried), catalog, attempted, queried)
      ensures SameMarks(frontier, catalog)
      ensures Performed(l, resolver, network, setup, old(Now()), log, Now())
    {
      ghost var seeds, first, zones := Search(setup);
      ghost var c, a, q, searched := catalog, attempted, queried, Now();
      ghost var aliases := AddCnameSeeds();
      AdvancedFurther(network.reply, old(catalog), old(attempted), old(queried), c, a, q, catalog, attempted, queried);
      ghost var aliased := Now();
      c, a, q := catalog, attempted, queried;
      AddPtrSeeds(setup);
      AdvancedFurther(network.reply, old(catalog), old(attempted), old(queried), c, a, q, catalog, attempted, queried);
      log := RoundLog(seeds, first, zones, aliases, searched, aliased);
      RoundPerformed(l, resolver, network, setup, old(Now()), log, Now());
    }

    /** Resolves the seeds of a round; what enters is the next frontier. */
    method Search(setup: Setup) returns (ghost seeds: seq<Seed>, ghost first: seq<Seed>, ghost zones: seq<string>)
      requires Valid() && Budget() > 0
      modifies this`catalog, this`attempted, this`frontier, this`queried
      ensures Valid() && Advanced(network.reply, old(catalog), old(attempted), old(queried), catalog, attempted, queried)
      ensures SameMarks(frontier, catalog) && Entrants(old(catalog), catalog, frontier)
      ensures attempted == old(attempted) + NamesOf(seeds)
      ensures Chosen(l, setup.generator, old(catalog), WithOrigins(old(catalog), old(Pages(setup))), old(frontier), old(Pages(setup)),
                     old(attempted), old(Budget()), first, zones, seeds)
    {
      var picked;
      picked, first, zones := RoundSeeds(setup);
      seeds := picked;
      ghost var c, q := catalog, queried;
      Settle(picked, old(attempted));
      FurtherFrom(network.reply, old(catalog), c, old(attempted), q, catalog, attempted, queried);
    }

    method Settle(seeds: seq<Seed>, ghost was: set<string>)
      requires Valid() && Recent(seeds, was) && |catalog| + |NamesOf(seeds)| <= l.maxCandidates
      modifies this`catalog, this`frontier, this`queried
      ensures Valid() && Advanced(network.reply, old(catalog), was, old(queried), catalog, attempted, queried)
      ensures SameMarks(frontier, catalog) && Entrants(old(catalog), catalog, frontier)
    {
      SearchFresh(l, catalog, was, attempted, frontier, queried, before, seeds, Asked(seeds));
      var added := Absorb(seeds);
      AddedKeeps(l, network.reply, old(catalog), was, frontier, old(queried), before, seeds, Asked(seeds), catalog, attempted, queried, added);
      frontier := added;
    }

    /** The checkpoint of the loop state. */
    method ReportProgress(round: nat) returns (state: State)
      requires Valid()
      ensures Reports(state, catalog, attempted, frontier, round) && state.sources == sources
      ensures Sorted(FrontierNames(state.candidates))
    {
      var keys := SortedList(catalog.Keys);
      var tested := SortedList(attempted);
      assert forall n | n in keys :: n in Elements(keys);
      var candidates := CandidatesAt(catalog, keys);
      CatalogListed(l, catalog, attempted, keys, candidates);
      state := State(candidates, round, Sort(FrontierNames(frontier)), tested, sources);
    }

    /** Starts from a checkpoint, whatever limits it was written under: everything it lists counts as
        attempted. */
    method Load(state: State)
      requires Valid() && catalog == map[] && attempted == {} && frontier == [] && queried == [] && before == {}
      modifies this`catalog, this`attempted, this`frontier, this`sources, this`before
      ensures Valid() && before == attempted && sources == state.sources
      ensures catalog == LoadedCatalog(l, state) && attempted == LoadedAttempted(l, state)
      ensures frontier == Restored(catalog, state.frontier) && SameMarks(frontier, catalog)
    {
      Rebuild(state);
      LoadedSound(l, state);
      LoadedQueries(attempted);
    }

    /** The assignments of loading, whatever the checkpoint. */
    method Rebuild(state: State)
      requires catalog == map[]
      modifies this`catalog, this`attempted, this`frontier, this`sources, this`before
      ensures before == attempted && sources == state.sources
      ensures catalog == LoadedCatalog(l, state) && attempted == LoadedAttempted(l, state)
      ensures frontier == Restored(catalog, state.frontier)
    {
      var _ := MergeCandidates(state.candidates, l.maxCandidates);
      var tested := TestedNames(state.attempted);
      attempted := tested + catalog.Keys;
      frontier := RestoreFrontier(catalog, state.frontier);
      sources := state.sources;
      before := attempted;
    }

    /** A whole run, fresh or from a checkpoint, until a budget, the rounds or the frontier is exhausted, or a
        checkpoint cannot be stored. `marks[k]` is how many names had been resolved at checkpoint `k`; `pick`,
        `seen` and `met` are how a fresh run started, and `course` is the course of its rounds. */
    method Discover(resume: Option<State>, observed: seq<Observation>, setup: Setup)
      returns (states: seq<State>, ghost marks: seq<nat>, rounds: nat, ghost pick: Pick, ghost seen: Moment, ghost met: Moment,
               ghost course: Course)
      requires Valid() && catalog == map[] && attempted == {} && frontier == [] && queried == [] && before == {}
      modifies this
      ensures Valid() && Recorded(l, states, marks, queried, attempted, catalog) && Carry(states, sources)
      ensures Heard(network.reply, queried, catalog)
      ensures before == if resume.Some? then LoadedAttempted(l, resume.value) else {}
      ensures resume.Some? ==> Grown(LoadedCatalog(l, resume.value), catalog) && sources == resume.value.sources
      ensures resume.Some? ==> forall n | n in resume.value.attempted :: n !in queried
      ensures resume.Some? ==>
                course.moments != [] && course.moments[0] == LoadedMoment(l, resume.value)
                && Ran(l, resolver, network, setup, course, resume.value.round, rounds, Now()) && |states| == rounds - resume.value.round
      ensures resume.None? ==>
                && course.moments != [] && Picked(l, observed, pick) && pick.sources == sources
                && Started(l, resolver, network, setup, {l.root} + pick.names, seen, met, course.moments[0])
                && |states| == rounds + 1
                && if network.stores(0) then Ran(l, resolver, network, setup, course, 0, rounds, Now())
                   else rounds == 0 && course == Course([Now()], [])
    {
      if resume.Some? {
        Load(resume.value);
        pick, seen, met := Pick({}, [], []), Now(), Now();
        ghost var loaded := catalog;
        states, marks, rounds, course := Rounds(setup, [], [], resume.value.round);
        ListedAreBefore(l, resume.value, catalog, attempted, frontier, queried, before);
      } else {
        var stored;
        states, marks, stored, pick, seen, met := Begin(observed, setup);
        rounds := 0;
        course := Course([Now()], []);
        ghost var c, a, q := catalog, attempted, queried;
        if stored {
          states, marks, rounds, course := Rounds(setup, states, marks, 0);
          AdvancedFurther(network.reply, map[], {}, [], c, a, q, catalog, attempted, queried);
        }
        assert queried[0..] == queried;
      }
    }

    /** A fresh run up to its first checkpoint. */
    method Begin(observed: seq<Observation>, setup: Setup)
      returns (states: seq<State>, ghost marks: seq<nat>, stored: bool, ghost pick: Pick, ghost seen: Moment, ghost met: Moment)
      requires Valid() && catalog == map[] && attempted == {} && frontier == [] && queried == [] && before == {}
      modifies this`catalog, this`attempted, this`frontier, this`queried, this`sources
      ensures Valid() && Recorded(l, states, marks, queried, attempted, catalog) && Carry(states, sources)
      ensures |states| == 1 && stored == network.stores(0)
      ensures Advanced(network.reply, map[], {}, [], catalog, attempted, queried)
      ensures Picked(l, observed, pick) && sources == pick.sources && Started(l, resolver, network, setup, {l.root} + pick.names, seen, met, Now())
    {
      var seeds, runs;
      seeds, runs, pick := FirstSeeds(l, observed);
      seen, met := Start(seeds, runs, setup);
      states, marks := AddCheckpoint([], [], 0);
      stored := network.stores(0);
    }

    /** The rounds of a run, with a checkpoint after each. */
    method Rounds(setup: Setup, written: seq<State>, ghost cuts: seq<nat>, first: nat)
      returns (states: seq<State>, ghost marks: seq<nat>, rounds: nat, ghost course: Course)
      requires Valid() && Recorded(l, written, cuts, queried, attempted, catalog) && Carry(written, sources)
      modifies this`catalog, this`attempted, this`frontier, this`queried
      ensures Valid() && Recorded(l, states, marks, queried, attempted, catalog) && Carry(states, sources)
      ensures written <= states && first <= rounds && |states| - |written| == rounds - first
      ensures Advanced(network.reply, old(catalog), old(attempted), old(queried), catalog, attempted, queried)
      ensures course.moments != [] && course.moments[0] == old(Now())
      ensures Ran(l, resolver, network, setup, course, first, rounds, Now())
    {
      states, marks, rounds := written, cuts, first;
      course := Course([Now()], []);
      AdvancedStill(network.reply, catalog, attempted, queried);
      var storing := true;
      while rounds < RoundLimit(setup) && frontier != [] && Budget() > 0 && storing
        invariant Valid() && Recorded(l, states, marks, queried, attempted, catalog) && Carry(states, sources)
        invariant written <= states && first <= rounds && |states| - |written| == rounds - first
        invariant Advanced(network.reply, old(catalog), old(attempted), old(queried), catalog, attempted, queried)
        invariant course.moments != [] && course.moments[0] == old(Now())
        invariant Running(StepOf(l, resolver, network, setup), network.stores, course, first, rounds, storing, Now())
        decreases RoundLimit(setup) - rounds
      {
        ghost var c, a, q := catalog, attempted, queried;
        states, marks, course := NextRound(setup, states, marks, rounds, course, first);
        AdvancedFurther(network.reply, old(catalog), old(attempted), old(queried), c, a, q, catalog, attempted, queried);
        rounds := rounds + 1;
        storing := network.stores(rounds);
      }
    }

    /** One more round on the course of a run. */
    method NextRound(setup: Setup, written: seq<State>, ghost cuts: seq<nat>, rounds: nat, ghost course: Course, ghost first: nat)
      returns (states: seq<State>, ghost marks: seq<nat>, ghost longer: Course)
      requires Valid() && Recorded(l, written, cuts, queried, attempted, catalog) && Carry(written, sources) && Budget() > 0
      requires Running(StepOf(l, resolver, network, setup), network.stores, course, first, rounds, true, Now())
      modifies this`catalog, this`attempted, this`frontier, this`queried
      ensures Valid() && Recorded(l, states, marks, queried, attempted, catalog) && Carry(states, sources)
      ensures Advanced(network.reply, old(catalog), old(attempted), old(queried), catalog, attempted, queried)
      ensures |states| == |written| + 1 && written <= states
      ensures longer.moments != [] && (course.moments != [] ==> longer.moments[0] == course.moments[0])
      ensures Running(StepOf(l, resolver, network, setup), network.stores, longer, first, rounds + 1, network.stores(rounds + 1), Now())
    {
      ghost var log;
      states, marks, log := RoundAndReport(setup, written, cuts, rounds + 1);
      RanFurther(StepOf(l, resolver, network, setup), network.stores, course, first, rounds, old(Now()), log, Now());
      longer := Course(course.moments + [Now()], course.logs + [log]);
    }

    method RoundAndReport(setup: Setup, written: seq<State>, ghost cuts: seq<nat>, round: nat)
      returns (states: seq<State>, ghost marks: seq<nat>, ghost log: RoundLog)
      requires Valid() && Recorded(l, written, cuts, queried, attempted, catalog) && Carry(written, sources) && Budget() > 0
      modifies this`catalog, this`attempted, this`frontier, this`queried
      ensures Valid() && Recorded(l, states, marks, queried, attempted, catalog) && Carry(states, sources)
      ensures Advanced(network.reply, old(catalog), old(attempted), old(queried), catalog, attempted, queried)
      ensures |states| == |written| + 1 && written <= states && states[|written|].round == round
      ensures StepOf(l, resolver, network, setup)(old(Now()), log, Now())
    {
      log := Round(setup);
      RecordedLater(l, network.reply, written, cuts, old(queried), old(attempted), old(catalog), queried, attempted, catalog);
      states, marks := AddCheckpoint(written, cuts, round);
    }

    method AddCheckpoint(written: seq<State>, ghost cuts: seq<nat>, round: nat) returns (states: seq<State>, ghost marks: seq<nat>)
      requires Valid() && (round >= 1 ==> SameMarks(frontier, catalog))
      requires Recorded(l, written, cuts, queried, attempted, catalog) && Carry(written, sources)
      ensures Recorded(l, states, marks, queried, attempted, catalog) && Carry(states, sources)
      ensures |states| == |written| + 1 && written <= states && states[|written|].round == round
    {
      var state := Checkpoint(round);
      RecordedMore(l, written, cuts, queried, attempted, catalog, state);
      states, marks := written + [state], cuts + [|queried|];
    }

    /** A checkpoint at the end of a round. */
    method Checkpoint(round: nat) returns (state: State)
      requires Valid() && (round >= 1 ==> SameMarks(frontier, catalog))
      ensures Genuine(l, state) && state.round == round && state.sources == sources
      ensures Parts(state, queried, |queried|) && Elements(state.attempted) <= attempted && LoadedCatalog(l, state) == catalog
    {
      state := ReportProgress(round);
      assert WrittenFrom(l, state, catalog, attempted, frontier, before);
      CatalogReturns(state, catalog, attempted, frontier, round, l.maxCandidates);
      AllBefore(state, queried, attempted, before);
    }

    /** The names that are resolved: none without a resolver. */
    function Asked(seeds: seq<Seed>): set<string> {
      if resolver then set n | n in NamesOf(seeds) && Eligible(l, n) else {}
    }
  }

  lemma Filed(l: Limits, catalog: Table, attempted: set<string>, seeds: seq<Seed>, names: set<string>,
              reply: string -> Reply, out: seq<Candidate>)
    requires CatalogOk(l, catalog, attempted) && Resolution(seeds, names, reply, out)
    requires names <= attempted && names !! catalog.Keys && |catalog| + |names| <= l.maxCandidates
    ensures var now := Merged(catalog, out, l.maxCandidates);
            && CatalogOk(l, now, attempted) && Grown(catalog, now) && Holds(now, out)
            && Added(catalog, out, l.maxCandidates) == out
            && (forall n | n in names && KeptName(seeds, n) :: n in now)
            && (forall n | n in now :: n in catalog || n in names)
            && (forall n | n in catalog :: n in now && now[n] == catalog[n])
            && Answers(seeds, names, reply, now) && Entrants(catalog, now, out)
  {
    KeptYields(seeds, names, reply);
    MergeNew(catalog, out, l.maxCandidates);
    var now := Merged(catalog, out, l.maxCandidates);
    forall n | n in now ensures now[n].name == n && n in attempted && (n in catalog || n in names) {
      if n !in catalog {
        var i :| 0 <= i < |out| && out[i].name == n;
        assert out[i] in out;
      }
    }
    OutAnswers(seeds, names, reply, out, now);
    forall n | n in now && n !in catalog ensures n in FrontierNames(out) {
      var i :| 0 <= i < |out| && out[i].name == n;
      assert FrontierNames(out)[i] == n;
    }
  }

  lemma KeptYields(seeds: seq<Seed>, names: set<string>, reply: string -> Reply)
    ensures forall n | n in names && KeptName(seeds, n) :: Yield(seeds, n, reply) != []
  {
  }

  lemma OutAnswers(seeds: seq<Seed>, names: set<string>, reply: string -> Reply, out: seq<Candidate>, now: Table)
    requires Resolution(seeds, names, reply, out) && Holds(now, out)
    requires forall n | n in names && n in now :: exists i :: 0 <= i < |out| && out[i].name == n
    ensures Answers(seeds, names, reply, now)
  {
    forall n | n in names ensures Yield(seeds, n, reply) == if n in now then [now[n]] else [] {
      if n in now {
        var i :| 0 <= i < |out| && out[i].name == n;
        assert out[i] in out;
      }
    }
  }

  lemma QueriesGrow(queried: seq<string>, more: seq<string>, names: set<string>, attempted: set<string>, before: set<string>)
    requires QueriesOk(queried, attempted, before) && Lists(more, names)
    requires forall n | n in names :: n in attempted && n !in queried && n !in before
    ensures QueriesOk(queried + more, attempted, before)
  {
    forall n | n in more ensures n in names {
      assert n in Elements(more);
    }
    assert forall i | 0 <= i < |more| :: more[i] in more;
  }

  lemma InCatalogLater(frontier: seq<Candidate>, x: Table, y: Table)
    requires InCatalog(frontier, x) && Grown(x, y)
    ensures InCatalog(frontier, y)
  {
    forall c | c in frontier ensures c.name in y && Later(c, y[c.name]) {
      LaterTransitive(c, x[c.name], y[c.name]);
    }
  }

  lemma AbsorbKeeps(l: Limits, catalog: Table, attempted: set<string>, frontier: seq<Candidate>, queried: seq<string>,
                    before: set<string>, seeds: seq<Seed>, names: set<string>, reply: string -> Reply, asked: seq<string>,
                    out: seq<Candidate>)
    requires Sound(l, catalog, attempted, frontier, queried, before)
    requires forall n | n in names :: n in attempted && n !in catalog && n !in queried && n !in before
    requires |catalog| + |names| <= l.maxCandidates && Resolution(seeds, names, reply, out)
    requires queried <= asked && Lists(asked[|queried|..], names)
    ensures var now := Merged(catalog, out, l.maxCandidates);
            && Sound(l, now, attempted, frontier, asked, before)
            && Absorbed(seeds, names, catalog, queried, now, asked, out)
            && Added(catalog, out, l.maxCandidates) == out
            && Answers(seeds, names, reply, now)
  {
    Filed(l, catalog, attempted, seeds, names, reply, out);
    QueriesGrow(queried, asked[|queried|..], names, attempted, before);
    assert asked == queried + asked[|queried|..];
    InCatalogLater(frontier, catalog, Merged(catalog, out, l.maxCandidates));
  }

  lemma Card(a: set<string>, b: set<string>)
    requires a !! b
    ensures |a + b| == |a| + |b|
  {
  }

  lemma Smaller(a: set<string>, b: set<string>)
    requires a <= b
    ensures |a| <= |b|
  {
    Card(a, b - a);
    assert a + (b - a) == b;
  }

  lemma TakeKeeps(l: Limits, catalog: Table, attempted: set<string>, frontier: seq<Candidate>, queried: seq<string>,
                  before: set<string>, seeds: seq<Seed>, limit: int, taken: seq<Seed>)
    requires Sound(l, catalog, attempted, frontier, queried, before)
    requires TakenUp(l, seeds, attempted, limit, taken) && limit <= l.maxTested - |attempted|
    ensures Sound(l, catalog, attempted + NamesOf(taken), frontier, queried, before)
    ensures |attempted + NamesOf(taken)| == |attempted| + |taken|
  {
    Card(attempted, NamesOf(taken));
  }

  /** Names taken up just now are in no list of a sound state. */
  lemma Fresh(l: Limits, catalog: Table, attempted: set<string>, frontier: seq<Candidate>, queried: seq<string>,
              before: set<string>, taken: seq<Seed>, names: set<string>)
    requires Sound(l, catalog, attempted, frontier, queried, before)
    requires forall s | s in taken :: s.name !in attempted
    requires names <= NamesOf(taken)
    ensures forall n | n in names :: n in attempted + NamesOf(taken) && n !in catalog && n !in queried && n !in before
    ensures |names| <= |NamesOf(taken)|
  {
    Smaller(names, NamesOf(taken));
  }

  lemma OriginsKeep(l: Limits, reply: string -> Reply, catalog: Table, attempted: set<string>, frontier: seq<Candidate>, queried: seq<string>,
                    before: set<string>, seeds: seq<Seed>)
    requires Sound(l, catalog, attempted, frontier, queried, before)
    ensures Sound(l, WithOrigins(catalog, seeds), attempted, frontier, queried, before)
    ensures |WithOrigins(catalog, seeds)| == |catalog|
    ensures Advanced(reply, catalog, attempted, queried, WithOrigins(catalog, seeds), attempted, queried)
  {
    OriginsGrow(catalog, seeds);
    assert |WithOrigins(catalog, seeds).Keys| == |catalog.Keys|;
    InCatalogLater(frontier, catalog, WithOrigins(catalog, seeds));
  }

  lemma AddedKeeps(l: Limits, reply: string -> Reply, catalog: Table, attempted: set<string>, frontier: seq<Candidate>, queried: seq<string>,
                   before: set<string>, taken: seq<Seed>, names: set<string>, now: Table, tried: set<string>, asked: seq<string>,
                   added: seq<Candidate>)
    requires Sound(l, now, tried, frontier, asked, before) && attempted <= tried
    requires Absorbed(taken, names, catalog, queried, now, asked, added)
    requires forall n | n in names :: n !in attempted && n in tried
    requires Answers(taken, names, reply, now)
    ensures Sound(l, now, tried, frontier + added, asked, before) && Sound(l, now, tried, added, asked, before)
    ensures Advanced(reply, catalog, attempted, queried, now, tried, asked)
  {
    forall n ensures n in asked[|queried|..] <==> n in names {
      assert n in Elements(asked[|queried|..]) <==> n in names;
    }
    AnswersAreHeard(taken, asked[|queried|..], reply, now);
  }

  lemma MarksKeep(frontier: seq<Candidate>, catalog: Table, seeds: seq<Seed>, now: Table, added: seq<Candidate>)
    requires Entered(WithOrigins(catalog, seeds), now, added)
    ensures SameMarks(frontier, catalog) && NoTransfer(seeds) ==> SameMarks(frontier + added, now)
  {
    if SameMarks(frontier, catalog) && NoTransfer(seeds) {
      TransferLiftsMarks(catalog, frontier, seeds);
      assert SameMarks(frontier, WithOrigins(catalog, seeds));
      forall c | c in frontier + added ensures c.name in now && c.wildcard == now[c.name].wildcard {
      }
    }
  }

  /** Passive runs have no rounds. */
  function RoundLimit(setup: Setup): nat {
    if setup.mode.Passive? then 0 else setup.rounds
  }

  /** The checkpoint lists every name resolved up to `mark` and none of those resolved later. */
  ghost predicate Parts(state: State, queried: seq<string>, mark: nat) {
    && mark <= |queried|
    && (forall n | n in queried[..mark] :: n in state.attempted)
    && (forall n | n in queried[mark..] :: n !in state.attempted)
  }

  /** Each checkpoint separates the names resolved before it from those resolved later. */
  ghost predicate Separated(l: Limits, states: seq<State>, marks: seq<nat>, queried: seq<string>, attempted: set<string>) {
    && |marks| == |states|
    && forall k | 0 <= k < |states| ::
         Genuine(l, states[k]) && Parts(states[k], queried, marks[k]) && Elements(states[k].attempted) <= attempted
  }

  /** The catalogs the checkpoints load to. */
  function Loads(l: Limits, states: seq<State>): (tables: seq<Table>)
    ensures |tables| == |states| && forall k | 0 <= k < |tables| :: tables[k] == LoadedCatalog(l, states[k])
  {
    seq(|states|, k requires 0 <= k < |states| => LoadedCatalog(l, states[k]))
  }

  /** Each table grows into the next ones and into the last. */
  ghost predicate Growing(tables: seq<Table>, last: Table) {
    && (forall k | 0 <= k < |tables| :: Grown(tables[k], last))
    && (forall j, k | 0 <= j < k < |tables| :: Grown(tables[j], tables[k]))
  }

  /** The checkpoints written so far. */
  ghost predicate Recorded(l: Limits, states: seq<State>, marks: seq<nat>, queried: seq<string>, attempted: set<string>,
                           catalog: Table) {
    Separated(l, states, marks, queried, attempted) && Growing(Loads(l, states), catalog)
  }

  /** Every checkpoint carries the accounts of the sources along. */
  predicate Carry(states: seq<State>, sources: seq<SourceRun>) {
    forall k | 0 <= k < |states| :: states[k].sources == sources
  }

  lemma GrowingLater(tables: seq<Table>, last: Table, now: Table)
    requires Growing(tables, last) && Grown(last, now)
    ensures Growing(tables, now)
  {
    forall k | 0 <= k < |tables| ensures Grown(tables[k], now) {
      GrownTransitive(tables[k], last, now);
    }
  }

  lemma GrownSame(catalog: Table)
    ensures Grown(catalog, catalog)
  {
  }

  lemma GrowingMore(tables: seq<Table>, last: Table)
    requires Growing(tables, last)
    ensures Growing(tables + [last], last)
  {
    GrownSame(last);
  }

  lemma SeparatedLater(l: Limits, states: seq<State>, marks: seq<nat>, queried: seq<string>, attempted: set<string>,
                       asked: seq<string>, tried: set<string>)
    requires Separated(l, states, marks, queried, attempted) && attempted <= tried && queried <= asked
    requires forall n | n in asked[|queried|..] :: n !in attempted
    ensures Separated(l, states, marks, asked, tried)
  {
    forall k | 0 <= k < |states| ensures Parts(states[k], asked, marks[k]) {
      PartsLater(states[k], queried, marks[k], attempted, asked);
    }
  }

  lemma RecordedLater(l: Limits, reply: string -> Reply, states: seq<State>, marks: seq<nat>, queried: seq<string>, attempted: set<string>,
                      catalog: Table, asked: seq<string>, tried: set<string>, now: Table)
    requires Recorded(l, states, marks, queried, attempted, catalog)
    requires Advanced(reply, catalog, attempted, queried, now, tried, asked)
    ensures Recorded(l, states, marks, asked, tried, now)
  {
    SeparatedLater(l, states, marks, queried, attempted, asked, tried);
    GrowingLater(Loads(l, states), catalog, now);
  }

  lemma RecordedMore(l: Limits, states: seq<State>, marks: seq<nat>, queried: seq<string>, attempted: set<string>,
                     catalog: Table, state: State)
    requires Recorded(l, states, marks, queried, attempted, catalog)
    requires Genuine(l, state) && LoadedCatalog(l, state) == catalog
    requires Parts(state, queried, |queried|) && Elements(state.attempted) <= attempted
    ensures Recorded(l, states + [state], marks + [|queried|], queried, attempted, catalog)
  {
    GrowingMore(Loads(l, states), catalog);
    LoadsMore(l, states, state);
  }

  lemma LoadsMore(l: Limits, states: seq<State>, state: State)
    ensures Loads(l, states + [state]) == Loads(l, states) + [LoadedCatalog(l, state)]
  {
  }

  lemma PartsLater(state: State, queried: seq<string>, mark: nat, attempted: set<string>, asked: seq<string>)
    requires Parts(state, queried, mark) && Elements(state.attempted) <= attempted && queried <= asked
    requires forall n | n in asked[|queried|..] :: n !in attempted
    ensures Parts(state, asked, mark)
  {
    assert asked[..mark] == queried[..mark];
    forall n | n in asked[mark..] ensures n !in state.attempted {
      assert asked[mark..] == queried[mark..] + asked[|queried|..];
      assert n in state.attempted ==> n in Elements(state.attempted);
    }
  }

  lemma AllBefore(state: State, queried: seq<string>, attempted: set<string>, before: set<string>)
    requires QueriesOk(queried, attempted, before) && Elements(state.attempted) == attempted
    ensures Parts(state, queried, |queried|)
  {
    assert queried[..|queried|] == queried;
    forall n | n in queried ensures n in state.attempted {
      assert n in Elements(state.attempted);
    }
  }

  function LoadedCatalog(l: Limits, state: State): Table {
    Merged(map[], state.candidates, l.maxCandidates)
  }

  function LoadedAttempted(l: Limits, state: State): set<string> {
    Elements(state.attempted) - {""} + LoadedCatalog(l, state).Keys
  }

  method TestedNames(names: seq<string>) returns (tested: set<string>)
    ensures tested == Elements(names) - {""}
  {
    tested := {};
    var i := 0;
    while i < |names|
      invariant i <= |names|
      invariant tested == Elements(names[..i]) - {""}
    {
      assert names[..i + 1] == names[..i] + [names[i]];
      if names[i] != "" {
        tested := tested + {names[i]};
      }
      i := i + 1;
    }
    assert names[..i] == names;
  }

  function CandidatesAt(catalog: Table, keys: seq<string>): (r: seq<Candidate>)
    requires forall n | n in keys :: n in catalog
    ensures |r| == |keys| && forall i | 0 <= i < |keys| :: r[i] == catalog[keys[i]]
  {
    seq(|keys|, i requires 0 <= i < |keys| => catalog[keys[i]])
  }

  method RestoreFrontier(catalog: Table, names: seq<string>) returns (frontier: seq<Candidate>)
    ensures frontier == Restored(catalog, names)
  {
    frontier := [];
    var i := 0;
    while i < |names|
      invariant i <= |names|
      invariant frontier == Restored(catalog, names[..i])
    {
      assert names[..i + 1][..i] == names[..i];
      if names[i] in catalog {
        frontier := frontier + [catalog[names[i]]];
      }
      i := i + 1;
    }
    assert names[..i] == names;
  }

  /** Loading a checkpoint under any limits rebuilds the attempted names it was written with (a blank one only
      with its blank candidate), and the catalog exactly when it fits. Then the frontier holds the same names, and it reads the same exactly when its marks
      are current, as they are at the end of every round. */
  lemma CheckpointRoundTrip(l: Limits, now: Limits, state: State, catalog: Table, attempted: set<string>,
                            frontier: seq<Candidate>, before: set<string>)
    requires WrittenFrom(l, state, catalog, attempted, frontier, before)
    ensures LoadedAttempted(now, state) - {""} == attempted - {""}
    ensures |catalog| <= now.maxCandidates ==> LoadedAttempted(now, state) == attempted
    ensures LoadedCatalog(now, state) == catalog <==> |catalog| <= now.maxCandidates
    ensures LoadedCatalog(l, state) == catalog
    ensures var back := Restored(catalog, state.frontier);
            && multiset(FrontierNames(back)) == multiset(FrontierNames(frontier))
            && Current(back, catalog)
            && (multiset(Views(back)) == multiset(Views(frontier)) <==> SameMarks(frontier, catalog))
    ensures state.round >= 1 ==> multiset(Views(Restored(catalog, state.frontier))) == multiset(Views(frontier))
  {
    CatalogReturns(state, catalog, attempted, frontier, state.round, now.maxCandidates);
    CatalogReturns(state, catalog, attempted, frontier, state.round, l.maxCandidates);
    FrontierReturns(state, catalog, attempted, frontier, state.round);
    ResumeReadsTheSame(catalog, frontier);
    AttemptedReturns(l, now, state, catalog, attempted);
  }

  lemma {:induction false} MergedNames(catalog: Table, incoming: seq<Candidate>, limit: nat)
    requires forall n | n in catalog :: catalog[n].name == n
    ensures var now := Merged(catalog, incoming, limit);
            forall n | n in now :: now[n].name == n && (n in catalog || n in FrontierNames(incoming))
    decreases |incoming|
  {
    if incoming != [] {
      var c := incoming[0];
      assert FrontierNames(incoming)[0] == c.name && FrontierNames(incoming)[1..] == FrontierNames(incoming[1..]);
      assert FrontierNames(incoming) == [c.name] + FrontierNames(incoming[1..]);
      if c.name in catalog {
        MergedNames(catalog[c.name := Merge(catalog[c.name], c)], incoming[1..], limit);
      } else if |catalog| < limit {
        MergedNames(catalog[c.name := c], incoming[1..], limit);
      }
    }
  }

  lemma LoadedWithin(now: Limits, state: State, catalog: Table)
    requires Holds(catalog, state.candidates)
    ensures LoadedCatalog(now, state).Keys <= catalog.Keys
  {
    var names := FrontierNames(state.candidates);
    MergedNames(map[], state.candidates, now.maxCandidates);
    forall n | n in LoadedCatalog(now, state).Keys ensures n in catalog.Keys {
      var i :| 0 <= i < |names| && names[i] == n;
      assert state.candidates[i] in state.candidates;
    }
  }

  lemma AttemptedReturns(l: Limits, now: Limits, state: State, catalog: Table, attempted: set<string>)
    requires CatalogOk(l, catalog, attempted) && Holds(catalog, state.candidates) && Elements(state.attempted) == attempted
    ensures LoadedAttempted(now, state) - {""} == attempted - {""}
    ensures LoadedCatalog(now, state) == catalog ==> LoadedAttempted(now, state) == attempted
  {
    LoadedWithin(now, state, catalog);
    SameButBlank(attempted, LoadedCatalog(now, state).Keys, catalog.Keys);
  }

  lemma SameButBlank(attempted: set<string>, loaded: set<string>, known: set<string>)
    requires loaded <= known <= attempted && ("" in attempted ==> "" in known)
    ensures (attempted - {""} + loaded) - {""} == attempted - {""}
    ensures loaded == known ==> attempted - {""} + loaded == attempted
  {
  }

  lemma LoadedSound(l: Limits, state: State)
    ensures var catalog, attempted := LoadedCatalog(l, state), LoadedAttempted(l, state);
            var frontier := Restored(catalog, state.frontier);
            LoopOk(l, catalog, attempted, frontier, attempted) && SameMarks(frontier, catalog)
  {
    MergedNames(map[], state.candidates, l.maxCandidates);
    MergeGrows(map[], state.candidates, l.maxCandidates);
    RestoredCurrent(LoadedCatalog(l, state), state.frontier);
  }

  lemma {:induction false} RestoredCurrent(catalog: Table, names: seq<string>)
    requires forall n | n in catalog :: catalog[n].name == n
    ensures Current(Restored(catalog, names), catalog)
    decreases |names|
  {
    if names != [] {
      RestoredCurrent(catalog, names[..|names| - 1]);
    }
  }

  /** What a resumed checkpoint lists is not resolved by the run it resumes. */
  lemma ListedAreBefore(l: Limits, state: State, catalog: Table, attempted: set<string>, frontier: seq<Candidate>,
                        queried: seq<string>, before: set<string>)
    requires Sound(l, catalog, attempted, frontier, queried, before) && before == LoadedAttempted(l, state)
    ensures forall n | n in state.attempted :: n !in queried
  {
    forall n | n in state.attempted ensures n !in queried {
      assert n == "" || n in before by {
        assert n in Elements(state.attempted);
      }
    }
  }

  lemma LoadedQueries(attempted: set<string>)
    ensures QueriesOk([], attempted, attempted)
  {
  }

  method SortedList(names: set<string>) returns (r: seq<string>)
    ensures Sorted(r) && NoDuplicates(r) && Elements(r) == names
  {
    r := [];
    var todo, done: set<string> := names, {};
    while todo != {}
      invariant todo !! done && todo + done == names
      invariant Lists(r, done)
      decreases todo
    {
      var n :| n in todo;
      r := r + [n];
      ghost var longer := Extend(r[..|r| - 1], done, n);
      assert r[..|r| - 1] + [n] == r;
      todo, done := todo - {n}, done + {n};
    }
    SortKeepsDistinct(r);
    r := Sort(r);
  }

  lemma CatalogListed(l: Limits, catalog: Table, attempted: set<string>, keys: seq<string>, candidates: seq<Candidate>)
    requires CatalogOk(l, catalog, attempted) && NoDuplicates(keys) && Elements(keys) == catalog.Keys && Sorted(keys)
    requires |candidates| == |keys| && forall i | 0 <= i < |keys| :: keys[i] in catalog && candidates[i] == catalog[keys[i]]
    ensures DistinctNames(candidates) && Holds(catalog, candidates) && Covers(candidates, catalog)
    ensures Sorted(FrontierNames(candidates))
  {
    assert FrontierNames(candidates) == keys;
    forall n | n in catalog ensures exists c :: c in candidates && c.name == n {
      assert n in Elements(keys);
      var i :| 0 <= i < |keys| && keys[i] == n;
      assert candidates[i] in candidates;
    }
  }

  datatype Mode = Passive | Standard | Exhaustive

  /** `client`, `zones` and `reverse`: whether pages, zone transfers and reverse lookups are available. */
  /** What the network answers during a run: the resolver on each name, the records of the root, the first zone
      transfer that succeeds, what the pages of a frontier mention within a budget and what reverse lookups of its
      addresses name (names with their parents); and whether the checkpoint of a round can be stored. */
  datatype Network = Network(
    reply: string -> Reply,
    mx: seq<string>, ns: seq<string>, srv: seq<string>,
    transfer: Option<(string, seq<string>)>,
    pages: (seq<Candidate>, int) -> (seq<string>, seq<string>),
    reverse: seq<Candidate> -> (seq<string>, seq<string>),
    stores: nat -> bool)

  datatype Setup = Setup(mode: Mode, client: bool, zones: bool, reverse: bool, rounds: nat, generator: Generator)

  /** What one source reports: names, and whether it failed on the way. */
  datatype Observation = Observation(source: string, names: seq<string>, failed: bool)

  /** DNS seeds for names mentioned in the records of `parent`. */
  function Mentions(names: seq<string>, technique: string, parent: string, root: string): (seeds: seq<Seed>)
    ensures |seeds| == |names|
    ensures forall i | 0 <= i < |names| ::
              seeds[i] == Seed(names[i], Origin("dns", technique, parent, DepthOf(names[i], root)), true)
  {
    seq(|names|, i requires 0 <= i < |names| => Seed(names[i], Origin("dns", technique, parent, DepthOf(names[i], root)), true))
  }

  /** Seeds for names found while looking at other names. */
  function References(names: seq<string>, parents: seq<string>, source: string, technique: string, root: string): (seeds: seq<Seed>)
    ensures forall s | s in seeds :: s.origin.technique == technique && s.keep
  {
    seq(Min(|names|, |parents|), i requires 0 <= i < Min(|names|, |parents|) =>
        Seed(names[i], Origin(source, technique, parents[i], DepthOf(names[i], root)), true))
  }

  /** The names the root's own records mention. */
  function RootSeeds(network: Network, root: string): (seeds: seq<Seed>)
    ensures AllKept(seeds)
  {
    Mentions(network.mx, "mx", root, root) + Mentions(network.ns, "ns", root, root) + Mentions(network.srv, "srv", root, root)
  }

  function TransferSeeds(network: Network, root: string): (seeds: seq<Seed>)
    ensures AllKept(seeds)
  {
    if network.transfer.None? then []
    else Mentions(network.transfer.value.1, ZONE_TRANSFER, network.transfer.value.0, root)
  }

  function PageSeeds(network: Network, frontier: seq<Candidate>, budget: int, root: string): (seeds: seq<Seed>)
    ensures NoTransfer(seeds)
  {
    References(network.pages(frontier, budget).0, network.pages(frontier, budget).1, "html", "referência", root)
  }

  function ReverseSeeds(network: Network, frontier: seq<Candidate>, root: string): (seeds: seq<Seed>)
    ensures NoTransfer(seeds) && AllKept(seeds)
  {
    References(network.reverse(frontier).0, network.reverse(frontier).1, "dns", "ptr", root)
  }

  /** The in-scope targets of the frontier's aliases. */
  method CnameSeeds(root: string, frontier: seq<Candidate>) returns (seeds: seq<Seed>)
    ensures AliasSeeds(root, frontier, seeds)
  {
    seeds := [];
    var i := 0;
    while i < |frontier|
      invariant i <= |frontier| && AliasSeeds(root, frontier[..i], seeds)
    {
      var more := TargetSeeds(root, frontier[i]);
      AliasSeedsMore(root, frontier, i, seeds, more);
      seeds := seeds + more;
      i := i + 1;
    }
    assert frontier[..i] == frontier;
  }

  lemma AliasSeedsMore(root: string, frontier: seq<Candidate>, i: nat, seeds: seq<Seed>, more: seq<Seed>)
    requires i < |frontier| && AliasSeeds(root, frontier[..i], seeds) && AliasSeeds(root, [frontier[i]], more)
    ensures AliasSeeds(root, frontier[..i + 1], seeds + more)
  {
    NamesOfConcat(seeds, more);
    assert frontier[..i + 1] == frontier[..i] + [frontier[i]];
    forall s | s in seeds + more ensures TargetOf(frontier[..i + 1], s.name) {
      var c :| (c in frontier[..i] || c in [frontier[i]]) && s.name in c.dns.cname;
      assert c in frontier[..i + 1];
    }
    forall c, t | c in frontier[..i + 1] && t in c.dns.cname && Under(t, root) ensures t in NamesOf(seeds + more) {
      assert c in frontier[..i] || c in [frontier[i]];
    }
  }

  method TargetSeeds(root: string, c: Candidate) returns (seeds: seq<Seed>)
    ensures AliasSeeds(root, [c], seeds)
  {
    seeds := [];
    var todo := c.dns.cname;
    while todo != {}
      invariant todo <= c.dns.cname && NoTransfer(seeds) && AllKept(seeds)
      invariant forall s | s in seeds :: s.name in c.dns.cname
      invariant forall t | t in c.dns.cname && t !in todo && Under(t, root) :: t in NamesOf(seeds)
      decreases todo
    {
      var t :| t in todo;
      todo := todo - {t};
      if Under(t, root) {
        var s := Seed(t, Origin("dns", "cname", c.name, Depth(t, root)), true);
        NamesOfConcat(seeds, [s]);
        assert s in [s];
        seeds := seeds + [s];
      }
    }
    assert c in [c];
  }

  /** The names under the root that some source observed. */
  function InScope(root: string, observed: seq<Observation>): set<string> {
    set i, n | 0 <= i < |observed| && n in observed[i].names && Under(n, root) :: n
  }

  /** What each source observed under the root, each name once, in order. */
  ghost predicate ScopedItems(root: string, observed: seq<Observation>, items: seq<seq<string>>) {
    |items| == |observed| && forall j | 0 <= j < |items| :: ScopedNames(root, observed[j].names, items[j])
  }

  /** The accounts are those of the sources: how many names each saw, and truncated exactly when one of its
      names was not selected. */
  ghost predicate Accounts(observed: seq<Observation>, items: seq<seq<string>>, selected: set<string>, runs: seq<SourceRun>) {
    && |runs| == |observed| == |items|
    && forall j | 0 <= j < |runs| ::
         && runs[j].name == observed[j].source && runs[j].count == |items[j]| && runs[j].failed == observed[j].failed
         && (runs[j].truncated <==> exists n :: n in items[j] && n !in selected)
  }

  /** What the sources observed under the root, each name once per source, cut down to the limit: every
      selected name is credited to one source, no source with a name left over contributed more than one name
      less than another, and a source is marked truncated exactly when one of its names was left out. */
  method PassiveSeeds(root: string, observed: seq<Observation>, limit: int)
    returns (seeds: seq<Seed>, runs: seq<SourceRun>, ghost items: seq<seq<string>>, ghost share: seq<seq<string>>)
    requires root != ""
    ensures NamesOf(seeds) <= InScope(root, observed)
    ensures var most := if limit < 0 then 0 else limit;
            |NamesOf(seeds)| == if most <= |InScope(root, observed)| then most else |InScope(root, observed)|
    ensures ScopedItems(root, observed, items) && Accounts(observed, items, NamesOf(seeds), runs)
    ensures RoundRobin.Credits(items, NamesOf(seeds), share) && RoundRobin.Fair(items, NamesOf(seeds), share)
  {
    var most := if limit < 0 then 0 else limit;
    var collected := Collect(root, observed);
    items := collected;
    SameScope(root, observed, items);
    var selected;
    selected, share := RoundRobin.Select(collected, most);
    var kept, truncated := RoundRobin.Distribute(collected, selected);
    seeds := KeptSeeds(root, observed, collected, kept, selected);
    runs := RunsOf(observed, collected, truncated);
  }

  method Collect(root: string, observed: seq<Observation>) returns (items: seq<seq<string>>)
    ensures ScopedItems(root, observed, items)
  {
    items := [];
    var i := 0;
    while i < |observed|
      invariant i <= |observed| && |items| == i
      invariant forall j | 0 <= j < i :: ScopedNames(root, observed[j].names, items[j])
    {
      var mine := Scoped(root, observed[i].names);
      items := items + [mine];
      i := i + 1;
    }
  }

  method KeptSeeds(root: string, observed: seq<Observation>, items: seq<seq<string>>, kept: seq<seq<string>>,
                   selected: set<string>)
    returns (seeds: seq<Seed>)
    requires |items| == |kept| == |observed| && selected <= RoundRobin.AllNames(items)
    requires forall i | 0 <= i < |items| :: kept[i] == RoundRobin.Kept(items[i], selected)
    ensures NamesOf(seeds) == selected
  {
    seeds := [];
    var i := 0;
    while i < |observed|
      invariant i <= |observed|
      invariant NamesOf(seeds) == selected * RoundRobin.AllNames(items[..i])
    {
      var more := SeedsOf(root, observed[i].source, kept[i]);
      RoundRobin.KeptNames(items[i], selected);
      NamesOfConcat(seeds, more);
      OneMore(items, i);
      seeds := seeds + more;
      i := i + 1;
    }
    assert items[..i] == items;
    assert selected * RoundRobin.AllNames(items) == selected;
  }

  function RunsOf(observed: seq<Observation>, items: seq<seq<string>>, truncated: seq<bool>): (runs: seq<SourceRun>)
    requires |observed| == |items| == |truncated|
    ensures |runs| == |observed|
    ensures forall j | 0 <= j < |runs| ::
              runs[j] == SourceRun(observed[j].source, |items[j]|, truncated[j], observed[j].failed)
  {
    seq(|observed|, j requires 0 <= j < |observed| =>
        SourceRun(observed[j].source, |items[j]|, truncated[j], observed[j].failed))
  }

  predicate ScopedNames(root: string, names: seq<string>, mine: seq<string>) {
    NoDuplicates(mine) && Elements(mine) == set n | n in names && Under(n, root)
  }

  method Scoped(root: string, names: seq<string>) returns (mine: seq<string>)
    ensures ScopedNames(root, names, mine)
  {
    mine := [];
    var i := 0;
    while i < |names|
      invariant i <= |names|
      invariant ScopedNames(root, names[..i], mine)
    {
      assert names[..i + 1] == names[..i] + [names[i]];
      if Under(names[i], root) && names[i] !in mine {
        assert Elements(mine + [names[i]]) == Elements(mine) + {names[i]};
        mine := mine + [names[i]];
      } else if Under(names[i], root) {
        assert names[i] in Elements(mine);
      }
      i := i + 1;
    }
    assert names[..i] == names;
  }

  function SeedsOf(root: string, source: string, names: seq<string>): (seeds: seq<Seed>)
    ensures NamesOf(seeds) == Elements(names)
  {
    var seeds := seq(|names|, i requires 0 <= i < |names| =>
        Seed(names[i], Origin(source, "passive", "", DepthOf(names[i], root)), true));
    assert forall n | n in Elements(names) :: n in NamesOf(seeds) by {
      forall n | n in Elements(names) ensures n in NamesOf(seeds) {
        var i :| 0 <= i < |names| && names[i] == n;
        assert seeds[i] in seeds;
      }
    }
    seeds
  }

  lemma SameScope(root: string, observed: seq<Observation>, items: seq<seq<string>>)
    requires |items| == |observed| && forall j | 0 <= j < |items| :: ScopedNames(root, observed[j].names, items[j])
    ensures RoundRobin.AllNames(items) == InScope(root, observed)
  {
    forall n ensures n in RoundRobin.AllNames(items) <==> n in InScope(root, observed) {
      if n in RoundRobin.AllNames(items) {
        var j :| 0 <= j < |items| && n in items[j];
        assert n in Elements(items[j]);
      }
      if n in InScope(root, observed) {
        var j :| 0 <= j < |observed| && n in observed[j].names && Under(n, root);
        assert n in Elements(items[j]);
      }
    }
  }

  lemma OneMore(items: seq<seq<string>>, i: nat)
    requires i < |items|
    ensures RoundRobin.AllNames(items[..i + 1]) == RoundRobin.AllNames(items[..i]) + Elements(items[i])
  {
    assert items[..i + 1] == items[..i] + [items[i]];
    forall n | n in RoundRobin.AllNames(items[..i]) + Elements(items[i]) ensures n in RoundRobin.AllNames(items[..i + 1]) {
      if n in Elements(items[i]) {
        assert n in items[..i + 1][i];
      } else {
        var j :| 0 <= j < i && n in items[..i][j];
        assert n in items[..i + 1][j];
      }
    }
  }

  method PassiveShare(root: string, observed: seq<Observation>, limit: nat)
    returns (seeds: seq<Seed>, runs: seq<SourceRun>, ghost items: seq<seq<string>>)
    requires root != ""
    ensures NamesOf(seeds) <= InScope(root, observed) && |NamesOf(seeds)| == Min(limit, |InScope(root, observed)|)
    ensures ScopedItems(root, observed, items) && Accounts(observed, items, NamesOf(seeds), runs)
  {
    var picked, accounts, collected, _ := PassiveSeeds(root, observed, limit);
    seeds, runs, items := picked, accounts, collected;
  }

  /** The root and a fair share of the observations: together within both budgets, and as many as fit. */
  method FirstSeeds(l: Limits, observed: seq<Observation>)
    returns (seeds: seq<Seed>, sources: seq<SourceRun>, ghost pick: Pick)
    requires Workable(l)
    ensures NamesOf(seeds) == {l.root} + pick.names && FitsFirst(l, seeds)
    ensures Picked(l, observed, pick) && pick.sources == sources
  {
    var passive;
    ghost var items;
    passive, sources, items := PassiveShare(l.root, observed, Min(l.maxCandidates - 1, l.maxTested - 1));
    pick := Pick(NamesOf(passive), items, sources);
    var top := Seed(l.root, Origin("escopo", "seed", "", 0), true);
    NamesOfCons(top, passive);
    seeds := [top] + passive;
    assert top in seeds;
    UnionSize({l.root}, NamesOf(passive));
  }

  lemma UnionSize(a: set<string>, b: set<string>)
    ensures |a + b| <= |a| + |b|
  {
    assert a + b == a + (b - a);
    Card(a, b - a);
    Smaller(b - a, b);
  }

  lemma FirstNames(l: Limits, seeds: seq<Seed>, attempted: set<string>, names: set<string>)
    requires Workable(l) && l.root in NamesOf(seeds) && |NamesOf(seeds)| <= Min(l.maxCandidates, l.maxTested)
    requires attempted == {} + (set n | n in NamesOf(seeds) && Eligible(l, n)) && names <= attempted
    ensures Sound(l, map[], attempted, [], [], {})
    ensures |names| <= l.maxCandidates && l.root in attempted
  {
    Smaller(attempted, NamesOf(seeds));
    Smaller(names, attempted);
  }

  lemma FirstFrontier(l: Limits, reply: string -> Reply, catalog: Table, attempted: set<string>, queried: seq<string>,
                      before: set<string>, added: seq<Candidate>, seeds: seq<Seed>, names: set<string>)
    requires Sound(l, catalog, attempted, [], queried, before) && Absorbed(seeds, names, map[], [], catalog, queried, added)
    requires Answers(seeds, names, reply, catalog) && names <= attempted
    ensures Sound(l, catalog, attempted, added, queried, before)
    ensures Advanced(reply, map[], {}, [], catalog, attempted, queried) && Entrants(map[], catalog, added)
  {
    AddedKeeps(l, reply, map[], {}, [], [], before, seeds, names, catalog, attempted, queried, added);
  }

  lemma AdvancedStill(reply: string -> Reply, catalog: Table, attempted: set<string>, queried: seq<string>)
    ensures Advanced(reply, catalog, attempted, queried, catalog, attempted, queried)
  {
  }

  lemma FurtherFrom(reply: string -> Reply, was: Table, catalog: Table, attempted: set<string>, queried: seq<string>, now: Table, tried: set<string>,
                    asked: seq<string>)
    requires Grown(was, catalog) && catalog.Keys == was.Keys
    requires Advanced(reply, catalog, attempted, queried, now, tried, asked)
    ensures Advanced(reply, was, attempted, queried, now, tried, asked)
  {
    GrownTransitive(was, catalog, now);
  }

  predicate NewNames(seeds: seq<Seed>, attempted: set<string>) {
    forall s | s in seeds :: s.name !in attempted
  }

  lemma Joined(seeds: seq<Seed>, more: seq<Seed>, was: set<string>)
    requires NewNames(seeds, was) && NewNames(more, was + NamesOf(seeds))
    requires |NamesOf(seeds)| == |seeds| && |NamesOf(more)| == |more|
    ensures NewNames(seeds + more, was)
    ensures was + NamesOf(seeds) + NamesOf(more) == was + NamesOf(seeds + more)
    ensures |NamesOf(seeds + more)| <= |seeds| + |more|
  {
    NamesOfConcat(seeds, more);
    UnionSize(NamesOf(seeds), NamesOf(more));
  }

  lemma SearchFresh(l: Limits, catalog: Table, was: set<string>, attempted: set<string>, frontier: seq<Candidate>,
                    queried: seq<string>, before: set<string>, seeds: seq<Seed>, names: set<string>)
    requires Sound(l, catalog, attempted, frontier, queried, before)
    requires NewNames(seeds, was) && names <= NamesOf(seeds) && attempted == was + NamesOf(seeds)
    requires catalog.Keys <= was && before <= was && forall n | n in queried :: n in was
    ensures forall n | n in names :: n in attempted && n !in catalog && n !in queried && n !in before && n !in was
    ensures |names| <= |NamesOf(seeds)|
  {
    Smaller(names, NamesOf(seeds));
  }

  ghost predicate Lists(names: seq<string>, all: set<string>) {
    NoDuplicates(names) && Elements(names) == all
  }

  /** The names `done` have been resolved since `start`, with the outcome `out`. */
  ghost predicate Resolving(seeds: seq<Seed>, done: set<string>, reply: string -> Reply, out: seq<Candidate>,
                            start: seq<string>, queried: seq<string>) {
    Resolution(seeds, done, reply, out) && start <= queried && Lists(queried[|start|..], done)
  }

  lemma OneMoreListed(start: seq<string>, queried: seq<string>, done: set<string>, name: string)
    requires start <= queried && Lists(queried[|start|..], done) && name !in done
    ensures start <= queried + [name] && Lists((queried + [name])[|start|..], done + {name})
  {
    assert (queried + [name])[|start|..] == queried[|start|..] + [name];
    ghost var longer := Extend(queried[|start|..], done, name);
  }

  ghost function Extend(names: seq<string>, all: set<string>, name: string): (longer: seq<string>)
    requires Lists(names, all) && name !in all
    ensures longer == names + [name] && Lists(longer, all + {name})
  {
    assert name !in Elements(names);
    assert Elements(names + [name]) == Elements(names) + {name};
    names + [name]
  }

  lemma NothingResolved(seeds: seq<Seed>, reply: string -> Reply, queried: seq<string>)
    ensures Resolving(seeds, {}, reply, [], queried, queried)
  {
    assert queried[|queried|..] == [];
  }

  lemma Resolved(seeds: seq<Seed>, names: set<string>, reply: string -> Reply, out: seq<Candidate>, name: string)
    requires Resolution(seeds, names, reply, out) && name !in names
    ensures Resolution(seeds, names + {name}, reply, out + Yield(seeds, name, reply))
  {
    var outcome := Yield(seeds, name, reply);
    var now := out + outcome;
    forall n | n in names + {name} && Yield(seeds, n, reply) != [] ensures exists c :: c in now && c.name == n {
      if n == name {
        assert outcome[0] in now;
      } else {
        var c :| c in out && c.name == n;
        assert c in now;
      }
    }
    forall i, j | 0 <= i < j < |now| ensures now[i].name != now[j].name {
      if j >= |out| && i < |out| {
        assert out[i] in out;
      }
    }
  }

  // ---------------------------------------------------------------- a checkpoint that reads differently

  const Address := Record({"192.0.2.1"}, {}, {}, RESOLVED)

  /** The root and one observed name. */
  function TwoSeeds(l: Limits, name: string): seq<Seed> {
    [Seed(l.root, Origin("escopo", "seed", "", 0), true)] + [Seed(name, Origin("passive", "passive", "", 1), true)]
  }

  /** Both resolve, the observed name to the wildcard of its zone. */
  function TwoAnswers(l: Limits, name: string): seq<Candidate> {
    Outcome(TwoSeeds(l, name), l.root, Address, false) + Outcome(TwoSeeds(l, name), name, Address, true)
  }

  lemma TwoAnswersAre(l: Limits, name: string)
    requires name != l.root
    ensures var c := TwoAnswers(l, name);
            && |c| == 2 && c[0].name == l.root && c[1].name == name && c[1].wildcard
            && Outcome(TwoSeeds(l, name), l.root, Address, false) == [c[0]]
            && Outcome(TwoSeeds(l, name), name, Address, true) == [c[1]]
  {
    var seeds := TwoSeeds(l, name);
    assert seeds[0] in seeds && seeds[1] in seeds;
    assert OriginsOf(seeds, name) == {seeds[1].origin};
    assert "passive"[0] != ZONE_TRANSFER[1];
  }

  function TwoReplies(l: Limits, name: string): string -> Reply {
    (n: string) => Reply(Address, n == name)
  }

  lemma TwoResolve(l: Limits, name: string)
    requires name != l.root
    ensures Resolution(TwoSeeds(l, name), {l.root, name}, TwoReplies(l, name), TwoAnswers(l, name))
  {
    TwoAnswersAre(l, name);
    var seeds, out := TwoSeeds(l, name), TwoAnswers(l, name);
    assert out[0] in out && out[1] in out;
  }

  /** The catalog after a zone transfer that lists the wildcard name. */
  function AfterTransfer(l: Limits, name: string, server: string): Table {
    WithOrigins(Merged(map[], TwoAnswers(l, name), l.maxCandidates), Mentions([name], ZONE_TRANSFER, server, l.root))
  }

  /** A first frontier whose checkpoint restores it differently, under any limits that admit two names: the
      sources observe a name that resolves to a wildcard, and a zone transfer lists it. */
  lemma MarkIsLifted(l: Limits, name: string, server: string)
    requires Workable(l) && Eligible(l, name) && name != l.root && l.maxCandidates >= 2 && l.maxTested >= 2
    ensures Resolution(TwoSeeds(l, name), {l.root, name}, TwoReplies(l, name), TwoAnswers(l, name))
    ensures Added(map[], TwoAnswers(l, name), l.maxCandidates) == TwoAnswers(l, name)
    ensures LoopOk(l, AfterTransfer(l, name, server), {l.root, name}, TwoAnswers(l, name), {})
    ensures !SameMarks(TwoAnswers(l, name), AfterTransfer(l, name, server))
  {
    var out, seeds := TwoAnswers(l, name), Mentions([name], ZONE_TRANSFER, server, l.root);
    TwoAnswersAre(l, name);
    TwoResolve(l, name);
    SmallState(l, name, out);
    Filed(l, map[], {l.root, name}, TwoSeeds(l, name), {l.root, name}, TwoReplies(l, name), out);
    var catalog := Merged(map[], out, l.maxCandidates);
    OriginsKeep(l, TwoReplies(l, name), catalog, {l.root, name}, out, [], {}, seeds);
    assert out[1] in out && seeds[0] in seeds;
    assert Transferred(seeds, name);
    TransferLiftsMarks(catalog, out, seeds);
  }

  lemma SmallState(l: Limits, name: string, out: seq<Candidate>)
    requires Workable(l) && Eligible(l, name) && name != l.root && l.maxCandidates >= 2 && l.maxTested >= 2
    ensures Sound(l, map[], {l.root, name}, [], [], {}) && |{l.root, name}| == 2
  {
  }

  /** What comes of such a state: its checkpoint is one the program writes, and it restores a frontier that
      reads differently. */
  lemma StaleCheckpoint(l: Limits, state: State, catalog: Table, attempted: set<string>, frontier: seq<Candidate>)
    requires LoopOk(l, catalog, attempted, frontier, {}) && !SameMarks(frontier, catalog)
    requires Reports(state, catalog, attempted, frontier, 0)
    ensures Genuine(l, state)
    ensures multiset(Views(Restored(LoadedCatalog(l, state), state.frontier))) != multiset(Views(frontier))
  {
    assert WrittenFrom(l, state, catalog, attempted, frontier, {});
    CheckpointRoundTrip(l, l, state, catalog, attempted, frontier, {});
  }
}
