/** The names a round proposes by itself: words under the root and under its busy zones, then variations of the
    names in the frontier. Screening keeps those worth resolving, in the order proposed, up to a limit. */
module Generation {
  import opened Sequences
  import opened Names
  import opened Catalog

  /** `normal` normalizes a name, `numeric` and `altered` vary one; they stand for the text rules. */
  datatype Generator = Generator(
    words: Table -> seq<string>,
    threshold: nat,
    normal: string -> string,
    numeric: string -> seq<string>,
    altered: (Table, string) -> seq<string>)

  function DepthOf(name: string, root: string): nat {
    if Under(name, root) then Depth(name, root) else 0
  }

  // ---------------------------------------------------------------- busy zones

  function ParentName(name: string): (parent: string)
    ensures name != "" ==> |parent| < |name|
  {
    if name == "" then "" else if name[0] == '.' then name[1..] else ParentName(name[1..])
  }

  /** The name and the zones above it, up to the root. */
  function Ancestry(name: string, root: string): seq<string>
    decreases |name|
  {
    if name == root || name == "" || !Under(name, root) then [] else [name] + Ancestry(ParentName(name), root)
  }

  function ChildSet(catalog: Table, names: set<string>, zone: string): set<string> {
    set n | n in names && n in catalog && !catalog[n].wildcard && ParentName(n) == zone
  }

  /** How many catalogued names stand directly under a zone, wildcards left out. */
  function Children(catalog: Table, zone: string): nat {
    |ChildSet(catalog, catalog.Keys, zone)|
  }

  predicate Busy(catalog: Table, threshold: nat, c: Candidate, zone: string) {
    Children(catalog, zone) >= threshold || (threshold == 1 && zone == c.name)
  }

  function BusyAmong(catalog: Table, threshold: nat, c: Candidate, zones: seq<string>): set<string> {
    set zone | zone in zones && Busy(catalog, threshold, c, zone)
  }

  /** The busy zones above a candidate; a wildcard name has none. */
  function BusyAbove(root: string, c: Candidate, catalog: Table, threshold: nat): set<string> {
    if c.wildcard then {} else BusyAmong(catalog, threshold, c, Ancestry(c.name, root))
  }

  /** The zones of the frontier with enough names under them. */
  function BusyZones(root: string, frontier: seq<Candidate>, catalog: Table, threshold: nat): set<string>
    decreases |frontier|
  {
    if frontier == [] then {}
    else
      BusyZones(root, frontier[..|frontier| - 1], catalog, threshold)
      + BusyAbove(root, frontier[|frontier| - 1], catalog, threshold)
  }

  /** A zone is busy exactly when it is above some candidate that is no wildcard, and has enough names. */
  lemma {:induction false} BusyZone(root: string, frontier: seq<Candidate>, catalog: Table, threshold: nat, zone: string)
    ensures zone in BusyZones(root, frontier, catalog, threshold) <==>
            exists c :: c in frontier && !c.wildcard && zone in Ancestry(c.name, root) && Busy(catalog, threshold, c, zone)
    decreases |frontier|
  {
    if frontier != [] {
      var init, last := frontier[..|frontier| - 1], frontier[|frontier| - 1];
      BusyZone(root, init, catalog, threshold, zone);
      assert frontier == init + [last];
      if zone in BusyZones(root, init, catalog, threshold) {
        var c :| c in init && !c.wildcard && zone in Ancestry(c.name, root) && Busy(catalog, threshold, c, zone);
        assert c in frontier;
      }
    }
  }

  function Count(children: map<string, nat>, zone: string): nat {
    if zone in children then children[zone] else 0
  }

  lemma ChildSetMore(catalog: Table, done: set<string>, n: string, zone: string)
    requires n !in done && n in catalog
    ensures |ChildSet(catalog, done + {n}, zone)| ==
            |ChildSet(catalog, done, zone)| + if !catalog[n].wildcard && ParentName(n) == zone then 1 else 0
  {
    if !catalog[n].wildcard && ParentName(n) == zone {
      assert ChildSet(catalog, done + {n}, zone) == ChildSet(catalog, done, zone) + {n};
    } else {
      assert ChildSet(catalog, done + {n}, zone) == ChildSet(catalog, done, zone);
    }
  }

  method CountChildren(catalog: Table) returns (children: map<string, nat>)
    ensures forall zone :: Count(children, zone) == Children(catalog, zone)
  {
    children := map[];
    var todo := catalog.Keys;
    ghost var done: set<string> := {};
    while todo != {}
      invariant todo !! done && todo + done == catalog.Keys
      invariant forall zone :: Count(children, zone) == |ChildSet(catalog, done, zone)|
      decreases todo
    {
      var n :| n in todo;
      forall zone {
        ChildSetMore(catalog, done, n, zone);
      }
      if !catalog[n].wildcard {
        children := children[ParentName(n) := Count(children, ParentName(n)) + 1];
      }
      todo, done := todo - {n}, done + {n};
    }
    assert done == catalog.Keys;
  }

  function OneIf(busy: bool, zone: string): set<string> {
    if busy then {zone} else {}
  }

  method AddZone(zones: seq<string>, zone: string, busy: bool) returns (more: seq<string>)
    requires NoDuplicates(zones)
    ensures NoDuplicates(more) && Elements(more) == Elements(zones) + OneIf(busy, zone)
  {
    more := zones;
    if zone !in zones && busy {
      more := zones + [zone];
      assert Elements(more) == Elements(zones) + {zone};
    } else {
      assert zone in zones ==> zone in Elements(zones);
    }
  }

  /** The busy zones above one candidate join the list. */
  method AddZones(root: string, c: Candidate, ghost catalog: Table, children: map<string, nat>, threshold: nat, zones: seq<string>)
    returns (more: seq<string>)
    requires NoDuplicates(zones) && forall zone :: Count(children, zone) == Children(catalog, zone)
    ensures NoDuplicates(more)
    ensures Elements(more) == Elements(zones) + BusyAmong(catalog, threshold, c, Ancestry(c.name, root))
  {
    more := zones;
    var zone := c.name;
    while zone != root && zone != "" && Under(zone, root)
      invariant NoDuplicates(more)
      invariant Elements(more) + BusyAmong(catalog, threshold, c, Ancestry(zone, root)) ==
                Elements(zones) + BusyAmong(catalog, threshold, c, Ancestry(c.name, root))
      decreases |zone|
    {
      var busy := Count(children, zone) >= threshold || (threshold == 1 && zone == c.name);
      BusyCons(root, catalog, threshold, c, zone, Elements(more));
      more := AddZone(more, zone, busy);
      zone := ParentName(zone);
    }
  }

  lemma BusyCons(root: string, catalog: Table, threshold: nat, c: Candidate, zone: string, known: set<string>)
    requires zone != root && zone != "" && Under(zone, root)
    ensures known + BusyAmong(catalog, threshold, c, Ancestry(zone, root)) ==
            known + OneIf(Busy(catalog, threshold, c, zone), zone)
            + BusyAmong(catalog, threshold, c, Ancestry(ParentName(zone), root))
  {
    var rest := Ancestry(ParentName(zone), root);
    assert BusyAmong(catalog, threshold, c, [zone] + rest) ==
           OneIf(Busy(catalog, threshold, c, zone), zone) + BusyAmong(catalog, threshold, c, rest);
  }

  /** The busy zones in sorted order, each once. */
  method RecursiveZones(root: string, frontier: seq<Candidate>, catalog: Table, threshold: nat) returns (zones: seq<string>)
    ensures Sorted(zones) && NoDuplicates(zones) && Elements(zones) == BusyZones(root, frontier, catalog, threshold)
  {
    var children := CountChildren(catalog);
    zones := [];
    var i := 0;
    while i < |frontier|
      invariant i <= |frontier| && NoDuplicates(zones)
      invariant Elements(zones) == BusyZones(root, frontier[..i], catalog, threshold)
    {
      assert frontier[..i + 1][..i] == frontier[..i];
      if !frontier[i].wildcard {
        zones := AddZones(root, frontier[i], catalog, children, threshold, zones);
      }
      i := i + 1;
    }
    assert frontier[..i] == frontier;
    SortKeepsDistinct(zones);
    zones := Sort(zones);
  }

  /** The zones do not depend on the order of the frontier. */
  lemma ZonesIgnoreOrder(root: string, a: seq<Candidate>, b: seq<Candidate>, catalog: Table, threshold: nat)
    requires multiset(a) == multiset(b)
    ensures BusyZones(root, a, catalog, threshold) == BusyZones(root, b, catalog, threshold)
  {
    forall c ensures c in a <==> c in b {
      assert c in multiset(a) <==> c in multiset(b);
    }
    forall z ensures z in BusyZones(root, a, catalog, threshold) <==> z in BusyZones(root, b, catalog, threshold) {
      BusyZone(root, a, catalog, threshold, z);
      BusyZone(root, b, catalog, threshold, z);
    }
  }

  // ---------------------------------------------------------------- proposals

  function Offer(root: string, name: string, technique: string, parent: string): Seed {
    Seed(name, Origin("recon", technique, parent, DepthOf(name, root)), false)
  }

  function WordSeeds(root: string, g: Generator, words: seq<string>): seq<Seed>
    decreases |words|
  {
    if words == [] then []
    else
      WordSeeds(root, g, words[..|words| - 1])
      + [Offer(root, g.normal(words[|words| - 1] + "." + root), "wordlist", root)]
  }

  /** One word under every zone. */
  function UnderZones(root: string, g: Generator, word: string, zones: seq<string>): seq<Seed>
    decreases |zones|
  {
    if zones == [] then []
    else
      var zone := zones[|zones| - 1];
      UnderZones(root, g, word, zones[..|zones| - 1]) + [Offer(root, g.normal(word + "." + zone), "recursão", zone)]
  }

  function ZoneSeeds(root: string, g: Generator, words: seq<string>, zones: seq<string>): seq<Seed>
    decreases |words|
  {
    if words == [] then []
    else ZoneSeeds(root, g, words[..|words| - 1], zones) + UnderZones(root, g, words[|words| - 1], zones)
  }

  function NameSeeds(root: string, g: Generator, names: seq<string>, technique: string, parent: string): seq<Seed>
    decreases |names|
  {
    if names == [] then []
    else
      NameSeeds(root, g, names[..|names| - 1], technique, parent)
      + [Offer(root, g.normal(names[|names| - 1]), technique, parent)]
  }

  /** Variations of one name; the root and wildcard names have none. */
  function Variations(root: string, g: Generator, catalog: Table, c: Candidate): seq<Seed> {
    if c.name == root || c.wildcard then []
    else
      NameSeeds(root, g, g.numeric(c.name), "sequência", c.name)
      + NameSeeds(root, g, g.altered(catalog, c.name), "alteração", c.name)
  }

  function AllVariations(root: string, g: Generator, catalog: Table, frontier: seq<Candidate>): seq<Seed>
    decreases |frontier|
  {
    if frontier == [] then []
    else AllVariations(root, g, catalog, frontier[..|frontier| - 1]) + Variations(root, g, catalog, frontier[|frontier| - 1])
  }

  /** Everything a round proposes, in order; `zones` lists the busy zones. */
  function Proposals(root: string, g: Generator, words: seq<string>, zones: seq<string>, catalog: Table, frontier: seq<Candidate>)
    : seq<Seed>
  {
    WordSeeds(root, g, words) + (ZoneSeeds(root, g, words, zones) + AllVariations(root, g, catalog, frontier))
  }

  // ---------------------------------------------------------------- screening

  /** What one more seed adds to those already taken. */
  function Plus(taken: seq<Seed>, item: Seed, wanted: bool, attempted: set<string>, limit: int): seq<Seed> {
    if |taken| < limit && wanted && item.name !in attempted && item.name !in NamesOf(taken) then taken + [item] else taken
  }

  lemma PlusCons(head: Seed, taken: seq<Seed>, item: Seed, wanted: bool, attempted: set<string>, limit: int)
    ensures [head] + Plus(taken, item, wanted, attempted + {head.name}, limit - 1) == Plus([head] + taken, item, wanted, attempted, limit)
  {
    NamesOfCons(head, taken);
    assert [head] + (taken + [item]) == [head] + taken + [item];
  }

  /** One more seed at the end of a list that is screened. */
  lemma {:induction false} UnseenMore(l: Limits, done: seq<Seed>, item: Seed, attempted: set<string>, limit: int)
    ensures Unseen(l, done + [item], attempted, limit) ==
            Plus(Unseen(l, done, attempted, limit), item, Eligible(l, item.name), attempted, limit)
    decreases |done|
  {
    if done == [] {
      assert done + [item] == [item] && [item][1..] == [];
    } else if limit > 0 {
      var head, rest := done[0], done[1..];
      assert (done + [item])[1..] == rest + [item];
      if Eligible(l, head.name) && head.name !in attempted {
        UnseenMore(l, rest, item, attempted + {head.name}, limit - 1);
        PlusCons(head, Unseen(l, rest, attempted + {head.name}, limit - 1), item, Eligible(l, item.name), attempted, limit);
      } else {
        UnseenMore(l, rest, item, attempted, limit);
      }
    }
  }

  /** Once the limit is reached, further seeds change nothing. */
  lemma {:induction false} UnseenFull(l: Limits, done: seq<Seed>, more: seq<Seed>, attempted: set<string>, limit: int)
    requires |Unseen(l, done, attempted, limit)| >= limit
    ensures Unseen(l, done + more, attempted, limit) == Unseen(l, done, attempted, limit)
    decreases |more|
  {
    if more == [] {
      assert done + more == done;
    } else {
      var init, last := more[..|more| - 1], more[|more| - 1];
      UnseenFull(l, done, init, attempted, limit);
      UnseenMore(l, done + init, last, attempted, limit);
      assert done + more == (done + init) + [last];
    }
  }

  /** The seeds gathered so far, and the names among them; `done` lists what was proposed. */
  class Gathering {
    const l: Limits
    const catalog: Table
    const attempted: set<string>
    const limit: int
    var seen: set<string>
    var seeds: seq<Seed>
    ghost var done: seq<Seed>

    ghost predicate Valid()
      reads this
    {
      && catalog.Keys <= attempted
      && seeds == Unseen(l, done, attempted, limit) && seen == NamesOf(seeds)
    }

    /** Everything of `all` has been proposed, or the limit was reached on the way. */
    ghost predicate Covers(all: seq<Seed>)
      reads this
    {
      done == all || (done <= all && |seeds| >= limit)
    }

    constructor (l: Limits, catalog: Table, attempted: set<string>, limit: int)
      requires catalog.Keys <= attempted
      ensures Valid() && done == [] && seeds == []
      ensures this.l == l && this.catalog == catalog && this.attempted == attempted && this.limit == limit
    {
      this.l, this.catalog, this.attempted, this.limit := l, catalog, attempted, limit;
      seen, seeds, done := {}, [], [];
    }

    method Add(item: Seed)
      requires Valid()
      modifies this
      ensures Valid() && done == old(done) + [item] && |seeds| >= |old(seeds)|
    {
      UnseenMore(l, done, item, attempted, limit);
      done := done + [item];
      if |seeds| < limit && Eligible(l, item.name) && item.name !in catalog && item.name !in attempted && item.name !in seen {
        NamesOfConcat(seeds, [item]);
        seen := seen + {item.name};
        seeds := seeds + [item];
      }
    }

    method AddWords(g: Generator, words: seq<string>) returns (full: bool)
      requires Valid() && done == []
      modifies this
      ensures Valid() && if full then |seeds| >= limit && done <= WordSeeds(l.root, g, words) else done == WordSeeds(l.root, g, words)
    {
      var i := 0;
      while i < |words|
        invariant i <= |words| && Valid() && done == WordSeeds(l.root, g, words[..i])
      {
        WordsMore(l.root, g, words, i);
        Add(Offer(l.root, g.normal(words[i] + "." + l.root), "wordlist", l.root));
        i := i + 1;
        if |seeds| >= limit {
          WordsPrefix(l.root, g, words, i);
          return true;
        }
      }
      assert words[..i] == words;
      full := false;
    }

    /** One word under every zone. */
    method AddUnderZones(g: Generator, word: string, zones: seq<string>) returns (full: bool)
      requires Valid()
      modifies this
      ensures Valid()
      ensures var all := old(done) + UnderZones(l.root, g, word, zones);
              if full then |seeds| >= limit && done <= all else done == all
    {
      var i := 0;
      assert old(done) + UnderZones(l.root, g, word, zones[..0]) == old(done);
      while i < |zones|
        invariant i <= |zones| && Valid() && done == old(done) + UnderZones(l.root, g, word, zones[..i])
      {
        UnderMore(l.root, g, word, zones, i, old(done));
        Add(Offer(l.root, g.normal(word + "." + zones[i]), "recursão", zones[i]));
        i := i + 1;
        if |seeds| >= limit {
          UnderPrefix(l.root, g, word, zones, i, old(done));
          return true;
        }
      }
      assert zones[..i] == zones;
      full := false;
    }

    method AddZoneSeeds(g: Generator, words: seq<string>, zones: seq<string>) returns (full: bool)
      requires Valid()
      modifies this
      ensures Valid()
      ensures var all := old(done) + ZoneSeeds(l.root, g, words, zones);
              if full then |seeds| >= limit && done <= all else done == all
    {
      var i := 0;
      assert old(done) + ZoneSeeds(l.root, g, words[..0], zones) == old(done);
      while i < |words|
        invariant i <= |words| && Valid() && done == old(done) + ZoneSeeds(l.root, g, words[..i], zones)
      {
        ZonesMore(l.root, g, words, zones, i, old(done));
        full := AddUnderZones(g, words[i], zones);
        i := i + 1;
        if full {
          ZonesPrefix(l.root, g, words, zones, i, old(done));
          return;
        }
      }
      assert words[..i] == words;
      full := false;
    }

    method AddNames(g: Generator, names: seq<string>, technique: string, parent: string)
      requires Valid()
      modifies this
      ensures Valid() && done == old(done) + NameSeeds(l.root, g, names, technique, parent)
    {
      var i := 0;
      assert old(done) + NameSeeds(l.root, g, names[..0], technique, parent) == old(done);
      while i < |names|
        invariant i <= |names| && Valid() && done == old(done) + NameSeeds(l.root, g, names[..i], technique, parent)
      {
        NamesMore(l.root, g, names, technique, parent, i, old(done));
        Add(Offer(l.root, g.normal(names[i]), technique, parent));
        i := i + 1;
      }
      assert names[..i] == names;
    }

    method AddVariationsOf(g: Generator, c: Candidate)
      requires Valid()
      modifies this
      ensures Valid() && done == old(done) + Variations(l.root, g, catalog, c)
    {
      if c.name != l.root && !c.wildcard {
        AddNames(g, g.numeric(c.name), "sequência", c.name);
        AddNames(g, g.altered(catalog, c.name), "alteração", c.name);
        Regroup(old(done), NameSeeds(l.root, g, g.numeric(c.name), "sequência", c.name),
                NameSeeds(l.root, g, g.altered(catalog, c.name), "alteração", c.name));
      }
    }

    method AddVariations(g: Generator, frontier: seq<Candidate>)
      requires Valid()
      modifies this
      ensures Valid() && Covers(old(done) + AllVariations(l.root, g, catalog, frontier))
    {
      var i := 0;
      assert old(done) + AllVariations(l.root, g, catalog, frontier[..0]) == old(done);
      while i < |frontier|
        invariant i <= |frontier| && Valid() && done == old(done) + AllVariations(l.root, g, catalog, frontier[..i])
      {
        VariationsMore(l.root, g, catalog, frontier, i, old(done));
        AddVariationsOf(g, frontier[i]);
        i := i + 1;
        if |seeds| >= limit {
          VariationsPrefix(l.root, g, catalog, frontier, i, old(done));
          return;
        }
      }
      assert frontier[..i] == frontier;
    }
  }

  lemma WordsMore(root: string, g: Generator, words: seq<string>, i: nat)
    requires i < |words|
    ensures WordSeeds(root, g, words[..i + 1]) ==
            WordSeeds(root, g, words[..i]) + [Offer(root, g.normal(words[i] + "." + root), "wordlist", root)]
  {
    assert words[..i + 1][..i] == words[..i];
  }

  lemma {:induction false} WordsPrefix(root: string, g: Generator, words: seq<string>, i: nat)
    requires i <= |words|
    ensures WordSeeds(root, g, words[..i]) <= WordSeeds(root, g, words)
    decreases |words| - i
  {
    if i == |words| {
      assert words[..i] == words;
    } else {
      WordsMore(root, g, words, i);
      WordsPrefix(root, g, words, i + 1);
    }
  }

  lemma UnderMore(root: string, g: Generator, word: string, zones: seq<string>, i: nat, was: seq<Seed>)
    requires i < |zones|
    ensures was + UnderZones(root, g, word, zones[..i + 1]) ==
            was + UnderZones(root, g, word, zones[..i]) + [Offer(root, g.normal(word + "." + zones[i]), "recursão", zones[i])]
  {
    assert zones[..i + 1][..i] == zones[..i];
  }

  lemma {:induction false} UnderPrefix(root: string, g: Generator, word: string, zones: seq<string>, i: nat, was: seq<Seed>)
    requires i <= |zones|
    ensures was + UnderZones(root, g, word, zones[..i]) <= was + UnderZones(root, g, word, zones)
    decreases |zones| - i
  {
    if i == |zones| {
      assert zones[..i] == zones;
    } else {
      UnderMore(root, g, word, zones, i, was);
      UnderPrefix(root, g, word, zones, i + 1, was);
    }
  }

  lemma ZonesMore(root: string, g: Generator, words: seq<string>, zones: seq<string>, i: nat, was: seq<Seed>)
    requires i < |words|
    ensures was + ZoneSeeds(root, g, words[..i + 1], zones) ==
            was + ZoneSeeds(root, g, words[..i], zones) + UnderZones(root, g, words[i], zones)
  {
    assert words[..i + 1][..i] == words[..i];
  }

  lemma {:induction false} ZonesPrefix(root: string, g: Generator, words: seq<string>, zones: seq<string>, i: nat, was: seq<Seed>)
    requires i <= |words|
    ensures was + ZoneSeeds(root, g, words[..i], zones) <= was + ZoneSeeds(root, g, words, zones)
    decreases |words| - i
  {
    if i == |words| {
      assert words[..i] == words;
    } else {
      ZonesMore(root, g, words, zones, i, was);
      ZonesPrefix(root, g, words, zones, i + 1, was);
    }
  }

  lemma NamesMore(root: string, g: Generator, names: seq<string>, technique: string, parent: string, i: nat, was: seq<Seed>)
    requires i < |names|
    ensures was + NameSeeds(root, g, names[..i + 1], technique, parent) ==
            was + NameSeeds(root, g, names[..i], technique, parent) + [Offer(root, g.normal(names[i]), technique, parent)]
  {
    assert names[..i + 1][..i] == names[..i];
  }

  lemma VariationsStep(root: string, g: Generator, catalog: Table, frontier: seq<Candidate>, i: nat)
    requires i < |frontier|
    ensures AllVariations(root, g, catalog, frontier[..i + 1]) ==
            AllVariations(root, g, catalog, frontier[..i]) + Variations(root, g, catalog, frontier[i])
  {
    assert frontier[..i + 1][..i] == frontier[..i];
  }

  lemma VariationsMore(root: string, g: Generator, catalog: Table, frontier: seq<Candidate>, i: nat, was: seq<Seed>)
    requires i < |frontier|
    ensures was + AllVariations(root, g, catalog, frontier[..i + 1]) ==
            was + AllVariations(root, g, catalog, frontier[..i]) + Variations(root, g, catalog, frontier[i])
  {
    VariationsStep(root, g, catalog, frontier, i);
    Regroup(was, AllVariations(root, g, catalog, frontier[..i]), Variations(root, g, catalog, frontier[i]));
  }

  lemma {:induction false} VariationsPrefix(root: string, g: Generator, catalog: Table, frontier: seq<Candidate>, i: nat, was: seq<Seed>)
    requires i <= |frontier|
    ensures was + AllVariations(root, g, catalog, frontier[..i]) <= was + AllVariations(root, g, catalog, frontier)
    decreases |frontier| - i
  {
    if i == |frontier| {
      assert frontier[..i] == frontier;
    } else {
      VariationsMore(root, g, catalog, frontier, i, was);
      VariationsPrefix(root, g, catalog, frontier, i + 1, was);
    }
  }

  /** The seeds a round generates: what the proposals leave after screening, up to the limit. */
  method GenerateSeeds(l: Limits, g: Generator, words: seq<string>, catalog: Table, frontier: seq<Candidate>,
                       attempted: set<string>, limit: int)
    returns (seeds: seq<Seed>, ghost zones: seq<string>)
    requires catalog.Keys <= attempted
    ensures Sorted(zones) && NoDuplicates(zones) && Elements(zones) == BusyZones(l.root, frontier, catalog, g.threshold)
    ensures seeds == Unseen(l, Proposals(l.root, g, words, zones, catalog, frontier), attempted, limit)
  {
    var busy := RecursiveZones(l.root, frontier, catalog, g.threshold);
    zones := busy;
    if limit <= 0 {
      return [], zones;
    }
    var into := new Gathering(l, catalog, attempted, limit);
    Gather(into, g, words, busy, frontier);
    seeds := into.seeds;
  }

  method Gather(into: Gathering, g: Generator, words: seq<string>, zones: seq<string>, frontier: seq<Candidate>)
    requires into.Valid() && into.done == []
    modifies into
    ensures into.seeds == Unseen(into.l, Proposals(into.l.root, g, words, zones, into.catalog, frontier), into.attempted, into.limit)
  {
    ghost var w, z := WordSeeds(into.l.root, g, words), ZoneSeeds(into.l.root, g, words, zones);
    ghost var v := AllVariations(into.l.root, g, into.catalog, frontier);
    var full := into.AddWords(g, words);
    if !full {
      full := into.AddZoneSeeds(g, words, zones);
      if !full {
        into.AddVariations(g, frontier);
      }
    }
    InThree(into.done, w, z, v, |into.seeds| >= into.limit);
    Screened(into.l, into.done, w + (z + v), into.attempted, into.limit);
  }

  /** A list that stops within the first, the second or the third of three parts is a prefix of them all. */
  lemma InThree<T>(done: seq<T>, w: seq<T>, z: seq<T>, v: seq<T>, full: bool)
    requires (full && done <= w) || (full && done <= w + z) || (full && done <= w + z + v) || done == w + z + v
    ensures done == w + (z + v) || (full && done <= w + (z + v))
  {
    Regroup(w, z, v);
    if done <= w {
      assert w <= w + z + v;
    } else if done <= w + z {
      assert w + z <= w + z + v;
    }
  }

  lemma Screened(l: Limits, done: seq<Seed>, all: seq<Seed>, attempted: set<string>, limit: int)
    requires done == all || (done <= all && |Unseen(l, done, attempted, limit)| >= limit)
    ensures Unseen(l, all, attempted, limit) == Unseen(l, done, attempted, limit)
  {
    if done != all {
      assert all == done + all[|done|..];
      UnseenFull(l, done, all[|done|..], attempted, limit);
    }
  }
}
