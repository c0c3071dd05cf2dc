/** The name server collector: it probes every delegated server, sorts them into responsive, lame and
    unresolvable ones, and decides whether the delegation is a takeover candidate. */
module NsGate {
  import opened Options
  import opened Names
  import opened ParentView
  import opened ZoneCut

  datatype AddressStatus = Resolved | NXDomain | NoData | Unclear

  datatype Health = Healthy | Refused | Missing | Lame | ServFail | Timeout | Other

  /** What is observed of one server; `provider` is empty when no known provider matches its name. */
  datatype Probe = Probe(address: AddressStatus, health: Health, provider: string)

  datatype Finding =
    | LameDelegation(server: string)
    | NsNxdomain(server: string)
    | NsServfail(server: string)
    | NsTimeout(server: string)
    | NsOrphaned(server: string)
    | ProviderMatch
    | AllDead
    | DelegationBroken
    | TakeoverCandidate

  datatype Delegation = Delegation(servers: seq<string>, parentVerified: bool, dsChecked: bool, hasDs: bool)

  /** What probing each server observes. */
  type Prober = string -> Probe

  predicate AddressMissing(p: Probe) {
    p.address.NXDomain? || p.address.NoData?
  }

  predicate RejectsZone(p: Probe) {
    p.health.Refused? || p.health.Missing? || p.health.Lame?
  }

  /** A conclusive failure: the server rejects the zone, or it has no address and does not answer for it. */
  predicate Fails(p: Probe) {
    RejectsZone(p) || (AddressMissing(p) && !p.health.Healthy?)
  }

  function Where(servers: seq<string>, probe: Prober, test: Probe -> bool): seq<string>
    decreases |servers|
  {
    if servers == [] then []
    else
      var init, last := servers[..|servers| - 1], servers[|servers| - 1];
      Where(init, probe, test) + if test(probe(last)) then [last] else []
  }

  const Responds: Probe -> bool := (p: Probe) => p.health.Healthy?
  const IsLame: Probe -> bool := (p: Probe) => RejectsZone(p) || p.health.ServFail?
  const Lost: Probe -> bool := (p: Probe) => AddressMissing(p) && !p.health.Healthy?
  const Dead: Probe -> bool := (p: Probe) => Fails(p)

  lemma WhereLast(servers: seq<string>, probe: Prober, test: Probe -> bool, i: nat)
    requires i < |servers|
    ensures Where(servers[..i + 1], probe, test) ==
            Where(servers[..i], probe, test) + if test(probe(servers[i])) then [servers[i]] else []
  {
    assert servers[..i + 1][..i] == servers[..i];
  }

  lemma {:induction false} WhereMembers(servers: seq<string>, probe: Prober, test: Probe -> bool)
    ensures forall s :: s in Where(servers, probe, test) <==> s in servers && test(probe(s))
    decreases |servers|
  {
    if servers != [] {
      var init := servers[..|servers| - 1];
      assert servers == init + [servers[|servers| - 1]];
      WhereMembers(init, probe, test);
    }
  }

  function Without(values: seq<string>, target: string): seq<string>
    decreases |values|
  {
    if values == [] then []
    else
      var last := values[|values| - 1];
      Without(values[..|values| - 1], target) + if last != target then [last] else []
  }

  lemma {:induction false} WithoutAbsent(values: seq<string>, target: string)
    requires target !in values
    ensures Without(values, target) == values
    decreases |values|
  {
    if values != [] {
      var init, last := values[..|values| - 1], values[|values| - 1];
      assert values == init + [last];
      WithoutAbsent(init, target);
    }
  }

  lemma WithoutMore(values: seq<string>, target: string, i: nat)
    requires i < |values|
    ensures Without(values[..i + 1], target) == Without(values[..i], target) + if values[i] != target then [values[i]] else []
  {
    assert values[..i + 1][..i] == values[..i];
  }

  /** Keeps the other names, in place. */
  method RemoveName(values: array<string>, count: nat, target: string) returns (kept: nat)
    requires count <= values.Length
    modifies values
    ensures kept <= count && values[..kept] == Without(old(values[..count]), target)
    ensures forall k | count <= k < values.Length :: values[k] == old(values[k])
  {
    ghost var before := values[..count];
    kept := 0;
    var i := 0;
    while i < count
      invariant kept <= i <= count
      invariant values[..kept] == Without(before[..i], target)
      invariant forall k | i <= k < count :: values[k] == before[k]
      invariant forall k | count <= k < values.Length :: values[k] == old(values[k])
    {
      WithoutMore(before, target, i);
      var value := values[i];
      if value != target {
        values[kept] := value;
        assert values[..kept + 1] == values[..kept] + [value];
        kept := kept + 1;
      }
      i := i + 1;
    }
    assert before[..count] == before;
  }

  predicate Uniform(servers: seq<string>, probe: Prober, id: string)
  {
    servers != [] && forall s | s in servers :: probe(s).provider == id
  }

  /** The provider of the whole delegation: known only when every server has the same known provider. */
  method UniformProvider(servers: seq<string>, probe: Prober) returns (provider: string)
    ensures provider != "" <==> exists id :: id != "" && Uniform(servers, probe, id)
    ensures provider != "" ==> Uniform(servers, probe, provider)
  {
    if |servers| == 0 || probe(servers[0]).provider == "" {
      assert |servers| > 0 ==> servers[0] in servers;
      return "";
    }
    provider := probe(servers[0]).provider;
    var i := 1;
    while i < |servers|
      invariant 1 <= i <= |servers| && provider == probe(servers[0]).provider
      invariant forall s | s in servers[..i] :: probe(s).provider == provider
    {
      assert servers[..i + 1] == servers[..i] + [servers[i]];
      if probe(servers[i]).provider != provider {
        assert servers[0] in servers && servers[i] in servers;
        return "";
      }
      i := i + 1;
    }
    assert servers[..i] == servers;
    assert Uniform(servers, probe, provider);
  }

  /** The findings about one server. */
  function ServerFindings(s: string, p: Probe): seq<Finding> {
    (match p.health
     case Missing => [NsNxdomain(s)]
     case Refused => [LameDelegation(s)]
     case Lame => [LameDelegation(s)]
     case ServFail => [NsServfail(s)]
     case Timeout => [NsTimeout(s)]
     case _ => [])
    + if Lost(p) then [NsOrphaned(s)] else []
  }

  function AllFindings(servers: seq<string>, probe: Prober): seq<Finding>
    decreases |servers|
  {
    if servers == [] then []
    else
      var init, last := servers[..|servers| - 1], servers[|servers| - 1];
      AllFindings(init, probe) + ServerFindings(last, probe(last))
  }

  /** The lists the collector files. */
  datatype Lists = Lists(responsive: seq<string>, lame: seq<string>, unresolvable: seq<string>, failed: set<string>)

  ghost predicate Filed(lists: Lists, servers: seq<string>, probe: Prober)
  {
    && lists.responsive == Where(servers, probe, Responds)
    && lists.lame == Where(servers, probe, IsLame)
    && lists.unresolvable == Where(servers, probe, Lost)
    && lists.failed == Elements(Where(servers, probe, Dead))
  }

  /** One server: an address failure is taken back when the server answers for the zone after all. */
  method Classify(lists: Lists, s: string, p: Probe) returns (after: Lists, findings: seq<Finding>)
    requires s !in lists.unresolvable && s !in lists.failed
    ensures findings == ServerFindings(s, p)
    ensures after.responsive == lists.responsive + if Responds(p) then [s] else []
    ensures after.lame == lists.lame + if IsLame(p) then [s] else []
    ensures after.unresolvable == lists.unresolvable + if Lost(p) then [s] else []
    ensures after.failed == lists.failed + if Dead(p) then {s} else {}
  {
    after, findings := lists, [];
    if AddressMissing(p) {
      after := after.(unresolvable := after.unresolvable + [s], failed := after.failed + {s});
    }
    match p.health {
      case Healthy =>
        after := after.(responsive := after.responsive + [s]);
        if AddressMissing(p) {
          WithoutLast(lists.unresolvable, s);
          after := after.(failed := after.failed - {s}, unresolvable := Without(after.unresolvable, s));
        }
      case Refused =>
        after := after.(lame := after.lame + [s], failed := after.failed + {s});
        findings := [LameDelegation(s)];
      case Lame =>
        after := after.(lame := after.lame + [s], failed := after.failed + {s});
        findings := [LameDelegation(s)];
      case Missing =>
        after := after.(lame := after.lame + [s], failed := after.failed + {s});
        findings := [NsNxdomain(s)];
      case ServFail =>
        after := after.(lame := after.lame + [s]);
        findings := [NsServfail(s)];
      case Timeout =>
        findings := [NsTimeout(s)];
      case Other =>
    }
    if AddressMissing(p) && !p.health.Healthy? {
      findings := findings + [NsOrphaned(s)];
    }
  }

  lemma WithoutLast(values: seq<string>, target: string)
    requires target !in values
    ensures Without(values + [target], target) == values
  {
    assert (values + [target])[..|values|] == values;
    WithoutAbsent(values, target);
  }

  predicate AllFail(servers: seq<string>, probe: Prober)
  {
    servers != [] && forall s | s in servers :: Fails(probe(s))
  }

  predicate Concern(servers: seq<string>, probe: Prober)
  {
    exists s | s in servers :: IsLame(probe(s)) || Lost(probe(s))
  }

  method ProbeAll(servers: seq<string>, probe: Prober) returns (lists: Lists, findings: seq<Finding>)
    requires NoDuplicates(servers)
    ensures Filed(lists, servers, probe) && findings == AllFindings(servers, probe)
  {
    lists, findings := Lists([], [], [], {}), [];
    var i := 0;
    while i < |servers|
      invariant i <= |servers|
      invariant Filed(lists, servers[..i], probe)
      invariant findings == AllFindings(servers[..i], probe)
    {
      var s := servers[i];
      NewHere(servers, probe, i);
      ghost var before := lists;
      var found;
      lists, found := Classify(lists, s, probe(s));
      OneMore(before, lists, servers, probe, i);
      assert servers[..i + 1][..i] == servers[..i];
      findings := findings + found;
      i := i + 1;
    }
    assert servers[..i] == servers;
  }

  /** Every delegated server failed conclusively, the parent's delegation is verified, all servers belong to
      one known provider, and the absence of a DS record has been checked. */
  ghost predicate IsCandidate(d: Delegation, servers: seq<string>, probe: Prober)
  {
    && AllFail(servers, probe) && d.parentVerified && d.dsChecked && !d.hasDs
    && exists id :: id != "" && Uniform(servers, probe, id)
  }

  /** The findings about the delegation as a whole. */
  function Summary(affected: bool, dead: bool, candidate: bool): seq<Finding> {
    (if affected then [ProviderMatch] else []) + (if dead then [AllDead, DelegationBroken] else [])
    + if candidate then [TakeoverCandidate] else []
  }

  /** The collector. A takeover candidate is reported exactly when the conditions hold; no server then answers
      for the zone. */
  method Collect(d: Delegation, probe: Prober)
    returns (lists: Lists, findings: seq<Finding>, takeover: bool, provider: string)
    ensures takeover <==> d.servers != [] && IsCandidate(d, UniqueSorted(d.servers), probe)
    ensures takeover ==> lists.responsive == [] && lists.failed == Elements(UniqueSorted(d.servers))
    ensures takeover ==> Uniform(UniqueSorted(d.servers), probe, provider)
    ensures d.servers != [] ==>
              var servers := UniqueSorted(d.servers);
              && Filed(lists, servers, probe)
              && findings == AllFindings(servers, probe)
                             + Summary(Concern(servers, probe) && provider != "", AllFail(servers, probe), takeover)
  {
    lists, findings, takeover, provider := Lists([], [], [], {}), [], false, "";
    if d.servers == [] {
      return;
    }
    var servers := UniqueSorted(d.servers);
    lists, findings := ProbeAll(servers, probe);
    var more;
    more, takeover, provider := Judge(d, lists, servers, probe);
    findings := findings + more;
  }

  method Judge(d: Delegation, lists: Lists, servers: seq<string>, probe: Prober)
    returns (findings: seq<Finding>, takeover: bool, provider: string)
    requires NoDuplicates(servers) && Filed(lists, servers, probe)
    ensures takeover <==> IsCandidate(d, servers, probe)
    ensures takeover ==> lists.responsive == [] && lists.failed == Elements(servers) && Uniform(servers, probe, provider)
    ensures findings == Summary(Concern(servers, probe) && provider != "", AllFail(servers, probe), takeover)
  {
    provider := UniformProvider(servers, probe);
    Outcome(lists, servers, probe);
    var allFailed := |lists.failed| == |servers| && |lists.failed| > 0;
    var concern := |lists.lame| > 0 || |lists.unresolvable| > 0;
    findings := [];
    if concern && provider != "" {
      findings := findings + [ProviderMatch];
    }
    if allFailed {
      findings := findings + [AllDead, DelegationBroken];
    }
    takeover := allFailed && d.parentVerified && provider != "" && d.dsChecked && !d.hasDs;
    if takeover {
      findings := findings + [TakeoverCandidate];
    }
  }

  lemma NewHere(servers: seq<string>, probe: Prober, i: nat)
    requires NoDuplicates(servers) && i < |servers|
    ensures servers[i] !in Where(servers[..i], probe, Lost) && servers[i] !in Elements(Where(servers[..i], probe, Dead))
  {
    WhereMembers(servers[..i], probe, Lost);
    WhereMembers(servers[..i], probe, Dead);
  }

  lemma OneMore(before: Lists, lists: Lists, servers: seq<string>, probe: Prober, i: nat)
    requires i < |servers| && Filed(before, servers[..i], probe)
    requires var s, p := servers[i], probe(servers[i]);
             && lists.responsive == before.responsive + (if Responds(p) then [s] else [])
             && lists.lame == before.lame + (if IsLame(p) then [s] else [])
             && lists.unresolvable == before.unresolvable + (if Lost(p) then [s] else [])
             && lists.failed == before.failed + (if Dead(p) then {s} else {})
    ensures Filed(lists, servers[..i + 1], probe)
  {
    WhereLast(servers, probe, Responds, i);
    WhereLast(servers, probe, IsLame, i);
    WhereLast(servers, probe, Lost, i);
    WhereLast(servers, probe, Dead, i);
  }

  lemma Outcome(lists: Lists, servers: seq<string>, probe: Prober)
    requires NoDuplicates(servers) && Filed(lists, servers, probe)
    ensures (|lists.failed| == |servers| && |lists.failed| > 0) <==> AllFail(servers, probe)
    ensures AllFail(servers, probe) ==> lists.failed == Elements(servers) && lists.responsive == []
    ensures (|lists.lame| > 0 || |lists.unresolvable| > 0) <==> Concern(servers, probe)
  {
    WhereMembers(servers, probe, Dead);
    FailedSet(lists.failed, servers, probe);
    WhereMembers(servers, probe, Responds);
    NoneResponds(lists.responsive, servers, probe);
    WhereMembers(servers, probe, IsLame);
    WhereMembers(servers, probe, Lost);
    Affected(lists.lame, lists.unresolvable, servers, probe);
  }

  lemma FailedSet(failed: set<string>, servers: seq<string>, probe: Prober)
    requires NoDuplicates(servers)
    requires forall s :: s in failed <==> s in servers && Dead(probe(s))
    ensures (|failed| == |servers| && |failed| > 0) <==> AllFail(servers, probe)
    ensures AllFail(servers, probe) ==> failed == Elements(servers)
  {
    DistinctSize(servers);
    assert failed <= Elements(servers);
    if |failed| == |servers| {
      SameSize(failed, Elements(servers));
      forall s | s in servers ensures Fails(probe(s)) {
        assert s in Elements(servers);
      }
    }
    if AllFail(servers, probe) {
      assert failed == Elements(servers);
    }
  }

  lemma NoneResponds(responsive: seq<string>, servers: seq<string>, probe: Prober)
    requires forall s :: s in responsive <==> s in servers && Responds(probe(s))
    ensures AllFail(servers, probe) ==> responsive == []
  {
    if responsive != [] {
      assert responsive[0] in responsive;
    }
  }

  lemma Affected(lame: seq<string>, lost: seq<string>, servers: seq<string>, probe: Prober)
    requires forall s :: s in lame <==> s in servers && IsLame(probe(s))
    requires forall s :: s in lost <==> s in servers && Lost(probe(s))
    ensures (|lame| > 0 || |lost| > 0) <==> Concern(servers, probe)
  {
    if |lame| > 0 {
      assert lame[0] in lame;
    }
    if |lost| > 0 {
      assert lost[0] in lost;
    }
  }

  lemma SameSize(a: set<string>, b: set<string>)
    requires a <= b && |a| == |b|
    ensures a == b
  {
    assert b == a + (b - a) && |b| == |a| + |b - a|;
  }

  // ---------------------------------------------------------------- from the parent to the candidate

  /** The whole collector, from the search for the zone cut to the verdict. It reports a takeover candidate
      exactly when the zone found meets the conditions. */
  method Investigate(dns: Dns, soa: Option<Cut>, cuts: seq<Cut>, cancelled: bool, probe: Prober)
    returns (zone: Option<Zone>, lists: Lists, findings: seq<Finding>, takeover: bool, provider: string, ghost cut: Cut)
    ensures zone.None? <==> cancelled || (soa.None? && NoCut(dns, cuts))
    ensures zone.Some? ==> StopsAt(dns, soa, cuts, cut) && ZoneOf(dns, cut, soa.None?, zone.value)
    ensures takeover <==> zone.Some? && IsCandidate(AsDelegation(zone.value), UniqueSorted(zone.value.nameservers), probe)
    ensures takeover ==> ClaimRests(dns, cut, Elements(zone.value.nameservers), probe, provider)
  {
    zone, cut := FindZone(dns, soa, cuts, cancelled);
    lists, findings, takeover, provider := Lists([], [], [], {}), [], false, "";
    if zone.None? {
      return;
    }
    lists, findings, takeover, provider := Collect(AsDelegation(zone.value), probe);
    if takeover {
      CandidateRests(dns, cut, soa.None?, zone.value, probe, provider);
    }
  }

  function AsDelegation(z: Zone): Delegation {
    Delegation(z.nameservers, z.parentVerified, z.dsChecked, z.hasDs)
  }

  /** What a takeover candidate rests on: all addresses of the parent's servers were asked and every view they
      gave publishes the same name servers; each of these fails, none answers for the zone, and all belong to
      one known provider; no response showed a DS record, and either all addresses were asked for it, with a
      successful response among theirs, or the recursive resolver says that there is none. */
  ghost predicate ClaimRests(dns: Dns, cut: Cut, names: set<string>, probe: Prober, provider: string) {
    && Confirmed(dns, cut, names)
    && (forall s | s in names :: Fails(probe(s)) && !Responds(probe(s)) && probe(s).provider == provider) && provider != ""
    && TakenAsAbsent(Heard(dns.ds(cut.zone), cut.dsServers), cut.zone, dns.ds(cut.zone).stop.None?, dns.recursive(cut.zone))
  }

  lemma CandidateRests(dns: Dns, cut: Cut, walked: bool, z: Zone, probe: Prober, provider: string)
    requires ZoneOf(dns, cut, walked, z)
    requires var servers := UniqueSorted(z.nameservers);
             IsCandidate(AsDelegation(z), servers, probe) && Uniform(servers, probe, provider)
    ensures ClaimRests(dns, cut, Elements(z.nameservers), probe, provider)
  {
    var names, servers := Elements(z.nameservers), UniqueSorted(z.nameservers);
    NoBlankName(dns, cut, names);
    forall s | s in names ensures Fails(probe(s)) && !Responds(probe(s)) && probe(s).provider == provider {
      assert s in Elements(servers);
    }
    var id :| id != "" && Uniform(servers, probe, id);
    assert servers[0] in servers;
    DsVerdictIs(Heard(dns.ds(cut.zone), cut.dsServers), cut.zone, dns.ds(cut.zone).stop.None?, dns.recursive(cut.zone));
  }

  lemma NoBlankName(dns: Dns, cut: Cut, names: set<string>)
    requires Confirmed(dns, cut, names)
    ensures "" !in names
  {
    var walk, delegation := dns.walk(cut.zone).exchange, dns.delegation(cut.zone).exchange;
    if VerifiedBy(walk, cut.walk, cut.zone, names) {
      var m :| m in Answers(walk, UniqueSorted(cut.walk)) && IsView(m);
      assert Published(m, cut.zone) == names;
    } else {
      var m :| m in Answers(delegation, UniqueSorted(cut.servers)) && IsView(m);
      assert Published(m, cut.zone) == names;
    }
  }
}
