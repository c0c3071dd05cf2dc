/** The zone cut above a host, and what the parent zone says of it: the delegation and the DS record. */
module ZoneCut {
  import opened Options
  import opened Names
  import opened ParentView

  /** A candidate for the apex. The addresses of the parent's servers are resolved afresh for the walk, for the
      delegation and for the DS record; `own` is what the recursive resolver lists for the zone itself. */
  datatype Cut = Cut(zone: string, hasParent: bool, walk: seq<string>, servers: seq<string>, dsServers: seq<string>,
                     own: seq<string>)

  /** A pass over the parent's addresses for one zone: what they answer, and when it is interrupted. */
  datatype Pass = Pass(exchange: Exchange, stop: Interruption)

  /** The passes for each zone: for its name servers during the walk and again for the details, for its DS record;
      and the recursive resolver's word on that record. */
  datatype Dns = Dns(walk: string -> Pass, delegation: string -> Pass, ds: string -> Pass, recursive: string -> Recursive)

  datatype Zone = Zone(zone: string, nameservers: seq<string>, glue: Glue, parentVerified: bool, dsChecked: bool, hasDs: bool)

  function Heard(pass: Pass, servers: seq<string>): seq<Msg> {
    Answers(pass.exchange, Asked(servers, pass.stop))
  }

  /** Nothing interrupted the pass and all views agree. */
  ghost predicate Agreed(pass: Pass, servers: seq<string>, wanted: string) {
    pass.stop.None? && Agree(Answers(pass.exchange, UniqueSorted(servers)), wanted)
  }

  /** The walk finds the cut at a candidate its parent confirms, or one the recursive resolver knows. */
  ghost predicate ParentConfirms(dns: Dns, cut: Cut) {
    cut.hasParent && Agreed(dns.walk(cut.zone), cut.walk, cut.zone)
  }

  ghost predicate IsCut(dns: Dns, cut: Cut) {
    ParentConfirms(dns, cut) || cut.own != []
  }

  /** The cut the search stops at: the owner of the SOA record, or the first candidate that is a cut. */
  ghost predicate StopsAt(dns: Dns, soa: Option<Cut>, cuts: seq<Cut>, cut: Cut) {
    soa == Some(cut) ||
    (soa.None? && exists k :: 0 <= k < |cuts| && cuts[k] == cut && IsCut(dns, cut) && NoCut(dns, cuts[..k]))
  }

  ghost function CutTest(dns: Dns): Cut -> bool {
    (cut: Cut) => IsCut(dns, cut)
  }

  ghost predicate NoneIs(cuts: seq<Cut>, test: Cut -> bool) {
    forall j | 0 <= j < |cuts| :: !test(cuts[j])
  }

  ghost predicate NoCut(dns: Dns, cuts: seq<Cut>) {
    NoneIs(cuts, CutTest(dns))
  }

  /** A complete pass over the parent's addresses found these name servers in every view. */
  ghost predicate Confirmed(dns: Dns, cut: Cut, names: set<string>) {
    && cut.hasParent
    && (|| VerifiedBy(dns.walk(cut.zone).exchange, cut.walk, cut.zone, names)
        || VerifiedBy(dns.delegation(cut.zone).exchange, cut.servers, cut.zone, names))
  }

  /** The name servers of the cut: those the walk confirmed, else those the parent publishes, else those of the zone. */
  ghost function ServersOf(dns: Dns, cut: Cut, walked: bool): set<string> {
    if walked && ParentConfirms(dns, cut) then AllPublished(Heard(dns.walk(cut.zone), cut.walk), cut.zone)
    else
      var published := AllPublished(Heard(dns.delegation(cut.zone), cut.servers), cut.zone);
      if cut.hasParent && published != {} then published else Elements(cut.own) - {""}
  }

  /** The addresses published with the delegation. */
  ghost function AddressesOf(dns: Dns, cut: Cut, walked: bool, server: string): set<string> {
    if walked && ParentConfirms(dns, cut) then GlueOf(Heard(dns.walk(cut.zone), cut.walk), cut.zone, server)
    else if cut.hasParent then GlueOf(Heard(dns.delegation(cut.zone), cut.servers), cut.zone, server)
    else {}
  }

  ghost function DsOf(dns: Dns, cut: Cut): (bool, bool) {
    var pass := dns.ds(cut.zone);
    if cut.hasParent then DsVerdict(Heard(pass, cut.dsServers), cut.zone, pass.stop.None?, dns.recursive(cut.zone))
    else (false, false)
  }

  /** What is known of the zone at a cut; `walked` says that the search had to ask the parents for it. */
  ghost predicate ZoneOf(dns: Dns, cut: Cut, walked: bool, z: Zone) {
    && z.zone == cut.zone
    && Sorted(z.nameservers) && NoDuplicates(z.nameservers) && Elements(z.nameservers) == ServersOf(dns, cut, walked)
    && (forall server :: Elements(At(z.glue, server)) == AddressesOf(dns, cut, walked, server))
    && (z.parentVerified <==>
          || (walked && ParentConfirms(dns, cut))
          || (cut.hasParent && Agreed(dns.delegation(cut.zone), cut.servers, cut.zone)))
    && (z.parentVerified ==> Confirmed(dns, cut, Elements(z.nameservers)))
    && (z.hasDs, z.dsChecked) == DsOf(dns, cut)
  }

  lemma SameNames(exchange: Exchange, servers: seq<string>, wanted: string, names: seq<string>)
    requires VerifiedBy(exchange, servers, wanted, Elements(names))
    ensures Elements(UniqueSorted(names)) == Elements(names)
  {
    var m :| m in Answers(exchange, UniqueSorted(servers)) && IsView(m);
    assert Published(m, wanted) == Elements(names);
  }

  /** A delegation and its glue as some pass found them. */
  ghost predicate Learned(pass: Pass, servers: seq<string>, wanted: string, names: seq<string>, glue: Glue) {
    && Elements(names) == AllPublished(Heard(pass, servers), wanted)
    && forall server :: Elements(At(glue, server)) == GlueOf(Heard(pass, servers), wanted, server)
  }

  /** What the walk brings along: the delegation its parent confirmed, if any. */
  ghost predicate BroughtAlong(dns: Dns, cut: Cut, walked: bool, discovered: Option<(seq<string>, Glue)>) {
    && (discovered.Some? <==> walked && ParentConfirms(dns, cut))
    && (discovered.Some? ==>
          && Learned(dns.walk(cut.zone), cut.walk, cut.zone, discovered.value.0, discovered.value.1)
          && VerifiedBy(dns.walk(cut.zone).exchange, cut.walk, cut.zone, Elements(discovered.value.0)))
  }

  /** The details of a zone; a delegation that the walk already verified is not looked up again. */
  method BuildZone(dns: Dns, cut: Cut, ghost walked: bool, discovered: Option<(seq<string>, Glue)>) returns (z: Zone)
    requires BroughtAlong(dns, cut, walked, discovered)
    ensures ZoneOf(dns, cut, walked, z)
  {
    var names, glue, verified, hasDs, checked := cut.own, map[], discovered.Some?, false, false;
    if discovered.Some? {
      names, glue := discovered.value.0, discovered.value.1;
      SameNames(dns.walk(cut.zone).exchange, cut.walk, cut.zone, names);
    }
    if cut.hasParent {
      if !verified {
        names, glue, verified := Delegation(dns, cut);
      }
      var pass := dns.ds(cut.zone);
      hasDs, checked := ParentDs(pass.exchange, cut.dsServers, cut.zone, dns.recursive(cut.zone), pass.stop);
    }
    z := Zone(cut.zone, UniqueSorted(names), glue, verified, checked, hasDs);
  }

  /** The delegation the parent publishes now; without any the zone's own list stands. */
  method Delegation(dns: Dns, cut: Cut) returns (names: seq<string>, glue: Glue, verified: bool)
    requires cut.hasParent
    ensures Elements(names) - {""} == ServersOf(dns, cut, false)
    ensures forall server :: Elements(At(glue, server)) == AddressesOf(dns, cut, false, server)
    ensures verified <==> Agreed(dns.delegation(cut.zone), cut.servers, cut.zone)
    ensures verified ==> Confirmed(dns, cut, Elements(UniqueSorted(names)))
  {
    var pass := dns.delegation(cut.zone);
    var delegated;
    delegated, glue, verified := LookupDelegation(pass.exchange, cut.servers, cut.zone, pass.stop);
    names := if |delegated| > 0 then delegated else cut.own;
    NamesArePublished(Heard(pass, cut.servers), cut.zone, delegated);
    if verified {
      SameNames(pass.exchange, cut.servers, cut.zone, names);
    }
  }

  lemma NamesArePublished(responses: seq<Msg>, wanted: string, names: seq<string>)
    requires Elements(names) == AllPublished(responses, wanted)
    ensures Elements(names) - {""} == AllPublished(responses, wanted) && (names == [] <==> AllPublished(responses, wanted) == {})
  {
    if names != [] {
      assert names[0] in Elements(names);
    }
  }

  /** The search for the zone of a host. It fails exactly when it is cancelled or there is no SOA record and no
      candidate is a cut. */
  method FindZone(dns: Dns, soa: Option<Cut>, cuts: seq<Cut>, cancelled: bool) returns (found: Option<Zone>, ghost cut: Cut)
    ensures found.None? <==> cancelled || (soa.None? && NoCut(dns, cuts))
    ensures found.Some? ==> StopsAt(dns, soa, cuts, cut) && ZoneOf(dns, cut, soa.None?, found.value)
  {
    var chosen, discovered := soa, None;
    if soa.None? {
      chosen, discovered := Walk(dns, cuts);
    }
    cut := Cut("", false, [], [], [], []);
    if chosen.None? {
      return None, cut;
    }
    cut := chosen.value;
    var z := BuildZone(dns, chosen.value, soa.None?, discovered);
    found := if cancelled then None else Some(z);
  }

  lemma StopsHere(dns: Dns, cuts: seq<Cut>, i: nat)
    requires i < |cuts| && NoCut(dns, cuts[..i]) && IsCut(dns, cuts[i])
    ensures StopsAt(dns, None, cuts, cuts[i]) && !NoCut(dns, cuts)
  {
  }

  lemma GoesOn(dns: Dns, cuts: seq<Cut>, i: nat)
    requires i < |cuts| && NoCut(dns, cuts[..i]) && !IsCut(dns, cuts[i])
    ensures NoCut(dns, cuts[..i + 1])
  {
    NoneFurther(cuts, i, CutTest(dns));
  }

  lemma NoneFurther(cuts: seq<Cut>, i: nat, test: Cut -> bool)
    requires i < |cuts| && NoneIs(cuts[..i], test) && !test(cuts[i])
    ensures NoneIs(cuts[..i + 1], test)
  {
  }

  /** Climbs from the host to the first candidate that is a cut. */
  method Walk(dns: Dns, cuts: seq<Cut>) returns (chosen: Option<Cut>, discovered: Option<(seq<string>, Glue)>)
    ensures chosen.None? <==> NoCut(dns, cuts)
    ensures chosen.Some? ==> StopsAt(dns, None, cuts, chosen.value) && BroughtAlong(dns, chosen.value, true, discovered)
  {
    var i := 0;
    while i < |cuts|
      invariant i <= |cuts| && NoCut(dns, cuts[..i])
    {
      var isCut;
      isCut, discovered := TryCut(dns, cuts[i]);
      if isCut {
        StopsHere(dns, cuts, i);
        return Some(cuts[i]), discovered;
      }
      GoesOn(dns, cuts, i);
      i := i + 1;
    }
    assert cuts[..i] == cuts;
    chosen, discovered := None, None;
  }

  method TryCut(dns: Dns, cut: Cut) returns (isCut: bool, discovered: Option<(seq<string>, Glue)>)
    ensures isCut <==> IsCut(dns, cut)
    ensures BroughtAlong(dns, cut, true, discovered)
  {
    discovered := None;
    if cut.hasParent {
      var pass := dns.walk(cut.zone);
      var delegated, glue, verified := LookupDelegation(pass.exchange, cut.walk, cut.zone, pass.stop);
      if verified {
        discovered := Some((delegated, glue));
      }
    }
    isCut := discovered.Some? || cut.own != [];
  }
}
