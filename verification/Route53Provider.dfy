/** The Route 53 claim adapter over an account whose calls may fail, against the provider contract. Hosted
    zones are identified by the caller reference derived from the attempt's token, and recovery pages
    through the zones of one name. */
module Route53Provider {
  import opened Options
  import opened Sequences
  import opened ClaimProtocol
  import opened Labels
  import opened Names
  import opened ProviderContract

  const PROVIDER := "aws_route53"

  /** `reference` is the caller reference; names are normalized. */
  datatype Zone = Zone(id: string, name: string, reference: string)

  function CallerReference(token: string): string {
    "subdomainabber-" + token
  }

  // ---------------------------------------------------------------- name server sets

  function TrimDots(s: string): string
    decreases |s|
  {
    if s != [] && s[0] == '.' then TrimDots(s[1..])
    else if s != [] && s[|s| - 1] == '.' then TrimDots(s[..|s| - 1])
    else s
  }

  function CleanServer(item: string): string {
    Lower(TrimDots(TrimSpace(item)))
  }

  /** The cleaned, non-empty items in order. */
  function CleanServers(items: seq<string>): seq<string> {
    if items == [] then []
    else (if CleanServer(items[0]) == "" then [] else [CleanServer(items[0])]) + CleanServers(items[1..])
  }

  function SplitNameservers(value: string): seq<string> {
    Sort(CleanServers(Split(value, ',')))
  }

  predicate SameNameserverSet(left: seq<string>, right: seq<string>) {
    var a, b := SplitNameservers(Join(left, ',')), SplitNameservers(Join(right, ','));
    a != [] && |a| == |b| && forall i | 0 <= i < |a| :: a[i] == b[i]
  }

  /** The comma-separated pieces of all items. */
  function Pieces(items: seq<string>): seq<string> {
    if items == [] then [] else Split(items[0], ',') + Pieces(items[1..])
  }

  lemma {:induction false} CleanConcat(a: seq<string>, b: seq<string>)
    ensures CleanServers(a + b) == CleanServers(a) + CleanServers(b)
  {
    if a == [] {
      assert a + b == b;
    } else {
      assert (a + b)[1..] == a[1..] + b;
      CleanConcat(a[1..], b);
    }
  }

  lemma NoItems()
    ensures CleanServers(Split(Join([], ','), ',')) == CleanServers(Pieces([]))
  {
    assert CleanServer("") == "";
    assert [""][1..] == [];
  }

  /** Joining items with commas and splitting again yields their pieces. */
  lemma {:induction false} JoinedItems(items: seq<string>)
    ensures CleanServers(Split(Join(items, ','), ',')) == CleanServers(Pieces(items))
  {
    if items == [] {
      NoItems();
    } else if |items| == 1 {
      assert items[1..] == [] && Join(items, ',') == items[0];
      assert Pieces(items) == Split(items[0], ',') + Pieces([]);
      assert Split(items[0], ',') + [] == Split(items[0], ',');
    } else {
      JoinedItems(items[1..]);
      SplitConcat(items[0], Join(items[1..], ','), ',');
      CleanConcat(Split(items[0], ','), Split(Join(items[1..], ','), ','));
      CleanConcat(Split(items[0], ','), Pieces(items[1..]));
    }
  }

  /** Both lists name the same servers, each as often, and at least one. */
  predicate SameServers(left: seq<string>, right: seq<string>) {
    CleanServers(Pieces(left)) != [] && multiset(CleanServers(Pieces(left))) == multiset(CleanServers(Pieces(right)))
  }

  /** Two server lists agree exactly when they hold the same cleaned names, each as often, and at least one;
      order, case, blanks and outer dots do not matter, and an item may hold several names between commas. */
  lemma SameNameserverSetIsMultisetEquality(left: seq<string>, right: seq<string>)
    ensures SameNameserverSet(left, right) <==> SameServers(left, right)
  {
    JoinedItems(left);
    JoinedItems(right);
    SameSorted(CleanServers(Pieces(left)), CleanServers(Pieces(right)));
  }

  lemma SameSorted(a: seq<string>, b: seq<string>)
    ensures (Sort(a) != [] && |Sort(a)| == |Sort(b)| && forall i | 0 <= i < |Sort(a)| :: Sort(a)[i] == Sort(b)[i])
            <==> a != [] && multiset(a) == multiset(b)
  {
    var x, y := Sort(a), Sort(b);
    assert |x| == |multiset(x)| == |multiset(a)| == |a|;
    SortDecidesMultisets(a, b);
  }

  // ---------------------------------------------------------------- the account

  predicate DistinctIds(zones: seq<Zone>) {
    && (forall i, j | 0 <= i < j < |zones| :: zones[i].id != zones[j].id)
    && (forall zone | zone in zones :: zone.id != "")
  }

  /** Zones of one name stand together in listing order. */
  predicate Grouped(zones: seq<Zone>) {
    forall i, j, k | 0 <= i < j < k < |zones| && zones[i].name == zones[k].name :: zones[j].name == zones[i].name
  }

  function Without(zones: seq<Zone>, i: nat): seq<Zone>
    requires i < |zones|
  {
    zones[..i] + zones[i + 1..]
  }

  function With(zones: seq<Zone>, at: nat, zone: Zone): seq<Zone>
    requires at <= |zones|
  {
    zones[..at] + [zone] + zones[at..]
  }

  /** What the engine sees live: every zone, with its caller reference. */
  function Live(zones: seq<Zone>): map<Resource, string>
    requires DistinctIds(zones)
  {
    map zone | zone in zones :: Resource(PROVIDER, zone.id) := zone.reference
  }

  predicate Absent(zones: seq<Zone>, reference: string) {
    forall zone | zone in zones :: zone.reference != reference
  }

  /** A search in progress: it began at `first`, goes on at `at` with the cursor, and passed no zone of the
      attempt. */
  predicate Searching(zones: seq<Zone>, name: string, reference: string, cursor: Option<string>, first: nat, at: nat) {
    && first <= at <= |zones|
    && (cursor.None? ==> first == at == 0)
    && (cursor.Some? ==> at < |zones| && zones[at].id == cursor.value && StartOfName(zones, name, first))
    && forall i | 0 <= i < at :: zones[i].reference != reference
  }

  datatype Page = Page(zones: seq<Zone>, next: Option<string>)

  /** A page of the listing from position `from`; `next` is the first zone of the rest. */
  predicate PageFrom(zones: seq<Zone>, page: Page, from: nat) {
    var end := from + |page.zones|;
    && end <= |zones|
    && page.zones == zones[from..end]
    && (page.next.None? <==> end == |zones|)
    && (page.next.Some? ==> |page.zones| > 0 && page.next.value == zones[end].id)
  }

  /** A listing by name starts at the first zone of that name, or anywhere when there is none. */
  predicate StartOfName(zones: seq<Zone>, name: string, from: nat) {
    && from <= |zones|
    && (forall i | 0 <= i < from :: zones[i].name != name)
    && (from == |zones| || zones[from].name == name || forall zone | zone in zones :: zone.name != name)
  }

  datatype Call =
    | CreateCall(name: string, reference: string, ok: bool, id: string, servers: seq<string>)
    | GetCall(id: string, ok: bool)
    | ListCall(name: string, cursor: Option<string>, ok: bool)
    | DeleteCall(id: string, ok: bool)

  predicate SomeFailed(calls: seq<Call>) {
    exists c :: c in calls && !c.ok
  }

  lemma FailsFurther(calls: seq<Call>, more: seq<Call>)
    ensures SomeFailed(calls + more) <==> SomeFailed(calls) || SomeFailed(more)
  {
    if c :| c in calls && !c.ok {
      assert c in calls + more;
    }
    if c :| c in more && !c.ok {
      assert c in calls + more;
    }
  }

  lemma FailsOne(c: Call)
    ensures SomeFailed([c]) <==> !c.ok
  {
    assert c in [c];
  }

  /** Hosted zones in listing order, and the calls made to the account. A failing call changes nothing. */
  class Account {
    var zones: seq<Zone>
    ghost var calls: seq<Call>

    ghost predicate Valid()
      reads this
    {
      DistinctIds(zones) && Grouped(zones)
    }

    /** Creates a zone unless its caller reference was used; the reply may lack the identifier. */
    method CreateHostedZone(name: string, reference: string) returns (ok: bool, id: string, servers: seq<string>, ghost made: Zone)
      requires Valid()
      modifies this
      ensures Valid()
      ensures !ok ==> zones == old(zones)
      ensures ok ==> Absent(old(zones), reference) && made.name == name && made.reference == reference && (id == "" || id == made.id)
      ensures ok ==> exists at :: 0 <= at <= |old(zones)| && zones == With(old(zones), at, made)
      ensures ok ==> forall zone | zone in old(zones) :: zone.id != made.id
      ensures calls == old(calls) + [CreateCall(name, reference, ok, id, servers)]
    {
      var newId: string, named: bool, position: nat := *, *, *;
      ok, servers := *, *;
      made, id := Zone(newId, name, reference), "";
      var at := if position <= |zones| then position else |zones|;
      if !ok || newId == "" || (exists zone | zone in zones :: zone.reference == reference || zone.id == newId)
         || !Grouped(With(zones, at, Zone(newId, name, reference))) {
        ok := false;
        calls := calls + [CreateCall(name, reference, ok, id, servers)];
        return;
      }
      zones := With(zones, at, Zone(newId, name, reference));
      id := if named then newId else "";
      calls := calls + [CreateCall(name, reference, ok, id, servers)];
    }

    method GetHostedZone(id: string) returns (ok: bool, servers: seq<string>)
      modifies this`calls
      ensures calls == old(calls) + [GetCall(id, ok)]
    {
      ok, servers := *, *;
      calls := calls + [GetCall(id, ok)];
    }

    /** One page of at most 100 zones, from the first zone of `name` or from the zone `id`. */
    method ListHostedZonesByName(name: string, id: Option<string>) returns (ok: bool, page: Page, ghost from: nat)
      requires Valid() && (id.Some? ==> exists zone :: zone in zones && zone.id == id.value)
      modifies this`calls
      ensures calls == old(calls) + [ListCall(name, id, ok)]
      ensures ok ==> PageFrom(zones, page, from)
      ensures ok && id.Some? ==> from < |zones| && zones[from].id == id.value
      ensures ok && id.None? ==> StartOfName(zones, name, from)
    {
      ok := *;
      page, from := Page([], None), 0;
      calls := calls + [ListCall(name, id, ok)];
      if !ok {
        return;
      }
      var start, elsewhere: nat := 0, *;
      while start < |zones| && !(if id.Some? then zones[start].id == id.value else zones[start].name == name)
        invariant 0 <= start <= |zones|
        invariant forall i | 0 <= i < start :: !(if id.Some? then zones[i].id == id.value else zones[i].name == name)
      {
        start := start + 1;
      }
      if start == |zones| && elsewhere < |zones| {
        start := elsewhere;
      }
      from := start;
      var end := if start + 100 <= |zones| then start + 100 else |zones|;
      page := Page(zones[start..end], if end < |zones| then Some(zones[end].id) else None);
    }

    /** Deleting a zone that is not there is an error. */
    method DeleteHostedZone(id: string) returns (ok: bool)
      requires Valid()
      modifies this
      ensures Valid()
      ensures !ok ==> zones == old(zones)
      ensures ok ==> exists i :: 0 <= i < |old(zones)| && old(zones)[i].id == id && zones == Without(old(zones), i)
      ensures calls == old(calls) + [DeleteCall(id, ok)]
    {
      ok := *;
      if ok {
        ok := RemoveZone(id);
      }
      calls := calls + [DeleteCall(id, ok)];
    }

    method RemoveZone(id: string) returns (found: bool)
      requires Valid()
      modifies this`zones
      ensures Valid()
      ensures !found ==> zones == old(zones)
      ensures found ==> exists i :: 0 <= i < |old(zones)| && old(zones)[i].id == id && zones == Without(old(zones), i)
    {
      for i := 0 to |zones|
        invariant zones == old(zones)
        invariant forall j | 0 <= j < i :: zones[j].id != id
      {
        if zones[i].id == id {
          zones := Without(zones, i);
          return true;
        }
      }
      found := false;
    }
  }

  // ---------------------------------------------------------------- the adapter

  class Provider {
    const client: Account

    constructor (client: Account)
      ensures this.client == client
    {
      this.client := client;
    }

    /** Creates the zone and keeps it exactly when the servers assigned to it are the delegated ones. `given`
        is what the account reports of the created zone. */
    method Claim(zone: string, delegatedServers: string, token: string)
      returns (report: Report, ghost given: Option<seq<string>>, ghost calls: seq<Call>)
      requires client.Valid()
      modifies client
      ensures client.Valid()
      ensures ClaimMeets(old(Live(client.zones)), Live(client.zones), PROVIDER, CallerReference(token), report)
      ensures client.calls == old(client.calls) + calls
      ensures ClaimCalls(NormalizeHost(zone), SplitNameservers(delegatedServers), CallerReference(token), calls, report)
      ensures NormalizeHost(zone) == "" || SplitNameservers(delegatedServers) == [] ==> report.Rejected?
      ensures report.Rejected? ==> client.zones == old(client.zones)
      ensures given.None? ==> report.Rejected?
      ensures given.Some? && !report.Anonymous? ==>
                (report.Accepted? <==> SameServers(SplitNameservers(delegatedServers), given.value))
      ensures forall z | z in client.zones :: z in old(client.zones) ||
                (z.reference == CallerReference(token) && z.name == NormalizeHost(zone))
      ensures forall z | z in old(client.zones) :: z in client.zones
    {
      var name, delegated := NormalizeHost(zone), SplitNameservers(delegatedServers);
      report, given, calls := Rejected, None, [];
      if name != "" && delegated != [] {
        ghost var made;
        report, given, calls, made := ClaimZone(name, delegated, CallerReference(token));
        if !report.Rejected? {
          InsertedMeets(old(client.zones), client.zones, made, report);
        }
      }
    }

    method ClaimZone(name: string, delegated: seq<string>, reference: string)
      returns (report: Report, ghost given: Option<seq<string>>, ghost calls: seq<Call>, ghost made: Zone)
      requires client.Valid() && name != "" && delegated != []
      modifies client
      ensures client.Valid() && client.calls == old(client.calls) + calls
      ensures ClaimCalls(name, delegated, reference, calls, report)
      ensures if report.Rejected? then client.zones == old(client.zones)
              else
                && made.name == name && made.reference == reference && Inserted(old(client.zones), client.zones, made)
                && (report == Accepted(made.id) || report == Partial(made.id) || report.Anonymous?)
      ensures given.None? ==> report.Rejected?
      ensures given.Some? && !report.Anonymous? ==> (report.Accepted? <==> SameServers(delegated, given.value))
    {
      report, given := Rejected, None;
      var ok, id, servers;
      ok, id, servers, made := client.CreateHostedZone(name, reference);
      calls := [CreateCall(name, reference, ok, id, servers)];
      if !ok {
        return;
      }
      given := Some(servers);
      if id == "" {
        return Anonymous, given, calls, made;
      }
      ghost var more;
      report, more := KeepOrDelete(delegated, servers, id, made, old(client.zones));
      calls := calls + more;
    }

    /** The zone stays for the delegated servers; otherwise it is deleted again. */
    method KeepOrDelete(delegated: seq<string>, servers: seq<string>, id: string, ghost made: Zone, ghost before: seq<Zone>)
      returns (report: Report, ghost calls: seq<Call>)
      requires client.Valid() && id == made.id
      requires Inserted(before, client.zones, made)
      modifies client
      ensures client.Valid() && client.calls == old(client.calls) + calls
      ensures KeptOrDeleted(delegated, servers, id, calls, report)
      ensures client.zones == if report.Rejected? then before else old(client.zones)
    {
      calls := [];
      SameNameserverSetIsMultisetEquality(delegated, servers);
      if SameNameserverSet(delegated, servers) {
        return Accepted(id), [];
      }
      var cleaned := client.DeleteHostedZone(id);
      calls := [DeleteCall(id, cleaned)];
      if !cleaned {
        return Partial(id), calls;
      }
      report := Rejected;
      ZoneUndone(before, old(client.zones), client.zones, made);
    }

    /** Pages through the zones of the attempt's name, looking for its caller reference. The answer is unknown exactly
        for an incomplete request or after a failed call. */
    method RecoverClaim(zone: string, token: string) returns (answer: Recovery, ghost calls: seq<Call>)
      requires client.Valid()
      requires forall z | z in client.zones && z.reference == CallerReference(token) :: z.name == NormalizeHost(zone)
      modifies client`calls
      ensures RecoverMeets(Live(client.zones), PROVIDER, CallerReference(token), answer)
      ensures client.calls == old(client.calls) + calls
      ensures answer.Unknown? <==> NormalizeHost(zone) == "" || token == "" || SomeFailed(calls)
    {
      var name, reference := NormalizeHost(zone), CallerReference(token);
      calls := [];
      if name == "" || token == "" {
        return Unknown, [];
      }
      ghost var zones := client.zones;
      var cursor: Option<string> := None;
      ghost var first: nat, at: nat := 0, 0;
      while true
        invariant client.zones == zones && client.Valid() && Searching(zones, name, reference, cursor, first, at)
        invariant client.calls == old(client.calls) + calls && !SomeFailed(calls)
        decreases |zones| - at
      {
        var verdict, next;
        ghost var more;
        verdict, next, first, at, more := TakePage(name, reference, cursor, first, at);
        FailsFurther(calls, more);
        Regroup(old(client.calls), calls, more);
        calls := calls + more;
        if verdict.Some? {
          return verdict.value, calls;
        }
        cursor := Some(next);
      }
    }

    /** Fetches the next page and looks through it; without a verdict there is another page. */
    method TakePage(name: string, reference: string, cursor: Option<string>, ghost first: nat, ghost at: nat)
      returns (verdict: Option<Recovery>, next: string, ghost start: nat, ghost end: nat, ghost calls: seq<Call>)
      requires client.Valid() && Searching(client.zones, name, reference, cursor, first, at)
      requires forall z | z in client.zones && z.reference == reference :: z.name == name
      modifies client`calls
      ensures verdict.Some? ==> RecoverMeets(Live(client.zones), PROVIDER, reference, verdict.value)
      ensures verdict.None? ==> Searching(client.zones, name, reference, Some(next), start, end) && end > at
      ensures client.calls == old(client.calls) + calls && (SomeFailed(calls) <==> verdict == Some(Unknown))
    {
      start, end, next := first, at, "";
      var ok, page, from := client.ListHostedZonesByName(name, cursor);
      calls := [ListCall(name, cursor, ok)];
      FailsOne(calls[0]);
      if !ok {
        return Some(Unknown), next, start, end, calls;
      }
      if cursor.None? {
        start := from;
        BeforeName(client.zones, name, reference, from);
      } else {
        assert from == at;
      }
      ghost var more;
      verdict, more := ScanPage(page.zones, name, reference, client.zones, start, from);
      FailsFurther(calls, more);
      calls := calls + more;
      end := from + |page.zones|;
      if verdict.None? {
        if page.next.None? {
          NoneLiveWith(client.zones, reference);
          return Some(NotFound), next, start, end, calls;
        }
        next := page.next.value;
      }
    }

    /** Looks through one page: a zone with another name ends the search, the attempt's own zone settles it. */
    method ScanPage(page: seq<Zone>, name: string, reference: string, ghost zones: seq<Zone>, ghost first: nat, ghost from: nat)
      returns (verdict: Option<Recovery>, ghost calls: seq<Call>)
      requires DistinctIds(zones) && Grouped(zones) && StartOfName(zones, name, first)
      requires first <= from && from + |page| <= |zones| && page == zones[from..from + |page|]
      requires forall z | z in zones && z.reference == reference :: z.name == name
      requires forall j | 0 <= j < from :: zones[j].reference != reference
      modifies client`calls
      ensures verdict.Some? ==> RecoverMeets(Live(zones), PROVIDER, reference, verdict.value)
      ensures verdict.None? ==> forall j | 0 <= j < from + |page| :: zones[j].reference != reference
      ensures client.calls == old(client.calls) + calls && (SomeFailed(calls) <==> verdict == Some(Unknown))
    {
      verdict, calls := None, [];
      var i := 0;
      while i < |page|
        invariant 0 <= i <= |page| && client.calls == old(client.calls)
        invariant forall j | 0 <= j < from + i :: zones[j].reference != reference
      {
        if page[i].name != name {
          PastName(zones, name, reference, first, from + i);
          NoneLiveWith(zones, reference);
          return Some(NotFound), [];
        }
        if page[i].reference == reference {
          var found, _ := client.GetHostedZone(page[i].id);
          calls := [GetCall(page[i].id, found)];
          FailsOne(calls[0]);
          if !found {
            return Some(Unknown), calls;
          }
          LiveAt(zones, page[i]);
          return Some(Found(page[i].id)), calls;
        }
        i := i + 1;
      }
    }

    /** A zone that is not there cannot be released. The deletion alone decides. */
    method Release(id: string) returns (ok: bool, ghost calls: seq<Call>)
      requires client.Valid()
      modifies client
      ensures client.Valid()
      ensures ReleaseMeets(old(Live(client.zones)), Live(client.zones), PROVIDER, id, ok)
      ensures client.calls == old(client.calls) + calls
      ensures if id == "" then calls == [] && !ok else calls == [DeleteCall(id, ok)]
      ensures ok ==> exists z :: z in old(client.zones) && z.id == id
      ensures forall z | z in old(client.zones) && z.id != id :: z in client.zones
    {
      if id == "" {
        return false, [];
      }
      ok := client.DeleteHostedZone(id);
      calls := [DeleteCall(id, ok)];
      if ok {
        ZoneRemoved(old(client.zones), client.zones, id);
      }
    }
  }

  ghost predicate Inserted(before: seq<Zone>, after: seq<Zone>, made: Zone) {
    exists at :: 0 <= at <= |before| && after == With(before, at, made)
  }

  lemma InsertedMeets(before: seq<Zone>, after: seq<Zone>, made: Zone, report: Report)
    requires DistinctIds(before) && DistinctIds(after) && Inserted(before, after, made)
    requires report == Accepted(made.id) || report == Partial(made.id) || report.Anonymous?
    ensures ClaimMeets(Live(before), Live(after), PROVIDER, made.reference, report)
    ensures forall z :: z in after <==> z in before || z == made
  {
    ZoneAdded(before, after, made);
  }

  ghost predicate KeptOrDeleted(delegated: seq<string>, servers: seq<string>, id: string, calls: seq<Call>, report: Report) {
    if SameServers(delegated, servers) then calls == [] && report == Accepted(id)
    else |calls| == 1 && calls[0] == DeleteCall(id, calls[0].ok) && report == if calls[0].ok then Rejected else Partial(id)
  }

  ghost predicate AfterCreate(delegated: seq<string>, created: Call, calls: seq<Call>, report: Report)
    requires created.CreateCall?
  {
    if !created.ok then calls == [] && report.Rejected?
    else if created.id == "" then calls == [] && report.Anonymous?
    else KeptOrDeleted(delegated, created.servers, created.id, calls, report)
  }

  /** A claim creates the zone and gives it up again if its servers are not the delegated ones; the replies decide the
      report. */
  ghost predicate ClaimCalls(name: string, delegated: seq<string>, reference: string, calls: seq<Call>, report: Report) {
    if name == "" || delegated == [] then calls == [] && report.Rejected?
    else
      && calls != [] && calls[0].CreateCall? && calls[0].name == name && calls[0].reference == reference
      && AfterCreate(delegated, calls[0], calls[1..], report)
  }

  // ---------------------------------------------------------------- proofs

  lemma LiveAt(zones: seq<Zone>, zone: Zone)
    requires DistinctIds(zones) && zone in zones
    ensures Resource(PROVIDER, zone.id) in Live(zones) && Live(zones)[Resource(PROVIDER, zone.id)] == zone.reference
  {
  }

  lemma NoneLiveWith(zones: seq<Zone>, reference: string)
    requires DistinctIds(zones) && Absent(zones, reference)
    ensures forall res | res in Live(zones) :: Live(zones)[res] != reference
  {
  }

  lemma WithMembers(zones: seq<Zone>, at: nat, zone: Zone)
    requires at <= |zones|
    ensures forall z :: z in With(zones, at, zone) <==> z in zones || z == zone
  {
    assert zones == zones[..at] + zones[at..];
  }

  lemma FreshId(zones: seq<Zone>, at: nat, zone: Zone)
    requires at <= |zones| && DistinctIds(With(zones, at, zone))
    ensures forall z | z in zones :: z.id != zone.id
  {
    var grown := With(zones, at, zone);
    assert grown[at] == zone;
    forall z | z in zones ensures z.id != zone.id {
      var j :| 0 <= j < |zones| && zones[j] == z;
      assert z == grown[if j < at then j else j + 1];
    }
  }

  lemma LiveKeys(zones: seq<Zone>, res: Resource)
    requires DistinctIds(zones)
    ensures res in Live(zones) <==> exists z :: z in zones && res == Resource(PROVIDER, z.id)
  {
  }

  lemma SameLive(zones: seq<Zone>, table: map<Resource, string>)
    requires DistinctIds(zones)
    requires forall res :: res in table <==> exists z :: z in zones && res == Resource(PROVIDER, z.id)
    requires forall z | z in zones :: Resource(PROVIDER, z.id) in table && table[Resource(PROVIDER, z.id)] == z.reference
    ensures Live(zones) == table
  {
    forall z | z in zones ensures Live(zones)[Resource(PROVIDER, z.id)] == z.reference {
      LiveAt(zones, z);
    }
  }

  lemma ZoneAdded(before: seq<Zone>, after: seq<Zone>, made: Zone)
    requires DistinctIds(before) && DistinctIds(after)
    requires exists at :: 0 <= at <= |before| && after == With(before, at, made)
    ensures Added(Live(before), Live(after), PROVIDER, made.id, made.reference)
    ensures forall z :: z in after <==> z in before || z == made
  {
    var at :| 0 <= at <= |before| && after == With(before, at, made);
    WithMembers(before, at, made);
    FreshId(before, at, made);
    ZoneJoins(before, after, made);
  }

  lemma ZoneJoins(before: seq<Zone>, after: seq<Zone>, made: Zone)
    requires DistinctIds(before) && DistinctIds(after) && made.id != ""
    requires forall z :: z in after <==> z in before || z == made
    requires forall z | z in before :: z.id != made.id
    ensures Added(Live(before), Live(after), PROVIDER, made.id, made.reference)
  {
    var grown := Live(before)[Resource(PROVIDER, made.id) := made.reference];
    LiveKeys(before, Resource(PROVIDER, made.id));
    forall res ensures res in grown <==> exists z :: z in after && res == Resource(PROVIDER, z.id) {
      LiveKeys(before, res);
      LiveKeys(after, res);
      assert made in after;
    }
    forall z | z in after ensures Resource(PROVIDER, z.id) in grown && grown[Resource(PROVIDER, z.id)] == z.reference {
      if z != made {
        LiveAt(before, z);
      }
    }
    SameLive(after, grown);
  }

  lemma Rebuilt(zones: seq<Zone>, i: nat)
    requires i < |zones|
    ensures zones == With(Without(zones, i), i, zones[i])
  {
    var rest := Without(zones, i);
    assert rest[..i] == zones[..i] && rest[i..] == zones[i + 1..];
    assert zones == zones[..i] + [zones[i]] + zones[i + 1..];
  }

  lemma RemovedAdded(live: map<Resource, string>, res: Resource, value: string)
    requires res !in live
    ensures live[res := value] - {res} == live
  {
  }

  lemma ZoneRemoved(before: seq<Zone>, after: seq<Zone>, id: string)
    requires DistinctIds(before) && DistinctIds(after)
    requires exists i :: 0 <= i < |before| && before[i].id == id && after == Without(before, i)
    ensures Live(after) == Live(before) - {Resource(PROVIDER, id)}
    ensures forall z :: z in after <==> z in before && z.id != id
  {
    var i :| 0 <= i < |before| && before[i].id == id && after == Without(before, i);
    var gone := before[i];
    Rebuilt(before, i);
    ZoneAdded(after, before, gone);
    FreshId(after, i, gone);
    RemovedAdded(Live(after), Resource(PROVIDER, id), gone.reference);
  }

  lemma ZoneUndone(before: seq<Zone>, between: seq<Zone>, after: seq<Zone>, made: Zone)
    requires DistinctIds(between)
    requires exists at :: 0 <= at <= |before| && between == With(before, at, made)
    requires exists i :: 0 <= i < |between| && between[i].id == made.id && after == Without(between, i)
    ensures after == before
  {
    var at :| 0 <= at <= |before| && between == With(before, at, made);
    var i :| 0 <= i < |between| && between[i].id == made.id && after == Without(between, i);
    assert between[at] == made;
    assert i == at;
    BackOut(before, at, made);
  }

  lemma BackOut(zones: seq<Zone>, at: nat, made: Zone)
    requires at <= |zones|
    ensures Without(With(zones, at, made), at) == zones
  {
    var grown := With(zones, at, made);
    assert grown[..at] == zones[..at] && grown[at + 1..] == zones[at..];
    assert zones == zones[..at] + zones[at..];
  }

  lemma BeforeName(zones: seq<Zone>, name: string, reference: string, from: nat)
    requires StartOfName(zones, name, from)
    requires forall z | z in zones && z.reference == reference :: z.name == name
    ensures forall i | 0 <= i < from :: zones[i].reference != reference
  {
  }

  /** Past the first zone with another name there is no zone of this name. */
  lemma PastName(zones: seq<Zone>, name: string, reference: string, first: nat, k: nat)
    requires Grouped(zones) && StartOfName(zones, name, first) && first <= k < |zones| && zones[k].name != name
    requires forall z | z in zones && z.reference == reference :: z.name == name
    requires forall j | 0 <= j < k :: zones[j].reference != reference
    ensures Absent(zones, reference)
  {
    forall z | z in zones ensures z.reference != reference {
      var i :| 0 <= i < |zones| && zones[i] == z;
    }
  }
}
