/** What the servers of a parent zone say about a delegation: which name servers it lists, their glue, and
    whether a DS record is present. Names are normalized. */
module ParentView {
  import opened Options
  import opened Names

  datatype Rcode = Success | NameError | OtherCode

  datatype Record = Ns(owner: string, target: string) | Ds(owner: string) | Address(owner: string, ip: string) | OtherRecord

  /** `records` are the answer and authority sections, `extra` is the additional section. */
  datatype Msg = Msg(rcode: Rcode, records: seq<Record>, extra: seq<Record>)

  type Glue = map<string, seq<string>>

  /** A response that counts as a view of the parent zone. */
  predicate IsView(m: Msg) {
    m.rcode.Success? || m.rcode.NameError?
  }

  // ---------------------------------------------------------------- one response

  function Targets(records: seq<Record>, wanted: string): seq<string>
    decreases |records|
  {
    if records == [] then []
    else
      var last := records[|records| - 1];
      Targets(records[..|records| - 1], wanted) + if last.Ns? && last.owner == wanted then [last.target] else []
  }

  function Delegated(m: Msg, wanted: string): seq<string> {
    UniqueSorted(Targets(m.records, wanted))
  }

  function TargetSet(records: seq<Record>, wanted: string): set<string> {
    set r | r in records && r.Ns? && r.owner == wanted && r.target != "" :: r.target
  }

  /** The name servers one response publishes for the zone. */
  function Published(m: Msg, wanted: string): set<string> {
    TargetSet(m.records, wanted)
  }

  lemma {:induction false} TargetsPublished(records: seq<Record>, wanted: string)
    ensures Elements(Targets(records, wanted)) - {""} == TargetSet(records, wanted)
    decreases |records|
  {
    if records != [] {
      var init, last := records[..|records| - 1], records[|records| - 1];
      TargetsPublished(init, wanted);
      assert records == init + [last];
      var more := if last.Ns? && last.owner == wanted then [last.target] else [];
      ElementsAppend(Targets(init, wanted), more);
      assert TargetSet(records, wanted) == TargetSet(init, wanted) + (Elements(more) - {""}) by {
        forall t | t in TargetSet(init, wanted) + (Elements(more) - {""}) ensures t in TargetSet(records, wanted) {
          var r :| r in records && r.Ns? && r.owner == wanted && r.target == t;
        }
      }
    }
  }

  lemma ElementsAppend(a: seq<string>, b: seq<string>)
    ensures Elements(a + b) == Elements(a) + Elements(b)
  {
  }

  lemma DelegatedPublished(m: Msg, wanted: string)
    ensures Elements(Delegated(m, wanted)) == Published(m, wanted)
  {
    TargetsPublished(m.records, wanted);
  }

  predicate EqualNameSets(left: seq<string>, right: seq<string>) {
    var a, b := UniqueSorted(left), UniqueSorted(right);
    |a| == |b| && forall i | 0 <= i < |a| :: a[i] == b[i]
  }

  lemma EqualNameSetsDecides(left: seq<string>, right: seq<string>)
    ensures EqualNameSets(left, right) <==> Elements(left) - {""} == Elements(right) - {""}
  {
    UniqueSortedDecidesSets(left, right);
  }

  // ---------------------------------------------------------------- all responses

  ghost predicate SomeView(responses: seq<Msg>) {
    exists m :: m in responses && IsView(m)
  }

  /** There is a view, and every view publishes the same name servers, at least one. */
  ghost predicate Agree(responses: seq<Msg>, wanted: string) {
    && SomeView(responses)
    && (forall m | m in responses && IsView(m) :: Published(m, wanted) != {})
    && (forall m, n | m in responses && IsView(m) && n in responses && IsView(n) :: Published(m, wanted) == Published(n, wanted))
  }

  ghost function AllPublished(responses: seq<Msg>, wanted: string): set<string> {
    set m, n | m in responses && IsView(m) && n in Published(m, wanted) :: n
  }

  /** The addresses that views give for a server which they also publish. */
  function GlueOf(responses: seq<Msg>, wanted: string, server: string): set<string> {
    set m, r | m in responses && IsView(m) && server in Published(m, wanted)
               && r in m.extra && r.Address? && r.owner == server && r.ip != "" :: r.ip
  }

  /** Views, agreement and the published names do not depend on the order of the responses. */
  lemma AgreementIgnoresOrder(a: seq<Msg>, b: seq<Msg>, wanted: string)
    requires multiset(a) == multiset(b)
    ensures Agree(a, wanted) == Agree(b, wanted) && AllPublished(a, wanted) == AllPublished(b, wanted)
    ensures forall server :: GlueOf(a, wanted, server) == GlueOf(b, wanted, server)
  {
    forall m: Msg ensures m in a <==> m in b {
      assert m in multiset(a) <==> m in multiset(b);
    }
  }

  // ---------------------------------------------------------------- the code

  /** Glue collected so far: the addresses of each server in the order they came. */
  ghost predicate GlueHolds(glue: Glue, responses: seq<Msg>, wanted: string) {
    forall server :: Elements(if server in glue then glue[server] else []) - {""} == GlueOf(responses, wanted, server)
  }

  function At(glue: Glue, server: string): seq<string> {
    if server in glue then glue[server] else []
  }

  function Addresses(extra: seq<Record>, server: string): seq<string>
    decreases |extra|
  {
    if extra == [] then []
    else
      var last := extra[|extra| - 1];
      Addresses(extra[..|extra| - 1], server) + if last.Address? && last.owner == server then [last.ip] else []
  }

  function AddressSet(extra: seq<Record>, server: string): set<string> {
    set r | r in extra && r.Address? && r.owner == server && r.ip != "" :: r.ip
  }

  lemma {:induction false} AddressesListed(extra: seq<Record>, server: string)
    ensures Elements(Addresses(extra, server)) - {""} == AddressSet(extra, server)
    decreases |extra|
  {
    if extra != [] {
      var init, last := extra[..|extra| - 1], extra[|extra| - 1];
      AddressesListed(init, server);
      assert extra == init + [last];
      var more := if last.Address? && last.owner == server then [last.ip] else [];
      ElementsAppend(Addresses(init, server), more);
      assert AddressSet(extra, server) == AddressSet(init, server) + (Elements(more) - {""}) by {
        forall t | t in AddressSet(init, server) + (Elements(more) - {""}) ensures t in AddressSet(extra, server) {
          var r :| r in extra && r.Address? && r.owner == server && r.ip == t;
        }
      }
    }
  }

  /** `merged` is `glue` with the addresses of the servers in `delegated` appended. */
  ghost predicate GlueMerged(merged: Glue, glue: Glue, extra: seq<Record>, delegated: seq<string>) {
    forall server :: At(merged, server) == MergedAt(glue, extra, delegated, server)
  }

  function Appended<T>(known: seq<T>, more: seq<T>, wanted: bool): seq<T> {
    if wanted then known + more else known
  }

  lemma AppendedMore<T>(known: seq<T>, more: seq<T>, last: seq<T>, wanted: bool)
    ensures Appended(known, more + last, wanted) == Appended(known, more, wanted) + if wanted then last else []
  {
    assert known + (more + last) == known + more + last;
  }

  /** What one server's addresses are after merging `extra`. */
  function MergedAt(glue: Glue, extra: seq<Record>, delegated: seq<string>, server: string): seq<string> {
    Appended(At(glue, server), Addresses(extra, server), server in delegated)
  }

  lemma AddressesMore(extra: seq<Record>, r: Record, server: string)
    ensures Addresses(extra + [r], server) == Addresses(extra, server) + if r.Address? && r.owner == server then [r.ip] else []
  {
    assert (extra + [r])[..|extra|] == extra;
  }

  lemma MergedAtMore(glue: Glue, extra: seq<Record>, delegated: seq<string>, r: Record, server: string)
    ensures MergedAt(glue, extra + [r], delegated, server) ==
            MergedAt(glue, extra, delegated, server)
            + if server in delegated then (if r.Address? && r.owner == server then [r.ip] else []) else []
  {
    AddressesMore(extra, r, server);
    AppendedMore(At(glue, server), Addresses(extra, server), if r.Address? && r.owner == server then [r.ip] else [],
                 server in delegated);
  }

  lemma MergeOne(merged: Glue, glue: Glue, extra: seq<Record>, delegated: seq<string>, r: Record)
    requires GlueMerged(merged, glue, extra, delegated)
    ensures GlueMerged(if r.Address? && r.owner in delegated then merged[r.owner := At(merged, r.owner) + [r.ip]] else merged,
                       glue, extra + [r], delegated)
  {
    var now := if r.Address? && r.owner in delegated then merged[r.owner := At(merged, r.owner) + [r.ip]] else merged;
    forall server ensures At(now, server) == MergedAt(glue, extra + [r], delegated, server) {
      MergedAtMore(glue, extra, delegated, r, server);
    }
  }

  method MergeGlue(glue: Glue, extra: seq<Record>, delegated: seq<string>) returns (merged: Glue)
    ensures GlueMerged(merged, glue, extra, delegated)
  {
    merged := glue;
    NothingMerged(glue, delegated);
    var i := 0;
    while i < |extra|
      invariant i <= |extra|
      invariant GlueMerged(merged, glue, extra[..i], delegated)
    {
      merged := MergeAddress(merged, glue, extra[..i], delegated, extra[i]);
      assert extra[..i + 1] == extra[..i] + [extra[i]];
      i := i + 1;
    }
    assert extra[..i] == extra;
  }

  lemma NothingMerged(glue: Glue, delegated: seq<string>)
    ensures GlueMerged(glue, glue, [], delegated)
  {
  }

  method MergeAddress(merged: Glue, ghost glue: Glue, ghost extra: seq<Record>, delegated: seq<string>, r: Record) returns (now: Glue)
    requires GlueMerged(merged, glue, extra, delegated)
    ensures GlueMerged(now, glue, extra + [r], delegated)
  {
    MergeOne(merged, glue, extra, delegated, r);
    now := merged;
    if r.Address? && r.owner in delegated {
      now := merged[r.owner := At(merged, r.owner) + [r.ip]];
    }
  }

  lemma GlueMore(merged: Glue, glue: Glue, responses: seq<Msg>, m: Msg, wanted: string)
    requires GlueHolds(glue, responses, wanted) && IsView(m)
    requires GlueMerged(merged, glue, m.extra, Delegated(m, wanted))
    ensures GlueHolds(merged, responses + [m], wanted)
  {
    DelegatedPublished(m, wanted);
    forall server ensures Elements(At(merged, server)) - {""} == GlueOf(responses + [m], wanted, server) {
      AddressesListed(m.extra, server);
      ElementsAppend(At(glue, server), Addresses(m.extra, server));
      assert server in Delegated(m, wanted) <==> server in Elements(Delegated(m, wanted));
      GlueAppend(responses, m, wanted, server);
    }
  }

  lemma GlueAppend(responses: seq<Msg>, m: Msg, wanted: string, server: string)
    ensures GlueOf(responses + [m], wanted, server) ==
            GlueOf(responses, wanted, server) + if IsView(m) && server in Published(m, wanted) then AddressSet(m.extra, server) else {}
  {
    var more := if IsView(m) && server in Published(m, wanted) then AddressSet(m.extra, server) else {};
    forall ip | ip in GlueOf(responses, wanted, server) + more ensures ip in GlueOf(responses + [m], wanted, server) {
      if ip in more {
        assert m in responses + [m];
      } else {
        var n, r :| n in responses && IsView(n) && server in Published(n, wanted)
                    && r in n.extra && r.Address? && r.owner == server && r.ip == ip;
        assert n in responses + [m];
      }
    }
  }

  /** `reference` is what the first view publishes, and `consistent` says that the others publish the same. */
  ghost predicate Compared(responses: seq<Msg>, wanted: string, views: nat, reference: set<string>, consistent: bool) {
    && (views > 0 <==> SomeView(responses))
    && (views > 0 ==> exists m :: m in responses && IsView(m) && reference == Published(m, wanted))
    && (consistent <==> forall m | m in responses && IsView(m) :: Published(m, wanted) == reference)
  }

  lemma ComparedMore(responses: seq<Msg>, m: Msg, wanted: string, views: nat, reference: set<string>, consistent: bool,
                     mine: set<string>)
    requires Compared(responses, wanted, views, reference, consistent) && IsView(m) && mine == Published(m, wanted)
    ensures Compared(responses + [m], wanted, views + 1, if views == 0 then mine else reference,
                     if views == 0 then consistent else consistent && reference == mine)
  {
    var all := responses + [m];
    assert m in all;
    forall n ensures n in all <==> n in responses || n == m {
    }
    if views > 0 {
      var first :| first in responses && IsView(first) && reference == Published(first, wanted);
      assert first in all;
    }
  }

  /** The summary while it is made. */
  datatype Summary = Summary(views: nat, reference: seq<string>, combined: seq<string>, glue: Glue, consistent: bool)

  ghost predicate Summarized(responses: seq<Msg>, wanted: string, s: Summary) {
    && Compared(responses, wanted, s.views, Elements(s.reference), s.consistent)
    && Elements(s.combined) == AllPublished(responses, wanted)
    && GlueHolds(s.glue, responses, wanted)
  }

  lemma NoResponses(wanted: string)
    ensures Summarized([], wanted, Summary(0, [], [], map[], true))
  {
  }

  lemma Skipped(responses: seq<Msg>, m: Msg, wanted: string, s: Summary)
    requires Summarized(responses, wanted, s) && !IsView(m)
    ensures Summarized(responses + [m], wanted, s)
  {
    forall server ensures GlueOf(responses + [m], wanted, server) == GlueOf(responses, wanted, server) {
      GlueAppend(responses, m, wanted, server);
    }
    PublishedAppend(responses, m, wanted);
    forall n ensures n in responses + [m] && IsView(n) <==> n in responses && IsView(n) {
    }
  }

  lemma PublishedAppend(responses: seq<Msg>, m: Msg, wanted: string)
    ensures AllPublished(responses + [m], wanted) == AllPublished(responses, wanted) + if IsView(m) then Published(m, wanted) else {}
  {
    var more := if IsView(m) then Published(m, wanted) else {};
    forall n | n in AllPublished(responses, wanted) + more ensures n in AllPublished(responses + [m], wanted) {
      if n in more {
        assert m in responses + [m];
      } else {
        var k :| k in responses && IsView(k) && n in Published(k, wanted);
        assert k in responses + [m];
      }
    }
  }

  /** The summary after one more view. */
  function Taken(s: Summary, delegated: seq<string>, merged: Glue): Summary {
    Summary(s.views + 1, if s.views == 0 then delegated else s.reference, s.combined + delegated, merged,
            if s.views == 0 then s.consistent else s.consistent && EqualNameSets(s.reference, delegated))
  }

  lemma TakenHolds(responses: seq<Msg>, m: Msg, wanted: string, s: Summary, merged: Glue)
    requires Summarized(responses, wanted, s) && IsView(m)
    requires GlueMerged(merged, s.glue, m.extra, Delegated(m, wanted))
    ensures Summarized(responses + [m], wanted, Taken(s, Delegated(m, wanted), merged))
  {
    var delegated := Delegated(m, wanted);
    GlueMore(merged, s.glue, responses, m, wanted);
    PublishedAppend(responses, m, wanted);
    ElementsAppend(s.combined, delegated);
    DelegatedPublished(m, wanted);
    TakenCompared(responses, m, wanted, s, merged);
  }

  lemma TakenCompared(responses: seq<Msg>, m: Msg, wanted: string, s: Summary, merged: Glue)
    requires Compared(responses, wanted, s.views, Elements(s.reference), s.consistent) && IsView(m)
    ensures var t := Taken(s, Delegated(m, wanted), merged);
            Compared(responses + [m], wanted, t.views, Elements(t.reference), t.consistent)
  {
    var delegated := Delegated(m, wanted);
    DelegatedPublished(m, wanted);
    EqualNameSetsDecides(s.reference, delegated);
    if s.views > 0 {
      NoBlank(responses, wanted, s.views, Elements(s.reference), s.consistent);
    }
    assert Elements(delegated) - {""} == Elements(delegated);
    ComparedMore(responses, m, wanted, s.views, Elements(s.reference), s.consistent, Elements(delegated));
  }

  lemma NoBlank(responses: seq<Msg>, wanted: string, views: nat, reference: set<string>, consistent: bool)
    requires Compared(responses, wanted, views, reference, consistent) && views > 0
    ensures reference - {""} == reference
  {
    var first :| first in responses && IsView(first) && reference == Published(first, wanted);
  }

  method TakeResponse(ghost responses: seq<Msg>, m: Msg, wanted: string, s: Summary) returns (t: Summary)
    requires Summarized(responses, wanted, s)
    ensures Summarized(responses + [m], wanted, t)
  {
    if !IsView(m) {
      Skipped(responses, m, wanted, s);
      return s;
    }
    var delegated := Delegated(m, wanted);
    var merged := MergeGlue(s.glue, m.extra, delegated);
    TakenHolds(responses, m, wanted, s, merged);
    t := Taken(s, delegated, merged);
  }

  /** Every address list sorted, each address once. */
  function SortedGlue(glue: Glue): (r: Glue)
    ensures forall server :: Elements(At(r, server)) == Elements(At(glue, server)) - {""}
    ensures forall server | server in r :: Sorted(r[server]) && NoDuplicates(r[server])
  {
    map server | server in glue :: UniqueSorted(glue[server])
  }

  /** The delegation the parent publishes. It is verified exactly when there is a view and all views publish
      the same name servers, at least one; the combined list is then that set. */
  method SummarizeDelegation(responses: seq<Msg>, wanted: string) returns (combined: seq<string>, glue: Glue, verified: bool)
    ensures verified <==> Agree(responses, wanted)
    ensures Sorted(combined) && NoDuplicates(combined) && Elements(combined) == AllPublished(responses, wanted)
    ensures verified ==> forall m | m in responses && IsView(m) :: Elements(combined) == Published(m, wanted)
    ensures forall server :: Elements(At(glue, server)) == GlueOf(responses, wanted, server)
    ensures forall server | server in glue :: Sorted(glue[server]) && NoDuplicates(glue[server])
  {
    var s := Summary(0, [], [], map[], true);
    NoResponses(wanted);
    var i := 0;
    while i < |responses|
      invariant i <= |responses|
      invariant Summarized(responses[..i], wanted, s)
    {
      s := TakeResponse(responses[..i], responses[i], wanted, s);
      assert responses[..i + 1] == responses[..i] + [responses[i]];
      i := i + 1;
    }
    assert responses[..i] == responses;
    combined := UniqueSorted(s.combined);
    glue := SortedGlue(s.glue);
    verified := s.views > 0 && s.consistent && |s.reference| > 0;
    Verdict(responses, wanted, s.views, s.reference, s.combined, s.consistent);
  }

  lemma Verdict(responses: seq<Msg>, wanted: string, views: nat, reference: seq<string>, listed: seq<string>, consistent: bool)
    requires Compared(responses, wanted, views, Elements(reference), consistent)
    requires Elements(listed) == AllPublished(responses, wanted)
    ensures (views > 0 && consistent && |reference| > 0) <==> Agree(responses, wanted)
    ensures Elements(listed) - {""} == Elements(listed)
    ensures views > 0 && consistent && |reference| > 0 ==>
              forall m | m in responses && IsView(m) :: AllPublished(responses, wanted) == Published(m, wanted)
  {
    assert |reference| > 0 <==> Elements(reference) != {} by {
      if |reference| > 0 { assert reference[0] in Elements(reference); }
    }
    if Agree(responses, wanted) {
      var m :| m in responses && IsView(m) && Elements(reference) == Published(m, wanted);
    }
  }

  // ---------------------------------------------------------------- asking the parent's servers

  /** What each address answers to one question; None is a failed exchange. */
  type Exchange = string -> Option<Msg>

  /** The responses of the addresses asked, in order. */
  function Answers(exchange: Exchange, asked: seq<string>): seq<Msg>
    decreases |asked|
  {
    if asked == [] then []
    else
      Answers(exchange, asked[..|asked| - 1])
      + match exchange(asked[|asked| - 1]) { case Some(response) => [response] case None => [] }
  }

  lemma AnswersMore(exchange: Exchange, asked: seq<string>, server: string)
    ensures Answers(exchange, asked + [server]) ==
            Answers(exchange, asked) + match exchange(server) { case Some(response) => [response] case None => [] }
  {
    assert (asked + [server])[..|asked|] == asked;
  }

  /** Every response is the answer of an address that was asked, and every such answer is there. */
  lemma {:induction false} AnswersAre(exchange: Exchange, asked: seq<string>, m: Msg)
    ensures m in Answers(exchange, asked) <==> exists server :: server in asked && exchange(server) == Some(m)
    decreases |asked|
  {
    if asked != [] {
      var init, last := asked[..|asked| - 1], asked[|asked| - 1];
      AnswersAre(exchange, init, m);
      assert asked == init + [last];
      if m in Answers(exchange, init) {
        var server :| server in init && exchange(server) == Some(m);
        assert server in asked;
      }
    }
  }

  method AskNext(exchange: Exchange, server: string, responses: seq<Msg>, ghost asked: seq<string>) returns (more: seq<Msg>)
    requires responses == Answers(exchange, asked)
    ensures more == Answers(exchange, asked + [server])
  {
    AnswersMore(exchange, asked, server);
    var answer := exchange(server);
    more := if answer.Some? then responses + [answer.value] else responses;
  }

  lemma OneFurther(all: seq<string>, i: nat)
    requires i < |all|
    ensures all[..i + 1] == all[..i] + [all[i]]
  {
  }

  /** The moment a pass over the addresses is interrupted, by the number of those asked before; None is never. */
  type Interruption = Option<nat>

  /** The addresses a pass asks: each known one once, or those before the interruption. */
  function Asked(servers: seq<string>, stop: Interruption): seq<string> {
    Until(UniqueSorted(servers), stop)
  }

  /** Asks every known address once. Failed exchanges are skipped; the pass is complete exactly when nothing
      interrupts it. */
  method QueryParentServers(exchange: Exchange, servers: seq<string>, stop: Interruption)
    returns (responses: seq<Msg>, complete: bool)
    ensures responses == Answers(exchange, Asked(servers, stop)) && complete == stop.None?
  {
    responses, complete := QueryAll(exchange, UniqueSorted(servers), stop);
  }

  function Until(all: seq<string>, stop: Interruption): seq<string> {
    if stop.Some? && stop.value < |all| then all[..stop.value] else all
  }

  method QueryAll(exchange: Exchange, all: seq<string>, stop: Interruption) returns (responses: seq<Msg>, complete: bool)
    ensures responses == Answers(exchange, Until(all, stop)) && complete == stop.None?
  {
    responses := [];
    var i := 0;
    while i < |all|
      invariant i <= |all| && responses == Answers(exchange, all[..i])
      invariant stop.Some? ==> i <= stop.value
    {
      if stop == Some(i) {
        return responses, false;
      }
      OneFurther(all, i);
      responses := AskNext(exchange, all[i], responses, all[..i]);
      i := i + 1;
    }
    assert all[..i] == all;
    complete := stop.None?;
  }

  /** All addresses were asked, some answer is a view, and every view publishes exactly these names. */
  ghost predicate VerifiedBy(exchange: Exchange, servers: seq<string>, wanted: string, names: set<string>) {
    var responses := Answers(exchange, UniqueSorted(servers));
    && names != {} && SomeView(responses)
    && forall m | m in responses && IsView(m) :: Published(m, wanted) == names
  }

  /** What `VerifiedBy` says of single addresses. */
  lemma VerifiedAddress(exchange: Exchange, servers: seq<string>, wanted: string, names: set<string>, server: string)
    requires VerifiedBy(exchange, servers, wanted, names) && server in servers && server != ""
    requires exchange(server).Some? && IsView(exchange(server).value)
    ensures Published(exchange(server).value, wanted) == names
  {
    assert server in Elements(UniqueSorted(servers));
    AnswersAre(exchange, UniqueSorted(servers), exchange(server).value);
  }

  /** The delegation as looked up at the parent: verified exactly when nothing interrupts the pass and the answers of
      all addresses agree. */
  method LookupDelegation(exchange: Exchange, servers: seq<string>, wanted: string, stop: Interruption)
    returns (delegated: seq<string>, glue: Glue, verified: bool)
    ensures verified <==> stop.None? && Agree(Answers(exchange, UniqueSorted(servers)), wanted)
    ensures verified ==> VerifiedBy(exchange, servers, wanted, Elements(delegated)) && delegated != []
    ensures Sorted(delegated) && NoDuplicates(delegated)
    ensures Elements(delegated) == AllPublished(Answers(exchange, Asked(servers, stop)), wanted)
    ensures forall server :: Elements(At(glue, server)) == GlueOf(Answers(exchange, Asked(servers, stop)), wanted, server)
  {
    var responses, complete := QueryParentServers(exchange, servers, stop);
    delegated, glue, verified := SummarizeDelegation(responses, wanted);
    if verified {
      ghost var m :| m in responses && IsView(m);
      assert Published(m, wanted) == Elements(delegated);
    }
    verified := verified && complete;
  }

  ghost predicate DsSeen(responses: seq<Msg>, wanted: string) {
    exists m, r :: m in responses && m.rcode.Success? && r in m.records && r == Ds(wanted)
  }

  ghost predicate Succeeded(responses: seq<Msg>) {
    exists m :: m in responses && m.rcode.Success?
  }

  method SummarizeDs(responses: seq<Msg>, wanted: string) returns (present: bool, checked: bool)
    ensures present <==> DsSeen(responses, wanted)
    ensures checked <==> Succeeded(responses)
  {
    checked := false;
    var i := 0;
    while i < |responses|
      invariant i <= |responses|
      invariant checked <==> exists m :: m in responses[..i] && m.rcode.Success?
      invariant forall m | m in responses[..i] && m.rcode.Success? :: Ds(wanted) !in m.records
    {
      var m := responses[i];
      assert responses[..i + 1] == responses[..i] + [m] && m in responses;
      if m.rcode.Success? {
        checked := true;
        if Ds(wanted) in m.records {
          return true, true;
        }
      }
      i := i + 1;
    }
    assert responses[..i] == responses;
    present := false;
  }

  /** The recursive resolver's answer about the DS record, used when the parent leaves the question open. */
  datatype Recursive = Present | NoData | Unclear

  /** Present and checked, as the program decides them from the responses of a pass. */
  ghost function DsVerdict(responses: seq<Msg>, wanted: string, complete: bool, recursive: Recursive): (bool, bool) {
    if DsSeen(responses, wanted) then (true, true)
    else if complete && Succeeded(responses) then (false, true)
    else (recursive.Present?, !recursive.Unclear?)
  }

  /** Absence is taken as checked exactly when no response shows a DS record, and either a complete pass had a
      successful response or the recursive resolver reports that there is no such record. */
  ghost predicate TakenAsAbsent(responses: seq<Msg>, wanted: string, complete: bool, recursive: Recursive) {
    !DsSeen(responses, wanted) && ((complete && Succeeded(responses)) || recursive.NoData?)
  }

  lemma DsVerdictIs(responses: seq<Msg>, wanted: string, complete: bool, recursive: Recursive)
    ensures DsVerdict(responses, wanted, complete, recursive) == (false, true) <==>
              TakenAsAbsent(responses, wanted, complete, recursive)
  {
  }

  /** Absence of the record at every address of the parent does not follow: after an interrupted pass the word
      of the recursive resolver is enough, although an address that was not asked publishes the record. */
  lemma AbsentUnasked(exchange: Exchange, server: string, wanted: string)
    requires server != "" && exchange(server) == Some(Msg(Success, [Ds(wanted)], []))
    ensures DsVerdict(Answers(exchange, Asked([server], Some(0))), wanted, false, NoData) == (false, true)
    ensures DsSeen(Answers(exchange, UniqueSorted([server])), wanted)
  {
    var all, published := UniqueSorted([server]), Msg(Success, [Ds(wanted)], []);
    assert server in [server] && server in Elements([server]) - {""};
    assert server in Elements(all);
    AnswersAre(exchange, all, published);
    assert published in Answers(exchange, all) && published.records[0] in published.records;
    assert Asked([server], Some(0)) == [];
    assert Answers(exchange, []) == [];
  }

  /** Whether the zone has a DS record at the parent. */
  method ParentDs(exchange: Exchange, servers: seq<string>, wanted: string, recursive: Recursive, stop: Interruption)
    returns (present: bool, checked: bool)
    ensures (present, checked) == DsVerdict(Answers(exchange, Asked(servers, stop)), wanted, stop.None?, recursive)
    ensures checked && !present <==> TakenAsAbsent(Answers(exchange, Asked(servers, stop)), wanted, stop.None?, recursive)
  {
    var responses, complete := QueryParentServers(exchange, servers, stop);
    present, checked := SummarizeDs(responses, wanted);
    if !complete && !present {
      present, checked := false, false;
    }
    if !checked && (recursive.Present? || recursive.NoData?) {
      checked := true;
      present := recursive.Present?;
    }
  }
}
