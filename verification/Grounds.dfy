/** On what grounds evidence and findings are derived: conditions on the observations of a host, and for every
    kind of derived evidence and every rule the exact condition. */
module Grounds {
  import opened Options
  import opened Labels
  import opened Inference
  import opened SignTable

  // ---------------------------------------------------------------- conditions on the observations

  /** The HTTP response leads to HTTPS: along the recorded redirects, or, without any, by its own target. */
  predicate ReachesHttps(lib: Library, inputs: Inputs) {
    && Collected(inputs.http)
    && if "http" in inputs.chains then
         var chain := inputs.chains["http"];
         chain.stopped in {"FINAL_RESPONSE", "DESTINATION_PROVIDER_ERROR"} && HasPrefix(Lower(chain.finalUrl), "https://")
       else RedirectStatus(inputs.http.value.status) && lib.httpsTarget(inputs.http.value.location)
  }

  /** Where the HTTP response leads. */
  function Destination(inputs: Inputs): string
    requires inputs.http.Some?
  {
    if "http" in inputs.chains then inputs.chains["http"].finalUrl else inputs.http.value.location
  }

  predicate StaysOnHttp(lib: Library, inputs: Inputs) {
    Collected(inputs.http) && !ReachesHttps(lib, inputs)
  }

  predicate Served(status: int) {
    200 <= status < 300
  }

  predicate ServesPlaintext(lib: Library, inputs: Inputs) {
    StaysOnHttp(lib, inputs) && Served(inputs.http.value.status)
  }

  predicate LoginInClear(lib: Library, inputs: Inputs) {
    ServesPlaintext(lib, inputs) && inputs.http.value.passwordForm
  }

  predicate CookieInClear(lib: Library, inputs: Inputs) {
    ServesPlaintext(lib, inputs) && inputs.http.value.insecureCookies != []
  }

  predicate PageInClear(lib: Library, inputs: Inputs) {
    ServesPlaintext(lib, inputs) && inputs.http.value.html
  }

  predicate OddUpgrade(lib: Library, inputs: Inputs) {
    ReachesHttps(lib, inputs) && lib.oddPort(Destination(inputs))
  }

  /** The HTTPS response redirects to a URL that is not HTTPS. */
  predicate Downgrades(lib: Library, inputs: Inputs) {
    && Collected(inputs.https) && RedirectStatus(inputs.https.value.status)
    && (|| ("https" in inputs.chains && HasPrefix(Lower(inputs.chains["https"].finalUrl), "http://"))
        || lib.httpTarget(inputs.https.value.location))
  }

  predicate MissingName(chain: Chain) {
    chain.hops > 0 && chain.stopped in {"DESTINATION_NXDOMAIN", "DESTINATION_NO_DATA"}
  }

  predicate MissingResource(chain: Chain) {
    chain.hops > 0 && chain.stopped == "DESTINATION_PROVIDER_ERROR"
  }

  predicate Unresolved(chain: Chain) {
    chain.hops > 0
    && chain.stopped in {"DESTINATION_SERVFAIL", "DESTINATION_TIMEOUT", "DESTINATION_REFUSED", "DESTINATION_ERROR"}
  }

  predicate Unsupported(chain: Chain) {
    chain.hops > 0 && chain.stopped == "UNSUPPORTED_PROTOCOL"
  }

  predicate SomeChain(inputs: Inputs, test: Chain -> bool) {
    exists key | key in inputs.chains :: test(inputs.chains[key])
  }

  predicate Dangles(inputs: Inputs) {
    SomeChain(inputs, MissingName) || SomeChain(inputs, MissingResource)
  }

  predicate Correlated(inputs: Inputs) {
    Collected(inputs.http) && Collected(inputs.https) && Similar(inputs) >= 90.0
  }

  predicate HeadersSeen(inputs: Inputs) {
    inputs.headersTested && Collected(inputs.https)
  }

  predicate SecurePage(inputs: Inputs) {
    HeadersSeen(inputs) && Served(inputs.https.value.status) && inputs.https.value.html
  }

  predicate Blocked(lib: Library, inputs: Inputs) {
    StaysOnHttp(lib, inputs) && inputs.http.value.status in {401, 403, 406, 429}
  }

  predicate Gone(lib: Library, inputs: Inputs) {
    StaysOnHttp(lib, inputs) && inputs.http.value.status in {404, 410}
  }

  predicate Failing(lib: Library, inputs: Inputs) {
    StaysOnHttp(lib, inputs) && inputs.http.value.status >= 500
  }

  /** A response over HTTP that neither serves anything sensitive nor is withheld. */
  predicate Harmless(lib: Library, inputs: Inputs) {
    && StaysOnHttp(lib, inputs)
    && !Blocked(lib, inputs) && !Gone(lib, inputs) && !Failing(lib, inputs)
    && !LoginInClear(lib, inputs) && !CookieInClear(lib, inputs) && !PageInClear(lib, inputs)
  }

  // ---------------------------------------------------------------- what is said

  datatype What = Kind(kind: string) | Rule(rule: string, state: ResultState, finding: string)

  function Says(a: Addition): What {
    match a
    case Evid(e) => Kind(e.kind)
    case Infer(f) => Rule(f.rule, f.state, f.finding)
  }

  predicate Said(additions: seq<Addition>, w: What) {
    exists a | a in additions :: Says(a) == w
  }

  lemma SaidMore(a: seq<Addition>, b: seq<Addition>, w: What)
    ensures Said(a + b, w) <==> Said(a, w) || Said(b, w)
  {
    if x :| x in a && Says(x) == w {
      assert x in a + b;
    }
    if x :| x in b && Says(x) == w {
      assert x in a + b;
    }
  }

  lemma SaidOne(a: Addition, w: What)
    ensures Said([a], w) <==> Says(a) == w
  {
    assert a in [a];
  }

  lemma SaidTwo(a: Addition, b: Addition, w: What)
    ensures Said([a, b], w) <==> Says(a) == w || Says(b) == w
  {
    assert a in [a, b] && b in [a, b];
  }

  lemma SaidIf(condition: bool, a: Addition, rest: seq<Addition>, w: What)
    ensures Said(If(condition, a) + rest, w) <==> (condition && Says(a) == w) || Said(rest, w)
  {
    SaidMore(If(condition, a), rest, w);
    SaidOne(a, w);
  }

  function SignsOf(lib: Library, inputs: Inputs): Signs {
    Signs(Correlated(inputs), Downgrades(lib, inputs),
          ReachesHttps(lib, inputs), OddUpgrade(lib, inputs),
          StaysOnHttp(lib, inputs), StaysOnHttp(lib, inputs) && !Collected(inputs.https), OnEdge(inputs),
          Blocked(lib, inputs), Gone(lib, inputs), Failing(lib, inputs),
          ServesPlaintext(lib, inputs), LoginInClear(lib, inputs), CookieInClear(lib, inputs), PageInClear(lib, inputs),
          Harmless(lib, inputs),
          SomeChain(inputs, MissingName), SomeChain(inputs, MissingResource),
          SomeChain(inputs, Unresolved), SomeChain(inputs, Unsupported),
          HeadersSeen(inputs) && inputs.https.value.hsts == "", HeadersSeen(inputs) && inputs.https.value.hsts != "",
          SecurePage(inputs) && inputs.https.value.csp == "", SecurePage(inputs) && inputs.https.value.csp != "")
  }

  // ---------------------------------------------------------------- the table in parts

  predicate TransportTable(s: Signs, w: What) {
    match w
    case Kind(kind) =>
      || (s.correlated && kind == "HTTP_HTTPS_CONTENT_CORRELATED")
      || (s.downgrades && kind == "HTTPS_DOWNGRADE_REDIRECT")
      || (s.upgraded && kind == "HTTP_HTTPS_UPGRADE_PRESENT")
      || (s.oddPort && kind == "HTTP_HTTPS_PORT_INCONSISTENT")
      || (s.stays && kind == "HTTP_NO_HTTPS_UPGRADE")
      || (s.alone && kind == "HTTPS_UNAVAILABLE")
    case Rule(rule, state, finding) =>
      || (s.downgrades && rule == "HTTPS_DOWNGRADE" && state == Candidate && finding == "HTTPS_DOWNGRADE_REDIRECT")
      || (s.oddPort && rule == "HTTP_UPGRADE_NONSTANDARD_PORT" && state == Candidate && finding == "HTTP_HTTPS_PORT_INCONSISTENT")
      || (s.upgraded && !s.oddPort && rule == "HTTP_HTTPS_UPGRADE" && state == Healthy && finding == "")
  }

  predicate WithheldTable(s: Signs, w: What) {
    match w
    case Kind(kind) =>
      || (s.blocked && kind == "HTTP_BLOCKED_WITHOUT_REDIRECT")
      || (s.blocked && s.edge && kind == "HTTP_EDGE_BLOCK")
      || (s.gone && kind == "RESOURCE_NOT_AVAILABLE")
      || (s.failing && kind == "HTTP_ERROR_WITHOUT_REDIRECT")
    case Rule(rule, state, finding) =>
      || (s.blocked && s.edge && rule == "EDGE_BLOCKED_NO_EXPOSURE" && state == Suppressed && finding == "")
      || (s.blocked && !s.edge && rule == "HTTP_BLOCKED_NO_EXPOSURE" && state == Suppressed && finding == "HTTP_BLOCKED_WITHOUT_REDIRECT")
      || (s.gone && rule == "HTTP_RESOURCE_NOT_AVAILABLE" && state == Suppressed && finding == "")
      || (s.failing && rule == "HTTP_ERROR_NO_EXPOSURE" && state == Suppressed && finding == "")
  }

  predicate ServedTable(s: Signs, w: What) {
    match w
    case Kind(kind) =>
      || (s.served && kind == "TRANSPORT_PRIORITY_SCORE")
      || (s.login && kind == "PLAINTEXT_AUTH_INTERFACE")
      || (s.cookie && kind == "HTTP_SENSITIVE_COOKIE_WITHOUT_SECURE")
      || (s.page && kind == "PLAINTEXT_WEB_CONTENT")
    case Rule(rule, state, finding) =>
      || (s.login && rule == "PLAINTEXT_AUTH_INTERFACE" && state == Confirmed && finding == "PLAINTEXT_AUTH_INTERFACE")
      || (s.cookie && !s.login && rule == "SENSITIVE_COOKIE_OVER_HTTP" && state == Confirmed && finding == "HTTP_SENSITIVE_COOKIE_WITHOUT_SECURE")
      || (s.page && !s.login && !s.cookie && rule == "PLAINTEXT_WEB_CONTENT" && state == Candidate && finding == "PLAINTEXT_WEB_CONTENT")
      || (s.harmless && rule == "HTTP_NO_UPGRADE_OBSERVED" && state == Observation && finding == "")
  }

  predicate ChainTable(s: Signs, w: What) {
    match w
    case Kind(kind) =>
      || (s.missingName && kind == "DANGLING_REDIRECT")
      || (s.missingResource && kind == "DANGLING_REDIRECT")
    case Rule(rule, state, finding) =>
      || (s.missingName && rule == "REDIRECT_DESTINATION_DNS_MISSING" && state == Candidate && finding == "DANGLING_REDIRECT")
      || (s.missingResource && rule == "REDIRECT_DESTINATION_PROVIDER_ERROR" && state == Candidate && finding == "DANGLING_REDIRECT")
      || (s.unresolved && rule == "REDIRECT_DESTINATION_INCONCLUSIVE" && state == Inconclusive && finding == "")
      || (s.unsupported && rule == "UNSUPPORTED_PROTOCOL" && state == Inconclusive && finding == "")
  }

  predicate HeaderTable(s: Signs, w: What) {
    match w
    case Kind(kind) =>
      || (s.noHsts && kind == "HTTPS_HSTS_ABSENT")
      || (s.hsts && kind == "HTTPS_HSTS_PRESENT")
      || (s.noCsp && kind == "HTTPS_CSP_ABSENT")
      || (s.csp && kind == "HTTPS_CSP_PRESENT")
    case Rule(rule, state, finding) =>
      || (s.noHsts && rule == "HSTS_POSTURE_ONLY" && state == Observation && finding == "")
      || (s.noCsp && rule == "CSP_HARDENING_ONLY" && state == Observation && finding == "")
  }

  /** All that follows from what the observations show. */
  predicate AnyTable(s: Signs, w: What) {
    TransportTable(s, w) || WithheldTable(s, w) || ServedTable(s, w) || ChainTable(s, w) || HeaderTable(s, w)
  }

  lemma KindInUnion(s: Signs, kind: string)
    requires Evidences(s, kind)
    ensures AnyTable(s, Kind(kind))
  {
  }

  lemma UnionHasKind(s: Signs, kind: string)
    requires AnyTable(s, Kind(kind))
    ensures Evidences(s, kind)
  {
  }

  lemma RuleInUnion(s: Signs, rule: string, state: ResultState, finding: string)
    requires Fires(s, rule, state, finding)
    ensures AnyTable(s, Rule(rule, state, finding))
  {
  }

  lemma UnionHasRule(s: Signs, rule: string, state: ResultState, finding: string)
    requires AnyTable(s, Rule(rule, state, finding))
    ensures Fires(s, rule, state, finding)
  {
  }

  // ---------------------------------------------------------------- part by part

  predicate DowngradeGround(lib: Library, inputs: Inputs, w: What) {
    Downgrades(lib, inputs)
    && (w == Kind("HTTPS_DOWNGRADE_REDIRECT") || w == Rule("HTTPS_DOWNGRADE", Candidate, "HTTPS_DOWNGRADE_REDIRECT"))
  }

  lemma DowngradeSaid(lib: Library, inputs: Inputs, w: What)
    ensures Said(DowngradePart(lib, inputs), w) <==> DowngradeGround(lib, inputs, w)
  {
    var part := DowngradePart(lib, inputs);
    if part != [] {
      SaidTwo(part[0], part[1], w);
      assert part == [part[0], part[1]];
    }
  }

  predicate CorrelationGround(inputs: Inputs, w: What) {
    Correlated(inputs) && w == Kind("HTTP_HTTPS_CONTENT_CORRELATED")
  }

  lemma CorrelationSaid(lib: Library, inputs: Inputs, w: What)
    ensures Said(CorrelationPart(lib, inputs), w) <==> CorrelationGround(inputs, w)
  {
    var part := CorrelationPart(lib, inputs);
    if part != [] {
      SaidOne(part[0], w);
      assert part == [part[0]];
    }
  }

  predicate UpgradeGround(lib: Library, inputs: Inputs, w: What) {
    && ReachesHttps(lib, inputs)
    && (|| w == Kind("HTTP_HTTPS_UPGRADE_PRESENT")
        || (OddUpgrade(lib, inputs) && w == Kind("HTTP_HTTPS_PORT_INCONSISTENT"))
        || (OddUpgrade(lib, inputs) && w == Rule("HTTP_UPGRADE_NONSTANDARD_PORT", Candidate, "HTTP_HTTPS_PORT_INCONSISTENT"))
        || (!OddUpgrade(lib, inputs) && w == Rule("HTTP_HTTPS_UPGRADE", Healthy, "")))
  }

  lemma UpgradeSaid(lib: Library, inputs: Inputs, w: What)
    requires ReachesHttps(lib, inputs)
    ensures Said(UpgradedPart(lib, Destination(inputs)), w) <==> UpgradeGround(lib, inputs, w)
  {
    var part := UpgradedPart(lib, Destination(inputs));
    var more := part[1..];
    assert part == [part[0]] + more;
    SaidMore([part[0]], more, w);
    SaidOne(part[0], w);
    if OddUpgrade(lib, inputs) {
      SaidTwo(more[0], more[1], w);
      assert more == [more[0], more[1]];
    } else {
      SaidOne(more[0], w);
      assert more == [more[0]];
    }
  }

  predicate BlockedGround(edge: bool, w: What) {
    || w == Kind("HTTP_BLOCKED_WITHOUT_REDIRECT")
    || (edge && w == Kind("HTTP_EDGE_BLOCK"))
    || (edge && w == Rule("EDGE_BLOCKED_NO_EXPOSURE", Suppressed, ""))
    || (!edge && w == Rule("HTTP_BLOCKED_NO_EXPOSURE", Suppressed, "HTTP_BLOCKED_WITHOUT_REDIRECT"))
  }

  lemma BlockedSaid(edge: bool, reasons: seq<string>, w: What)
    ensures Said(BlockedPart(edge, reasons), w) <==> BlockedGround(edge, w)
  {
    var part := BlockedPart(edge, reasons);
    var more := part[1..];
    assert part == [part[0]] + more;
    SaidMore([part[0]], more, w);
    SaidOne(part[0], w);
    if edge {
      SaidTwo(more[0], more[1], w);
      assert more == [more[0], more[1]];
    } else {
      SaidOne(more[0], w);
      assert more == [more[0]];
    }
  }

  predicate PlaintextGround(o: Observed, w: What) {
    || (o.html && w == Kind("PLAINTEXT_WEB_CONTENT"))
    || (o.passwordForm && w == Kind("PLAINTEXT_AUTH_INTERFACE"))
    || (o.insecureCookies != [] && w == Kind("HTTP_SENSITIVE_COOKIE_WITHOUT_SECURE"))
    || w == Kind("TRANSPORT_PRIORITY_SCORE")
    || (o.passwordForm && w == Rule("PLAINTEXT_AUTH_INTERFACE", Confirmed, "PLAINTEXT_AUTH_INTERFACE"))
    || (!o.passwordForm && o.insecureCookies != []
        && w == Rule("SENSITIVE_COOKIE_OVER_HTTP", Confirmed, "HTTP_SENSITIVE_COOKIE_WITHOUT_SECURE"))
    || (!o.passwordForm && o.insecureCookies == [] && o.html
        && w == Rule("PLAINTEXT_WEB_CONTENT", Candidate, "PLAINTEXT_WEB_CONTENT"))
    || (!o.passwordForm && o.insecureCookies == [] && !o.html && w == Rule("HTTP_NO_UPGRADE_OBSERVED", Observation, ""))
  }

  lemma PlaintextSaid(lib: Library, inputs: Inputs, o: Observed, reasons: seq<string>, w: What)
    ensures Said(PlaintextPart(lib, inputs, o, reasons), w) <==> PlaintextGround(o, w)
  {
    var similar := Similar(inputs) >= 90.0;
    var score := Derive("TRANSPORT_PRIORITY_SCORE",
      map["score" := lib.number(Priority(inputs, o, similar)), "signals" := Join(Signals(inputs, o, similar), ',')], 0, 100);
    var cookies := Derive("HTTP_SENSITIVE_COOKIE_WITHOUT_SECURE", map["cookies" := Join(o.insecureCookies, ',')], 60, 95);
    var auth := Derive("PLAINTEXT_AUTH_INTERFACE", map[], 60, 100);
    var web := Derive("PLAINTEXT_WEB_CONTENT", map["similarity" := lib.percent(Similar(inputs))], 20, 95);
    var verdict := PlaintextVerdict(o, PlaintextReasons(o, similar, reasons));
    SaidFour(o.html, web, o.passwordForm, auth, o.insecureCookies != [], cookies, score, w);
    SaidMore(PlaintextEvidence(lib, inputs, o), [verdict], w);
    SaidOne(verdict, w);
  }

  lemma SaidFour(a: bool, x: Addition, b: bool, y: Addition, c: bool, z: Addition, last: Addition, w: What)
    ensures Said(If(a, x) + (If(b, y) + (If(c, z) + [last])), w) <==>
            (a && Says(x) == w) || (b && Says(y) == w) || (c && Says(z) == w) || Says(last) == w
  {
    SaidIf(a, x, If(b, y) + (If(c, z) + [last]), w);
    SaidIf(b, y, If(c, z) + [last], w);
    SaidIf(c, z, [last], w);
    SaidOne(last, w);
  }

  predicate UnservedGround(status: int, w: What) {
    if status in {404, 410} then w == Kind("RESOURCE_NOT_AVAILABLE") || w == Rule("HTTP_RESOURCE_NOT_AVAILABLE", Suppressed, "")
    else if status >= 500 then w == Kind("HTTP_ERROR_WITHOUT_REDIRECT") || w == Rule("HTTP_ERROR_NO_EXPOSURE", Suppressed, "")
    else w == Rule("HTTP_NO_UPGRADE_OBSERVED", Observation, "")
  }

  lemma UnservedSaid(status: int, reasons: seq<string>, w: What)
    ensures Said(UnservedPart(status, reasons), w) <==> UnservedGround(status, w)
  {
    var part := UnservedPart(status, reasons);
    if |part| == 2 {
      SaidTwo(part[0], part[1], w);
      assert part == [part[0], part[1]];
    } else {
      SaidOne(part[0], w);
      assert part == [part[0]];
    }
  }

  predicate StayGround(inputs: Inputs, o: Observed, w: What) {
    || w == Kind("HTTP_NO_HTTPS_UPGRADE")
    || (!Collected(inputs.https) && w == Kind("HTTPS_UNAVAILABLE"))
    || if o.status in {401, 403, 406, 429} then BlockedGround(OnEdge(inputs), w)
       else if Served(o.status) then PlaintextGround(o, w)
       else UnservedGround(o.status, w)
  }

  lemma StatusSaid(lib: Library, inputs: Inputs, o: Observed, w: What)
    ensures Said(StatusPart(lib, inputs, o), w) <==>
            if o.status in {401, 403, 406, 429} then BlockedGround(OnEdge(inputs), w)
            else if Served(o.status) then PlaintextGround(o, w)
            else UnservedGround(o.status, w)
  {
    var reasons := Reasons(lib, inputs, o);
    if BlockedStatus(o.status) {
      BlockedSaid(OnEdge(inputs), reasons, w);
    } else if Served(o.status) {
      PlaintextSaid(lib, inputs, o, reasons, w);
    } else {
      UnservedSaid(o.status, reasons, w);
    }
  }

  lemma StaySaid(lib: Library, inputs: Inputs, o: Observed, w: What)
    ensures Said(NotUpgradedPart(lib, inputs, o), w) <==> StayGround(inputs, o, w)
  {
    var first := Derive("HTTP_NO_HTTPS_UPGRADE", map["status" := lib.number(o.status), "location" := o.location], 0, 100);
    var second := Derive("HTTPS_UNAVAILABLE", map[], 0, 80);
    var more := if Collected(inputs.https) then [] else [second];
    StatusSaid(lib, inputs, o, w);
    SaidMore([first] + more, StatusPart(lib, inputs, o), w);
    SaidMore([first], more, w);
    SaidOne(first, w);
    SaidOne(second, w);
  }

  lemma HttpLeads(lib: Library, inputs: Inputs)
    requires Collected(inputs.http)
    ensures Upgrade(lib, inputs, inputs.http.value) == (Destination(inputs), ReachesHttps(lib, inputs))
  {
  }

  predicate HttpTable(s: Signs, w: What) {
    TransportTable(s, w) || WithheldTable(s, w) || ServedTable(s, w)
  }

  lemma StayIsTable(lib: Library, inputs: Inputs, w: What)
    requires StaysOnHttp(lib, inputs)
    ensures CorrelationGround(inputs, w) || DowngradeGround(lib, inputs, w) || StayGround(inputs, inputs.http.value, w)
            <==> HttpTable(SignsOf(lib, inputs), w)
  {
  }

  lemma ReachIsTable(lib: Library, inputs: Inputs, w: What)
    requires !StaysOnHttp(lib, inputs)
    ensures CorrelationGround(inputs, w) || DowngradeGround(lib, inputs, w) || UpgradeGround(lib, inputs, w)
            <==> HttpTable(SignsOf(lib, inputs), w)
  {
  }

  lemma HttpSaid(lib: Library, inputs: Inputs, w: What)
    ensures Said(HttpPart(lib, inputs), w) <==> HttpTable(SignsOf(lib, inputs), w)
  {
    var front := CorrelationPart(lib, inputs) + DowngradePart(lib, inputs);
    SaidMore(CorrelationPart(lib, inputs), DowngradePart(lib, inputs), w);
    CorrelationSaid(lib, inputs, w);
    DowngradeSaid(lib, inputs, w);
    if StaysOnHttp(lib, inputs) {
      StayIsTable(lib, inputs, w);
      HttpLeads(lib, inputs);
      StaySaid(lib, inputs, inputs.http.value, w);
      SaidMore(front, NotUpgradedPart(lib, inputs, inputs.http.value), w);
    } else {
      ReachIsTable(lib, inputs, w);
      if ReachesHttps(lib, inputs) {
        HttpLeads(lib, inputs);
        UpgradeSaid(lib, inputs, w);
        SaidMore(front, UpgradedPart(lib, Destination(inputs)), w);
      } else {
        assert front + [] == front;
      }
    }
  }

  predicate ChainGround(chain: Chain, w: What) {
    || (MissingName(chain) && w == Kind("DANGLING_REDIRECT"))
    || (MissingName(chain) && w == Rule("REDIRECT_DESTINATION_DNS_MISSING", Candidate, "DANGLING_REDIRECT"))
    || (MissingResource(chain) && w == Kind("DANGLING_REDIRECT"))
    || (MissingResource(chain) && w == Rule("REDIRECT_DESTINATION_PROVIDER_ERROR", Candidate, "DANGLING_REDIRECT"))
    || (Unresolved(chain) && w == Rule("REDIRECT_DESTINATION_INCONCLUSIVE", Inconclusive, ""))
    || (Unsupported(chain) && w == Rule("UNSUPPORTED_PROTOCOL", Inconclusive, ""))
  }

  lemma StopsDiffer(chain: Chain)
    ensures !(MissingName(chain) && MissingResource(chain)) && !(MissingName(chain) && Unresolved(chain))
    ensures !(MissingName(chain) && Unsupported(chain)) && !(MissingResource(chain) && Unresolved(chain))
    ensures !(MissingResource(chain) && Unsupported(chain)) && !(Unresolved(chain) && Unsupported(chain))
  {
  }

  lemma ChainSaid(chain: Chain, w: What)
    ensures Said(ChainPart(chain), w) <==> ChainGround(chain, w)
  {
    StopsDiffer(chain);
    var part := ChainPart(chain);
    if |part| == 2 {
      SaidTwo(part[0], part[1], w);
      assert part == [part[0], part[1]];
    } else if |part| == 1 {
      SaidOne(part[0], w);
      assert part == [part[0]];
    }
  }

  lemma {:induction false} RedirectSaid(chains: map<string, Chain>, order: seq<string>, w: What)
    requires forall key | key in order :: key in chains
    ensures Said(RedirectPart(chains, order), w) <==> exists key | key in order :: ChainGround(chains[key], w)
  {
    if order != [] {
      ChainSaid(chains[order[0]], w);
      RedirectSaid(chains, order[1..], w);
      SaidMore(ChainPart(chains[order[0]]), RedirectPart(chains, order[1..]), w);
      assert order == [order[0]] + order[1..];
    }
  }

  lemma SaidFew(part: seq<Addition>, w: What)
    requires |part| <= 2
    ensures Said(part, w) <==> (|part| > 0 && Says(part[0]) == w) || (|part| > 1 && Says(part[1]) == w)
  {
  }

  lemma HeaderSaid(lib: Library, inputs: Inputs, w: What)
    ensures Said(HeaderPart(inputs), w) <==> HeaderTable(SignsOf(lib, inputs), w)
  {
    if HeadersSeen(inputs) {
      var n := if inputs.https.value.hsts == "" then 2 else 1;
      var part := HeaderPart(inputs);
      assert part == part[..n] + part[n..];
      SaidMore(part[..n], part[n..], w);
      SaidFew(part[..n], w);
      SaidFew(part[n..], w);
    }
  }

  lemma ChainsAreTable(lib: Library, inputs: Inputs, w: What)
    ensures (exists key | key in inputs.chains :: ChainGround(inputs.chains[key], w)) <==> ChainTable(SignsOf(lib, inputs), w)
  {
  }

  lemma SaidOnGrounds(lib: Library, inputs: Inputs, order: seq<string>, w: What)
    requires Covers(order, inputs.chains)
    ensures Said(Additions(lib, inputs, order), w) <==> AnyTable(SignsOf(lib, inputs), w)
  {
    HttpSaid(lib, inputs, w);
    RedirectSaid(inputs.chains, order, w);
    HeaderSaid(lib, inputs, w);
    ChainsAreTable(lib, inputs, w);
    SaidMore(HttpPart(lib, inputs), RedirectPart(inputs.chains, order), w);
    SaidMore(HttpPart(lib, inputs) + RedirectPart(inputs.chains, order), HeaderPart(inputs), w);
  }

  // ---------------------------------------------------------------- what is derived, exactly

  /** The kinds of the derived evidence are exactly those that follow from what the observations show, for any
      order in which the redirect chains are visited. */
  lemma EvidenceOnGrounds(lib: Library, inputs: Inputs, order: seq<string>, kind: string)
    requires Covers(order, inputs.chains)
    ensures Adds(Additions(lib, inputs, order), kind) <==> Evidences(SignsOf(lib, inputs), kind)
  {
    SaidOnGrounds(lib, inputs, order, Kind(kind));
    SaidIsAdded(Additions(lib, inputs, order), kind);
    if Evidences(SignsOf(lib, inputs), kind) {
      KindInUnion(SignsOf(lib, inputs), kind);
    } else if AnyTable(SignsOf(lib, inputs), Kind(kind)) {
      UnionHasKind(SignsOf(lib, inputs), kind);
    }
  }

  lemma SaidIsAdded(additions: seq<Addition>, kind: string)
    ensures Said(additions, Kind(kind)) <==> Adds(additions, kind)
  {
  }

  predicate Concludes(additions: seq<Addition>, rule: string, state: ResultState, finding: string) {
    exists a | a in additions :: a.Infer? && a.finding.rule == rule && a.finding.state == state && a.finding.finding == finding
  }

  lemma SaidIsConcluded(additions: seq<Addition>, rule: string, state: ResultState, finding: string)
    ensures Said(additions, Rule(rule, state, finding)) <==> Concludes(additions, rule, state, finding)
  {
  }

  /** The same of the findings, with their rule, their state and the kind of evidence they name. */
  lemma FindingsOnGrounds(lib: Library, inputs: Inputs, order: seq<string>, rule: string, state: ResultState, finding: string)
    requires Covers(order, inputs.chains)
    ensures Concludes(Additions(lib, inputs, order), rule, state, finding) <==> Fires(SignsOf(lib, inputs), rule, state, finding)
  {
    SaidOnGrounds(lib, inputs, order, Rule(rule, state, finding));
    SaidIsConcluded(Additions(lib, inputs, order), rule, state, finding);
    if Fires(SignsOf(lib, inputs), rule, state, finding) {
      RuleInUnion(SignsOf(lib, inputs), rule, state, finding);
    } else if AnyTable(SignsOf(lib, inputs), Rule(rule, state, finding)) {
      UnionHasRule(SignsOf(lib, inputs), rule, state, finding);
    }
  }

  /** Evidence of sensitive content is derived exactly from a complete HTTP response of 200 to 299 that does not lead to
      HTTPS and shows a login form, an insecure cookie or a page. */
  lemma PlaintextEvidenceExactly(lib: Library, inputs: Inputs, order: seq<string>)
    requires Covers(order, inputs.chains)
    ensures var all := Additions(lib, inputs, order);
            && (Adds(all, "PLAINTEXT_AUTH_INTERFACE") <==> LoginInClear(lib, inputs))
            && (Adds(all, "HTTP_SENSITIVE_COOKIE_WITHOUT_SECURE") <==> CookieInClear(lib, inputs))
            && (Adds(all, "PLAINTEXT_WEB_CONTENT") <==> PageInClear(lib, inputs))
  {
    var s := SignsOf(lib, inputs);
    EvidenceOnGrounds(lib, inputs, order, "PLAINTEXT_AUTH_INTERFACE");
    LoginKind(s);
    EvidenceOnGrounds(lib, inputs, order, "HTTP_SENSITIVE_COOKIE_WITHOUT_SECURE");
    CookieKind(s);
    EvidenceOnGrounds(lib, inputs, order, "PLAINTEXT_WEB_CONTENT");
    PageKind(s);
  }

  /** Evidence of a bad redirect is derived exactly from an upgrade to an unusual port, from an HTTPS response that leads
      back to HTTP, and from a redirect chain whose destination is missing. */
  lemma RedirectEvidenceExactly(lib: Library, inputs: Inputs, order: seq<string>)
    requires Covers(order, inputs.chains)
    ensures var all := Additions(lib, inputs, order);
            && (Adds(all, "HTTP_HTTPS_PORT_INCONSISTENT") <==> OddUpgrade(lib, inputs))
            && (Adds(all, "HTTPS_DOWNGRADE_REDIRECT") <==> Downgrades(lib, inputs))
            && (Adds(all, "DANGLING_REDIRECT") <==> Dangles(inputs))
  {
    var s := SignsOf(lib, inputs);
    EvidenceOnGrounds(lib, inputs, order, "HTTP_HTTPS_PORT_INCONSISTENT");
    PortKind(s);
    EvidenceOnGrounds(lib, inputs, order, "HTTPS_DOWNGRADE_REDIRECT");
    DowngradeKind(s);
    EvidenceOnGrounds(lib, inputs, order, "DANGLING_REDIRECT");
    DanglingKind(s);
  }

  /** The findings on a response served over HTTP: the gravest of its contents decides. */
  lemma PlaintextFindings(lib: Library, inputs: Inputs, order: seq<string>, state: ResultState, finding: string)
    requires Covers(order, inputs.chains)
    ensures var all := Additions(lib, inputs, order);
            && (Concludes(all, "PLAINTEXT_AUTH_INTERFACE", state, finding) <==>
                LoginInClear(lib, inputs) && state == Confirmed && finding == "PLAINTEXT_AUTH_INTERFACE")
            && (Concludes(all, "SENSITIVE_COOKIE_OVER_HTTP", state, finding) <==>
                CookieInClear(lib, inputs) && !LoginInClear(lib, inputs) && state == Confirmed && finding == "HTTP_SENSITIVE_COOKIE_WITHOUT_SECURE")
            && (Concludes(all, "PLAINTEXT_WEB_CONTENT", state, finding) <==>
                PageInClear(lib, inputs) && !LoginInClear(lib, inputs) && !CookieInClear(lib, inputs) && state == Candidate && finding == "PLAINTEXT_WEB_CONTENT")
            && (Concludes(all, "HTTP_NO_UPGRADE_OBSERVED", state, finding) <==>
                Harmless(lib, inputs) && state == Observation && finding == "")
  {
    var s := SignsOf(lib, inputs);
    FindingsOnGrounds(lib, inputs, order, "PLAINTEXT_AUTH_INTERFACE", state, finding);
    LoginRule(s, state, finding);
    FindingsOnGrounds(lib, inputs, order, "SENSITIVE_COOKIE_OVER_HTTP", state, finding);
    CookieRule(s, state, finding);
    FindingsOnGrounds(lib, inputs, order, "PLAINTEXT_WEB_CONTENT", state, finding);
    PageRule(s, state, finding);
    FindingsOnGrounds(lib, inputs, order, "HTTP_NO_UPGRADE_OBSERVED", state, finding);
    HarmlessRule(s, state, finding);
  }

  /** The suppressed findings: blocked, unavailable and failing answers. */
  lemma WithheldFindings(lib: Library, inputs: Inputs, order: seq<string>, state: ResultState, finding: string)
    requires Covers(order, inputs.chains)
    ensures var all := Additions(lib, inputs, order);
            && (Concludes(all, "EDGE_BLOCKED_NO_EXPOSURE", state, finding) <==>
                Blocked(lib, inputs) && OnEdge(inputs) && state == Suppressed && finding == "")
            && (Concludes(all, "HTTP_BLOCKED_NO_EXPOSURE", state, finding) <==>
                Blocked(lib, inputs) && !OnEdge(inputs) && state == Suppressed && finding == "HTTP_BLOCKED_WITHOUT_REDIRECT")
            && (Concludes(all, "HTTP_RESOURCE_NOT_AVAILABLE", state, finding) <==>
                Gone(lib, inputs) && state == Suppressed && finding == "")
            && (Concludes(all, "HTTP_ERROR_NO_EXPOSURE", state, finding) <==>
                Failing(lib, inputs) && state == Suppressed && finding == "")
  {
    var s := SignsOf(lib, inputs);
    FindingsOnGrounds(lib, inputs, order, "EDGE_BLOCKED_NO_EXPOSURE", state, finding);
    EdgeBlockedRule(s, state, finding);
    FindingsOnGrounds(lib, inputs, order, "HTTP_BLOCKED_NO_EXPOSURE", state, finding);
    BlockedRule(s, state, finding);
    FindingsOnGrounds(lib, inputs, order, "HTTP_RESOURCE_NOT_AVAILABLE", state, finding);
    GoneRule(s, state, finding);
    FindingsOnGrounds(lib, inputs, order, "HTTP_ERROR_NO_EXPOSURE", state, finding);
    FailingRule(s, state, finding);
  }

  /** The findings on the way between HTTP and HTTPS. */
  lemma UpgradeFindings(lib: Library, inputs: Inputs, order: seq<string>, state: ResultState, finding: string)
    requires Covers(order, inputs.chains)
    ensures var all := Additions(lib, inputs, order);
            && (Concludes(all, "HTTPS_DOWNGRADE", state, finding) <==>
                Downgrades(lib, inputs) && state == Candidate && finding == "HTTPS_DOWNGRADE_REDIRECT")
            && (Concludes(all, "HTTP_UPGRADE_NONSTANDARD_PORT", state, finding) <==>
                OddUpgrade(lib, inputs) && state == Candidate && finding == "HTTP_HTTPS_PORT_INCONSISTENT")
            && (Concludes(all, "HTTP_HTTPS_UPGRADE", state, finding) <==>
                ReachesHttps(lib, inputs) && !OddUpgrade(lib, inputs) && state == Healthy && finding == "")
  {
    var s := SignsOf(lib, inputs);
    FindingsOnGrounds(lib, inputs, order, "HTTPS_DOWNGRADE", state, finding);
    DowngradeRule(s, state, finding);
    FindingsOnGrounds(lib, inputs, order, "HTTP_UPGRADE_NONSTANDARD_PORT", state, finding);
    PortRule(s, state, finding);
    FindingsOnGrounds(lib, inputs, order, "HTTP_HTTPS_UPGRADE", state, finding);
    UpgradeRule(s, state, finding);
  }

  /** The findings on redirect chains. */
  lemma ChainFindings(lib: Library, inputs: Inputs, order: seq<string>, state: ResultState, finding: string)
    requires Covers(order, inputs.chains)
    ensures var all := Additions(lib, inputs, order);
            && (Concludes(all, "REDIRECT_DESTINATION_DNS_MISSING", state, finding) <==>
                SomeChain(inputs, MissingName) && state == Candidate && finding == "DANGLING_REDIRECT")
            && (Concludes(all, "REDIRECT_DESTINATION_PROVIDER_ERROR", state, finding) <==>
                SomeChain(inputs, MissingResource) && state == Candidate && finding == "DANGLING_REDIRECT")
            && (Concludes(all, "REDIRECT_DESTINATION_INCONCLUSIVE", state, finding) <==>
                SomeChain(inputs, Unresolved) && state == Inconclusive && finding == "")
            && (Concludes(all, "UNSUPPORTED_PROTOCOL", state, finding) <==>
                SomeChain(inputs, Unsupported) && state == Inconclusive && finding == "")
  {
    var s := SignsOf(lib, inputs);
    FindingsOnGrounds(lib, inputs, order, "REDIRECT_DESTINATION_DNS_MISSING", state, finding);
    MissingNameRule(s, state, finding);
    FindingsOnGrounds(lib, inputs, order, "REDIRECT_DESTINATION_PROVIDER_ERROR", state, finding);
    MissingResourceRule(s, state, finding);
    FindingsOnGrounds(lib, inputs, order, "REDIRECT_DESTINATION_INCONCLUSIVE", state, finding);
    UnresolvedRule(s, state, finding);
    FindingsOnGrounds(lib, inputs, order, "UNSUPPORTED_PROTOCOL", state, finding);
    UnsupportedRule(s, state, finding);
  }

  /** The findings on security headers. */
  lemma HeaderFindings(lib: Library, inputs: Inputs, order: seq<string>, state: ResultState, finding: string)
    requires Covers(order, inputs.chains)
    ensures var all := Additions(lib, inputs, order);
            && (Concludes(all, "HSTS_POSTURE_ONLY", state, finding) <==>
                HeadersSeen(inputs) && inputs.https.value.hsts == "" && state == Observation && finding == "")
            && (Concludes(all, "CSP_HARDENING_ONLY", state, finding) <==>
                SecurePage(inputs) && inputs.https.value.csp == "" && state == Observation && finding == "")
  {
    var s := SignsOf(lib, inputs);
    FindingsOnGrounds(lib, inputs, order, "HSTS_POSTURE_ONLY", state, finding);
    HstsRule(s, state, finding);
    FindingsOnGrounds(lib, inputs, order, "CSP_HARDENING_ONLY", state, finding);
    CspRule(s, state, finding);
  }
}
