/** What is inferred from the HTTP observations of a host: evidence derived from them and inferences with a
    result state. The derivation is a function of the observations that lists the additions in order; the
    host analysis rewrites itself by dropping what was derived before and making the additions again. */
module Inference {
  import opened Options
  import opened Kinds
  import opened Labels
  import opened SignTable
  import opened Similarity

  type Meta = map<string, string>

  datatype Evidence = Evidence(kind: string, source: string, meta: Meta, weight: nat, confidence: nat, negative: bool)

  datatype Finding = Finding(rule: string, state: ResultState, finding: string, reasons: seq<string>,
                             observed: nat, classified: nat, impact: nat)

  datatype Observed = Observed(complete: bool, status: int, location: string, edge: bool, edgeProvider: string, html: bool,
                               passwordForm: bool, insecureCookies: seq<string>, hsts: string, csp: string, body: Body)

  /** A redirect chain; `hops` is how many hops it has and `last` describes the last one. */
  datatype Chain = Chain(hops: nat, stopped: string, finalUrl: string, dnsStatus: string, last: Meta)

  /** Library calls: parsing of URLs and printing of numbers. */
  datatype Library = Library(
    httpsTarget: string -> bool,
    httpTarget: string -> bool,
    oddPort: string -> bool,
    number: int -> string,
    percent: real -> string)

  datatype Inputs = Inputs(http: Option<Observed>, https: Option<Observed>, chains: map<string, Chain>, headersTested: bool)

  const DERIVED := "INFERENCE"

  datatype Addition = Evid(evidence: Evidence) | Infer(finding: Finding)

  function Derive(kind: string, meta: Meta, weight: nat, confidence: nat): Addition {
    Evid(Evidence(kind, DERIVED, meta, weight, confidence, false))
  }

  function Conclude(rule: string, state: ResultState, finding: string, reasons: seq<string>, observed: nat, classified: nat,
                    impact: nat): Addition {
    Infer(Finding(rule, state, finding, reasons, observed, classified, impact))
  }

  // ---------------------------------------------------------------- predicates on observations

  predicate RedirectStatus(status: int) { status in {301, 302, 303, 307, 308} }
  predicate BlockedStatus(status: int) { status in {401, 403, 406, 429} }
  predicate UnavailableStatus(status: int) { status in {404, 410} }

  predicate Collected(o: Option<Observed>) {
    o.Some? && o.value.complete
  }

  function Similar(inputs: Inputs): real {
    if inputs.http.Some? && inputs.https.Some? then Score(inputs.http.value.body, inputs.https.value.body) else 0.0
  }

  /** Where HTTP leads, and whether that completes an upgrade to HTTPS. */
  function Upgrade(lib: Library, inputs: Inputs, o: Observed): (string, bool) {
    if "http" in inputs.chains then
      var chain := inputs.chains["http"];
      (chain.finalUrl, chain.stopped in {"FINAL_RESPONSE", "DESTINATION_PROVIDER_ERROR"} && HasPrefix(Lower(chain.finalUrl), "https://"))
    else if !RedirectStatus(o.status) then (o.location, false)
    else (o.location, lib.httpsTarget(o.location))
  }

  function Downgrade(lib: Library, inputs: Inputs, o: Observed): (string, bool) {
    if "https" in inputs.chains && HasPrefix(Lower(inputs.chains["https"].finalUrl), "http://") then
      (inputs.chains["https"].finalUrl, true)
    else (o.location, lib.httpTarget(o.location))
  }

  // ---------------------------------------------------------------- additions

  function CorrelationPart(lib: Library, inputs: Inputs): seq<Addition> {
    if Collected(inputs.http) && Collected(inputs.https) && Similar(inputs) >= 90.0 then
      [Derive("HTTP_HTTPS_CONTENT_CORRELATED", map["similarity" := lib.percent(Similar(inputs))], 0, 95)]
    else []
  }

  function DowngradePart(lib: Library, inputs: Inputs): seq<Addition> {
    if Collected(inputs.https) && RedirectStatus(inputs.https.value.status) then
      var (url, downgraded) := Downgrade(lib, inputs, inputs.https.value);
      if downgraded then
        [Derive("HTTPS_DOWNGRADE_REDIRECT", map["location" := url], 15, 100),
         Conclude("HTTPS_DOWNGRADE", Candidate, "HTTPS_DOWNGRADE_REDIRECT", ["HTTPS_REDIRECTS_TO_HTTP"], 100, 95, 70)]
      else []
    else []
  }

  function UpgradedPart(lib: Library, url: string): seq<Addition> {
    [Derive("HTTP_HTTPS_UPGRADE_PRESENT", map["location" := url], 0, 100)]
    + if lib.oddPort(url) then
        [Derive("HTTP_HTTPS_PORT_INCONSISTENT", map["location" := url], 10, 100),
         Conclude("HTTP_UPGRADE_NONSTANDARD_PORT", Candidate, "HTTP_HTTPS_PORT_INCONSISTENT",
                  ["HTTP_REDIRECTS_TO_NONSTANDARD_HTTPS_PORT"], 100, 85, 35)]
      else [Conclude("HTTP_HTTPS_UPGRADE", Healthy, "", ["HTTP_REDIRECTS_TO_HTTPS"], 100, 100, 0)]
  }

  predicate OnEdge(inputs: Inputs) {
    (inputs.http.Some? && inputs.http.value.edge) || (inputs.https.Some? && inputs.https.value.edge)
  }

  function EdgeReason(reasons: seq<string>, provider: string): seq<string> {
    if provider == "" || Lower("EDGE_PROVIDER_" + provider) in Lowered(reasons) then []
    else ["EDGE_PROVIDER_" + provider]
  }

  function Reasons(lib: Library, inputs: Inputs, o: Observed): seq<string> {
    var start := ["HTTP_NO_HTTPS_UPGRADE", "HTTP_STATUS_" + lib.number(o.status)] + if OnEdge(inputs) then ["EDGE_RESPONSE"] else [];
    var first := start + EdgeReason(start, o.edgeProvider);
    var second := first + if inputs.https.Some? then EdgeReason(first, inputs.https.value.edgeProvider) else [];
    second + if Collected(inputs.https) then ["HTTPS_STATUS_" + lib.number(inputs.https.value.status)] else []
  }

  function BlockedPart(edge: bool, reasons: seq<string>): seq<Addition> {
    [Derive("HTTP_BLOCKED_WITHOUT_REDIRECT", map[], 0, 100)]
    + if edge then
        [Derive("HTTP_EDGE_BLOCK", map[], 0, 95), Conclude("EDGE_BLOCKED_NO_EXPOSURE", Suppressed, "", reasons, 100, 95, 0)]
      else [Conclude("HTTP_BLOCKED_NO_EXPOSURE", Suppressed, "HTTP_BLOCKED_WITHOUT_REDIRECT", reasons, 100, 95, 0)]
  }

  function PlaintextReasons(o: Observed, similar: bool, reasons: seq<string>): seq<string> {
    reasons
    + (if o.html then ["HTML_CONTENT"] + if similar then ["HTTP_HTTPS_CONTENT_SIMILAR"] else [] else [])
    + (if o.passwordForm then ["PASSWORD_FORM"] else [])
    + if o.insecureCookies != [] then ["SENSITIVE_COOKIE_WITHOUT_SECURE"] else []
  }

  function Priority(inputs: Inputs, o: Observed, similar: bool): int {
    2 + (if similar then 3 else 0) + (if o.html then 1 else 0) + (if o.passwordForm then 4 else 0)
    + (if o.insecureCookies != [] then 4 else 0)
    + if Collected(inputs.https) && inputs.https.value.hsts == "" then 1 else 0
  }

  function Signals(inputs: Inputs, o: Observed, similar: bool): seq<string> {
    ["HTTP_SERVED"] + (if similar then ["SAME_CONTENT"] else []) + (if o.html then ["HTML"] else [])
    + (if o.passwordForm then ["LOGIN_FORM"] else []) + (if o.insecureCookies != [] then ["SENSITIVE_COOKIE"] else [])
    + if Collected(inputs.https) && inputs.https.value.hsts == "" then ["HSTS_ABSENT"] else []
  }

  function If(condition: bool, addition: Addition): seq<Addition> {
    if condition then [addition] else []
  }

  function PlaintextEvidence(lib: Library, inputs: Inputs, o: Observed): seq<Addition> {
    var similar := Similar(inputs) >= 90.0;
    If(o.html, Derive("PLAINTEXT_WEB_CONTENT", map["similarity" := lib.percent(Similar(inputs))], 20, 95))
    + (If(o.passwordForm, Derive("PLAINTEXT_AUTH_INTERFACE", map[], 60, 100))
       + (If(o.insecureCookies != [],
             Derive("HTTP_SENSITIVE_COOKIE_WITHOUT_SECURE", map["cookies" := Join(o.insecureCookies, ',')], 60, 95))
          + [Derive("TRANSPORT_PRIORITY_SCORE",
                    map["score" := lib.number(Priority(inputs, o, similar)), "signals" := Join(Signals(inputs, o, similar), ',')],
                    0, 100)]))
  }

  function PlaintextVerdict(o: Observed, reasons: seq<string>): Addition {
    if o.passwordForm then
      Conclude("PLAINTEXT_AUTH_INTERFACE", Confirmed, "PLAINTEXT_AUTH_INTERFACE", reasons, 100, 100, 90)
    else if o.insecureCookies != [] then
      Conclude("SENSITIVE_COOKIE_OVER_HTTP", Confirmed, "HTTP_SENSITIVE_COOKIE_WITHOUT_SECURE", reasons, 100, 95, 85)
    else if o.html then
      Conclude("PLAINTEXT_WEB_CONTENT", Candidate, "PLAINTEXT_WEB_CONTENT", reasons, 100, 95, 45)
    else
      Conclude("HTTP_NO_UPGRADE_OBSERVED", Observation, "", reasons, 100, 80, 0)
  }

  function PlaintextPart(lib: Library, inputs: Inputs, o: Observed, reasons: seq<string>): seq<Addition> {
    PlaintextEvidence(lib, inputs, o) + [PlaintextVerdict(o, PlaintextReasons(o, Similar(inputs) >= 90.0, reasons))]
  }

  /** A status without exposure: unavailable, failing, or neither content nor an error. */
  function UnservedPart(status: int, reasons: seq<string>): seq<Addition> {
    if UnavailableStatus(status) then
      [Derive("RESOURCE_NOT_AVAILABLE", map[], 0, 100), Conclude("HTTP_RESOURCE_NOT_AVAILABLE", Suppressed, "", reasons, 100, 95, 0)]
    else if status >= 500 then
      [Derive("HTTP_ERROR_WITHOUT_REDIRECT", map[], 0, 100), Conclude("HTTP_ERROR_NO_EXPOSURE", Suppressed, "", reasons, 100, 90, 0)]
    else [Conclude("HTTP_NO_UPGRADE_OBSERVED", Observation, "", reasons, 100, 80, 0)]
  }

  function StatusPart(lib: Library, inputs: Inputs, o: Observed): seq<Addition> {
    var reasons := Reasons(lib, inputs, o);
    if BlockedStatus(o.status) then BlockedPart(OnEdge(inputs), reasons)
    else if 200 <= o.status < 300 then PlaintextPart(lib, inputs, o, reasons)
    else UnservedPart(o.status, reasons)
  }

  function NotUpgradedPart(lib: Library, inputs: Inputs, o: Observed): seq<Addition> {
    [Derive("HTTP_NO_HTTPS_UPGRADE", map["status" := lib.number(o.status), "location" := o.location], 0, 100)]
    + (if Collected(inputs.https) then [] else [Derive("HTTPS_UNAVAILABLE", map[], 0, 80)])
    + StatusPart(lib, inputs, o)
  }

  function HttpPart(lib: Library, inputs: Inputs): seq<Addition> {
    if inputs.http.None? && inputs.https.None? then []
    else
      CorrelationPart(lib, inputs) + DowngradePart(lib, inputs)
      + if !Collected(inputs.http) then []
        else
          var (url, upgraded) := Upgrade(lib, inputs, inputs.http.value);
          if upgraded then UpgradedPart(lib, url) else NotUpgradedPart(lib, inputs, inputs.http.value)
  }

  function ChainPart(chain: Chain): seq<Addition> {
    if chain.hops == 0 then []
    else if chain.stopped in {"DESTINATION_NXDOMAIN", "DESTINATION_NO_DATA"} then
      [Derive("DANGLING_REDIRECT", chain.last, 20, 95),
       Conclude("REDIRECT_DESTINATION_DNS_MISSING", Candidate, "DANGLING_REDIRECT",
                ["REDIRECT_LOCATION_PRESENT", "DESTINATION_" + chain.dnsStatus], 100, 95, 35)]
    else if chain.stopped in {"DESTINATION_SERVFAIL", "DESTINATION_TIMEOUT", "DESTINATION_REFUSED", "DESTINATION_ERROR"} then
      [Conclude("REDIRECT_DESTINATION_INCONCLUSIVE", Inconclusive, "", ["REDIRECT_LOCATION_PRESENT", chain.stopped], 100, 70, 0)]
    else if chain.stopped == "DESTINATION_PROVIDER_ERROR" then
      [Derive("DANGLING_REDIRECT", chain.last, 20, 95),
       Conclude("REDIRECT_DESTINATION_PROVIDER_ERROR", Candidate, "DANGLING_REDIRECT",
                ["REDIRECT_LOCATION_PRESENT", "PROVIDER_SPECIFIC_ERROR"], 100, 95, 45)]
    else if chain.stopped == "UNSUPPORTED_PROTOCOL" then
      [Conclude("UNSUPPORTED_PROTOCOL", Inconclusive, "", ["REDIRECT_LOCATION_PRESENT", "UNSUPPORTED_PROTOCOL"], 100, 100, 0)]
    else []
  }

  /** The chains in the order they are visited. */
  function RedirectPart(chains: map<string, Chain>, order: seq<string>): seq<Addition>
    requires forall key | key in order :: key in chains
  {
    if order == [] then [] else ChainPart(chains[order[0]]) + RedirectPart(chains, order[1..])
  }

  function HeaderPart(inputs: Inputs): seq<Addition> {
    if !inputs.headersTested || !Collected(inputs.https) then []
    else
      var o := inputs.https.value;
      (if o.hsts == "" then
         [Derive("HTTPS_HSTS_ABSENT", map[], 0, 100),
          Conclude("HSTS_POSTURE_ONLY", Observation, "", ["HTTPS_RESPONSE", "HSTS_ABSENT"], 100, 100, 0)]
       else [Evid(Evidence("HTTPS_HSTS_PRESENT", DERIVED, map["value" := o.hsts], 0, 100, true))])
      + if o.status < 200 || o.status >= 300 || !o.html then []
        else if o.csp == "" then
          [Derive("HTTPS_CSP_ABSENT", map[], 0, 100),
           Conclude("CSP_HARDENING_ONLY", Observation, "", ["HTTPS_STATUS_2XX", "HTML_CONTENT", "CSP_ABSENT"], 100, 100, 0)]
        else [Evid(Evidence("HTTPS_CSP_PRESENT", DERIVED, map[], 0, 100, true))]
  }

  predicate Covers(order: seq<string>, chains: map<string, Chain>) {
    && (forall key | key in order :: key in chains)
    && (forall key | key in chains :: key in order)
    && forall i, j | 0 <= i < j < |order| :: order[i] != order[j]
  }

  function Additions(lib: Library, inputs: Inputs, order: seq<string>): seq<Addition>
    requires forall key | key in order :: key in inputs.chains
  {
    HttpPart(lib, inputs) + RedirectPart(inputs.chains, order) + HeaderPart(inputs)
  }

  // ---------------------------------------------------------------- making the additions

  predicate Present(evidences: seq<Evidence>, kind: string, source: string) {
    exists e | e in evidences :: e.kind == kind && e.source == source
  }

  function WithEvidence(evidences: seq<Evidence>, e: Evidence): seq<Evidence> {
    if Present(evidences, e.kind, e.source) then evidences else evidences + [e]
  }

  function Collecting(evidences: seq<Evidence>, additions: seq<Addition>): seq<Evidence>
    decreases |additions|
  {
    if additions == [] then evidences
    else
      var before := Collecting(evidences, additions[..|additions| - 1]);
      match additions[|additions| - 1]
      case Evid(e) => WithEvidence(before, e)
      case Infer(_) => before
  }

  function Findings(additions: seq<Addition>): seq<Finding>
    decreases |additions|
  {
    if additions == [] then []
    else
      Findings(additions[..|additions| - 1])
      + match additions[|additions| - 1]
        case Evid(_) => []
        case Infer(f) => [f]
  }

  function Original(evidences: seq<Evidence>): seq<Evidence>
    decreases |evidences|
  {
    if evidences == [] then []
    else
      var last := evidences[|evidences| - 1];
      Original(evidences[..|evidences| - 1]) + if last.source != DERIVED then [last] else []
  }

  lemma OriginalLast(evidences: seq<Evidence>, e: Evidence)
    ensures Original(evidences + [e]) == Original(evidences) + if e.source != DERIVED then [e] else []
  {
    assert (evidences + [e])[..|evidences|] == evidences;
  }

  /** What was there before the additions is what remains when the derived evidence is dropped again. */
  lemma {:induction false} DroppedAgain(evidences: seq<Evidence>, additions: seq<Addition>)
    requires Plain(additions)
    ensures Original(Collecting(evidences, additions)) == Original(evidences)
    decreases |additions|
  {
    if additions != [] {
      var init, last := additions[..|additions| - 1], additions[|additions| - 1];
      DroppedAgain(evidences, init);
      assert last in additions;
      if last.Evid? {
        OriginalLast(Collecting(evidences, init), last.evidence);
      }
    }
  }

  lemma {:induction false} OriginalTwice(evidences: seq<Evidence>)
    ensures Original(Original(evidences)) == Original(evidences)
    decreases |evidences|
  {
    if evidences != [] {
      var init, last := evidences[..|evidences| - 1], evidences[|evidences| - 1];
      OriginalTwice(init);
      OriginalLast(Original(init), last);
      assert Original(init) + [] == Original(init);
    }
  }

  // ---------------------------------------------------------------- what the additions guarantee

  predicate Adds(additions: seq<Addition>, kind: string) {
    exists a | a in additions :: a.Evid? && a.evidence.kind == kind
  }

  predicate Serious(f: Finding) {
    f.state == Candidate || f.state == Confirmed
  }

  predicate Plain(additions: seq<Addition>) {
    forall a | a in additions && a.Evid? :: a.evidence.source == DERIVED && a.evidence.kind !in DETAILED
  }

  /** Derived evidence is marked as such and of a plain kind; and every candidate or confirmed finding names a
      serious kind that is among the additions. */
  ghost predicate WellMade(additions: seq<Addition>) {
    && Plain(additions)
    && (forall a | a in additions && a.Infer? && Serious(a.finding) ::
          a.finding.finding in SERIOUS && Adds(additions, a.finding.finding))
  }

  lemma AddsMore(a: seq<Addition>, b: seq<Addition>, kind: string)
    requires Adds(a, kind) || Adds(b, kind)
    ensures Adds(a + b, kind)
  {
    if Adds(a, kind) {
      var x :| x in a && x.Evid? && x.evidence.kind == kind;
      assert x in a + b;
    } else {
      var x :| x in b && x.Evid? && x.evidence.kind == kind;
      assert x in a + b;
    }
  }

  lemma WellMadeConcat(a: seq<Addition>, b: seq<Addition>)
    requires WellMade(a) && WellMade(b)
    ensures WellMade(a + b)
  {
    forall x | x in a + b && x.Infer? && Serious(x.finding) ensures x.finding.finding in SERIOUS && Adds(a + b, x.finding.finding) {
      AddsMore(a, b, x.finding.finding);
    }
  }

  /** One piece of evidence of a plain kind, and perhaps a finding that names it or is not serious. */
  lemma WellMadePair(e: Addition, f: Addition)
    requires e.Evid? && e.evidence.source == DERIVED && e.evidence.kind !in DETAILED
    requires f.Infer? && (Serious(f.finding) ==> f.finding.finding == e.evidence.kind && e.evidence.kind in SERIOUS)
    ensures WellMade([e, f])
  {
    assert e in [e, f];
  }

  lemma UpgradedWellMade(lib: Library, url: string)
    ensures WellMade(UpgradedPart(lib, url))
  {
    var first := [Derive("HTTP_HTTPS_UPGRADE_PRESENT", map["location" := url], 0, 100)];
    if lib.oddPort(url) {
      var more := UpgradedPart(lib, url)[1..];
      WellMadePair(more[0], more[1]);
      assert more == [more[0], more[1]] && UpgradedPart(lib, url) == first + more;
      WellMadeConcat(first, more);
    }
  }

  lemma IfPlain(condition: bool, addition: Addition, rest: seq<Addition>)
    requires addition.Evid? && addition.evidence.source == DERIVED && addition.evidence.kind !in DETAILED
    requires WellMade(rest) && forall a | a in rest :: a.Evid?
    ensures WellMade(If(condition, addition) + rest) && forall a | a in If(condition, addition) + rest :: a.Evid?
    ensures condition ==> Adds(If(condition, addition) + rest, addition.evidence.kind)
    ensures forall kind | Adds(rest, kind) :: Adds(If(condition, addition) + rest, kind)
  {
    if condition {
      assert addition in [addition] + rest;
    }
    forall kind | Adds(rest, kind) ensures Adds(If(condition, addition) + rest, kind) {
      AddsMore(If(condition, addition), rest, kind);
    }
  }

  lemma PlaintextEvidenceMade(lib: Library, inputs: Inputs, o: Observed)
    ensures var all := PlaintextEvidence(lib, inputs, o);
            && WellMade(all)
            && (o.html ==> Adds(all, "PLAINTEXT_WEB_CONTENT"))
            && (o.passwordForm ==> Adds(all, "PLAINTEXT_AUTH_INTERFACE"))
            && (o.insecureCookies != [] ==> Adds(all, "HTTP_SENSITIVE_COOKIE_WITHOUT_SECURE"))
  {
    var similar := Similar(inputs) >= 90.0;
    var score := Derive("TRANSPORT_PRIORITY_SCORE",
      map["score" := lib.number(Priority(inputs, o, similar)), "signals" := Join(Signals(inputs, o, similar), ',')], 0, 100);
    var cookies := Derive("HTTP_SENSITIVE_COOKIE_WITHOUT_SECURE", map["cookies" := Join(o.insecureCookies, ',')], 60, 95);
    var auth := Derive("PLAINTEXT_AUTH_INTERFACE", map[], 60, 100);
    var web := Derive("PLAINTEXT_WEB_CONTENT", map["similarity" := lib.percent(Similar(inputs))], 20, 95);
    ThreeMade(o.html, web, o.passwordForm, auth, o.insecureCookies != [], cookies, score);
  }

  lemma ThreeMade(a: bool, x: Addition, b: bool, y: Addition, c: bool, z: Addition, last: Addition)
    requires forall e | e in [x, y, z, last] :: e.Evid? && e.evidence.source == DERIVED && e.evidence.kind !in DETAILED
    ensures var all := If(a, x) + (If(b, y) + (If(c, z) + [last]));
            && WellMade(all)
            && (a ==> Adds(all, x.evidence.kind)) && (b ==> Adds(all, y.evidence.kind)) && (c ==> Adds(all, z.evidence.kind))
  {
    assert x in [x, y, z, last] && y in [x, y, z, last] && z in [x, y, z, last] && last in [x, y, z, last];
    IfPlain(c, z, [last]);
    IfPlain(b, y, If(c, z) + [last]);
    IfPlain(a, x, If(b, y) + (If(c, z) + [last]));
  }

  lemma PlaintextWellMade(lib: Library, inputs: Inputs, o: Observed, reasons: seq<string>)
    ensures WellMade(PlaintextPart(lib, inputs, o, reasons))
  {
    var verdict := PlaintextVerdict(o, PlaintextReasons(o, Similar(inputs) >= 90.0, reasons));
    PlaintextEvidenceMade(lib, inputs, o);
    VerdictMade(PlaintextEvidence(lib, inputs, o), verdict);
  }

  lemma VerdictMade(evidence: seq<Addition>, verdict: Addition)
    requires WellMade(evidence) && verdict.Infer?
    requires Serious(verdict.finding) ==> verdict.finding.finding in SERIOUS && Adds(evidence, verdict.finding.finding)
    ensures WellMade(evidence + [verdict])
  {
    forall x | x in evidence + [verdict] && x.Infer? && Serious(x.finding)
      ensures x.finding.finding in SERIOUS && Adds(evidence + [verdict], x.finding.finding)
    {
      AddsMore(evidence, [verdict], x.finding.finding);
    }
  }

  lemma UnservedWellMade(status: int, reasons: seq<string>)
    ensures WellMade(UnservedPart(status, reasons))
  {
  }

  lemma StatusWellMade(lib: Library, inputs: Inputs, o: Observed)
    ensures WellMade(StatusPart(lib, inputs, o))
  {
    if BlockedStatus(o.status) {
      BlockedWellMade(OnEdge(inputs), Reasons(lib, inputs, o));
    } else if 200 <= o.status < 300 {
      PlaintextWellMade(lib, inputs, o, Reasons(lib, inputs, o));
    } else {
      UnservedWellMade(o.status, Reasons(lib, inputs, o));
    }
  }

  lemma BlockedWellMade(edge: bool, reasons: seq<string>)
    ensures WellMade(BlockedPart(edge, reasons))
  {
  }

  lemma NotUpgradedWellMade(lib: Library, inputs: Inputs, o: Observed)
    ensures WellMade(NotUpgradedPart(lib, inputs, o))
  {
    var first := [Derive("HTTP_NO_HTTPS_UPGRADE", map["status" := lib.number(o.status), "location" := o.location], 0, 100)];
    var second := if Collected(inputs.https) then [] else [Derive("HTTPS_UNAVAILABLE", map[], 0, 80)];
    StatusWellMade(lib, inputs, o);
    assert WellMade(first) && WellMade(second);
    WellMadeConcat(first, second);
    WellMadeConcat(first + second, StatusPart(lib, inputs, o));
  }

  lemma DowngradeWellMade(lib: Library, inputs: Inputs)
    ensures WellMade(DowngradePart(lib, inputs))
  {
    var part := DowngradePart(lib, inputs);
    if part != [] {
      WellMadePair(part[0], part[1]);
      assert part == [part[0], part[1]];
    }
  }

  lemma HttpWellMade(lib: Library, inputs: Inputs)
    ensures WellMade(HttpPart(lib, inputs))
  {
    if inputs.http.Some? || inputs.https.Some? {
      DowngradeWellMade(lib, inputs);
      assert WellMade(CorrelationPart(lib, inputs));
      WellMadeConcat(CorrelationPart(lib, inputs), DowngradePart(lib, inputs));
      var front := CorrelationPart(lib, inputs) + DowngradePart(lib, inputs);
      if Collected(inputs.http) {
        UpgradedWellMade(lib, Upgrade(lib, inputs, inputs.http.value).0);
        NotUpgradedWellMade(lib, inputs, inputs.http.value);
        WellMadeConcat(front, if Upgrade(lib, inputs, inputs.http.value).1 then UpgradedPart(lib, Upgrade(lib, inputs, inputs.http.value).0)
                              else NotUpgradedPart(lib, inputs, inputs.http.value));
      } else {
        assert front + [] == front;
      }
    }
  }

  lemma ChainWellMade(chain: Chain)
    ensures WellMade(ChainPart(chain))
  {
    var part := ChainPart(chain);
    if |part| == 2 {
      WellMadePair(part[0], part[1]);
      assert part == [part[0], part[1]];
    }
  }

  lemma {:induction false} RedirectsWellMade(chains: map<string, Chain>, order: seq<string>)
    requires forall key | key in order :: key in chains
    ensures WellMade(RedirectPart(chains, order))
  {
    if order != [] {
      ChainWellMade(chains[order[0]]);
      RedirectsWellMade(chains, order[1..]);
      WellMadeConcat(ChainPart(chains[order[0]]), RedirectPart(chains, order[1..]));
    }
  }

  lemma HeaderWellMade(inputs: Inputs)
    ensures WellMade(HeaderPart(inputs))
  {
  }

  lemma AdditionsWellMade(lib: Library, inputs: Inputs, order: seq<string>)
    requires forall key | key in order :: key in inputs.chains
    ensures WellMade(Additions(lib, inputs, order))
  {
    HttpWellMade(lib, inputs);
    RedirectsWellMade(inputs.chains, order);
    HeaderWellMade(inputs);
    WellMadeConcat(HttpPart(lib, inputs), RedirectPart(inputs.chains, order));
    WellMadeConcat(HttpPart(lib, inputs) + RedirectPart(inputs.chains, order), HeaderPart(inputs));
  }
}
