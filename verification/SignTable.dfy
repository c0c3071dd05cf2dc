/** What the HTTP observations of a host show, and the evidence and findings that follow from it. */
module SignTable {

  datatype ResultState = Confirmed | Candidate | Suppressed | Observation | Inconclusive | Healthy

  /** What the observations show, condition by condition. */
  datatype Signs = Signs(
    correlated: bool, downgrades: bool, upgraded: bool, oddPort: bool, stays: bool, alone: bool, edge: bool,
    blocked: bool, gone: bool, failing: bool,
    served: bool, login: bool, cookie: bool, page: bool, harmless: bool,
    missingName: bool, missingResource: bool, unresolved: bool, unsupported: bool,
    noHsts: bool, hsts: bool, noCsp: bool, csp: bool)

  /** The kinds of evidence that follow from what is shown. */
  predicate Evidences(s: Signs, kind: string) {
    || (s.correlated && kind == "HTTP_HTTPS_CONTENT_CORRELATED")
    || (s.downgrades && kind == "HTTPS_DOWNGRADE_REDIRECT")
    || (s.upgraded && kind == "HTTP_HTTPS_UPGRADE_PRESENT")
    || (s.oddPort && kind == "HTTP_HTTPS_PORT_INCONSISTENT")
    || (s.stays && kind == "HTTP_NO_HTTPS_UPGRADE")
    || (s.alone && kind == "HTTPS_UNAVAILABLE")
    || (s.blocked && kind == "HTTP_BLOCKED_WITHOUT_REDIRECT")
    || (s.blocked && s.edge && kind == "HTTP_EDGE_BLOCK")
    || (s.gone && kind == "RESOURCE_NOT_AVAILABLE")
    || (s.failing && kind == "HTTP_ERROR_WITHOUT_REDIRECT")
    || (s.served && kind == "TRANSPORT_PRIORITY_SCORE")
    || (s.login && kind == "PLAINTEXT_AUTH_INTERFACE")
    || (s.cookie && kind == "HTTP_SENSITIVE_COOKIE_WITHOUT_SECURE")
    || (s.page && kind == "PLAINTEXT_WEB_CONTENT")
    || ((s.missingName || s.missingResource) && kind == "DANGLING_REDIRECT")
    || (s.noHsts && kind == "HTTPS_HSTS_ABSENT")
    || (s.hsts && kind == "HTTPS_HSTS_PRESENT")
    || (s.noCsp && kind == "HTTPS_CSP_ABSENT")
    || (s.csp && kind == "HTTPS_CSP_PRESENT")
  }

  /** The findings that follow from it: rule, state and the kind of evidence named. */
  predicate Fires(s: Signs, rule: string, state: ResultState, finding: string) {
    || (s.downgrades && rule == "HTTPS_DOWNGRADE" && state == Candidate && finding == "HTTPS_DOWNGRADE_REDIRECT")
    || (s.oddPort && rule == "HTTP_UPGRADE_NONSTANDARD_PORT" && state == Candidate && finding == "HTTP_HTTPS_PORT_INCONSISTENT")
    || (s.upgraded && !s.oddPort && rule == "HTTP_HTTPS_UPGRADE" && state == Healthy && finding == "")
    || (s.blocked && s.edge && rule == "EDGE_BLOCKED_NO_EXPOSURE" && state == Suppressed && finding == "")
    || (s.blocked && !s.edge && rule == "HTTP_BLOCKED_NO_EXPOSURE" && state == Suppressed && finding == "HTTP_BLOCKED_WITHOUT_REDIRECT")
    || (s.gone && rule == "HTTP_RESOURCE_NOT_AVAILABLE" && state == Suppressed && finding == "")
    || (s.failing && rule == "HTTP_ERROR_NO_EXPOSURE" && state == Suppressed && finding == "")
    || (s.login && rule == "PLAINTEXT_AUTH_INTERFACE" && state == Confirmed && finding == "PLAINTEXT_AUTH_INTERFACE")
    || (s.cookie && !s.login && rule == "SENSITIVE_COOKIE_OVER_HTTP" && state == Confirmed
        && finding == "HTTP_SENSITIVE_COOKIE_WITHOUT_SECURE")
    || (s.page && !s.login && !s.cookie && rule == "PLAINTEXT_WEB_CONTENT" && state == Candidate && finding == "PLAINTEXT_WEB_CONTENT")
    || (s.harmless && rule == "HTTP_NO_UPGRADE_OBSERVED" && state == Observation && finding == "")
    || (s.missingName && rule == "REDIRECT_DESTINATION_DNS_MISSING" && state == Candidate && finding == "DANGLING_REDIRECT")
    || (s.missingResource && rule == "REDIRECT_DESTINATION_PROVIDER_ERROR" && state == Candidate && finding == "DANGLING_REDIRECT")
    || (s.unresolved && rule == "REDIRECT_DESTINATION_INCONCLUSIVE" && state == Inconclusive && finding == "")
    || (s.unsupported && rule == "UNSUPPORTED_PROTOCOL" && state == Inconclusive && finding == "")
    || (s.noHsts && rule == "HSTS_POSTURE_ONLY" && state == Observation && finding == "")
    || (s.noCsp && rule == "CSP_HARDENING_ONLY" && state == Observation && finding == "")
  }

  // ---------------------------------------------------------------- kind by kind, rule by rule

  lemma LoginKind(s: Signs)
    ensures Evidences(s, "PLAINTEXT_AUTH_INTERFACE") <==> s.login
  {
  }

  lemma CookieKind(s: Signs)
    ensures Evidences(s, "HTTP_SENSITIVE_COOKIE_WITHOUT_SECURE") <==> s.cookie
  {
  }

  lemma PageKind(s: Signs)
    ensures Evidences(s, "PLAINTEXT_WEB_CONTENT") <==> s.page
  {
  }

  lemma PortKind(s: Signs)
    ensures Evidences(s, "HTTP_HTTPS_PORT_INCONSISTENT") <==> s.oddPort
  {
  }

  lemma DowngradeKind(s: Signs)
    ensures Evidences(s, "HTTPS_DOWNGRADE_REDIRECT") <==> s.downgrades
  {
  }

  lemma DanglingKind(s: Signs)
    ensures Evidences(s, "DANGLING_REDIRECT") <==> s.missingName || s.missingResource
  {
  }

  lemma LoginRule(s: Signs, state: ResultState, finding: string)
    ensures Fires(s, "PLAINTEXT_AUTH_INTERFACE", state, finding) <==>
            s.login && state == Confirmed && finding == "PLAINTEXT_AUTH_INTERFACE"
  {
  }

  lemma CookieRule(s: Signs, state: ResultState, finding: string)
    ensures Fires(s, "SENSITIVE_COOKIE_OVER_HTTP", state, finding) <==>
            s.cookie && !s.login && state == Confirmed && finding == "HTTP_SENSITIVE_COOKIE_WITHOUT_SECURE"
  {
  }

  lemma PageRule(s: Signs, state: ResultState, finding: string)
    ensures Fires(s, "PLAINTEXT_WEB_CONTENT", state, finding) <==>
            s.page && !s.login && !s.cookie && state == Candidate && finding == "PLAINTEXT_WEB_CONTENT"
  {
  }

  lemma HarmlessRule(s: Signs, state: ResultState, finding: string)
    ensures Fires(s, "HTTP_NO_UPGRADE_OBSERVED", state, finding) <==>
            s.harmless && state == Observation && finding == ""
  {
  }

  lemma EdgeBlockedRule(s: Signs, state: ResultState, finding: string)
    ensures Fires(s, "EDGE_BLOCKED_NO_EXPOSURE", state, finding) <==>
            s.blocked && s.edge && state == Suppressed && finding == ""
  {
  }

  lemma BlockedRule(s: Signs, state: ResultState, finding: string)
    ensures Fires(s, "HTTP_BLOCKED_NO_EXPOSURE", state, finding) <==>
            s.blocked && !s.edge && state == Suppressed && finding == "HTTP_BLOCKED_WITHOUT_REDIRECT"
  {
  }

  lemma GoneRule(s: Signs, state: ResultState, finding: string)
    ensures Fires(s, "HTTP_RESOURCE_NOT_AVAILABLE", state, finding) <==>
            s.gone && state == Suppressed && finding == ""
  {
  }

  lemma FailingRule(s: Signs, state: ResultState, finding: string)
    ensures Fires(s, "HTTP_ERROR_NO_EXPOSURE", state, finding) <==>
            s.failing && state == Suppressed && finding == ""
  {
  }

  lemma DowngradeRule(s: Signs, state: ResultState, finding: string)
    ensures Fires(s, "HTTPS_DOWNGRADE", state, finding) <==>
            s.downgrades && state == Candidate && finding == "HTTPS_DOWNGRADE_REDIRECT"
  {
  }

  lemma PortRule(s: Signs, state: ResultState, finding: string)
    ensures Fires(s, "HTTP_UPGRADE_NONSTANDARD_PORT", state, finding) <==>
            s.oddPort && state == Candidate && finding == "HTTP_HTTPS_PORT_INCONSISTENT"
  {
  }

  lemma UpgradeRule(s: Signs, state: ResultState, finding: string)
    ensures Fires(s, "HTTP_HTTPS_UPGRADE", state, finding) <==>
            s.upgraded && !s.oddPort && state == Healthy && finding == ""
  {
  }

  lemma MissingNameRule(s: Signs, state: ResultState, finding: string)
    ensures Fires(s, "REDIRECT_DESTINATION_DNS_MISSING", state, finding) <==>
            s.missingName && state == Candidate && finding == "DANGLING_REDIRECT"
  {
  }

  lemma MissingResourceRule(s: Signs, state: ResultState, finding: string)
    ensures Fires(s, "REDIRECT_DESTINATION_PROVIDER_ERROR", state, finding) <==>
            s.missingResource && state == Candidate && finding == "DANGLING_REDIRECT"
  {
  }

  lemma UnresolvedRule(s: Signs, state: ResultState, finding: string)
    ensures Fires(s, "REDIRECT_DESTINATION_INCONCLUSIVE", state, finding) <==>
            s.unresolved && state == Inconclusive && finding == ""
  {
  }

  lemma UnsupportedRule(s: Signs, state: ResultState, finding: string)
    ensures Fires(s, "UNSUPPORTED_PROTOCOL", state, finding) <==>
            s.unsupported && state == Inconclusive && finding == ""
  {
  }

  lemma HstsRule(s: Signs, state: ResultState, finding: string)
    ensures Fires(s, "HSTS_POSTURE_ONLY", state, finding) <==>
            s.noHsts && state == Observation && finding == ""
  {
  }

  lemma CspRule(s: Signs, state: ResultState, finding: string)
    ensures Fires(s, "CSP_HARDENING_ONLY", state, finding) <==>
            s.noCsp && state == Observation && finding == ""
  {
  }

  /** In which states there is a finding. */
  predicate Shows(s: Signs, state: ResultState) {
    match state
    case Confirmed => s.login || s.cookie
    case Candidate =>
      s.downgrades || s.oddPort || (s.page && !s.login && !s.cookie) || s.missingName || s.missingResource
    case Suppressed => s.blocked || s.gone || s.failing
    case Observation => s.harmless || s.noHsts || s.noCsp
    case Inconclusive => s.unresolved || s.unsupported
    case Healthy => s.upgraded && !s.oddPort
  }

  lemma FiresInState(s: Signs, rule: string, state: ResultState, finding: string)
    requires Fires(s, rule, state, finding)
    ensures Shows(s, state)
  {
  }

  lemma FindingIn(s: Signs, state: ResultState) returns (rule: string, finding: string)
    requires Shows(s, state)
    ensures Fires(s, rule, state, finding)
  {
    match state
    case Confirmed =>
      rule, finding := if s.login then "PLAINTEXT_AUTH_INTERFACE" else "SENSITIVE_COOKIE_OVER_HTTP",
        if s.login then "PLAINTEXT_AUTH_INTERFACE" else "HTTP_SENSITIVE_COOKIE_WITHOUT_SECURE";
    case Candidate =>
      rule, finding := CandidateIn(s);
    case Suppressed =>
      rule, finding := if s.gone then "HTTP_RESOURCE_NOT_AVAILABLE" else if s.failing then "HTTP_ERROR_NO_EXPOSURE"
        else if s.edge then "EDGE_BLOCKED_NO_EXPOSURE" else "HTTP_BLOCKED_NO_EXPOSURE",
        if s.gone || s.failing || s.edge then "" else "HTTP_BLOCKED_WITHOUT_REDIRECT";
    case Observation =>
      rule, finding := if s.harmless then "HTTP_NO_UPGRADE_OBSERVED" else if s.noHsts then "HSTS_POSTURE_ONLY"
        else "CSP_HARDENING_ONLY", "";
    case Inconclusive =>
      rule, finding := if s.unresolved then "REDIRECT_DESTINATION_INCONCLUSIVE" else "UNSUPPORTED_PROTOCOL", "";
    case Healthy =>
      rule, finding := "HTTP_HTTPS_UPGRADE", "";
  }

  lemma CandidateIn(s: Signs) returns (rule: string, finding: string)
    requires Shows(s, Candidate)
    ensures Fires(s, rule, Candidate, finding)
  {
    if s.downgrades {
      rule, finding := "HTTPS_DOWNGRADE", "HTTPS_DOWNGRADE_REDIRECT";
    } else if s.oddPort {
      rule, finding := "HTTP_UPGRADE_NONSTANDARD_PORT", "HTTP_HTTPS_PORT_INCONSISTENT";
    } else if s.missingName {
      rule, finding := "REDIRECT_DESTINATION_DNS_MISSING", "DANGLING_REDIRECT";
    } else if s.missingResource {
      rule, finding := "REDIRECT_DESTINATION_PROVIDER_ERROR", "DANGLING_REDIRECT";
    } else {
      rule, finding := "PLAINTEXT_WEB_CONTENT", "PLAINTEXT_WEB_CONTENT";
    }
  }
}
