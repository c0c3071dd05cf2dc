/** From evidence to a risk level, and from level and inferences to the reported decision. */
module Classification {
  import opened Options
  import opened Kinds
  import opened Labels
  import opened SignTable
  import opened Inference

  datatype Level =
    | TakenOver
    | ConfirmedTakeoverable
    | Takeoverable
    | LikelyTakeoverable
    | ZoneControlConfirmed
    | DelegationClaimabilityVerified
    | DelegationTakeoverCandidate
    | DelegationBroken
    | Exposed
    | Orphaned
    | Misconfigured
    | Unknown
    | InsufficientEvidence
    | HealthyLevel

  function RiskRank(level: Level): nat {
    match level
    case HealthyLevel => 0
    case InsufficientEvidence => 1
    case Unknown => 2
    case Misconfigured => 3
    case Exposed => 4
    case Orphaned => 5
    case DelegationBroken => 5
    case LikelyTakeoverable => 6
    case DelegationTakeoverCandidate => 6
    case Takeoverable => 7
    case ConfirmedTakeoverable => 8
    case DelegationClaimabilityVerified => 8
    case ZoneControlConfirmed => 9
    case TakenOver => 10
  }

  /** The outcome of an active verification. */
  datatype Active = Active(score: int, present: bool, verified: bool, controlProven: bool, confidence: nat)

  /** Text checks of the rules: a generic fingerprint, and a status text that stands for 200 to 399. */
  datatype Texts = Texts(generic: string -> bool, goodStatus: string -> bool)

  // ---------------------------------------------------------------- rules

  predicate Has(evidences: seq<Evidence>, kind: string) {
    exists e | e in evidences :: e.kind == kind
  }

  predicate HasAny(evidences: seq<Evidence>, kinds: set<string>) {
    exists e | e in evidences :: e.kind in kinds
  }

  function Get(meta: Meta, key: string): string {
    if key in meta then meta[key] else ""
  }

  predicate HealthyResponse(texts: Texts, evidences: seq<Evidence>) {
    exists e | e in evidences :: e.kind == "HTTP_RESPONSE" && texts.goodStatus(Get(e.meta, "status"))
  }

  /** A specific fingerprint in the response, tied to the provider the alias matched. */
  predicate BoundBody(texts: Texts, cname: Evidence, other: Evidence) {
    && cname.kind == "CNAME_PROVIDER_MATCH" && cname.source != ""
    && other.kind == "HTTP_BODY_MATCH" && other.source == cname.source
    && Get(cname.meta, "provider_id") != "" && Get(other.meta, "provider_id") == Get(cname.meta, "provider_id")
    && Get(other.meta, "matched_cname") == Get(cname.meta, "matched_cname") && Get(other.meta, "rule_id") != ""
    && !texts.generic(Get(other.meta, "matched_fingerprint"))
  }

  predicate BoundMutation(texts: Texts, cname: Evidence, other: Evidence) {
    && cname.kind == "CNAME_PROVIDER_MATCH" && cname.source != ""
    && other.kind == "HTTP_MUTATION_REVEALED_PROVIDER_FINGERPRINT" && other.source == cname.source
    && Get(cname.meta, "provider_id") != "" && Get(other.meta, "provider_id") == Get(cname.meta, "provider_id")
    && Get(other.meta, "cname") == Get(cname.meta, "matched_cname") && Get(other.meta, "rule_id") != ""
    && !texts.generic(Get(other.meta, "matched_fingerprint")) && Get(other.meta, "confirmations") == "2"
  }

  predicate Bound(texts: Texts, evidences: seq<Evidence>) {
    exists c, o | c in evidences && o in evidences :: BoundMutation(texts, c, o) || BoundBody(texts, c, o)
  }

  predicate ControlVerified(active: Active) {
    active.score == 100 && active.present && active.verified && active.controlProven && active.confidence == 100
  }

  predicate OnlyContext(evidences: seq<Evidence>) {
    evidences != [] && forall e | e in evidences :: e.kind in CONTEXT
  }

  /** What the rules ask of the evidence, in the order they ask it. */
  datatype Facts = Facts(zone: bool, claimed: bool, control: bool, bound: bool, claimable: bool, notDemonstrated: bool,
                         takeover: bool, broken: bool, exposed: bool, dangling: bool, misconfigured: bool, healthy: bool,
                         onlyContext: bool)

  predicate Sound(texts: Texts, evidences: seq<Evidence>) {
    && HealthyResponse(texts, evidences) && (Has(evidences, "CDN_DETECTED") || Has(evidences, "TECHNOLOGY_DETECTED"))
    && !Has(evidences, "HTTP_STATUS_404") && !Has(evidences, "CNAME_DANGLING") && !Has(evidences, "NXDOMAIN")
  }

  function FactsOf(texts: Texts, active: Active, evidences: seq<Evidence>): Facts {
    Facts(Has(evidences, "ZONE_CONTROL_CONFIRMED"), Has(evidences, "CLAIM_SUCCESS"), ControlVerified(active),
          Bound(texts, evidences), Has(evidences, "DELEGATION_CLAIMABILITY_VERIFIED"),
          Has(evidences, "DELEGATION_CLAIMABILITY_NOT_DEMONSTRATED"), Has(evidences, "DELEGATION_TAKEOVER_CANDIDATE"),
          Has(evidences, "DELEGATION_BROKEN"), HasAny(evidences, EXPOSED), Has(evidences, "CNAME_DANGLING"),
          HasAny(evidences, MISCONFIGURED), Sound(texts, evidences), evidences == [] || OnlyContext(evidences))
  }

  /** The first rule that fires decides. */
  function FirstRule(f: Facts): Level {
    if f.zone then ZoneControlConfirmed
    else if f.claimed then TakenOver
    else if f.control then ConfirmedTakeoverable
    else if f.bound then LikelyTakeoverable
    else if f.claimable then DelegationClaimabilityVerified
    else if f.notDemonstrated then DelegationBroken
    else if f.takeover then DelegationTakeoverCandidate
    else if f.broken then DelegationBroken
    else if f.exposed then Exposed
    else if f.dangling then Orphaned
    else if f.misconfigured then Misconfigured
    else if f.healthy then HealthyLevel
    else if f.onlyContext then InsufficientEvidence
    else Unknown
  }

  function LevelOf(texts: Texts, active: Active, evidences: seq<Evidence>): Level {
    FirstRule(FactsOf(texts, active, evidences))
  }

  /** Control of the zone, a successful claim, or proof of control. */
  predicate Controlled(active: Active, evidences: seq<Evidence>) {
    Has(evidences, "ZONE_CONTROL_CONFIRMED") || Has(evidences, "CLAIM_SUCCESS") || ControlVerified(active)
  }

  /** What is reported before an exposure. */
  predicate Graver(texts: Texts, active: Active, evidences: seq<Evidence>) {
    || Controlled(active, evidences) || Bound(texts, evidences)
    || Has(evidences, "DELEGATION_CLAIMABILITY_VERIFIED") || Has(evidences, "DELEGATION_CLAIMABILITY_NOT_DEMONSTRATED")
    || Has(evidences, "DELEGATION_TAKEOVER_CANDIDATE") || Has(evidences, "DELEGATION_BROKEN")
  }

  /** What is reported before a healthy response. */
  predicate Troubled(texts: Texts, active: Active, evidences: seq<Evidence>) {
    Graver(texts, active, evidences) || HasAny(evidences, EXPOSED) || Has(evidences, "CNAME_DANGLING") || HasAny(evidences, MISCONFIGURED)
  }

  /** On which evidence each level is reported: control and specific fingerprints, delegations, and the rest. */
  lemma ControlLevels(texts: Texts, active: Active, evidences: seq<Evidence>)
    ensures var level := LevelOf(texts, active, evidences);
            && (level == ZoneControlConfirmed <==> Has(evidences, "ZONE_CONTROL_CONFIRMED"))
            && (level == TakenOver <==> Has(evidences, "CLAIM_SUCCESS") && !Has(evidences, "ZONE_CONTROL_CONFIRMED"))
            && (level == ConfirmedTakeoverable <==>
                  ControlVerified(active) && !Has(evidences, "CLAIM_SUCCESS") && !Has(evidences, "ZONE_CONTROL_CONFIRMED"))
            && (level == LikelyTakeoverable <==> Bound(texts, evidences) && !Controlled(active, evidences))
  {
  }

  lemma DelegationLevels(texts: Texts, active: Active, evidences: seq<Evidence>)
    ensures var level := LevelOf(texts, active, evidences);
            && (level == DelegationClaimabilityVerified <==>
                  Has(evidences, "DELEGATION_CLAIMABILITY_VERIFIED") && !Bound(texts, evidences) && !Controlled(active, evidences))
            && (level == DelegationBroken <==>
                  && (|| Has(evidences, "DELEGATION_CLAIMABILITY_NOT_DEMONSTRATED")
                      || (Has(evidences, "DELEGATION_BROKEN") && !Has(evidences, "DELEGATION_TAKEOVER_CANDIDATE")))
                  && !Has(evidences, "DELEGATION_CLAIMABILITY_VERIFIED")
                  && !Bound(texts, evidences) && !Controlled(active, evidences))
            && (level == DelegationTakeoverCandidate <==>
                  && Has(evidences, "DELEGATION_TAKEOVER_CANDIDATE")
                  && !Has(evidences, "DELEGATION_CLAIMABILITY_NOT_DEMONSTRATED")
                  && !Has(evidences, "DELEGATION_CLAIMABILITY_VERIFIED")
                  && !Bound(texts, evidences) && !Controlled(active, evidences))
  {
  }

  lemma OtherLevels(texts: Texts, active: Active, evidences: seq<Evidence>)
    ensures var level := LevelOf(texts, active, evidences);
            && (level == Exposed <==> HasAny(evidences, EXPOSED) && !Graver(texts, active, evidences))
            && (level == Orphaned <==>
                  Has(evidences, "CNAME_DANGLING") && !HasAny(evidences, EXPOSED) && !Graver(texts, active, evidences))
            && (level == Misconfigured <==>
                  && HasAny(evidences, MISCONFIGURED) && !Has(evidences, "CNAME_DANGLING")
                  && !HasAny(evidences, EXPOSED) && !Graver(texts, active, evidences))
            && (level == HealthyLevel <==> Sound(texts, evidences) && !Troubled(texts, active, evidences))
            && (level == InsufficientEvidence <==>
                  (evidences == [] || OnlyContext(evidences)) && !Sound(texts, evidences) && !Troubled(texts, active, evidences))
            && (level in {HealthyLevel, InsufficientEvidence, Unknown} <==> !Troubled(texts, active, evidences))
            && level != Takeoverable
  {
  }

  /** Two evidence lists the rules cannot tell apart: the same kinds, and the same evidence of those kinds of
      which more than the kind is read. */
  ghost predicate Alike(a: seq<Evidence>, b: seq<Evidence>) {
    && (forall kind :: Has(a, kind) <==> Has(b, kind))
    && (forall e: Evidence | e.kind in DETAILED :: e in a <==> e in b)
  }

  lemma AlikeAny(a: seq<Evidence>, b: seq<Evidence>, kinds: set<string>)
    requires Alike(a, b)
    ensures HasAny(a, kinds) ==> HasAny(b, kinds)
  {
    if HasAny(a, kinds) {
      var e :| e in a && e.kind in kinds;
      assert Has(a, e.kind);
      var f :| f in b && f.kind == e.kind;
    }
  }

  lemma AlikeBound(texts: Texts, a: seq<Evidence>, b: seq<Evidence>)
    requires forall e: Evidence | e.kind in DETAILED :: e in a <==> e in b
    ensures Bound(texts, a) ==> Bound(texts, b)
    ensures HealthyResponse(texts, a) ==> HealthyResponse(texts, b)
  {
    if Bound(texts, a) {
      var c, o :| c in a && o in a && (BoundMutation(texts, c, o) || BoundBody(texts, c, o));
      assert c in b && o in b;
    }
  }

  lemma AlikeContext(a: seq<Evidence>, b: seq<Evidence>)
    requires Alike(a, b)
    ensures (a == []) == (b == [])
    ensures OnlyContext(a) ==> OnlyContext(b)
  {
    if a != [] {
      assert a[0] in a && Has(a, a[0].kind);
    }
    if b != [] {
      assert b[0] in b && Has(b, b[0].kind);
    }
    if OnlyContext(a) {
      forall e | e in b ensures e.kind in CONTEXT {
        assert Has(b, e.kind);
        var f :| f in a && f.kind == e.kind;
      }
    }
  }

  lemma AlikeSound(texts: Texts, a: seq<Evidence>, b: seq<Evidence>)
    requires Alike(a, b)
    ensures Sound(texts, a) ==> Sound(texts, b)
  {
    AlikeBound(texts, a, b);
  }

  lemma AlikeBoth(texts: Texts, a: seq<Evidence>, b: seq<Evidence>)
    requires Alike(a, b)
    ensures HasAny(a, EXPOSED) == HasAny(b, EXPOSED) && HasAny(a, MISCONFIGURED) == HasAny(b, MISCONFIGURED)
    ensures Bound(texts, a) == Bound(texts, b) && Sound(texts, a) == Sound(texts, b)
    ensures (a == [] || OnlyContext(a)) == (b == [] || OnlyContext(b))
  {
    AlikeAny(a, b, EXPOSED);
    AlikeAny(b, a, EXPOSED);
    AlikeAny(a, b, MISCONFIGURED);
    AlikeAny(b, a, MISCONFIGURED);
    AlikeBound(texts, a, b);
    AlikeBound(texts, b, a);
    AlikeSound(texts, a, b);
    AlikeSound(texts, b, a);
    AlikeContext(a, b);
    AlikeContext(b, a);
  }

  lemma AlikeFacts(texts: Texts, active: Active, a: seq<Evidence>, b: seq<Evidence>)
    requires Alike(a, b)
    ensures FactsOf(texts, active, a) == FactsOf(texts, active, b)
  {
    AlikeBoth(texts, a, b);
  }

  lemma AlikeLevels(texts: Texts, active: Active, a: seq<Evidence>, b: seq<Evidence>)
    requires Alike(a, b)
    ensures LevelOf(texts, active, a) == LevelOf(texts, active, b)
  {
    AlikeFacts(texts, active, a, b);
  }

  /** The level does not depend on the order of the evidence. */
  lemma LevelIgnoresOrder(texts: Texts, active: Active, a: seq<Evidence>, b: seq<Evidence>)
    requires multiset(a) == multiset(b)
    ensures LevelOf(texts, active, a) == LevelOf(texts, active, b)
  {
    forall e: Evidence ensures e in a <==> e in b {
      assert e in multiset(a) <==> e in multiset(b);
    }
    AlikeLevels(texts, active, a, b);
  }

  /** Serious evidence fires a rule of at least MISCONFIGURED. */
  lemma SeriousLevel(texts: Texts, active: Active, evidences: seq<Evidence>, kind: string)
    requires Has(evidences, kind) && kind in SERIOUS
    ensures RiskRank(LevelOf(texts, active, evidences)) >= 3
  {
    SeriousFires(kind);
    var f := FactsOf(texts, active, evidences);
    assert f.exposed || f.misconfigured by {
      var e :| e in evidences && e.kind == kind;
    }
    SeriousRule(f);
  }

  /** The level is MISCONFIGURED or riskier exactly when one of the rules up to that one fires. */
  lemma SeriousRule(f: Facts)
    ensures RiskRank(FirstRule(f)) >= 3 <==>
            || f.zone || f.claimed || f.control || f.bound || f.claimable || f.notDemonstrated || f.takeover || f.broken
            || f.exposed || f.dangling || f.misconfigured
  {
  }

  /** Which facts make a host confirmed: proof of control, or, short of a specific takeover fingerprint, a
      verified delegation claim, or else an exposure with no unsettled delegation. */
  lemma ConfirmedExactly(f: Facts)
    ensures StateForLevel(FirstRule(f)) == Confirmed <==>
            || f.zone || f.claimed || f.control
            || (!f.bound && (f.claimable || (f.exposed && !f.notDemonstrated && !f.takeover && !f.broken)))
  {
  }

  /** `g` holds every fact of `f` that a rule of at least MISCONFIGURED asks for. */
  predicate Within(f: Facts, g: Facts) {
    && (f.zone ==> g.zone) && (f.claimed ==> g.claimed) && (f.control ==> g.control) && (f.bound ==> g.bound)
    && (f.claimable ==> g.claimable) && (f.notDemonstrated ==> g.notDemonstrated) && (f.takeover ==> g.takeover)
    && (f.broken ==> g.broken) && (f.exposed ==> g.exposed) && (f.dangling ==> g.dangling)
    && (f.misconfigured ==> g.misconfigured)
  }

  lemma MoreEvidence(texts: Texts, active: Active, a: seq<Evidence>, b: seq<Evidence>)
    requires forall e | e in a :: e in b
    ensures Within(FactsOf(texts, active, a), FactsOf(texts, active, b))
  {
    forall kind | Has(a, kind) ensures Has(b, kind) {
      var e :| e in a && e.kind == kind;
      assert e in b;
    }
  }

  /** In which facts the first rule that fires gives way to a milder one when facts are added: control of a
      zone hides a takeover; a specific fingerprint hides a verified delegation claim; a claim that was not
      demonstrated hides a delegation candidate; an exposure hides a dangling alias. */
  lemma MilderRule(f: Facts, g: Facts)
    requires Within(f, g) && RiskRank(FirstRule(f)) >= 3
    ensures RiskRank(FirstRule(g)) < RiskRank(FirstRule(f)) <==>
            || (!f.zone && f.claimed && g.zone)
            || (!g.zone && !g.claimed && !g.control &&
                (|| (!f.bound && f.claimable && g.bound)
                 || (!g.bound && !g.claimable && !f.notDemonstrated && f.takeover && g.notDemonstrated)
                 || (!g.bound && !g.claimable && !g.notDemonstrated && !g.takeover && !g.broken
                     && !f.exposed && f.dangling && g.exposed)))
  {
  }

  /** More evidence lowers the risk of a host that was MISCONFIGURED or riskier exactly when it adds a fact that
      is reported first although it is milder, and none that is reported before both. */
  lemma RiskFallsExactly(texts: Texts, active: Active, a: seq<Evidence>, b: seq<Evidence>)
    requires forall e | e in a :: e in b
    requires RiskRank(LevelOf(texts, active, a)) >= 3
    ensures var f, g := FactsOf(texts, active, a), FactsOf(texts, active, b);
            RiskRank(LevelOf(texts, active, b)) < RiskRank(LevelOf(texts, active, a)) <==>
              || (!f.zone && f.claimed && g.zone)
              || (!g.zone && !g.claimed && !g.control &&
                  (|| (!f.bound && f.claimable && g.bound)
                   || (!g.bound && !g.claimable && !f.notDemonstrated && f.takeover && g.notDemonstrated)
                   || (!g.bound && !g.claimable && !g.notDemonstrated && !g.takeover && !g.broken
                       && !f.exposed && f.dangling && g.exposed)))
  {
    MoreEvidence(texts, active, a, b);
    MilderRule(FactsOf(texts, active, a), FactsOf(texts, active, b));
  }

  lemma ZoneFirst(texts: Texts, active: Active, evidences: seq<Evidence>)
    requires Has(evidences, "ZONE_CONTROL_CONFIRMED")
    ensures LevelOf(texts, active, evidences) == ZoneControlConfirmed
  {
  }

  lemma ClaimNext(texts: Texts, active: Active, evidences: seq<Evidence>)
    requires !Has(evidences, "ZONE_CONTROL_CONFIRMED") && Has(evidences, "CLAIM_SUCCESS")
    ensures LevelOf(texts, active, evidences) == TakenOver
  {
  }

  lemma HasAmong(first: Evidence, second: Evidence, kind: string)
    ensures Has([first], kind) <==> first.kind == kind
    ensures second.kind == kind ==> Has([first, second], kind)
  {
    assert first in [first] && second in [first, second];
  }

  lemma KindsDiffer()
    ensures "CLAIM_SUCCESS" != "ZONE_CONTROL_CONFIRMED"
  {
    assert "CLAIM_SUCCESS"[0] != "ZONE_CONTROL_CONFIRMED"[0];
  }

  /** It happens: control of a zone on top of a successful claim turns TAKEN_OVER into ZONE_CONTROL_CONFIRMED. */
  lemma RiskFalls(texts: Texts, active: Active, claim: Evidence, zone: Evidence)
    requires claim.kind == "CLAIM_SUCCESS" && zone.kind == "ZONE_CONTROL_CONFIRMED"
    ensures LevelOf(texts, active, [claim]) == TakenOver
    ensures LevelOf(texts, active, [claim, zone]) == ZoneControlConfirmed
  {
    KindsDiffer();
    HasAmong(claim, zone, "CLAIM_SUCCESS");
    HasAmong(claim, zone, "ZONE_CONTROL_CONFIRMED");
    ClaimNext(texts, active, [claim]);
    ZoneFirst(texts, active, [claim, zone]);
  }

  lemma SeriousFires(kind: string)
    requires kind in SERIOUS
    ensures kind in EXPOSED || kind in MISCONFIGURED
  {
  }

  // ---------------------------------------------------------------- decision

  function StateForLevel(level: Level): ResultState {
    match level
    case TakenOver => Confirmed
    case ConfirmedTakeoverable => Confirmed
    case ZoneControlConfirmed => Confirmed
    case DelegationClaimabilityVerified => Confirmed
    case Exposed => Confirmed
    case HealthyLevel => Healthy
    case Unknown => Inconclusive
    case InsufficientEvidence => Inconclusive
    case _ => Candidate
  }

  function Rank(state: ResultState): nat {
    match state
    case Confirmed => 6
    case Candidate => 5
    case Suppressed => 4
    case Observation => 3
    case Inconclusive => 2
    case Healthy => 1
  }

  /** The first of the findings with the highest rank. */
  function Strongest(findings: seq<Finding>): Option<Finding>
    decreases |findings|
  {
    if findings == [] then None
    else
      var best, last := Strongest(findings[..|findings| - 1]), findings[|findings| - 1];
      if best.None? || Rank(last.state) > Rank(best.value.state) then Some(last) else best
  }

  lemma {:induction false} StrongestIsMaximal(findings: seq<Finding>)
    ensures findings == [] <==> Strongest(findings).None?
    ensures findings != [] ==> Strongest(findings).value in findings
                               && forall f | f in findings :: Rank(f.state) <= Rank(Strongest(findings).value.state)
    decreases |findings|
  {
    if findings != [] {
      StrongestIsMaximal(findings[..|findings| - 1]);
      assert findings == findings[..|findings| - 1] + [findings[|findings| - 1]];
    }
  }

  method StrongestInference(findings: seq<Finding>) returns (best: Option<Finding>)
    ensures best == Strongest(findings)
  {
    best := None;
    var i := 0;
    while i < |findings|
      invariant i <= |findings| && best == Strongest(findings[..i])
    {
      assert findings[..i + 1][..i] == findings[..i];
      if best.None? || Rank(findings[i].state) > Rank(best.value.state) {
        best := Some(findings[i]);
      }
      i := i + 1;
    }
    assert findings[..i] == findings;
  }

  function FirstWith(findings: seq<Finding>, state: ResultState): Option<Finding> {
    if findings == [] then None
    else if findings[0].state == state then Some(findings[0])
    else FirstWith(findings[1..], state)
  }

  function Selected(findings: seq<Finding>, state: ResultState): Option<Finding> {
    if state == Inconclusive || state == Observation then Strongest(findings) else FirstWith(findings, state)
  }

  /** The reported state: an inconclusive level defers to the strongest inference. */
  function Reported(level: Level, findings: seq<Finding>): ResultState {
    var state := StateForLevel(level);
    var selected := Selected(findings, state);
    var deferred := if state == Inconclusive && selected.Some? then
                      if selected.value.state == Healthy then Observation else selected.value.state
                    else state;
    if deferred == Observation && selected.Some? && selected.value.state == Suppressed then Suppressed else deferred
  }

  /** The last branch of the decision never changes anything: an observation is never selected as suppressed. */
  lemma SuppressionBranchIsDead(level: Level, findings: seq<Finding>)
    ensures var state := StateForLevel(level);
            var selected := Selected(findings, state);
            Reported(level, findings) ==
            if state == Inconclusive && selected.Some? then
              if selected.value.state == Healthy then Observation else selected.value.state
            else state
  {
  }

  datatype Decision = Decision(state: ResultState, rule: string, reasons: seq<string>, observed: nat, classified: nat, impact: nat,
                               impactConfirmed: bool)

  /** The kinds of evidence that speak for the decision, each once, at most six. */
  function EvidenceReasons(evidences: seq<Evidence>, seen: seq<string>): seq<string> {
    if evidences == [] || |seen| == 6 then seen
    else
      var e := evidences[0];
      EvidenceReasons(evidences[1..],
                      if e.negative || e.kind == "HTTP_RESPONSE" || TrimSpace(e.kind) == "" || e.kind in seen then seen
                      else seen + [e.kind])
  }

  function EvidenceConfidence(evidences: seq<Evidence>): nat {
    if evidences == [] then 0
    else
      var rest := EvidenceConfidence(evidences[1..]);
      if evidences[0].confidence > rest then evidences[0].confidence else rest
  }

  /** `trouble` is the reason found in the transport errors, if any. */
  function InconclusiveReason(level: Level, evidences: seq<Evidence>, trouble: Option<string>): string {
    if level != Unknown && level != InsufficientEvidence then ""
    else if trouble.Some? then trouble.value
    else if Has(evidences, "NS_SERVFAIL") || Has(evidences, "DNSSEC_SERVFAIL_INCONCLUSIVE") then "DNS_SERVFAIL"
    else "INSUFFICIENT_EVIDENCE"
  }

  function DecisionOf(level: Level, findings: seq<Finding>, evidences: seq<Evidence>, score: nat, active: Active,
                      trouble: Option<string>): Decision {
    var state := Reported(level, findings);
    var selected := Selected(findings, StateForLevel(level));
    var reasons := if selected.Some? then selected.value.reasons else [];
    var rule := if selected.Some? then selected.value.rule else "";
    var observed := if selected.Some? then selected.value.observed else 0;
    var classified := if score > 0 then score else if selected.Some? then selected.value.classified else 0;
    var impact := if selected.Some? then selected.value.impact else 0;
    var settled := if classified == 0 then EvidenceConfidence(evidences) else classified;
    Decision(state,
             if rule == "" then InconclusiveReason(level, evidences, trouble) else rule,
             if reasons == [] then EvidenceReasons(evidences, []) else reasons,
             if observed == 0 then EvidenceConfidence(evidences) else observed,
             if state == Confirmed && active.present && active.controlProven then active.confidence else settled,
             if state == Confirmed && impact == 0 then 100 else impact,
             state == Confirmed)
  }
}
