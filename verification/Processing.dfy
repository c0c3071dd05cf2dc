/** The processing of a host: evidence is derived from the observations, and level and state are decided on it.
    They are stated twice: as computed, and as a function of the observations and of the evidence that is not
    derived. */
module Processing {
  import opened Options
  import opened Kinds
  import opened Labels
  import opened SignTable
  import opened Inference
  import opened Grounds
  import opened Classification

  /** Everything a host analysis is computed from besides the evidence. */
  datatype Setting = Setting(lib: Library, texts: Texts, inputs: Inputs, active: Active, score: seq<Evidence> -> nat,
                             trouble: Option<string>)

  datatype Result = Result(evidences: seq<Evidence>, findings: seq<Finding>, score: nat, level: Level, decision: Decision)

  /** What the additions make of the evidence. */
  function Outcome(s: Setting, evidences: seq<Evidence>, additions: seq<Addition>): Result {
    var all, findings := Collecting(Original(evidences), additions), Findings(additions);
    var level := LevelOf(s.texts, s.active, all);
    Result(all, findings, s.score(all), level, DecisionOf(level, findings, all, s.score(all), s.active, s.trouble))
  }

  /** What processing makes of the evidence, visiting the redirect chains in the order given. */
  function Processed(s: Setting, evidences: seq<Evidence>, order: seq<string>): Result
    requires forall key | key in order :: key in s.inputs.chains
  {
    Outcome(s, evidences, Additions(s.lib, s.inputs, order))
  }

  // ---------------------------------------------------------------- what processing guarantees

  lemma WithEvidenceHas(evidences: seq<Evidence>, e: Evidence, kind: string)
    ensures Has(WithEvidence(evidences, e), kind) <==> Has(evidences, kind) || kind == e.kind
  {
    if !Present(evidences, e.kind, e.source) {
      assert e in evidences + [e];
      if Has(evidences, kind) {
        var x :| x in evidences && x.kind == kind;
        assert x in evidences + [e];
      }
    }
  }

  lemma {:induction false} CollectingHas(evidences: seq<Evidence>, additions: seq<Addition>, kind: string)
    ensures Has(Collecting(evidences, additions), kind) <==> Has(evidences, kind) || Adds(additions, kind)
    decreases |additions|
  {
    if additions != [] {
      var init, last := additions[..|additions| - 1], additions[|additions| - 1];
      CollectingHas(evidences, init, kind);
      assert additions == init + [last];
      AddsLast(init, last, kind);
      if last.Evid? {
        WithEvidenceHas(Collecting(evidences, init), last.evidence, kind);
      }
    }
  }

  lemma AddsLast(init: seq<Addition>, last: Addition, kind: string)
    ensures Adds(init + [last], kind) <==> Adds(init, kind) || (last.Evid? && last.evidence.kind == kind)
  {
    assert last in init + [last];
    if Adds(init, kind) {
      AddsMore(init, [last], kind);
    }
  }

  lemma {:induction false} CollectingDetailed(evidences: seq<Evidence>, additions: seq<Addition>, e: Evidence)
    requires Plain(additions) && e.kind in DETAILED
    ensures e in Collecting(evidences, additions) <==> e in evidences
    decreases |additions|
  {
    if additions != [] {
      var init, last := additions[..|additions| - 1], additions[|additions| - 1];
      assert additions == init + [last] && last in additions;
      CollectingDetailed(evidences, init, e);
    }
  }

  lemma {:induction false} FindingsMembers(additions: seq<Addition>, f: Finding)
    ensures f in Findings(additions) <==> Infer(f) in additions
    decreases |additions|
  {
    if additions != [] {
      var init, last := additions[..|additions| - 1], additions[|additions| - 1];
      FindingsMembers(init, f);
      assert additions == init + [last];
    }
  }

  /** Every candidate or confirmed finding rests on evidence that fires a rule of at least MISCONFIGURED. */
  lemma SeriousFindingsFire(s: Setting, evidences: seq<Evidence>, additions: seq<Addition>, f: Finding)
    requires WellMade(additions) && f in Findings(additions) && Serious(f)
    ensures Has(Collecting(evidences, additions), f.finding)
    ensures RiskRank(LevelOf(s.texts, s.active, Collecting(evidences, additions))) >= 3
  {
    FindingsMembers(additions, f);
    CollectingHas(evidences, additions, f.finding);
    SeriousLevel(s.texts, s.active, Collecting(evidences, additions), f.finding);
  }

  lemma ReportedAgrees(level: Level, findings: seq<Finding>)
    requires RiskRank(level) < 3 ==> forall f | f in findings :: !Serious(f)
    ensures Reported(level, findings) == Candidate || Reported(level, findings) == Confirmed <==> RiskRank(level) >= 3
  {
    StrongestIsMaximal(findings);
  }

  lemma OutcomeAgrees(s: Setting, evidences: seq<Evidence>, additions: seq<Addition>)
    requires WellMade(additions)
    ensures var r := Outcome(s, evidences, additions);
            && (r.decision.state == Candidate || r.decision.state == Confirmed <==> RiskRank(r.level) >= 3)
            && (r.decision.impactConfirmed <==> r.decision.state == Confirmed)
  {
    var level, findings := LevelOf(s.texts, s.active, Collecting(Original(evidences), additions)), Findings(additions);
    forall f | f in findings && Serious(f) ensures RiskRank(level) >= 3 {
      SeriousFindingsFire(s, Original(evidences), additions, f);
    }
    ReportedAgrees(level, findings);
  }

  /** After processing, the result is a candidate or confirmed exactly when the level is MISCONFIGURED or
      riskier, and the impact counts as confirmed exactly in the confirmed state. */
  lemma StateAgreesWithLevel(s: Setting, evidences: seq<Evidence>, order: seq<string>)
    requires forall key | key in order :: key in s.inputs.chains
    ensures var r := Processed(s, evidences, order);
            && (r.decision.state == Candidate || r.decision.state == Confirmed <==> RiskRank(r.level) >= 3)
            && (r.decision.impactConfirmed <==> r.decision.state == Confirmed)
  {
    AdditionsWellMade(s.lib, s.inputs, order);
    OutcomeAgrees(s, evidences, Additions(s.lib, s.inputs, order));
  }

  lemma ReportedConfirmed(level: Level, findings: seq<Finding>)
    requires RiskRank(level) >= 3
    ensures Reported(level, findings) == StateForLevel(level)
  {
  }

  lemma MildIsUnconfirmed(level: Level)
    requires RiskRank(level) < 3
    ensures StateForLevel(level) != Confirmed
  {
  }

  /** After processing a host is confirmed exactly by these facts of its final evidence: proof of control, or,
      short of a specific takeover fingerprint, a verified delegation claim, or else an exposure with no
      unsettled delegation. */
  lemma ConfirmedByFacts(s: Setting, evidences: seq<Evidence>, order: seq<string>)
    requires forall key | key in order :: key in s.inputs.chains
    ensures var r := Processed(s, evidences, order);
            var f := FactsOf(s.texts, s.active, r.evidences);
            r.decision.state == Confirmed <==>
              || f.zone || f.claimed || f.control
              || (!f.bound && (f.claimable || (f.exposed && !f.notDemonstrated && !f.takeover && !f.broken)))
  {
    StateAgreesWithLevel(s, evidences, order);
    var r := Processed(s, evidences, order);
    if RiskRank(r.level) >= 3 {
      ReportedConfirmed(r.level, r.findings);
    } else {
      MildIsUnconfirmed(r.level);
    }
    ConfirmedExactly(FactsOf(s.texts, s.active, r.evidences));
  }

  lemma OutcomeStable(s: Setting, evidences: seq<Evidence>, additions: seq<Addition>)
    requires Plain(additions)
    ensures Outcome(s, Outcome(s, evidences, additions).evidences, additions) == Outcome(s, evidences, additions)
  {
    DroppedAgain(Original(evidences), additions);
    OriginalTwice(evidences);
  }

  /** Processing the result again, in the same order, changes nothing. */
  lemma ReplayIsStable(s: Setting, evidences: seq<Evidence>, order: seq<string>)
    requires forall key | key in order :: key in s.inputs.chains
    ensures var r := Processed(s, evidences, order); Processed(s, r.evidences, order) == r
  {
    AdditionsWellMade(s.lib, s.inputs, order);
    OutcomeStable(s, evidences, Additions(s.lib, s.inputs, order));
  }

  // ---------------------------------------------------------------- level and state from the observations

  /** The facts of the processed evidence that decide the level: those of the evidence that is not derived, and the
      exposures and misconfigurations the observations show. */
  function FactsFor(s: Setting, original: seq<Evidence>): Facts {
    var f, signs := FactsOf(s.texts, s.active, original), SignsOf(s.lib, s.inputs);
    f.(exposed := f.exposed || signs.login || signs.cookie,
       misconfigured := f.misconfigured || signs.page || signs.oddPort || signs.downgrades
                        || signs.missingName || signs.missingResource)
  }

  function LevelFor(s: Setting, original: seq<Evidence>): Level {
    FirstRule(FactsFor(s, original))
  }

  /** The evidence is what was there and what follows from the observations. */
  ghost predicate Grown(s: Setting, original: seq<Evidence>, all: seq<Evidence>) {
    && (forall kind :: Has(all, kind) <==> Has(original, kind) || Evidences(SignsOf(s.lib, s.inputs), kind))
    && (forall e: Evidence | e.kind in DETAILED :: e in all <==> e in original)
  }

  lemma GrownAsked(s: Setting, original: seq<Evidence>, all: seq<Evidence>, kind: string)
    requires Grown(s, original, all) && kind in ASKED
    ensures Has(all, kind) <==> Has(original, kind)
  {
    if Evidences(SignsOf(s.lib, s.inputs), kind) {
      DerivedNotAsked(SignsOf(s.lib, s.inputs), kind);
    }
  }

  /** What was asked for kind by kind. */
  predicate SameAsked(a: seq<Evidence>, b: seq<Evidence>) {
    && Has(a, "ZONE_CONTROL_CONFIRMED") == Has(b, "ZONE_CONTROL_CONFIRMED")
    && Has(a, "CLAIM_SUCCESS") == Has(b, "CLAIM_SUCCESS")
    && Has(a, "DELEGATION_CLAIMABILITY_VERIFIED") == Has(b, "DELEGATION_CLAIMABILITY_VERIFIED")
    && Has(a, "DELEGATION_CLAIMABILITY_NOT_DEMONSTRATED") == Has(b, "DELEGATION_CLAIMABILITY_NOT_DEMONSTRATED")
    && Has(a, "DELEGATION_TAKEOVER_CANDIDATE") == Has(b, "DELEGATION_TAKEOVER_CANDIDATE")
    && Has(a, "DELEGATION_BROKEN") == Has(b, "DELEGATION_BROKEN")
    && Has(a, "CNAME_DANGLING") == Has(b, "CNAME_DANGLING")
  }

  lemma GrownSameAsked(s: Setting, original: seq<Evidence>, all: seq<Evidence>)
    requires Grown(s, original, all)
    ensures SameAsked(all, original)
  {
    GrownAsked(s, original, all, "ZONE_CONTROL_CONFIRMED");
    GrownAsked(s, original, all, "CLAIM_SUCCESS");
    GrownAsked(s, original, all, "DELEGATION_CLAIMABILITY_VERIFIED");
    GrownAsked(s, original, all, "DELEGATION_CLAIMABILITY_NOT_DEMONSTRATED");
    GrownAsked(s, original, all, "DELEGATION_TAKEOVER_CANDIDATE");
    GrownAsked(s, original, all, "DELEGATION_BROKEN");
    GrownAsked(s, original, all, "CNAME_DANGLING");
  }

  lemma GrownSound(s: Setting, original: seq<Evidence>, all: seq<Evidence>)
    requires Grown(s, original, all)
    ensures Sound(s.texts, all) == Sound(s.texts, original) && Bound(s.texts, all) == Bound(s.texts, original)
  {
    GrownAsked(s, original, all, "CDN_DETECTED");
    GrownAsked(s, original, all, "TECHNOLOGY_DETECTED");
    GrownAsked(s, original, all, "HTTP_STATUS_404");
    GrownAsked(s, original, all, "CNAME_DANGLING");
    GrownAsked(s, original, all, "NXDOMAIN");
    AlikeBound(s.texts, all, original);
    AlikeBound(s.texts, original, all);
  }

  lemma HasIsAny(evidences: seq<Evidence>, kinds: set<string>)
    ensures HasAny(evidences, kinds) <==> exists kind :: kind in kinds && Has(evidences, kind)
  {
    if e :| e in evidences && e.kind in kinds {
      assert Has(evidences, e.kind);
    }
  }

  lemma GrownAny(s: Setting, original: seq<Evidence>, all: seq<Evidence>, kinds: set<string>)
    requires Grown(s, original, all)
    ensures HasAny(all, kinds) <==>
            HasAny(original, kinds) || exists kind :: kind in kinds && Evidences(SignsOf(s.lib, s.inputs), kind)
  {
    HasIsAny(all, kinds);
    HasIsAny(original, kinds);
  }

  lemma DerivesExposed(s: Signs)
    ensures (exists kind :: kind in EXPOSED && Evidences(s, kind)) <==> s.login || s.cookie
  {
    if kind :| kind in EXPOSED && Evidences(s, kind) {
      DerivedExposed(s, kind);
    } else {
      LoginKind(s);
      CookieKind(s);
    }
  }

  lemma DerivesMisconfigured(s: Signs)
    ensures (exists kind :: kind in MISCONFIGURED && Evidences(s, kind)) <==>
            s.page || s.oddPort || s.downgrades || s.missingName || s.missingResource
  {
    if kind :| kind in MISCONFIGURED && Evidences(s, kind) {
      DerivedMisconfigured(s, kind);
    } else {
      PageKind(s);
      PortKind(s);
      DowngradeKind(s);
      DanglingKind(s);
    }
  }

  lemma GrownContext(s: Setting, original: seq<Evidence>, all: seq<Evidence>)
    requires Grown(s, original, all) && !SeriousSigns(SignsOf(s.lib, s.inputs))
    ensures (all == [] || OnlyContext(all)) == (original == [] || OnlyContext(original))
  {
    ContextKinds(all);
    ContextKinds(original);
    forall kind | Evidences(SignsOf(s.lib, s.inputs), kind) ensures kind in CONTEXT {
      DerivedContext(SignsOf(s.lib, s.inputs), kind);
    }
  }

  lemma ContextKinds(evidences: seq<Evidence>)
    ensures (evidences == [] || OnlyContext(evidences)) <==> forall kind :: Has(evidences, kind) ==> kind in CONTEXT
  {
    if forall kind :: Has(evidences, kind) ==> kind in CONTEXT {
      forall e | e in evidences ensures e.kind in CONTEXT {
        assert Has(evidences, e.kind);
      }
    }
  }

  lemma GrownExposed(s: Setting, original: seq<Evidence>, all: seq<Evidence>)
    requires Grown(s, original, all)
    ensures HasAny(all, EXPOSED) == FactsFor(s, original).exposed
  {
    GrownAny(s, original, all, EXPOSED);
    DerivesExposed(SignsOf(s.lib, s.inputs));
  }

  lemma GrownMisconfigured(s: Setting, original: seq<Evidence>, all: seq<Evidence>)
    requires Grown(s, original, all)
    ensures HasAny(all, MISCONFIGURED) == FactsFor(s, original).misconfigured
  {
    GrownAny(s, original, all, MISCONFIGURED);
    DerivesMisconfigured(SignsOf(s.lib, s.inputs));
  }

  /** Only an exposure or a misconfiguration hides that all evidence is context. */
  lemma LastRules(f: Facts, g: Facts)
    requires f == g.(onlyContext := f.onlyContext)
    requires g.exposed || g.misconfigured || f.onlyContext == g.onlyContext
    ensures FirstRule(f) == FirstRule(g)
  {
  }

  lemma GrownFacts(s: Setting, original: seq<Evidence>, all: seq<Evidence>)
    requires Grown(s, original, all)
    ensures var f, g := FactsOf(s.texts, s.active, all), FactsFor(s, original);
            f == g.(onlyContext := f.onlyContext)
  {
    GrownSameAsked(s, original, all);
    GrownSound(s, original, all);
    GrownExposed(s, original, all);
    GrownMisconfigured(s, original, all);
  }

  lemma SeriousFacts(s: Setting, original: seq<Evidence>)
    requires SeriousSigns(SignsOf(s.lib, s.inputs))
    ensures FactsFor(s, original).exposed || FactsFor(s, original).misconfigured
  {
  }

  lemma GrownLevel(s: Setting, original: seq<Evidence>, all: seq<Evidence>)
    requires Grown(s, original, all)
    ensures LevelOf(s.texts, s.active, all) == LevelFor(s, original)
  {
    GrownFacts(s, original, all);
    if SeriousSigns(SignsOf(s.lib, s.inputs)) {
      SeriousFacts(s, original);
    } else {
      GrownContext(s, original, all);
    }
    LastRules(FactsOf(s.texts, s.active, all), FactsFor(s, original));
  }

  lemma CollectingGrows(s: Setting, original: seq<Evidence>, order: seq<string>)
    requires Covers(order, s.inputs.chains)
    ensures Grown(s, original, Collecting(original, Additions(s.lib, s.inputs, order)))
  {
    var additions := Additions(s.lib, s.inputs, order);
    AdditionsWellMade(s.lib, s.inputs, order);
    forall kind ensures Has(Collecting(original, additions), kind) <==>
                        Has(original, kind) || Evidences(SignsOf(s.lib, s.inputs), kind) {
      CollectingHas(original, additions, kind);
      EvidenceOnGrounds(s.lib, s.inputs, order, kind);
    }
    forall e: Evidence | e.kind in DETAILED ensures e in Collecting(original, additions) <==> e in original {
      CollectingDetailed(original, additions, e);
    }
  }

  predicate HasState(findings: seq<Finding>, state: ResultState) {
    exists f | f in findings :: f.state == state
  }

  lemma FindingStates(s: Setting, order: seq<string>, state: ResultState)
    requires Covers(order, s.inputs.chains)
    ensures HasState(Findings(Additions(s.lib, s.inputs, order)), state) <==> Shows(SignsOf(s.lib, s.inputs), state)
  {
    var additions := Additions(s.lib, s.inputs, order);
    if f :| f in Findings(additions) && f.state == state {
      FindingsMembers(additions, f);
      assert Concludes(additions, f.rule, f.state, f.finding);
      FindingsOnGrounds(s.lib, s.inputs, order, f.rule, f.state, f.finding);
      FiresInState(SignsOf(s.lib, s.inputs), f.rule, f.state, f.finding);
    } else if Shows(SignsOf(s.lib, s.inputs), state) {
      var rule, finding := FindingIn(SignsOf(s.lib, s.inputs), state);
      FindingsOnGrounds(s.lib, s.inputs, order, rule, state, finding);
      var a :| a in additions && a.Infer? && a.finding.rule == rule && a.finding.state == state && a.finding.finding == finding;
      FindingsMembers(additions, a.finding);
    }
  }

  /** The strongest of the states present decides an undecided level. */
  function Settled(level: Level, signs: Signs): ResultState {
    var state := StateForLevel(level);
    if state != Inconclusive then state
    else if Shows(signs, Suppressed) then Suppressed
    else if Shows(signs, Observation) then Observation
    else if Shows(signs, Inconclusive) then Inconclusive
    else if Shows(signs, Healthy) then Observation
    else Inconclusive
  }

  lemma ReportedIsSettled(level: Level, findings: seq<Finding>, signs: Signs)
    requires forall state :: HasState(findings, state) <==> Shows(signs, state)
    requires StateForLevel(level) == Inconclusive ==> !Shows(signs, Confirmed) && !Shows(signs, Candidate)
    ensures Reported(level, findings) == Settled(level, signs)
  {
    SuppressionBranchIsDead(level, findings);
    StrongestIsMaximal(findings);
    if StateForLevel(level) == Inconclusive && findings != [] {
      StrongestState(findings, signs);
    }
  }

  lemma StrongestState(findings: seq<Finding>, signs: Signs)
    requires findings != [] && forall state :: HasState(findings, state) <==> Shows(signs, state)
    ensures var state := Strongest(findings).value.state;
            Shows(signs, state) && forall other | Shows(signs, other) :: Rank(other) <= Rank(state)
  {
    StrongestIsMaximal(findings);
    assert HasState(findings, Strongest(findings).value.state);
  }

  lemma UndecidedShowsNothing(s: Setting, original: seq<Evidence>)
    requires StateForLevel(LevelFor(s, original)) == Inconclusive
    ensures var signs := SignsOf(s.lib, s.inputs); !Shows(signs, Confirmed) && !Shows(signs, Candidate)
  {
  }

  function StateFor(s: Setting, original: seq<Evidence>): ResultState {
    Settled(LevelFor(s, original), SignsOf(s.lib, s.inputs))
  }

  /** Level and state after processing are those the observations and the evidence that is not derived call for,
      whatever was derived before and in whatever order the redirect chains are visited. */
  lemma DecidedByObservations(s: Setting, evidences: seq<Evidence>, order: seq<string>)
    requires Covers(order, s.inputs.chains)
    ensures Processed(s, evidences, order).level == LevelFor(s, Original(evidences))
    ensures Processed(s, evidences, order).decision.state == StateFor(s, Original(evidences))
  {
    var original, additions := Original(evidences), Additions(s.lib, s.inputs, order);
    CollectingGrows(s, original, order);
    GrownLevel(s, original, Collecting(original, additions));
    forall state ensures HasState(Findings(additions), state) <==> Shows(SignsOf(s.lib, s.inputs), state) {
      FindingStates(s, order, state);
    }
    if StateForLevel(LevelFor(s, original)) == Inconclusive {
      UndecidedShowsNothing(s, original);
    }
    ReportedIsSettled(LevelFor(s, original), Findings(additions), SignsOf(s.lib, s.inputs));
  }

  /** Level and state do not depend on the order in which the redirect chains are visited. */
  lemma ChainOrderDoesNotMatter(s: Setting, evidences: seq<Evidence>, a: seq<string>, b: seq<string>)
    requires Covers(a, s.inputs.chains) && Covers(b, s.inputs.chains)
    ensures Processed(s, evidences, a).level == Processed(s, evidences, b).level
    ensures Processed(s, evidences, a).decision.state == Processed(s, evidences, b).decision.state
  {
    DecidedByObservations(s, evidences, a);
    DecidedByObservations(s, evidences, b);
  }

  lemma ExposedRule(f: Facts)
    ensures FirstRule(f) == Exposed <==>
            && f.exposed && !f.zone && !f.claimed && !f.control && !f.bound
            && !f.claimable && !f.notDemonstrated && !f.takeover && !f.broken
  {
  }

  lemma ExposedFor(s: Setting, original: seq<Evidence>)
    ensures LevelFor(s, original) == Exposed <==>
            && !Graver(s.texts, s.active, original)
            && (HasAny(original, EXPOSED) || LoginInClear(s.lib, s.inputs) || CookieInClear(s.lib, s.inputs))
  {
    ExposedRule(FactsFor(s, original));
  }

  lemma ExposedIsConfirmed(signs: Signs)
    ensures Settled(Exposed, signs) == Confirmed
  {
  }

  /** After processing a host is exposed exactly if nothing graver is known of it and there is evidence of an
      exposure, or a response over HTTP that does not lead to HTTPS shows a login form or an insecure cookie; and an
      exposed host is confirmed. */
  lemma ExposedExactly(s: Setting, evidences: seq<Evidence>, order: seq<string>)
    requires Covers(order, s.inputs.chains)
    ensures Processed(s, evidences, order).level == Exposed <==>
              && !Graver(s.texts, s.active, Original(evidences))
              && (HasAny(Original(evidences), EXPOSED) || LoginInClear(s.lib, s.inputs) || CookieInClear(s.lib, s.inputs))
    ensures Processed(s, evidences, order).level == Exposed ==> Processed(s, evidences, order).decision.state == Confirmed
  {
    DecidedByObservations(s, evidences, order);
    ExposedFor(s, Original(evidences));
    ExposedIsConfirmed(SignsOf(s.lib, s.inputs));
  }

  /** A finding of the list, by rule, state and the kind of evidence it names. */
  predicate Lists(findings: seq<Finding>, rule: string, state: ResultState, finding: string) {
    exists f | f in findings :: f.rule == rule && f.state == state && f.finding == finding
  }

  /** The findings are those the observations call for. */
  ghost predicate Found(s: Setting, findings: seq<Finding>) {
    forall rule, state, finding :: Lists(findings, rule, state, finding) <==> Fires(SignsOf(s.lib, s.inputs), rule, state, finding)
  }

  lemma ListsConcluded(additions: seq<Addition>, rule: string, state: ResultState, finding: string)
    ensures Lists(Findings(additions), rule, state, finding) <==> Concludes(additions, rule, state, finding)
  {
    if f :| f in Findings(additions) && f.rule == rule && f.state == state && f.finding == finding {
      FindingsMembers(additions, f);
    } else if a :| a in additions && a.Infer? && a.finding.rule == rule && a.finding.state == state && a.finding.finding == finding {
      FindingsMembers(additions, a.finding);
    }
  }

  lemma AdditionsFound(s: Setting, order: seq<string>)
    requires Covers(order, s.inputs.chains)
    ensures Found(s, Findings(Additions(s.lib, s.inputs, order)))
  {
    var additions := Additions(s.lib, s.inputs, order);
    forall rule, state, finding
      ensures Lists(Findings(additions), rule, state, finding) <==> Fires(SignsOf(s.lib, s.inputs), rule, state, finding)
    {
      ListsConcluded(additions, rule, state, finding);
      FindingsOnGrounds(s.lib, s.inputs, order, rule, state, finding);
    }
  }

  // ---------------------------------------------------------------- the analysis

  class HostAnalysis {
    const setting: Setting
    var evidences: seq<Evidence>
    var findings: seq<Finding>
    var confidence: nat
    var level: Option<Level>
    var decision: Option<Decision>
    var state: Option<ResultState>

    constructor (setting: Setting, evidences: seq<Evidence>)
      ensures this.setting == setting && this.evidences == evidences
    {
      this.setting, this.evidences := setting, evidences;
      findings, confidence, level, decision, state := [], 0, None, None, None;
    }

    /** Adds evidence unless there is some of the same kind from the same source. */
    method AddEvidence(e: Evidence)
      modifies this`evidences
      ensures evidences == WithEvidence(old(evidences), e)
    {
      var i := 0;
      while i < |evidences|
        invariant i <= |evidences| && evidences == old(evidences)
        invariant forall x | x in evidences[..i] :: !(x.kind == e.kind && x.source == e.source)
      {
        if evidences[i].kind == e.kind && evidences[i].source == e.source {
          assert evidences[i] in evidences;
          return;
        }
        i := i + 1;
      }
      assert evidences[..i] == evidences;
      evidences := evidences + [e];
    }

    method RemoveDerivedEvidence()
      modifies this`evidences
      ensures evidences == Original(old(evidences))
    {
      var filtered: seq<Evidence> := [];
      var i := 0;
      while i < |evidences|
        invariant i <= |evidences| && evidences == old(evidences) && filtered == Original(evidences[..i])
      {
        assert evidences[..i + 1][..i] == evidences[..i];
        if evidences[i].source != DERIVED {
          filtered := filtered + [evidences[i]];
        }
        i := i + 1;
      }
      assert evidences[..i] == evidences;
      evidences := filtered;
    }

    method Perform(additions: seq<Addition>)
      modifies this`evidences, this`findings
      ensures evidences == Collecting(old(evidences), additions)
      ensures findings == old(findings) + Findings(additions)
    {
      var i := 0;
      while i < |additions|
        invariant i <= |additions|
        invariant evidences == Collecting(old(evidences), additions[..i])
        invariant findings == old(findings) + Findings(additions[..i])
      {
        assert additions[..i + 1][..i] == additions[..i];
        match additions[i] {
          case Evid(e) => AddEvidence(e);
          case Infer(f) => findings := findings + [f];
        }
        i := i + 1;
      }
      assert additions[..i] == additions;
    }

    /** Forgets what was derived before and derives it again. */
    method Analyze(order: seq<string>)
      requires Covers(order, setting.inputs.chains)
      modifies this
      ensures evidences == Collecting(Original(old(evidences)), Additions(setting.lib, setting.inputs, order))
      ensures findings == Findings(Additions(setting.lib, setting.inputs, order))
      ensures Grown(setting, Original(old(evidences)), evidences) && Found(setting, findings)
      ensures decision.None? && state.None?
    {
      findings, decision, state := [], None, None;
      RemoveDerivedEvidence();
      Perform(Additions(setting.lib, setting.inputs, order));
      CollectingGrows(setting, Original(old(evidences)), order);
      AdditionsFound(setting, order);
    }

    /** The whole processing of a host, for whatever order the map of redirect chains is visited in. */
    method Process() returns (ghost order: seq<string>)
      modifies this
      ensures Covers(order, setting.inputs.chains)
      ensures Holds(Outcome(setting, old(evidences), Additions(setting.lib, setting.inputs, order)))
      ensures level == Some(LevelFor(setting, Original(old(evidences))))
      ensures state == Some(StateFor(setting, Original(old(evidences))))
    {
      var visited := AnyOrder(setting.inputs.chains);
      order := visited;
      Analyze(visited);
      Decide();
      DecidedByObservations(setting, old(evidences), order);
    }

    method Decide()
      modifies this`confidence, this`level, this`decision, this`state
      ensures confidence == setting.score(evidences)
      ensures level == Some(LevelOf(setting.texts, setting.active, evidences))
      ensures decision == Some(DecisionOf(level.value, findings, evidences, confidence, setting.active, setting.trouble))
      ensures state == Some(decision.value.state)
    {
      confidence := setting.score(evidences);
      var found := LevelOf(setting.texts, setting.active, evidences);
      level := Some(found);
      var reported := DecisionOf(found, findings, evidences, confidence, setting.active, setting.trouble);
      decision, state := Some(reported), Some(reported.state);
    }

    ghost predicate Holds(r: Result)
      reads this
    {
      && evidences == r.evidences && findings == r.findings && confidence == r.score
      && level == Some(r.level) && decision == Some(r.decision) && state == Some(r.decision.state)
    }
  }

  method AnyOrder(chains: map<string, Chain>) returns (order: seq<string>)
    ensures Covers(order, chains)
  {
    order := [];
    var todo := chains.Keys;
    while todo != {}
      invariant todo <= chains.Keys
      invariant forall key | key in order :: key in chains && key !in todo
      invariant forall key | key in chains && key !in todo :: key in order
      invariant forall i, j | 0 <= i < j < |order| :: order[i] != order[j]
      decreases todo
    {
      var key :| key in todo;
      order := order + [key];
      todo := todo - {key};
    }
  }
}
