/** The business analysis node: it renders the team, traction,
    competition, funding and business-model evidence as a context and
    asks the analysis model for the business fundamentals. Without
    evidence it records an error instead. */
module BusinessAnalysisNode {
  import opened Js
  import opened PipelineSchema
  import opened Pushes
  import opened EvidenceText
  import GraphBuilder

  // ---- item lines ----

  /** The name, then ` - role` and `: background` when each is truthy. */
  function TeamLine(t: TeamFact): string {
    t.name +
    (if Truthy(t.role) then " - " + t.role.value else "") +
    (if Truthy(t.background) then ": " + t.background.value else "")
  }

  /** `metric: value`, then ` (timeframe)` and ` - context` when each is
      truthy. */
  function TractionLine(t: TractionFact): string {
    t.metric_type + ": " + ShowScalar(t.value) +
    (if Truthy(t.timeframe) then " (" + t.timeframe.value + ")" else "") +
    (if Truthy(t.context) then " - " + t.context.value else "")
  }

  /** The round type or `Round`, then the details. */
  function FundingLine(f: FundingFact): string {
    Or(f.round_type, "Round") + FundingDetails(f)
  }

  /** `: amount`, ` from investors` (a non-empty list) and ` (date)`,
      each only when present. */
  function FundingDetails(f: FundingFact): string {
    (if Truthy(f.amount) then ": " + f.amount.value else "") +
    (if f.investors.Some? && |f.investors.value| > 0 then " from " + Join(f.investors.value, ", ") else "") +
    (if Truthy(f.date) then " (" + f.date.value + ")" else "")
  }

  /** A funding line opens with the round type, or with `Round` when the
      type is missing or empty; a fact with no amount, investors or date
      renders as that opening alone. */
  lemma FundingLineDefault(f: FundingFact)
    ensures StartsWith(FundingLine(f), if Truthy(f.round_type) then f.round_type.value else "Round")
    ensures !Truthy(f.amount) && (f.investors.None? || f.investors.value == []) && !Truthy(f.date) ==>
      FundingLine(f) == Or(f.round_type, "Round")
  {
    var head, tail := Or(f.round_type, "Round"), FundingDetails(f);
    assert (head + tail)[..|head|] == head;
    if !Truthy(f.amount) && (f.investors.None? || f.investors.value == []) && !Truthy(f.date) {
      assert tail == "";
      assert head + tail == head;
    }
  }

  /** A team fact without role or background renders as its name. */
  lemma TeamLineBare(t: TeamFact)
    requires !Truthy(t.role) && !Truthy(t.background)
    ensures TeamLine(t) == t.name
  {
  }

  function TeamLines(ts: seq<TeamFact>): (r: seq<string>)
    ensures |r| == |ts|
    ensures forall i :: 0 <= i < |ts| ==> r[i] == Tagged(TeamLine(ts[i]), ts[i].source)
  {
    seq(|ts|, i requires 0 <= i < |ts| => Tagged(TeamLine(ts[i]), ts[i].source))
  }

  function TractionLines(ts: seq<TractionFact>): (r: seq<string>)
    ensures |r| == |ts|
    ensures forall i :: 0 <= i < |ts| ==> r[i] == Tagged(TractionLine(ts[i]), ts[i].source)
  {
    seq(|ts|, i requires 0 <= i < |ts| => Tagged(TractionLine(ts[i]), ts[i].source))
  }

  function FundingLines(fs: seq<FundingFact>): (r: seq<string>)
    ensures |r| == |fs|
    ensures forall i :: 0 <= i < |fs| ==> r[i] == Tagged(FundingLine(fs[i]), fs[i].source)
  {
    seq(|fs|, i requires 0 <= i < |fs| => Tagged(FundingLine(fs[i]), fs[i].source))
  }

  // ---- the evidence context ----

  const TeamHeading: string := "**Team:**"
  const TractionHeading: string := "**Traction:**"
  const CompetitionHeading: string := "**Competition:**"
  const FundingHeading: string := "**Funding:**"
  const BusinessModelHeading: string := "**Business Model:**"

  /** Every line of every section is numbered and carries its source tag. */
  function TeamSection(e: Evidence): string {
    Section(TeamHeading, Numbered(TeamLines(e.team_facts)))
  }

  function TractionSection(e: Evidence): string {
    Section(TractionHeading, Numbered(TractionLines(e.traction_facts)))
  }

  function CompetitionSection(e: Evidence): string {
    Section(CompetitionHeading, Numbered(TaggedTexts(e.competition_snippets)))
  }

  function FundingSection(e: Evidence): string {
    Section(FundingHeading, Numbered(FundingLines(e.funding_facts)))
  }

  function BusinessModelSection(e: Evidence): string {
    Section(BusinessModelHeading, Numbered(TaggedTexts(e.business_model_snippets)))
  }

  /** The five candidate sections in push order. */
  function BusinessSections(e: Evidence): (r: seq<string>)
    ensures |r| == 5
  {
    [TeamSection(e), TractionSection(e), CompetitionSection(e), FundingSection(e), BusinessModelSection(e)]
  }

  /** The list each section is guarded by. */
  function BusinessSizes(e: Evidence): (r: seq<nat>)
    ensures |r| == 5
  {
    [|e.team_facts|, |e.traction_facts|, |e.competition_snippets|, |e.funding_facts|, |e.business_model_snippets|]
  }

  /** `buildBusinessEvidenceContext` as a value. */
  function BusinessEvidenceContext(evidence: Option<Evidence>): (r: string)
    ensures evidence.None? ==> r == NoEvidence
    ensures evidence.Some? ==> forall i :: 0 <= i < 5 && BusinessSizes(evidence.value)[i] > 0 ==>
      Contains(r, BusinessSections(evidence.value)[i])
  {
    if evidence.None? then NoEvidence
    else
      KeptJoinContains(BusinessSections(evidence.value), BusinessSizes(evidence.value), "\n\n");
      Join(Kept(BusinessSections(evidence.value), BusinessSizes(evidence.value)), "\n\n")
  }

  /** The context's sections are the candidates at the positions whose
      list is non-empty: a section appears exactly when its list is
      non-empty, in the order team, traction, competition, funding,
      business model. */
  lemma BusinessSectionsAt(e: Evidence)
    ensures var k, p := Kept(BusinessSections(e), BusinessSizes(e)), Positions(BusinessSizes(e));
      |k| == |p| && (forall j :: 0 <= j < |p| ==> k[j] == BusinessSections(e)[p[j]]) &&
      (forall i :: 0 <= i < 5 ==> (i in p <==> BusinessSizes(e)[i] > 0)) &&
      (forall j, j' :: 0 <= j < j' < |p| ==> p[j] < p[j'])
  {
    KeptAt(BusinessSections(e), BusinessSizes(e));
  }

  /** `buildBusinessEvidenceContext`: one conditional push per section,
      then the join. */
  method BuildBusinessEvidenceContext(state: StartupState) returns (r: string)
    ensures r == BusinessEvidenceContext(state.evidence)
  {
    if state.evidence.None? {
      return NoEvidence;
    }
    var sections := PushBusinessSections(state.evidence.value);
    KeptFive(BusinessSections(state.evidence.value), BusinessSizes(state.evidence.value));
    r := Join(sections, "\n\n");
  }

  /** The five guarded pushes of `buildBusinessEvidenceContext`. */
  method PushBusinessSections(e: Evidence) returns (sections: seq<string>)
    ensures sections == [] + PushIf(TeamSection(e), |e.team_facts|)
      + PushIf(TractionSection(e), |e.traction_facts|) + PushIf(CompetitionSection(e), |e.competition_snippets|)
      + PushIf(FundingSection(e), |e.funding_facts|) + PushIf(BusinessModelSection(e), |e.business_model_snippets|)
  {
    sections := [];
    if |e.team_facts| > 0 {
      sections := sections + [TeamSection(e)];
    }
    PushStep([], |e.team_facts|, TeamSection(e), sections);
    ghost var s1 := sections;
    if |e.traction_facts| > 0 {
      sections := sections + [TractionSection(e)];
    }
    PushStep(s1, |e.traction_facts|, TractionSection(e), sections);
    ghost var s2 := sections;
    if |e.competition_snippets| > 0 {
      sections := sections + [CompetitionSection(e)];
    }
    PushStep(s2, |e.competition_snippets|, CompetitionSection(e), sections);
    ghost var s3 := sections;
    if |e.funding_facts| > 0 {
      sections := sections + [FundingSection(e)];
    }
    PushStep(s3, |e.funding_facts|, FundingSection(e), sections);
    ghost var s4 := sections;
    if |e.business_model_snippets| > 0 {
      sections := sections + [BusinessModelSection(e)];
    }
    PushStep(s4, |e.business_model_snippets|, BusinessModelSection(e), sections);
  }

  // ---- the node ----

  /** What the guard throws, and the prefix the catch branch adds. */
  const NoEvidenceMessage: string := "No evidence available for business analysis"
  const FailurePrefix: string := "Failed to analyze business: "

  /** `businessAnalysis`, with the analysis model as a parameter that
      receives the rendered context. The guard's throw is caught by the
      node's own catch branch. */
  function BusinessAnalysis(s: StartupState, analyze: string -> Call<Business>): (u: Update)
    ensures u == NoUpdate.(business := u.business, errors := u.errors) && u.business.Set?
    ensures u.business.value.Some? <==> s.evidence.Some? && analyze(BusinessEvidenceContext(s.evidence)).Returns?
    ensures u.business.value.Some? ==> u.errors.Keep?
    ensures u.business.value.None? ==> u.errors.Set? && OneMoreError(s.errors, u.errors.value, FailurePrefix)
  {
    if s.evidence.None? then
      OneMoreErrorOf(s.errors, FailurePrefix, Describe(ErrorObject(NoEvidenceMessage)));
      NoUpdate.(business := Set(None), errors := Set(s.errors + [FailurePrefix + Describe(ErrorObject(NoEvidenceMessage))]))
    else
      match analyze(BusinessEvidenceContext(s.evidence))
      case Returns(b) => NoUpdate.(business := Set(Some(b)))
      case Throws(err) =>
        OneMoreErrorOf(s.errors, FailurePrefix, Describe(err));
        NoUpdate.(business := Set(None), errors := Set(s.errors + [FailurePrefix + Describe(err)]))
  }

  /** Without evidence the model is not consulted. */
  lemma NoEvidenceNoCall(s: StartupState, m1: string -> Call<Business>, m2: string -> Call<Business>)
    requires s.evidence.None?
    ensures BusinessAnalysis(s, m1) == BusinessAnalysis(s, m2)
  {
  }

  /** After the graph merges the node's update: the business record is
      set exactly when there is evidence and the model returns; success
      keeps the errors; a missing evidence record or a failing model
      repeats the earlier errors before the message. Nothing else
      changes. */
  lemma BusinessAnalysisMerged(s: StartupState, analyze: string -> Call<Business>)
    ensures var r := GraphBuilder.MergeState(s, BusinessAnalysis(s, analyze));
      var call := analyze(BusinessEvidenceContext(s.evidence));
      (r.business.Some? <==> s.evidence.Some? && call.Returns?) &&
      (r.business.Some? ==> r.business.value == call.value && r.errors == s.errors) &&
      (s.evidence.None? ==> r.errors == s.errors + s.errors + [FailurePrefix + NoEvidenceMessage]) &&
      (s.evidence.Some? && call.Throws? ==> r.errors == s.errors + s.errors + [FailurePrefix + Describe(call.error)]) &&
      r == s.(business := r.business, errors := r.errors)
  {
    var u := BusinessAnalysis(s, analyze);
    var call := analyze(BusinessEvidenceContext(s.evidence));
    if s.evidence.None? {
      GraphBuilder.CatchBranchDuplicates(s, u, FailurePrefix + NoEvidenceMessage);
    } else if call.Throws? {
      GraphBuilder.CatchBranchDuplicates(s, u, FailurePrefix + Describe(call.error));
    }
  }
}
