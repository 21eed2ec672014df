/** The risk analysis node: it summarises the core analysis, the
    business analysis and the evidence coverage as a context and asks the
    risk model for categorised risks and missing information. Without a
    core or a business analysis it records an error instead. */
module RiskAnalysisNode {
  import opened Js
  import opened PipelineSchema
  import opened EvidenceText
  import GraphBuilder

  // ---- section texts ----

  const CoreHeading: string := "**Problem/Solution:**"
  const TeamHeading: string := "**Team:**"
  const TractionHeading: string := "**Traction:**"
  const CompetitionHeading: string := "**Competition:**"
  const FundingHeading: string := "**Funding:**"
  const BusinessModelHeading: string := "**Business Model:**"
  const CoverageHeading: string := "**Evidence Coverage:**"

  /** The one-liners of the problem and the solution and the value
      proposition summary. */
  function CoreSummary(c: Core): string {
    Section(CoreHeading, ["Problem: " + c.problem.one_liner, "Solution: " + c.solution.one_liner,
                          "Value Prop: " + c.value_proposition.summary])
  }

  /** `team.size || 'Unknown'`. */
  function SizeText(t: Team): (r: string)
    ensures !Truthy(t.size) ==> r == "Unknown"
    ensures Truthy(t.size) ==> r == t.size.value
  {
    Or(t.size, "Unknown")
  }

  /** `- name (role)` per member, one per line. */
  function MemberLines(members: seq<TeamMember>): (r: seq<string>)
    ensures |r| == |members|
    ensures forall i :: 0 <= i < |members| ==> r[i] == "- " + members[i].name + " (" + members[i].role + ")"
  {
    seq(|members|, i requires 0 <= i < |members| => "- " + members[i].name + " (" + members[i].role + ")")
  }

  /** The size, the member count and the member list; an empty team
      still prints the count line followed by a newline. */
  function TeamSummary(t: Team): string {
    Section(TeamHeading, ["Size: " + SizeText(t),
                          "Members: " + NatToString(|t.members|) + " key members identified",
                          Join(MemberLines(t.members), "\n")])
  }

  /** `metric: value` per metric. */
  function MetricPairs(metrics: seq<TractionMetric>): (r: seq<string>)
    ensures |r| == |metrics|
    ensures forall i :: 0 <= i < |metrics| ==> r[i] == metrics[i].metric + ": " + metrics[i].value
  {
    seq(|metrics|, i requires 0 <= i < |metrics| => metrics[i].metric + ": " + metrics[i].value)
  }

  /** The metric pairs joined by commas, or `None reported` when there
      are no metrics. */
  function MetricsText(metrics: seq<TractionMetric>): (r: string)
    ensures metrics == [] ==> r == "None reported"
    ensures metrics != [] ==> r == Join(MetricPairs(metrics), ", ")
  {
    if |metrics| > 0 then Join(MetricPairs(metrics), ", ") else "None reported"
  }

  function TractionSummary(t: Traction): string {
    Section(TractionHeading, ["Metrics: " + MetricsText(t.metrics),
                              "Partnerships: " + NatToString(|t.partnerships|) + " partnerships",
                              "Milestones: " + NatToString(|t.milestones|) + " milestones"])
  }

  function CompetitionSummary(c: Competition): string {
    Section(CompetitionHeading, ["Competitors: " + NatToString(|c.competitors|) + " identified",
                                 "Positioning: " + c.positioning])
  }

  function FundingSummary(f: Funding): string {
    Section(FundingHeading, ["Rounds: " + NatToString(|f.rounds|) + " rounds", "Status: " + f.status])
  }

  /** `monetization?.join(', ') || 'Not specified'`: an absent list, an
      empty list and a list that joins to the empty string all fall back. */
  function MonetizationText(m: Option<seq<string>>): (r: string)
    ensures (m.None? || Join(m.value, ", ") == "") ==> r == "Not specified"
    ensures m.Some? && Join(m.value, ", ") != "" ==> r == Join(m.value, ", ")
  {
    Or(if m.Some? then Some(Join(m.value, ", ")) else None, "Not specified")
  }

  function BusinessModelSummary(bm: BusinessModel): string {
    Section(BusinessModelHeading, [Or(bm.summary, "Not clearly defined"), "Monetization: " + MonetizationText(bm.monetization)])
  }

  /** The five business sections, in push order. */
  function BusinessSummaries(b: Business): (r: seq<string>)
    ensures |r| == 5
  {
    [TeamSummary(b.team), TractionSummary(b.traction), CompetitionSummary(b.competition),
     FundingSummary(b.funding), BusinessModelSummary(b.business_model)]
  }

  /** Each business section opens with its own heading. */
  lemma BusinessSummaryHeadings(b: Business)
    ensures var r, h := BusinessSummaries(b), [TeamHeading, TractionHeading, CompetitionHeading, FundingHeading, BusinessModelHeading];
      forall i :: 0 <= i < 5 ==> StartsWith(r[i], h[i])
  {
  }

  /** The labels of the coverage counts, in print order. */
  const CoverageLabels: seq<string> := ["Problem snippets: ", "Solution snippets: ", "Team facts: ",
    "Traction facts: ", "Funding facts: ", "Competition snippets: ", "Market snippets: "]

  /** The seven evidence counts, in print order. */
  function CoverageCounts(e: Evidence): (r: seq<nat>)
    ensures |r| == 7
  {
    [|e.problem_snippets|, |e.solution_snippets|, |e.team_facts|, |e.traction_facts|,
     |e.funding_facts|, |e.competition_snippets|, |e.market_snippets|]
  }

  function CoverageLines(e: Evidence): (r: seq<string>)
    ensures |r| == 7
    ensures forall i :: 0 <= i < 7 ==> r[i] == CoverageLabels[i] + NatToString(CoverageCounts(e)[i])
  {
    seq(7, i requires 0 <= i < 7 => CoverageLabels[i] + NatToString(CoverageCounts(e)[i]))
  }

  function CoverageSummary(e: Evidence): string {
    Section(CoverageHeading, CoverageLines(e))
  }

  /** Each coverage line is its label followed by digits that read back
      as the count. */
  lemma CoverageReadsBack(e: Evidence, i: nat)
    requires i < 7
    ensures var line, tag := CoverageLines(e)[i], CoverageLabels[i];
      StartsWith(line, tag) && DigitsValue(line[|tag|..]) == CoverageCounts(e)[i]
  {
    var line, tag := CoverageLines(e)[i], CoverageLabels[i];
    assert line == tag + NatToString(CoverageCounts(e)[i]);
    assert line[..|tag|] == tag;
    assert line[|tag|..] == NatToString(CoverageCounts(e)[i]);
    NatToStringValue(CoverageCounts(e)[i]);
  }

  // ---- the context ----

  function CorePart(s: StartupState): (r: seq<string>)
    ensures |r| == if s.core.Some? then 1 else 0
  {
    if s.core.Some? then [CoreSummary(s.core.value)] else []
  }

  function BusinessPart(s: StartupState): (r: seq<string>)
    ensures |r| == if s.business.Some? then 5 else 0
  {
    if s.business.Some? then BusinessSummaries(s.business.value) else []
  }

  function CoveragePart(s: StartupState): (r: seq<string>)
    ensures |r| == if s.evidence.Some? then 1 else 0
  {
    if s.evidence.Some? then [CoverageSummary(s.evidence.value)] else []
  }

  /** The sections `buildRiskContext` pushes. */
  function RiskSections(s: StartupState): seq<string> {
    CorePart(s) + BusinessPart(s) + CoveragePart(s)
  }

  /** `buildRiskContext` as a value. */
  function RiskContext(s: StartupState): (r: string)
    ensures s.core.Some? ==> StartsWith(r, CoreSummary(s.core.value))
    ensures forall k :: 0 <= k < |RiskSections(s)| ==> Contains(r, RiskSections(s)[k])
  {
    JoinStartsWithFirst(RiskSections(s), "\n\n");
    JoinContainsAll(RiskSections(s), "\n\n");
    Join(RiskSections(s), "\n\n")
  }

  /** The core section comes first when there is a core, the five
      business sections follow when there is a business analysis, and the
      coverage section is last when there is evidence. */
  lemma RiskSectionsShape(s: StartupState)
    ensures var r, off := RiskSections(s), if s.core.Some? then 1 else 0;
      |r| == off + (if s.business.Some? then 5 else 0) + (if s.evidence.Some? then 1 else 0) &&
      (s.core.Some? ==> r[0] == CoreSummary(s.core.value)) &&
      (s.business.Some? ==> r[off..off + 5] == BusinessSummaries(s.business.value)) &&
      (s.evidence.Some? ==> r[|r| - 1] == CoverageSummary(s.evidence.value))
  {
    var r, off := RiskSections(s), if s.core.Some? then 1 else 0;
    if s.business.Some? {
      assert r[off..off + 5] == BusinessPart(s);
    }
  }

  /** `buildRiskContext`: the conditional pushes, then the join. */
  method BuildRiskContext(s: StartupState) returns (r: string)
    ensures r == RiskContext(s)
  {
    var sections: seq<string> := [];
    if s.core.Some? {
      sections := sections + [CoreSummary(s.core.value)];
    }
    assert sections == CorePart(s);
    if s.business.Some? {
      var b := s.business.value;
      sections := sections + [TeamSummary(b.team)];
      sections := sections + [TractionSummary(b.traction)];
      sections := sections + [CompetitionSummary(b.competition)];
      sections := sections + [FundingSummary(b.funding)];
      sections := sections + [BusinessModelSummary(b.business_model)];
    }
    assert sections == CorePart(s) + BusinessPart(s);
    if s.evidence.Some? {
      sections := sections + [CoverageSummary(s.evidence.value)];
    }
    assert sections == RiskSections(s);
    r := Join(sections, "\n\n");
  }

  // ---- the node ----

  /** What the guard throws, and the prefix the catch branch adds. */
  const MissingInputsMessage: string := "Core and business analysis required for risk assessment"
  const FailurePrefix: string := "Failed to analyze risks: "

  /** `riskAnalysis`, with the risk model as a parameter that receives the
      rendered context. */
  function RiskAnalysis(s: StartupState, assess: string -> Call<Risk>): (u: Update)
    ensures u == NoUpdate.(risk := u.risk, errors := u.errors) && u.risk.Set?
    ensures u.risk.value.Some? <==> s.core.Some? && s.business.Some? && assess(RiskContext(s)).Returns?
    ensures u.risk.value.Some? ==> u.errors.Keep?
    ensures u.risk.value.None? ==> u.errors.Set? && OneMoreError(s.errors, u.errors.value, FailurePrefix)
  {
    if s.core.None? || s.business.None? then
      OneMoreErrorOf(s.errors, FailurePrefix, Describe(ErrorObject(MissingInputsMessage)));
      NoUpdate.(risk := Set(None), errors := Set(s.errors + [FailurePrefix + Describe(ErrorObject(MissingInputsMessage))]))
    else
      match assess(RiskContext(s))
      case Returns(risk) => NoUpdate.(risk := Set(Some(risk)))
      case Throws(err) =>
        OneMoreErrorOf(s.errors, FailurePrefix, Describe(err));
        NoUpdate.(risk := Set(None), errors := Set(s.errors + [FailurePrefix + Describe(err)]))
  }

  /** Where the model is consulted, its context holds the core section,
      the five business sections and, exactly when there is evidence, the
      coverage section: six or seven sections. */
  lemma ConsultedContext(s: StartupState)
    requires s.core.Some? && s.business.Some?
    ensures var r := RiskSections(s);
      |r| == (if s.evidence.Some? then 7 else 6) &&
      r[0] == CoreSummary(s.core.value) && r[1..6] == BusinessSummaries(s.business.value)
  {
    RiskSectionsShape(s);
  }

  /** Without both analyses the model is not consulted. */
  lemma MissingInputsNoCall(s: StartupState, m1: string -> Call<Risk>, m2: string -> Call<Risk>)
    requires s.core.None? || s.business.None?
    ensures RiskAnalysis(s, m1) == RiskAnalysis(s, m2)
  {
  }

  /** After the graph merges the node's update: the risk record is set
      exactly when both analyses exist and the model returns; success
      keeps the errors; a missing input or a failing model repeats the
      earlier errors before the message. Nothing else changes. */
  lemma RiskAnalysisMerged(s: StartupState, assess: string -> Call<Risk>)
    ensures var r := GraphBuilder.MergeState(s, RiskAnalysis(s, assess));
      var call := assess(RiskContext(s));
      var ready := s.core.Some? && s.business.Some?;
      (r.risk.Some? <==> ready && call.Returns?) &&
      (r.risk.Some? ==> r.risk.value == call.value && r.errors == s.errors) &&
      (!ready ==> r.errors == s.errors + s.errors + [FailurePrefix + MissingInputsMessage]) &&
      (ready && call.Throws? ==> r.errors == s.errors + s.errors + [FailurePrefix + Describe(call.error)]) &&
      r == s.(risk := r.risk, errors := r.errors)
  {
    var u := RiskAnalysis(s, assess);
    var call := assess(RiskContext(s));
    if s.core.None? || s.business.None? {
      GraphBuilder.CatchBranchDuplicates(s, u, FailurePrefix + MissingInputsMessage);
    } else if call.Throws? {
      GraphBuilder.CatchBranchDuplicates(s, u, FailurePrefix + Describe(call.error));
    }
  }
}
