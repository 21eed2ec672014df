/** The merge node: it assembles the final `StartupAnalysis` from the
    core, business and risk analyses (no model call), and summarises the
    evidence it was built on. */
module MergeAnalysisNode {
  import opened Js
  import opened PipelineSchema
  import opened Collections
  import opened Pushes
  import GraphBuilder

  // ---- evidence summary ----

  /** How many items of `xs` cite a source of the given kind. */
  function CountKind(xs: seq<EvidenceItem>, kind: SourceKind): (n: nat)
    ensures n <= |xs|
  {
    if xs == [] then 0
    else CountKind(xs[..|xs| - 1], kind) + (if xs[|xs| - 1].source.kind == kind then 1 else 0)
  }

  /** Every item cites either the deck or the website. */
  lemma {:induction false} CountKindsSum(xs: seq<EvidenceItem>)
    ensures CountKind(xs, DeckSlide) + CountKind(xs, Website) == |xs|
    decreases |xs|
  {
    if xs != [] {
      CountKindsSum(xs[..|xs| - 1]);
    }
  }

  /** `countSources(items)`: one pass over the items bumping the deck or
      the website counter. */
  method CountSources(items: seq<EvidenceItem>, deck: nat, website: nat) returns (deck': nat, website': nat)
    ensures deck' == deck + CountKind(items, DeckSlide)
    ensures website' == website + CountKind(items, Website)
  {
    deck', website' := deck, website;
    for i := 0 to |items|
      invariant deck' == deck + CountKind(items[..i], DeckSlide)
      invariant website' == website + CountKind(items[..i], Website)
    {
      assert items[..i + 1][..i] == items[..i];
      if items[i].source.kind == DeckSlide { deck' := deck' + 1; }
      if items[i].source.kind == Website { website' := website' + 1; }
    }
    assert items[..|items|] == items;
  }

  /** The items citing `kind` over the seven arrays whose sources are
      counted, in the order counted. */
  function KindTotal(e: Evidence, kind: SourceKind): nat {
    CountKind(e.problem_snippets, kind) + CountKind(e.solution_snippets, kind) +
    CountKind(e.value_prop_snippets, kind) + CountKind(e.competition_snippets, kind) +
    CountKind(e.market_snippets, kind) + CountKind(e.business_model_snippets, kind) +
    CountKind(e.claims, kind)
  }

  /** The total: problem, solution, team, traction, funding, competition
      and market; value proposition, business model and claims are not
      counted. */
  function TotalEvidence(e: Evidence): nat {
    |e.problem_snippets| + |e.solution_snippets| + |e.team_facts| + |e.traction_facts| +
    |e.funding_facts| + |e.competition_snippets| + |e.market_snippets|
  }

  /** The areas coverage reports on, in the order reported. */
  const ProblemArea: string := "problem"
  const SolutionArea: string := "solution"
  const TeamArea: string := "team"
  const TractionArea: string := "traction"
  const FundingArea: string := "funding"
  const CompetitionArea: string := "competition"
  const AreaNames: seq<string> := [ProblemArea, SolutionArea, TeamArea, TractionArea, FundingArea, CompetitionArea]

  /** The size of each area's evidence, in the same order. */
  function AreaSizes(e: Evidence): (r: seq<nat>)
    ensures |r| == |AreaNames|
  {
    [|e.problem_snippets|, |e.solution_snippets|, |e.team_facts|, |e.traction_facts|,
     |e.funding_facts|, |e.competition_snippets|]
  }

  lemma AreaNamesDistinct()
    ensures NoDups(AreaNames)
  {
    var a := AreaNames;
    assert a[0][0] == 'p' && a[1][0] == 's' && a[2][0] == 't' && a[3][0] == 't' && a[4][0] == 'f' && a[5][0] == 'c';
    assert |a[2]| == 4 && |a[3]| == 8;
  }

  /** The covered areas, in the fixed order, each present iff it has evidence. */
  function Coverage(e: Evidence): (r: seq<string>) {
    Kept(AreaNames, AreaSizes(e))
  }

  /** Coverage names an area exactly when it has evidence, and lists the
      areas in the fixed order problem, solution, team, traction, funding,
      competition. */
  lemma CoverageIff(e: Evidence)
    ensures forall i :: 0 <= i < |AreaNames| ==> (AreaNames[i] in Coverage(e) <==> AreaSizes(e)[i] > 0)
    ensures IsSubsequence(Coverage(e), AreaNames)
  {
    AreaNamesDistinct();
    forall i | 0 <= i < |AreaNames| ensures AreaNames[i] in Coverage(e) <==> AreaSizes(e)[i] > 0 {
      KeptIff(AreaNames, AreaSizes(e), i);
    }
    KeptSubsequence(AreaNames, AreaSizes(e));
  }

  /** The three parts of the summary, before joining. */
  function SummaryParts(e: Evidence): seq<string> {
    ["Total evidence items: " + NatToString(TotalEvidence(e)),
     "Sources - Deck: " + NatToString(KindTotal(e, DeckSlide)) + ", Website: " + NatToString(KindTotal(e, Website)),
     "Coverage: " + Join(Coverage(e), ", ")]
  }

  /** `buildEvidenceSummary` as a value. */
  function EvidenceSummary(evidence: Option<Evidence>): (r: string)
    ensures evidence.None? ==> r == "No evidence available"
  {
    if evidence.None? then "No evidence available" else Join(SummaryParts(evidence.value), ". ")
  }

  /** The deck and website counts add up to the number of items in the
      seven counted arrays. */
  lemma SourcesAddUp(e: Evidence)
    ensures KindTotal(e, DeckSlide) + KindTotal(e, Website) ==
      |e.problem_snippets| + |e.solution_snippets| + |e.value_prop_snippets| + |e.competition_snippets| +
      |e.market_snippets| + |e.business_model_snippets| + |e.claims|
  {
    CountKindsSum(e.problem_snippets);
    CountKindsSum(e.solution_snippets);
    CountKindsSum(e.value_prop_snippets);
    CountKindsSum(e.competition_snippets);
    CountKindsSum(e.market_snippets);
    CountKindsSum(e.business_model_snippets);
    CountKindsSum(e.claims);
  }

  /** The summary opens with the total, which sums the seven lengths. */
  lemma SummaryStartsWithTotal(e: Evidence)
    ensures StartsWith(EvidenceSummary(Some(e)), "Total evidence items: " + NatToString(
      |e.problem_snippets| + |e.solution_snippets| + |e.team_facts| + |e.traction_facts| +
      |e.funding_facts| + |e.competition_snippets| + |e.market_snippets|))
  {
    JoinStartsWith(SummaryParts(e), ". ");
  }

  /** The three parts in order, separated by ". ". */
  lemma SummaryShape(e: Evidence)
    ensures var p := SummaryParts(e);
      EvidenceSummary(Some(e)) == p[0] + ". " + p[1] + ". " + p[2]
  {
    var p := SummaryParts(e);
    assert p[1..][1..] == [p[2]];
    assert Join(p[1..], ". ") == p[1] + ". " + p[2];
  }

  /** `buildEvidenceSummary`: the counters are bumped while walking the
      seven arrays, the parts pushed in order and joined. */
  method BuildEvidenceSummary(state: StartupState) returns (r: string)
    ensures r == EvidenceSummary(state.evidence)
  {
    if state.evidence.None? {
      return "No evidence available";
    }
    var e := state.evidence.value;
    var parts: seq<string> := [];
    var total := |e.problem_snippets| + |e.solution_snippets| + |e.team_facts| + |e.traction_facts| +
                 |e.funding_facts| + |e.competition_snippets| + |e.market_snippets|;
    parts := parts + ["Total evidence items: " + NatToString(total)];
    var deck, website := CountAllSources(e);
    parts := parts + ["Sources - Deck: " + NatToString(deck) + ", Website: " + NatToString(website)];
    var coverage := BuildCoverage(e);
    parts := parts + ["Coverage: " + Join(coverage, ", ")];
    assert parts == SummaryParts(e);
    r := Join(parts, ". ");
  }

  /** The seven `countSources` calls, each carrying on from the last. */
  method CountAllSources(e: Evidence) returns (deck: nat, website: nat)
    ensures deck == KindTotal(e, DeckSlide) && website == KindTotal(e, Website)
  {
    deck, website := CountSources(e.problem_snippets, 0, 0);
    deck, website := CountSources(e.solution_snippets, deck, website);
    deck, website := CountSources(e.value_prop_snippets, deck, website);
    deck, website := CountSources(e.competition_snippets, deck, website);
    deck, website := CountSources(e.market_snippets, deck, website);
    deck, website := CountSources(e.business_model_snippets, deck, website);
    deck, website := CountSources(e.claims, deck, website);
  }

  /** The coverage assessment: one conditional push per area. */
  method BuildCoverage(e: Evidence) returns (coverage: seq<string>)
    ensures coverage == Coverage(e)
  {
    coverage := [];
    if |e.problem_snippets| > 0 { coverage := coverage + [ProblemArea]; }
    PushStep([], |e.problem_snippets|, ProblemArea, coverage);
    ghost var c1 := coverage;
    if |e.solution_snippets| > 0 { coverage := coverage + [SolutionArea]; }
    PushStep(c1, |e.solution_snippets|, SolutionArea, coverage);
    ghost var c2 := coverage;
    if |e.team_facts| > 0 { coverage := coverage + [TeamArea]; }
    PushStep(c2, |e.team_facts|, TeamArea, coverage);
    ghost var c3 := coverage;
    if |e.traction_facts| > 0 { coverage := coverage + [TractionArea]; }
    PushStep(c3, |e.traction_facts|, TractionArea, coverage);
    ghost var c4 := coverage;
    if |e.funding_facts| > 0 { coverage := coverage + [FundingArea]; }
    PushStep(c4, |e.funding_facts|, FundingArea, coverage);
    ghost var c5 := coverage;
    if |e.competition_snippets| > 0 { coverage := coverage + [CompetitionArea]; }
    PushStep(c5, |e.competition_snippets|, CompetitionArea, coverage);
    KeptSix(AreaNames, AreaSizes(e));
  }

  // ---- the node ----

  /** The message the node's catch branch reports when an input is missing. */
  const MissingInputs: string := "Failed to merge analysis: Core, business, and risk analysis required for merge"

  /** `mergeAnalysis`: with core, business and risk all present, an update
      holding only the assembled analysis (`analyzedAt` stands for the
      current time); otherwise `final_analysis: null` and the state's
      errors followed by the message. */
  function MergeAnalysis(s: StartupState, analyzedAt: string): (u: Update)
    ensures (s.core.None? || s.business.None? || s.risk.None?) ==>
      u == NoUpdate.(final_analysis := Set(None), errors := Set(s.errors + [MissingInputs]))
    ensures s.core.Some? && s.business.Some? && s.risk.Some? ==>
      u == NoUpdate.(final_analysis := u.final_analysis) && u.final_analysis.Set? && u.final_analysis.value.Some?
  {
    if s.core.None? || s.business.None? || s.risk.None? then
      NoUpdate.(final_analysis := Set(None), errors := Set(s.errors + [MissingInputs]))
    else
      var core, business, risk := s.core.value, s.business.value, s.risk.value;
      NoUpdate.(final_analysis := Set(Some(StartupAnalysis(
        s.startup_id, s.url,
        core.problem, core.solution, core.value_proposition,
        business.team, business.traction, business.competition, business.funding, business.business_model,
        risk.risks, risk.missing_info,
        Some(EvidenceSummary(s.evidence)),
        analyzedAt))))
  }

  /** The assembled analysis copies the identity and every sub-record
      unchanged and carries the evidence summary. */
  lemma MergeAnalysisCopies(s: StartupState, analyzedAt: string)
    requires s.core.Some? && s.business.Some? && s.risk.Some?
    ensures var a := MergeAnalysis(s, analyzedAt).final_analysis.value.value;
      a.startup_id == s.startup_id && a.url == s.url &&
      a.problem == s.core.value.problem && a.solution == s.core.value.solution &&
      a.value_proposition == s.core.value.value_proposition &&
      a.team == s.business.value.team && a.traction == s.business.value.traction &&
      a.competition == s.business.value.competition && a.funding == s.business.value.funding &&
      a.business_model == s.business.value.business_model &&
      a.risks == s.risk.value.risks && a.missing_info == s.risk.value.missing_info &&
      a.evidence_summary == Some(EvidenceSummary(s.evidence)) && a.analyzed_at == analyzedAt
  {
  }

  /** In the pipeline the merged state has a final analysis exactly when
      core, business and risk were all present; when one is missing the
      catch branch's `[...state.errors, msg]` makes every earlier error
      appear twice. */
  lemma MergeAnalysisInPipeline(s: StartupState, analyzedAt: string)
    ensures var r := GraphBuilder.MergeState(s, MergeAnalysis(s, analyzedAt));
      (r.final_analysis.Some? <==> s.core.Some? && s.business.Some? && s.risk.Some?) &&
      (r.final_analysis.Some? ==> r.errors == s.errors) &&
      (r.final_analysis.None? ==> r.errors == s.errors + s.errors + [MissingInputs])
  {
    if s.core.None? || s.business.None? || s.risk.None? {
      GraphBuilder.CatchBranchDuplicates(s, MergeAnalysis(s, analyzedAt), MissingInputs);
    }
  }
}
