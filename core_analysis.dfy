/** The core analysis node: it renders the problem, solution, value
    proposition, market and claim evidence as a context and asks the
    synthesis model for the core problem, solution and value
    proposition. Without evidence it records an error instead. */
module CoreAnalysisNode {
  import opened Js
  import opened PipelineSchema
  import opened Collections
  import opened Pushes
  import opened EvidenceText
  import GraphBuilder

  // ---- the evidence context ----

  const ProblemHeading: string := "**Problem Evidence:**"
  const SolutionHeading: string := "**Solution Evidence:**"
  const ValuePropHeading: string := "**Value Proposition Evidence:**"
  const MarketHeading: string := "**Market Context:**"
  const ClaimsHeading: string := "**Claims:**"

  /** How many claims the context shows at most. */
  const ClaimLimit: nat := 5

  /** `claims.slice(0, 5)`. */
  function RelevantClaims(claims: seq<EvidenceItem>): (r: seq<EvidenceItem>)
    ensures |r| == if |claims| < ClaimLimit then |claims| else ClaimLimit
    ensures r == claims[..|r|]
  {
    if |claims| < ClaimLimit then claims else claims[..ClaimLimit]
  }

  /** Problem, solution and value proposition items carry their source
      tag; market and claim items do not. */
  function ProblemSection(e: Evidence): string {
    Section(ProblemHeading, Numbered(TaggedTexts(e.problem_snippets)))
  }

  function SolutionSection(e: Evidence): string {
    Section(SolutionHeading, Numbered(TaggedTexts(e.solution_snippets)))
  }

  function ValuePropSection(e: Evidence): string {
    Section(ValuePropHeading, Numbered(TaggedTexts(e.value_prop_snippets)))
  }

  function MarketSection(e: Evidence): string {
    Section(MarketHeading, Numbered(Texts(e.market_snippets)))
  }

  function ClaimsSection(e: Evidence): string {
    Section(ClaimsHeading, Numbered(Texts(RelevantClaims(e.claims))))
  }

  /** The five candidate sections in push order. */
  function CoreSections(e: Evidence): (r: seq<string>)
    ensures |r| == 5
  {
    [ProblemSection(e), SolutionSection(e), ValuePropSection(e), MarketSection(e), ClaimsSection(e)]
  }

  /** The list each section is guarded by. */
  function CoreSizes(e: Evidence): (r: seq<nat>)
    ensures |r| == 5
  {
    [|e.problem_snippets|, |e.solution_snippets|, |e.value_prop_snippets|, |e.market_snippets|, |e.claims|]
  }

  /** `buildCoreEvidenceContext` as a value. */
  function CoreEvidenceContext(evidence: Option<Evidence>): (r: string)
    ensures evidence.None? ==> r == NoEvidence
    ensures evidence.Some? ==> forall i :: 0 <= i < 5 && CoreSizes(evidence.value)[i] > 0 ==>
      Contains(r, CoreSections(evidence.value)[i])
  {
    if evidence.None? then NoEvidence
    else
      KeptJoinContains(CoreSections(evidence.value), CoreSizes(evidence.value), "\n\n");
      Join(Kept(CoreSections(evidence.value), CoreSizes(evidence.value)), "\n\n")
  }

  /** The context's sections are the candidates at the positions whose
      list is non-empty: a section appears exactly when its list is
      non-empty, in the order problem, solution, value proposition,
      market, claims. */
  lemma CoreSectionsAt(e: Evidence)
    ensures var k, p := Kept(CoreSections(e), CoreSizes(e)), Positions(CoreSizes(e));
      |k| == |p| && (forall j :: 0 <= j < |p| ==> k[j] == CoreSections(e)[p[j]]) &&
      (forall i :: 0 <= i < 5 ==> (i in p <==> CoreSizes(e)[i] > 0)) &&
      (forall j, j' :: 0 <= j < j' < |p| ==> p[j] < p[j'])
  {
    KeptAt(CoreSections(e), CoreSizes(e));
  }

  /** The claims section lists the first five claims at most, numbered
      from 1, each without a source tag. */
  lemma ClaimsSectionLines(e: Evidence, i: nat)
    requires i < |e.claims| && i < ClaimLimit
    ensures var lines := Numbered(Texts(RelevantClaims(e.claims)));
      |lines| <= ClaimLimit && i < |lines| && lines[i] == NatToString(i + 1) + ". " + e.claims[i].text
  {
  }

  /** Evidence whose five lists are all empty renders as the empty
      context. */
  lemma CoreContextEmpty(e: Evidence)
    requires e.problem_snippets == [] && e.solution_snippets == [] && e.value_prop_snippets == []
    requires e.market_snippets == [] && e.claims == []
    ensures CoreEvidenceContext(Some(e)) == ""
  {
    KeptNone(CoreSections(e), CoreSizes(e));
  }

  /** `buildCoreEvidenceContext`: one conditional push per section, then
      the join. */
  method BuildCoreEvidenceContext(state: StartupState) returns (r: string)
    ensures r == CoreEvidenceContext(state.evidence)
  {
    if state.evidence.None? {
      return NoEvidence;
    }
    var sections := PushCoreSections(state.evidence.value);
    KeptFive(CoreSections(state.evidence.value), CoreSizes(state.evidence.value));
    r := Join(sections, "\n\n");
  }

  /** The five guarded pushes of `buildCoreEvidenceContext`. */
  method PushCoreSections(e: Evidence) returns (sections: seq<string>)
    ensures sections == [] + PushIf(ProblemSection(e), |e.problem_snippets|)
      + PushIf(SolutionSection(e), |e.solution_snippets|) + PushIf(ValuePropSection(e), |e.value_prop_snippets|)
      + PushIf(MarketSection(e), |e.market_snippets|) + PushIf(ClaimsSection(e), |e.claims|)
  {
    sections := [];
    if |e.problem_snippets| > 0 {
      sections := sections + [ProblemSection(e)];
    }
    PushStep([], |e.problem_snippets|, ProblemSection(e), sections);
    ghost var s1 := sections;
    if |e.solution_snippets| > 0 {
      sections := sections + [SolutionSection(e)];
    }
    PushStep(s1, |e.solution_snippets|, SolutionSection(e), sections);
    ghost var s2 := sections;
    if |e.value_prop_snippets| > 0 {
      sections := sections + [ValuePropSection(e)];
    }
    PushStep(s2, |e.value_prop_snippets|, ValuePropSection(e), sections);
    ghost var s3 := sections;
    if |e.market_snippets| > 0 {
      sections := sections + [MarketSection(e)];
    }
    PushStep(s3, |e.market_snippets|, MarketSection(e), sections);
    ghost var s4 := sections;
    if |e.claims| > 0 {
      sections := sections + [ClaimsSection(e)];
    }
    PushStep(s4, |e.claims|, ClaimsSection(e), sections);
  }

  // ---- the node ----

  /** What the guard throws, and the prefix the catch branch adds. */
  const NoEvidenceMessage: string := "No evidence available for core analysis"
  const FailurePrefix: string := "Failed to synthesize core analysis: "

  /** `coreAnalysis`, with the synthesis model as a parameter that
      receives the rendered context. The guard's throw is caught by the
      node's own catch branch. */
  function CoreAnalysis(s: StartupState, synthesize: string -> Call<Core>): (u: Update)
    ensures u == NoUpdate.(core := u.core, errors := u.errors) && u.core.Set?
    ensures u.core.value.Some? <==> s.evidence.Some? && synthesize(CoreEvidenceContext(s.evidence)).Returns?
    ensures u.core.value.Some? ==> u.errors.Keep?
    ensures u.core.value.None? ==> u.errors.Set? && OneMoreError(s.errors, u.errors.value, FailurePrefix)
  {
    if s.evidence.None? then
      OneMoreErrorOf(s.errors, FailurePrefix, Describe(ErrorObject(NoEvidenceMessage)));
      NoUpdate.(core := Set(None), errors := Set(s.errors + [FailurePrefix + Describe(ErrorObject(NoEvidenceMessage))]))
    else
      match synthesize(CoreEvidenceContext(s.evidence))
      case Returns(c) => NoUpdate.(core := Set(Some(c)))
      case Throws(err) =>
        OneMoreErrorOf(s.errors, FailurePrefix, Describe(err));
        NoUpdate.(core := Set(None), errors := Set(s.errors + [FailurePrefix + Describe(err)]))
  }

  /** Without evidence the model is not consulted. */
  lemma NoEvidenceNoCall(s: StartupState, m1: string -> Call<Core>, m2: string -> Call<Core>)
    requires s.evidence.None?
    ensures CoreAnalysis(s, m1) == CoreAnalysis(s, m2)
  {
  }

  /** After the graph merges the node's update: the core is set exactly
      when there is evidence and the model returns; success keeps the
      errors; a missing evidence record or a failing model repeats the
      earlier errors before the message. Nothing else changes. */
  lemma CoreAnalysisMerged(s: StartupState, synthesize: string -> Call<Core>)
    ensures var r := GraphBuilder.MergeState(s, CoreAnalysis(s, synthesize));
      var call := synthesize(CoreEvidenceContext(s.evidence));
      (r.core.Some? <==> s.evidence.Some? && call.Returns?) &&
      (r.core.Some? ==> r.core.value == call.value && r.errors == s.errors) &&
      (s.evidence.None? ==>
         r.errors == s.errors + s.errors + [FailurePrefix + NoEvidenceMessage]) &&
      (s.evidence.Some? && call.Throws? ==> r.errors == s.errors + s.errors + [FailurePrefix + Describe(call.error)]) &&
      r == s.(core := r.core, errors := r.errors)
  {
    var u := CoreAnalysis(s, synthesize);
    var call := synthesize(CoreEvidenceContext(s.evidence));
    if s.evidence.None? {
      GraphBuilder.CatchBranchDuplicates(s, u, FailurePrefix + NoEvidenceMessage);
    } else if call.Throws? {
      GraphBuilder.CatchBranchDuplicates(s, u, FailurePrefix + Describe(call.error));
    }
  }
}
