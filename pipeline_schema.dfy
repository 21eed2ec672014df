/** The records that flow through the seven-stage analysis graph: deck
    slides, website chunks, extracted evidence, the core, business and
    risk analyses, the merged analysis and the pipeline state itself.
    Optional and nullable properties are `Option`s; numbers are
    integers. */
module PipelineSchema {
  import opened Js

  // ---- deck ----

  datatype SlideType = ProblemSlide | SolutionSlide | TeamSlide | TractionSlide | MarketSlide
                     | CompetitionSlide | ProductSlide | RoadmapSlide | FinancialsSlide
                     | FundingSlide | OtherSlide

  /** The enum's spelling. */
  function SlideTypeName(t: SlideType): (r: string)
    ensures r != ""
  {
    match t
    case ProblemSlide => "problem"
    case SolutionSlide => "solution"
    case TeamSlide => "team"
    case TractionSlide => "traction"
    case MarketSlide => "market"
    case CompetitionSlide => "competition"
    case ProductSlide => "product"
    case RoadmapSlide => "roadmap"
    case FinancialsSlide => "financials"
    case FundingSlide => "funding"
    case OtherSlide => "other"
  }

  /** `label` is a reserved word here, hence `label_text`. */
  datatype Figure = Figure(label_text: string, value: string, unit: Option<string>)
  datatype Logo = Logo(name: string, role: Option<string>)
  datatype VisualStructure = VisualStructure(kind: string, subject: Option<string>, qualitative_trend: Option<string>)

  /** A slide number: a positive integer. */
  type PageNumber = n: int | n > 0 witness 1

  /** One slide as the vision stage structures it. */
  datatype Slide = Slide(
    page: PageNumber,
    slide_type: SlideType,
    title: Option<string>,
    main_bullets: seq<string>,
    figures: seq<Figure>,
    logos: seq<Logo>,
    claims: seq<string>,
    visual_structures: seq<VisualStructure>,
    caveats: seq<string>)

  /** A raw slide image. `page` is whatever the caller supplied; the
      ingest stage drops slides whose page is 0. */
  datatype SlideImage = SlideImage(page: int, imageDataUrl: string, fileName: Option<string>)

  // ---- website ----

  /** A website chunk; its `source_type` is always "website". */
  datatype TextChunk = TextChunk(id: string, text: string, location: string)

  // ---- evidence ----

  datatype SourceKind = DeckSlide | Website

  datatype Provenance = Provenance(kind: SourceKind, page: Option<int>, location: Option<string>, snippet: Option<string>)

  datatype EvidenceItem = EvidenceItem(text: string, source: Provenance)

  datatype FundingFact = FundingFact(round_type: Option<string>, amount: Option<string>,
                                     investors: Option<seq<string>>, date: Option<string>,
                                     source: Provenance)

  /** A metric value is a string or a number. */
  datatype Scalar = Str(s: string) | Num(n: int)

  datatype TractionFact = TractionFact(metric_type: string, value: Scalar, timeframe: Option<string>,
                                       context: Option<string>, source: Provenance)

  datatype TeamFact = TeamFact(name: string, role: Option<string>, background: Option<string>, source: Provenance)

  datatype Evidence = Evidence(
    problem_snippets: seq<EvidenceItem>,
    solution_snippets: seq<EvidenceItem>,
    value_prop_snippets: seq<EvidenceItem>,
    team_facts: seq<TeamFact>,
    competition_snippets: seq<EvidenceItem>,
    funding_facts: seq<FundingFact>,
    traction_facts: seq<TractionFact>,
    market_snippets: seq<EvidenceItem>,
    business_model_snippets: seq<EvidenceItem>,
    claims: seq<EvidenceItem>)

  // ---- core ----

  datatype Problem = Problem(one_liner: string, details: string, pain_points: seq<string>, target_users: string)
  datatype Solution = Solution(one_liner: string, details: string, features: seq<string>)
  datatype ValueProposition = ValueProposition(summary: string, key_benefits: seq<string>)
  datatype Core = Core(problem: Problem, solution: Solution, value_proposition: ValueProposition)

  // ---- business ----

  datatype TeamMember = TeamMember(name: string, role: string, background: Option<string>,
                                   strengths: seq<string>, source_ids: seq<string>)
  datatype Team = Team(size: Option<string>, members: seq<TeamMember>, collective_expertise: Option<string>)
  datatype TractionMetric = TractionMetric(metric: string, value: string, trend: Option<string>, timeframe: Option<string>)
  datatype Partnership = Partnership(name: string, kind: string, details: Option<string>)
  datatype Traction = Traction(metrics: seq<TractionMetric>, partnerships: seq<Partnership>, milestones: seq<string>)
  datatype Rival = Rival(name: string, description: Option<string>, differentiation: Option<string>)
  datatype Competition = Competition(competitors: seq<Rival>, positioning: string, notes: Option<string>)
  datatype FundingRound = FundingRound(kind: string, amount: Option<string>, investors: Option<seq<string>>,
                                       date: Option<string>, status: string)
  datatype Funding = Funding(rounds: seq<FundingRound>, total_raised: Option<string>, status: string, notes: Option<string>)
  datatype BusinessModel = BusinessModel(summary: Option<string>, monetization: Option<seq<string>>, pricing: Option<string>)
  datatype Business = Business(team: Team, traction: Traction, competition: Competition,
                               funding: Funding, business_model: BusinessModel)

  // ---- risk ----

  datatype Severity = Low | Medium | High | Critical

  function SeverityName(s: Severity): (r: string)
    ensures r != ""
  {
    match s
    case Low => "low"
    case Medium => "medium"
    case High => "high"
    case Critical => "critical"
  }

  datatype RiskItem = RiskItem(category: string, description: string, severity: Option<Severity>)
  datatype Risk = Risk(risks: seq<RiskItem>, missing_info: seq<string>)

  // ---- merged analysis and state ----

  datatype StartupAnalysis = StartupAnalysis(
    startup_id: string,
    url: string,
    problem: Problem,
    solution: Solution,
    value_proposition: ValueProposition,
    team: Team,
    traction: Traction,
    competition: Competition,
    funding: Funding,
    business_model: BusinessModel,
    risks: seq<RiskItem>,
    missing_info: seq<string>,
    evidence_summary: Option<string>,
    analyzed_at: string)

  /** The state every node reads. */
  datatype StartupState = StartupState(
    startup_id: string,
    url: string,
    deck_slides: Option<seq<SlideImage>>,
    website_html: Option<string>,
    web_chunks: Option<seq<TextChunk>>,
    deck_structured: Option<seq<Slide>>,
    evidence: Option<Evidence>,
    core: Option<Core>,
    business: Option<Business>,
    risk: Option<Risk>,
    final_analysis: Option<StartupAnalysis>,
    memo: Option<string>,
    errors: seq<string>)

  /** A property of a partial update: absent, or present with a value
      (which for a nullable property may itself be `None`). */
  datatype Field<T> = Keep | Set(value: T)

  /** `Partial<StartupState>`: what a node returns. */
  datatype Update = Update(
    startup_id: Field<string>,
    url: Field<string>,
    deck_slides: Field<Option<seq<SlideImage>>>,
    website_html: Field<Option<string>>,
    web_chunks: Field<Option<seq<TextChunk>>>,
    deck_structured: Field<Option<seq<Slide>>>,
    evidence: Field<Option<Evidence>>,
    core: Field<Option<Core>>,
    business: Field<Option<Business>>,
    risk: Field<Option<Risk>>,
    final_analysis: Field<Option<StartupAnalysis>>,
    memo: Field<Option<string>>,
    errors: Field<seq<string>>)

  /** The empty update `{}`. */
  const NoUpdate: Update :=
    Update(Keep, Keep, Keep, Keep, Keep, Keep, Keep, Keep, Keep, Keep, Keep, Keep, Keep)

  /** `after` is `before` with one more message, which starts with
      `prefix`. */
  predicate OneMoreError(before: seq<string>, after: seq<string>, prefix: string) {
    |after| == |before| + 1 && after[..|before|] == before && StartsWith(after[|before|], prefix)
  }

  lemma OneMoreErrorOf(before: seq<string>, prefix: string, message: string)
    ensures OneMoreError(before, before + [prefix + message], prefix)
  {
    assert (prefix + message)[..|prefix|] == prefix;
  }

  /** `{ errors: [...] }`. */
  function ErrorsOnly(errors: seq<string>): (u: Update)
    ensures u.errors == Set(errors)
  {
    NoUpdate.(errors := Set(errors))
  }

  /** `${v}` for a string-or-number metric value. */
  function ShowScalar(v: Scalar): string {
    match v
    case Str(s) => s
    case Num(n) => IntToString(n)
  }
}
