/** The investment memo node: it renders the merged analysis as a
    structured context, grouping the risks by category, and asks the
    writing model for the memo text. Without a merged analysis it records
    an error instead. */
module InvestmentMemoNode {
  import opened Js
  import opened PipelineSchema
  import opened Collections
  import opened EvidenceText
  import GraphBuilder

  // ---- grouping the risks by category ----

  /** The property names every plain object `{}` inherits from
      `Object.prototype`. Looking one of them up in the accumulator finds
      the inherited member instead of `undefined`. */
  const InheritedKeys: set<string> := {"constructor", "__proto__", "hasOwnProperty", "isPrototypeOf",
    "propertyIsEnumerable", "toString", "valueOf", "toLocaleString", "__defineGetter__",
    "__defineSetter__", "__lookupGetter__", "__lookupSetter__"}

  predicate IsInheritedKey(k: string) {
    k in InheritedKeys
  }

  /** What the engine throws when the reduce calls `push` on an inherited
      member (the V8 wording). */
  const PushTypeError: string := "acc[r.category].push is not a function"

  function CategoriesOf(risks: seq<RiskItem>): (r: seq<string>)
    ensures |r| == |risks|
    ensures forall i :: 0 <= i < |risks| ==> r[i] == risks[i].category
  {
    seq(|risks|, i requires 0 <= i < |risks| => risks[i].category)
  }

  /** The risks of one category, in their original order. */
  function InCategory(risks: seq<RiskItem>, c: string): (r: seq<RiskItem>)
    ensures forall x :: x in r ==> x in risks && x.category == c
    decreases |risks|
  {
    if risks == [] then []
    else
      var last := risks[|risks| - 1];
      InCategory(risks[..|risks| - 1], c) + (if last.category == c then [last] else [])
  }

  /** Every risk is in the group of its own category, and the groups
      together hold exactly the risks. */
  lemma {:induction false} InCategoryComplete(risks: seq<RiskItem>, i: nat)
    requires i < |risks|
    ensures risks[i] in InCategory(risks, risks[i].category)
    decreases |risks|
  {
    var init := risks[..|risks| - 1];
    if i < |risks| - 1 {
      assert init[i] == risks[i];
      InCategoryComplete(init, i);
    }
  }

  /** Grouping by category keeps every risk once: the group sizes add
      up to the number of risks. */
  lemma {:induction false} InCategorySizes(risks: seq<RiskItem>, cats: seq<string>)
    requires NoDups(cats) && forall i :: 0 <= i < |risks| ==> risks[i].category in cats
    ensures GroupSizes(risks, cats) == |risks|
    decreases |risks|
  {
    if risks != [] {
      var init, last := risks[..|risks| - 1], risks[|risks| - 1];
      assert risks == init + [last];
      assert forall i :: 0 <= i < |init| ==> init[i].category in cats by {
        forall i | 0 <= i < |init| ensures init[i].category in cats {
          assert init[i] == risks[i];
        }
      }
      InCategorySizes(init, cats);
      GroupSizesSnoc(init, last, cats);
    } else {
      GroupSizesNone(cats);
    }
  }

  lemma {:induction false} GroupSizesNone(cats: seq<string>)
    ensures GroupSizes([], cats) == 0
    decreases |cats|
  {
    if cats != [] {
      GroupSizesNone(cats[1..]);
    }
  }

  /** The sum over `cats` of the group sizes. */
  function GroupSizes(risks: seq<RiskItem>, cats: seq<string>): nat {
    if cats == [] then 0 else |InCategory(risks, cats[0])| + GroupSizes(risks, cats[1..])
  }

  /** One more risk adds one to the group sizes when its category is
      listed once. */
  lemma {:induction false} GroupSizesSnoc(init: seq<RiskItem>, last: RiskItem, cats: seq<string>)
    requires NoDups(cats)
    ensures GroupSizes(init + [last], cats) == GroupSizes(init, cats) + (if last.category in cats then 1 else 0)
    decreases |cats|
  {
    if cats != [] {
      assert (init + [last])[..|init + [last]| - 1] == init;
      assert NoDups(cats[1..]) by {
        forall a, b | 0 <= a < b < |cats[1..]| ensures cats[1..][a] != cats[1..][b] {
          assert cats[1..][a] == cats[a + 1] && cats[1..][b] == cats[b + 1];
        }
      }
      assert last.category in cats <==> last.category == cats[0] || last.category in cats[1..];
      assert cats[0] !in cats[1..] by {
        forall k | 0 <= k < |cats[1..]| ensures cats[1..][k] != cats[0] {
          assert cats[1..][k] == cats[k + 1];
        }
      }
      GroupSizesSnoc(init, last, cats[1..]);
    }
  }

  /** The groups of the distinct categories hold exactly the risks. */
  lemma GroupsPartitionRisks(risks: seq<RiskItem>)
    ensures GroupSizes(risks, Dedup(CategoriesOf(risks))) == |risks|
  {
    var cats := Dedup(CategoriesOf(risks));
    forall i | 0 <= i < |risks| ensures risks[i].category in cats {
      assert CategoriesOf(risks)[i] == risks[i].category;
    }
    InCategorySizes(risks, cats);
  }

  /** The accumulator of the reduce, or the category whose `push` threw.
      `order` is the accumulator's key insertion order, which
      `Object.entries` reports. */
  datatype Grouping = Grouped(order: seq<string>, groups: map<string, seq<RiskItem>>)
                    | PushFailed(category: string)

  /** A category that does not clash with an inherited member. */
  predicate Groupable(risks: seq<RiskItem>) {
    forall i :: 0 <= i < |risks| ==> !IsInheritedKey(risks[i].category)
  }

  /** The accumulator after the risks `seen`: their categories in
      first-occurrence order, each mapped to its risks so far. */
  ghost predicate GroupedAs(seen: seq<RiskItem>, order: seq<string>, groups: map<string, seq<RiskItem>>) {
    order == Dedup(CategoriesOf(seen)) &&
    (forall c :: c in groups <==> c in CategoriesOf(seen)) &&
    (forall c :: c in groups ==> groups[c] == InCategory(seen, c))
  }

  /** The reduce `risksByCategory`: the categories in order of first
      occurrence, each with its risks in original order; it throws at the
      first risk whose category is an inherited property name. */
  method GroupRisks(risks: seq<RiskItem>) returns (g: Grouping)
    ensures g.Grouped? <==> Groupable(risks)
    ensures g.PushFailed? ==> IsInheritedKey(g.category)
    ensures g.Grouped? ==> GroupedAs(risks, g.order, g.groups)
  {
    var order: seq<string> := [];
    var groups: map<string, seq<RiskItem>> := map[];
    var i := 0;
    while i < |risks|
      invariant 0 <= i <= |risks|
      invariant Groupable(risks[..i])
      invariant GroupedAs(risks[..i], order, groups)
    {
      if IsInheritedKey(risks[i].category) {
        return PushFailed(risks[i].category);
      }
      GroupableSnoc(risks, i);
      PrefixSnoc(risks, i);
      order, groups := AddRisk(risks[..i], risks[i], order, groups);
      i := i + 1;
    }
    assert risks[..|risks|] == risks;
    return Grouped(order, groups);
  }

  lemma GroupableSnoc(risks: seq<RiskItem>, i: nat)
    requires i < |risks| && Groupable(risks[..i]) && !IsInheritedKey(risks[i].category)
    ensures Groupable(risks[..i + 1])
  {
    assert forall k :: 0 <= k < i ==> risks[..i][k] == risks[k];
  }

  /** One step of the reduce: `if (!acc[c]) acc[c] = []` then
      `acc[c].push(r)`, for a category that is not inherited. */
  method AddRisk(ghost seen: seq<RiskItem>, r: RiskItem, order: seq<string>, groups: map<string, seq<RiskItem>>)
    returns (order': seq<string>, groups': map<string, seq<RiskItem>>)
    requires GroupedAs(seen, order, groups)
    ensures GroupedAs(seen + [r], order', groups')
  {
    order', groups' := order, groups;
    if r.category !in groups' {
      groups' := groups'[r.category := []];
      order' := order' + [r.category];
    }
    ghost var before := groups';
    groups' := groups'[r.category := groups'[r.category] + [r]];
    PushIntoGroup(groups, before, r, groups');
    StepOrder(seen, r, order);
    StepKeys(seen, r, groups, groups');
    StepValues(seen, r, groups, groups');
  }

  /** Creating the group when missing and then pushing is one update. */
  lemma PushIntoGroup(groups: map<string, seq<RiskItem>>, before: map<string, seq<RiskItem>>, r: RiskItem,
                      after: map<string, seq<RiskItem>>)
    requires before == if r.category in groups then groups else groups[r.category := []]
    requires after == before[r.category := before[r.category] + [r]]
    ensures after == if r.category in groups then groups[r.category := groups[r.category] + [r]]
                     else groups[r.category := [r]]
  {
    assert [] + [r] == [r];
  }

  /** The category joins the order when it is new. */
  lemma StepOrder(seen: seq<RiskItem>, r: RiskItem, order: seq<string>)
    requires order == Dedup(CategoriesOf(seen))
    ensures (if r.category in CategoriesOf(seen) then order else order + [r.category]) == Dedup(CategoriesOf(seen + [r]))
  {
    CategoriesSnoc(seen, r);
    DedupSnoc(CategoriesOf(seen), r.category);
  }

  lemma StepKeys(seen: seq<RiskItem>, r: RiskItem, groups: map<string, seq<RiskItem>>, groups': map<string, seq<RiskItem>>)
    requires forall c :: c in groups <==> c in CategoriesOf(seen)
    requires groups'.Keys == groups.Keys + {r.category}
    ensures forall c :: c in groups' <==> c in CategoriesOf(seen + [r])
  {
    CategoriesSnoc(seen, r);
    forall d ensures d in groups' <==> d in CategoriesOf(seen + [r]) {
      assert d in CategoriesOf(seen + [r]) <==> d in CategoriesOf(seen) || d == r.category;
    }
  }

  lemma StepValues(seen: seq<RiskItem>, r: RiskItem, groups: map<string, seq<RiskItem>>, groups': map<string, seq<RiskItem>>)
    requires forall c :: c in groups <==> c in CategoriesOf(seen)
    requires forall c :: c in groups ==> groups[c] == InCategory(seen, c)
    requires groups' == if r.category in groups then groups[r.category := groups[r.category] + [r]]
                        else groups[r.category := [r]]
    ensures forall c :: c in groups' ==> groups'[c] == InCategory(seen + [r], c)
  {
    forall d | d in groups' ensures groups'[d] == InCategory(seen + [r], d) {
      InCategorySnoc(seen, r, d);
      if d == r.category && d !in groups {
        InCategoryAbsent(seen, d);
      }
    }
  }

  /** A category that does not occur has an empty group. */
  lemma {:induction false} InCategoryAbsent(risks: seq<RiskItem>, c: string)
    requires c !in CategoriesOf(risks)
    ensures InCategory(risks, c) == []
    decreases |risks|
  {
    if risks != [] {
      var init := risks[..|risks| - 1];
      assert c != CategoriesOf(risks)[|risks| - 1];
      assert c !in CategoriesOf(init) by {
        forall k | 0 <= k < |init| ensures CategoriesOf(init)[k] != c {
          assert CategoriesOf(init)[k] == CategoriesOf(risks)[k];
        }
      }
      InCategoryAbsent(init, c);
    }
  }

  lemma CategoriesSnoc(seen: seq<RiskItem>, r: RiskItem)
    ensures CategoriesOf(seen + [r]) == CategoriesOf(seen) + [r.category]
  {
  }

  lemma InCategorySnoc(seen: seq<RiskItem>, r: RiskItem, c: string)
    ensures InCategory(seen + [r], c) == InCategory(seen, c) + (if r.category == c then [r] else [])
  {
    assert (seen + [r])[..|seen|] == seen;
  }

  // ---- the memo context ----

  /** `- description`, then ` [severity]` when a severity is given. */
  function RiskLine(r: RiskItem): string {
    "- " + r.description + (if r.severity.Some? then " [" + SeverityName(r.severity.value) + "]" else "")
  }

  /** The severity appears on the line exactly when it is given. */
  lemma RiskLineSeverity(r: RiskItem)
    ensures r.severity.None? ==> RiskLine(r) == "- " + r.description
    ensures r.severity.Some? ==> EndsWith(RiskLine(r), " [" + SeverityName(r.severity.value) + "]")
  {
    if r.severity.Some? {
      var tail := " [" + SeverityName(r.severity.value) + "]";
      assert RiskLine(r) == ("- " + r.description) + tail;
    }
  }

  function RiskLines(rs: seq<RiskItem>): (r: seq<string>)
    ensures |r| == |rs|
    ensures forall i :: 0 <= i < |rs| ==> r[i] == RiskLine(rs[i])
  {
    seq(|rs|, i requires 0 <= i < |rs| => RiskLine(rs[i]))
  }

  /** The upper-cased category, a colon, then one line per risk. */
  function RiskBlock(category: string, rs: seq<RiskItem>): (r: string)
    ensures StartsWith(r, ToUpper(category) + ":\n")
  {
    var head := ToUpper(category) + ":\n";
    assert (head + Join(RiskLines(rs), "\n"))[..|head|] == head;
    head + Join(RiskLines(rs), "\n")
  }

  /** One block per distinct category, in first-occurrence order. */
  function RiskBlocks(risks: seq<RiskItem>): (r: seq<string>)
    ensures |r| == |Dedup(CategoriesOf(risks))|
  {
    var cats := Dedup(CategoriesOf(risks));
    seq(|cats|, j requires 0 <= j < |cats| => RiskBlock(cats[j], InCategory(risks, cats[j])))
  }

  /** The blocks follow the first occurrences of the categories, and each
      block lists exactly the risks of its category, in order. */
  lemma RiskBlocksOrder(risks: seq<RiskItem>, j: nat)
    requires j < |RiskBlocks(risks)|
    ensures var cats := Dedup(CategoriesOf(risks));
      InFirstOrder(cats, CategoriesOf(risks)) && cats[j] in CategoriesOf(risks) &&
      RiskBlocks(risks)[j] == RiskBlock(cats[j], InCategory(risks, cats[j]))
  {
    DedupOrder(CategoriesOf(risks));
  }

  /** `team.size || 'Not specified'` and the optional expertise line. */
  function TeamMemberEntry(m: TeamMember): string {
    "- " + m.name + " (" + m.role + ")" + (if Truthy(m.background) then ": " + m.background.value else "") +
    "\n  Strengths: " + Join(m.strengths, ", ")
  }

  function TeamMemberEntries(ms: seq<TeamMember>): (r: seq<string>)
    ensures |r| == |ms|
    ensures forall i :: 0 <= i < |ms| ==> r[i] == TeamMemberEntry(ms[i])
  {
    seq(|ms|, i requires 0 <= i < |ms| => TeamMemberEntry(ms[i]))
  }

  /** A line that is printed only when the optional text is truthy; it
      stays as an empty line otherwise. */
  function OptionalLine(caption: string, o: Option<string>): (r: string)
    ensures Truthy(o) ==> r == caption + o.value
    ensures !Truthy(o) ==> r == ""
  {
    if Truthy(o) then caption + o.value else ""
  }

  function MetricEntry(m: TractionMetric): string {
    "- " + m.metric + ": " + m.value + (if Truthy(m.trend) then " (" + m.trend.value + ")" else "") +
    (if Truthy(m.timeframe) then " [" + m.timeframe.value + "]" else "")
  }

  function PartnershipEntry(p: Partnership): string {
    "- " + p.name + " (" + p.kind + ")" + (if Truthy(p.details) then ": " + p.details.value else "")
  }

  function RivalEntry(c: Rival): string {
    "- " + c.name + (if Truthy(c.description) then ": " + c.description.value else "") +
    (if Truthy(c.differentiation) then " | Differentiation: " + c.differentiation.value else "")
  }

  function RoundEntry(r: FundingRound): string {
    "- " + r.kind + (if Truthy(r.amount) then ": " + r.amount.value else "") +
    (if r.investors.Some? && |r.investors.value| > 0 then " from " + Join(r.investors.value, ", ") else "") +
    (if Truthy(r.date) then " (" + r.date.value + ")" else "")
  }

  function MetricEntries(ms: seq<TractionMetric>): seq<string> {
    seq(|ms|, i requires 0 <= i < |ms| => MetricEntry(ms[i]))
  }

  function PartnershipEntries(ps: seq<Partnership>): seq<string> {
    seq(|ps|, i requires 0 <= i < |ps| => PartnershipEntry(ps[i]))
  }

  function RivalEntries(cs: seq<Rival>): seq<string> {
    seq(|cs|, i requires 0 <= i < |cs| => RivalEntry(cs[i]))
  }

  function RoundEntries(rs: seq<FundingRound>): seq<string> {
    seq(|rs|, i requires 0 <= i < |rs| => RoundEntry(rs[i]))
  }

  /** `Monetization: …` only for a non-empty list. */
  function MonetizationLine(m: Option<seq<string>>): (r: string)
    ensures (m.None? || m.value == []) ==> r == ""
    ensures m.Some? && m.value != [] ==> r == "Monetization: " + Join(m.value, ", ")
  {
    if m.Some? && |m.value| > 0 then "Monetization: " + Join(m.value, ", ") else ""
  }

  const StartupLabel: string := "**Startup:** "
  const ProblemHeading: string := "**PROBLEM:**"
  const SolutionHeading: string := "**SOLUTION:**"
  const ValuePropHeading: string := "**VALUE PROPOSITION:**"
  const TeamHeading: string := "**TEAM:**"
  const TractionHeading: string := "**TRACTION:**"
  const CompetitionHeading: string := "**COMPETITION:**"
  const FundingHeading: string := "**FUNDING:**"
  const BusinessModelHeading: string := "**BUSINESS MODEL:**"
  const RisksHeading: string := "**RISKS:**"
  const MissingHeading: string := "**MISSING INFORMATION:**"

  /** The URL and the analysis date as `toLocaleDateString` prints it;
      the locale formatting is a parameter. */
  function BasicSection(fa: StartupAnalysis, localeDate: string -> string): string {
    Section(StartupLabel + fa.url, ["**Analyzed:** " + localeDate(fa.analyzed_at)])
  }

  function ProblemSection(p: Problem): string {
    Section(ProblemHeading, [p.one_liner, p.details, "Target users: " + p.target_users,
                             "Pain points: " + Join(p.pain_points, ", ")])
  }

  function SolutionSection(s: Solution): string {
    Section(SolutionHeading, [s.one_liner, s.details, "Features: " + Join(s.features, ", ")])
  }

  function ValuePropSection(v: ValueProposition): string {
    Section(ValuePropHeading, [v.summary, "Benefits: " + Join(v.key_benefits, ", ")])
  }

  function TeamSection(t: Team): string {
    Section(TeamHeading, ["Size: " + Or(t.size, "Not specified"), "Key members:",
                          Join(TeamMemberEntries(t.members), "\n"),
                          OptionalLine("Collective expertise: ", t.collective_expertise)])
  }

  function TractionSection(t: Traction): string {
    Section(TractionHeading, ["Metrics:", Join(MetricEntries(t.metrics), "\n"),
                              "Partnerships:", Join(PartnershipEntries(t.partnerships), "\n"),
                              "Milestones:", Join(Prefixed("- ", t.milestones), "\n")])
  }

  function CompetitionSection(c: Competition): string {
    Section(CompetitionHeading, ["Positioning: " + c.positioning, "Competitors:",
                                 Join(RivalEntries(c.competitors), "\n"), OptionalLine("Notes: ", c.notes)])
  }

  function FundingSection(f: Funding): string {
    Section(FundingHeading, ["Status: " + f.status, "Rounds:", Join(RoundEntries(f.rounds), "\n"),
                             OptionalLine("Notes: ", f.notes)])
  }

  function BusinessModelSection(bm: BusinessModel): string {
    Section(BusinessModelHeading, [Or(bm.summary, "Not clearly defined"), MonetizationLine(bm.monetization)])
  }

  function RisksSection(risks: seq<RiskItem>): string {
    Section(RisksHeading, [Join(RiskBlocks(risks), "\n\n")])
  }

  function MissingSection(missing: seq<string>): string {
    Section(MissingHeading, [Join(Prefixed("- ", missing), "\n")])
  }

  /** The eleven sections, in push order. */
  function MemoSections(fa: StartupAnalysis, localeDate: string -> string): (r: seq<string>)
    ensures |r| == 11
  {
    [BasicSection(fa, localeDate), ProblemSection(fa.problem), SolutionSection(fa.solution),
     ValuePropSection(fa.value_proposition), TeamSection(fa.team), TractionSection(fa.traction),
     CompetitionSection(fa.competition), FundingSection(fa.funding), BusinessModelSection(fa.business_model),
     RisksSection(fa.risks), MissingSection(fa.missing_info)]
  }

  /** The headings the sections open with, in order. */
  function MemoHeadings(fa: StartupAnalysis): (r: seq<string>)
    ensures |r| == 11
  {
    [StartupLabel + fa.url, ProblemHeading, SolutionHeading, ValuePropHeading, TeamHeading, TractionHeading,
     CompetitionHeading, FundingHeading, BusinessModelHeading, RisksHeading, MissingHeading]
  }

  /** Every section is printed, each under its own heading. */
  lemma MemoSectionHeadings(fa: StartupAnalysis, localeDate: string -> string, i: nat)
    requires i < 11
    ensures StartsWith(MemoSections(fa, localeDate)[i], MemoHeadings(fa)[i])
  {
  }

  /** What the builder answers without an analysis. */
  const NoAnalysis: string := "No analysis available"

  /** `buildMemoContext` as a value: the fallback text, the joined
      sections, or the TypeError the grouping throws. */
  function MemoContext(fa: Option<StartupAnalysis>, localeDate: string -> string): (r: Call<string>)
    ensures fa.None? ==> r == Returns(NoAnalysis)
    ensures fa.Some? ==> (r.Returns? <==> Groupable(fa.value.risks))
  {
    if fa.None? then Returns(NoAnalysis)
    else if !Groupable(fa.value.risks) then Throws(ErrorObject(PushTypeError))
    else Returns(Join(MemoSections(fa.value, localeDate), "\n\n"))
  }

  /** `buildMemoContext`: the first nine pushes, the grouping reduce,
      the risk and missing-information pushes, then the join. */
  method BuildMemoContext(state: StartupState, localeDate: string -> string) returns (r: Call<string>)
    ensures r == MemoContext(state.final_analysis, localeDate)
  {
    if state.final_analysis.None? {
      return Returns(NoAnalysis);
    }
    var fa := state.final_analysis.value;
    var sections: seq<string> := [];
    sections := sections + [BasicSection(fa, localeDate)];
    assert sections == [BasicSection(fa, localeDate)];
    sections := sections + [ProblemSection(fa.problem)];
    sections := sections + [SolutionSection(fa.solution)];
    sections := sections + [ValuePropSection(fa.value_proposition)];
    sections := sections + [TeamSection(fa.team)];
    sections := sections + [TractionSection(fa.traction)];
    sections := sections + [CompetitionSection(fa.competition)];
    sections := sections + [FundingSection(fa.funding)];
    sections := sections + [BusinessModelSection(fa.business_model)];
    var risksSection := BuildRisksSection(fa.risks);
    if risksSection.Throws? {
      return risksSection;
    }
    sections := sections + [risksSection.value];
    sections := sections + [MissingSection(fa.missing_info)];
    assert sections == MemoSections(fa, localeDate);
    r := Returns(Join(sections, "\n\n"));
  }

  /** The grouping reduce and the risks push: the section, or the
      TypeError the reduce throws. */
  method BuildRisksSection(risks: seq<RiskItem>) returns (r: Call<string>)
    ensures Groupable(risks) ==> r == Returns(RisksSection(risks))
    ensures !Groupable(risks) ==> r == Throws(ErrorObject(PushTypeError))
  {
    var g := GroupRisks(risks);
    if g.PushFailed? {
      return Throws(ErrorObject(PushTypeError));
    }
    var blocks := RenderBlocks(risks, g);
    r := Returns(Section(RisksHeading, [Join(blocks, "\n\n")]));
  }

  /** `Object.entries(risksByCategory).map(…)`: one block per entry. */
  method RenderBlocks(risks: seq<RiskItem>, g: Grouping) returns (blocks: seq<string>)
    requires g.Grouped? && GroupedAs(risks, g.order, g.groups)
    ensures blocks == RiskBlocks(risks)
  {
    var order := g.order;
    forall j | 0 <= j < |order| ensures order[j] in g.groups {
      assert order[j] in order;
    }
    blocks := seq(|order|, j requires 0 <= j < |order| && order[j] in g.groups => RiskBlock(order[j], g.groups[order[j]]));
  }

  // ---- the node ----

  /** What the guard throws, and the prefix the catch branch adds. */
  const MissingAnalysisMessage: string := "Final analysis required for memo generation"
  const FailurePrefix: string := "Failed to generate memo: "

  /** `investmentMemo`, with the date formatting and the writing model as
      parameters; the model receives the rendered context. */
  function InvestmentMemo(s: StartupState, localeDate: string -> string, write: string -> Call<string>): (u: Update)
    ensures u == NoUpdate.(memo := u.memo, errors := u.errors) && u.memo.Set?
    ensures u.memo.value.Some? <==>
      s.final_analysis.Some? && MemoContext(s.final_analysis, localeDate).Returns?
      && write(MemoContext(s.final_analysis, localeDate).value).Returns?
    ensures u.memo.value.Some? ==> u.errors.Keep?
    ensures u.memo.value.None? ==> u.errors.Set? && OneMoreError(s.errors, u.errors.value, FailurePrefix)
  {
    if s.final_analysis.None? then
      OneMoreErrorOf(s.errors, FailurePrefix, Describe(ErrorObject(MissingAnalysisMessage)));
      NoUpdate.(memo := Set(None), errors := Set(s.errors + [FailurePrefix + Describe(ErrorObject(MissingAnalysisMessage))]))
    else
      match MemoContext(s.final_analysis, localeDate)
      case Throws(err) =>
        OneMoreErrorOf(s.errors, FailurePrefix, Describe(err));
        NoUpdate.(memo := Set(None), errors := Set(s.errors + [FailurePrefix + Describe(err)]))
      case Returns(context) =>
        match write(context)
        case Returns(text) => NoUpdate.(memo := Set(Some(text)))
        case Throws(err) =>
          OneMoreErrorOf(s.errors, FailurePrefix, Describe(err));
          NoUpdate.(memo := Set(None), errors := Set(s.errors + [FailurePrefix + Describe(err)]))
  }

  /** After the graph merges the node's update: the memo is set exactly
      when there is an analysis whose risks can be grouped and the model
      returns; success keeps the errors, every failure repeats the
      earlier errors before its message. Nothing else changes. */
  lemma InvestmentMemoMerged(s: StartupState, localeDate: string -> string, write: string -> Call<string>)
    ensures var r := GraphBuilder.MergeState(s, InvestmentMemo(s, localeDate, write));
      var ctx := MemoContext(s.final_analysis, localeDate);
      var ready := s.final_analysis.Some? && Groupable(s.final_analysis.value.risks);
      (r.memo.Some? <==> ready && write(ctx.value).Returns?) &&
      (r.memo.Some? ==> r.memo.value == write(ctx.value).value && r.errors == s.errors) &&
      (s.final_analysis.None? ==> r.errors == s.errors + s.errors + [FailurePrefix + MissingAnalysisMessage]) &&
      (s.final_analysis.Some? && !ready ==> r.errors == s.errors + s.errors + [FailurePrefix + PushTypeError]) &&
      (ready && write(ctx.value).Throws? ==>
         r.errors == s.errors + s.errors + [FailurePrefix + Describe(write(ctx.value).error)]) &&
      r == s.(memo := r.memo, errors := r.errors)
  {
    var u := InvestmentMemo(s, localeDate, write);
    var ctx := MemoContext(s.final_analysis, localeDate);
    if s.final_analysis.None? {
      GraphBuilder.CatchBranchDuplicates(s, u, FailurePrefix + MissingAnalysisMessage);
    } else if ctx.Throws? {
      GraphBuilder.CatchBranchDuplicates(s, u, FailurePrefix + PushTypeError);
    } else if write(ctx.value).Throws? {
      GraphBuilder.CatchBranchDuplicates(s, u, FailurePrefix + Describe(write(ctx.value).error));
    }
  }
}
