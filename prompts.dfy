/** The conditional section of private context that the traction, market
    and team prompts append to the website text. The prose around the
    data differs per prompt, so it is given as `head` and `tail`. */
module ExtraContext {
  import opened Js

  /** The section is written only when the structured data is a non-empty
      string other than "{}". */
  predicate HasExtraContext(data: Option<string>) {
    Truthy(data) && data.value != "{}"
  }

  function ExtraContextSection(data: Option<string>, head: string, tail: string): string
  {
    if HasExtraContext(data) then head + data.value + tail else ""
  }

  /** The section is empty exactly when there is no usable data, and
      otherwise holds the data verbatim between its head and its tail. */
  lemma ExtraContextSectionCases(data: Option<string>, head: string, tail: string)
    ensures ExtraContextSection(data, head, tail) == "" <==> !HasExtraContext(data)
    ensures HasExtraContext(data) ==>
      var r := ExtraContextSection(data, head, tail);
      StartsWith(r, head) && EndsWith(r, tail) && r[|head|..|r| - |tail|] == data.value
  {
    if HasExtraContext(data) {
      var r := head + data.value + tail;
      assert |r| > 0;
      assert r[..|head|] == head;
      assert r[|r| - |tail|..] == tail;
      assert r[|head|..|r| - |tail|] == data.value;
    }
  }

  /** The website text handed to the prompt: the page text with the
      section right after it. */
  function WebsiteTextWithContext(websiteText: string, data: Option<string>, head: string, tail: string): (r: string)
    ensures StartsWith(r, websiteText)
    ensures !HasExtraContext(data) ==> r == websiteText
  {
    var r := websiteText + ExtraContextSection(data, head, tail);
    assert r[..|websiteText|] == websiteText;
    r
  }
}

/** `formatExtraContextPrompt`: one placeholder, with a default text for
    an empty context. */
module ExtraContextPrompt {
  import opened Js
  import opened PromptTemplate

  const NoContext := "No additional context provided."

  function FormatExtraContextPrompt(template: string, extraContext: string): (r: string)
    ensures !Contains(template, "{{") ==> r == template
  {
    NoOpenNoPlaceholder(template, "extra_context");
    ReplaceFirst(template, Placeholder("extra_context"), Or(Some(extraContext), NoContext))
  }

  /** The default text holds no `$` at all, so it is inserted verbatim. */
  lemma NoContextIsLiteral()
    ensures NoDollarPattern(NoContext)
  {
    forall i | 0 <= i < |NoContext| ensures NoContext[i] != '$' {
    }
  }

  /** A template with one `{{extra_context}}` slot gets the context, or
      the default text when the context is empty, in that slot. */
  lemma FormatExtraContextFills(pre: string, post: string, extraContext: string)
    requires BraceSafe(pre) && BraceSafe(post)
    requires NoDollarPattern(extraContext)
    ensures extraContext != "" ==>
      FormatExtraContextPrompt(pre + Placeholder("extra_context") + post, extraContext)
        == pre + extraContext + post
    ensures extraContext == "" ==>
      FormatExtraContextPrompt(pre + Placeholder("extra_context") + post, extraContext)
        == pre + NoContext + post
  {
    NoContextIsLiteral();
    var name := "extra_context";
    assert Identifier(name);
    IdentifierBraceFree(name);
    FillOneSlot(pre, post, name, Or(Some(extraContext), NoContext));
  }
}

/** `formatProblemSolutionPrompt`. */
module ProblemSolutionPrompt {
  import opened Js
  import opened PromptTemplate

  function Pairs(startupName: string, startupUrl: string, websiteText: string): (r: seq<(string, string)>)
    ensures Names(r) == ["startup_name", "startup_url", "website_text"]
  {
    [("startup_name", startupName), ("startup_url", startupUrl), ("website_text", websiteText)]
  }

  function FormatProblemSolutionPrompt(template: string, startupName: string, startupUrl: string,
                                       websiteText: string): (r: string)
    ensures !Contains(template, "{{") ==> r == template
  {
    ReplaceAll(template, Pairs(startupName, startupUrl, websiteText))
  }

  /** Every placeholder's slot receives its value verbatim, the rest of the
      template is kept, and when the template has no other slots no
      placeholder is left. */
  lemma FormatProblemSolutionFills(ps: seq<Piece>, startupName: string, startupUrl: string, websiteText: string)
    requires SafePieces(ps) && UniqueSlots(ps)
    requires SafeTexts([startupName, startupUrl, websiteText])
    ensures var pairs := Pairs(startupName, startupUrl, websiteText);
      FormatProblemSolutionPrompt(Render(ps), startupName, startupUrl, websiteText) == Render(Subst(ps, pairs))
      && (Covers(ps, pairs) ==> !Contains(FormatProblemSolutionPrompt(Render(ps), startupName, startupUrl, websiteText), "{{"))
  {
    var pairs := Pairs(startupName, startupUrl, websiteText);
    assert Values(pairs) == [startupName, startupUrl, websiteText];
    NamesBraceFree();
    SafeValuesOfParts(pairs);
    ReplaceAllFills(ps, pairs);
    if Covers(ps, pairs) {
      ReplaceAllLeavesNoPlaceholder(ps, pairs);
    }
  }

  lemma NamesBraceFree()
    ensures forall k :: 0 <= k < 3 ==> BraceFree(["startup_name", "startup_url", "website_text"][k])
  {
    assert BraceFree("startup_name") && BraceFree("startup_url") && BraceFree("website_text");
  }
}

/** `formatCompetitionPrompt`: eleven placeholders, replaced in order. */
module CompetitionPrompt {
  import opened Js
  import opened PromptTemplate

  datatype CompetitionPromptParams = CompetitionPromptParams(
    startup_name: string,
    startup_url: string,
    problem_general: string,
    problem_example: string,
    solution_what: string,
    solution_how: string,
    solution_example: string,
    product_type: string,
    sector: string,
    subsector: string,
    active_locations: string)

  const PlaceholderNames: seq<string> := [
    "startup_name", "startup_url", "problem_general", "problem_example", "solution_what",
    "solution_how", "solution_example", "product_type", "sector", "subsector", "active_locations"]

  function Pairs(p: CompetitionPromptParams): (r: seq<(string, string)>)
    ensures Names(r) == PlaceholderNames
  {
    [ ("startup_name", p.startup_name), ("startup_url", p.startup_url),
      ("problem_general", p.problem_general), ("problem_example", p.problem_example),
      ("solution_what", p.solution_what), ("solution_how", p.solution_how),
      ("solution_example", p.solution_example), ("product_type", p.product_type),
      ("sector", p.sector), ("subsector", p.subsector), ("active_locations", p.active_locations) ]
  }

  function FormatCompetitionPrompt(template: string, p: CompetitionPromptParams): (r: string)
    ensures !Contains(template, "{{") ==> r == template
  {
    ReplaceAll(template, Pairs(p))
  }

  /** Every placeholder's slot receives its parameter verbatim, the rest of
      the template is kept, and no placeholder is left when the template
      has no other slots. */
  lemma FormatCompetitionFills(ps: seq<Piece>, p: CompetitionPromptParams)
    requires SafePieces(ps) && UniqueSlots(ps)
    requires SafeTexts(Values(Pairs(p)))
    ensures FormatCompetitionPrompt(Render(ps), p) == Render(Subst(ps, Pairs(p)))
    ensures Covers(ps, Pairs(p)) ==> !Contains(FormatCompetitionPrompt(Render(ps), p), "{{")
  {
    NamesBraceFree();
    SafeValuesOfParts(Pairs(p));
    ReplaceAllFills(ps, Pairs(p));
    if Covers(ps, Pairs(p)) {
      ReplaceAllLeavesNoPlaceholder(ps, Pairs(p));
    }
  }

  lemma NamesBraceFree()
    ensures forall k :: 0 <= k < |PlaceholderNames| ==> BraceFree(PlaceholderNames[k])
  {
    forall k | 0 <= k < |PlaceholderNames| ensures BraceFree(PlaceholderNames[k]) {
      IdentifierBraceFree(PlaceholderNames[k]);
    }
  }
}

/** `formatTractionPrompt`: seven placeholders, then the website text
    with the private-context section appended. */
module TractionPrompt {
  import opened Js
  import opened PromptTemplate
  import opened ExtraContext

  datatype TractionPromptParams = TractionPromptParams(
    startup_name: string,
    startup_url: string,
    sector: string,
    subsector: string,
    problem_general: string,
    solution_what: string,
    product_type: string,
    website_text: string,
    extra_context_data: Option<string>)

  const PlaceholderNames: seq<string> := [
    "startup_name", "startup_url", "sector", "subsector", "problem_general", "solution_what",
    "product_type", "website_text"]

  /** The replacements in order; `head` and `tail` are the prose of the
      private-context section. */
  function Pairs(p: TractionPromptParams, head: string, tail: string): (r: seq<(string, string)>)
    ensures Names(r) == PlaceholderNames
    ensures r[7].1 == WebsiteTextWithContext(p.website_text, p.extra_context_data, head, tail)
  {
    [ ("startup_name", p.startup_name), ("startup_url", p.startup_url),
      ("sector", p.sector), ("subsector", p.subsector),
      ("problem_general", p.problem_general), ("solution_what", p.solution_what),
      ("product_type", p.product_type),
      ("website_text", WebsiteTextWithContext(p.website_text, p.extra_context_data, head, tail)) ]
  }

  function FormatTractionPrompt(template: string, p: TractionPromptParams, head: string, tail: string): (r: string)
    ensures !Contains(template, "{{") ==> r == template
  {
    ReplaceAll(template, Pairs(p, head, tail))
  }

  /** The `{{website_text}}` slot receives the page text followed by the
      private-context section. */
  lemma TractionWebsiteSlot(ps: seq<Piece>, p: TractionPromptParams, head: string, tail: string)
    ensures forall i :: 0 <= i < |ps| && ps[i] == Slot("website_text") ==>
      Subst(ps, Pairs(p, head, tail))[i]
        == Lit(WebsiteTextWithContext(p.website_text, p.extra_context_data, head, tail))
  {
    var pairs := Pairs(p, head, tail);
    assert forall j :: 0 <= j < 7 ==> pairs[j].0 != pairs[7].0 by {
      assert Names(pairs) == PlaceholderNames;
      forall j | 0 <= j < 7 ensures pairs[j].0 != pairs[7].0 {
        assert pairs[j].0 == PlaceholderNames[j] && pairs[7].0 == PlaceholderNames[7];
      }
    }
    LookupFirst(pairs, 7);
  }

  /** Every placeholder's slot receives its parameter verbatim (the
      `{{website_text}}` slot the value TractionWebsiteSlot gives it), the rest of
      the template is kept, and no placeholder is left when every slot of
      the template has a parameter. */
  lemma FormatTractionFills(ps: seq<Piece>, p: TractionPromptParams, head: string, tail: string)
    requires SafePieces(ps) && UniqueSlots(ps)
    requires SafeTexts(Values(Pairs(p, head, tail)))
    ensures FormatTractionPrompt(Render(ps), p, head, tail) == Render(Subst(ps, Pairs(p, head, tail)))
    ensures Covers(ps, Pairs(p, head, tail)) ==> !Contains(FormatTractionPrompt(Render(ps), p, head, tail), "{{")
  {
    NamesBraceFree();
    SafeValuesOfParts(Pairs(p, head, tail));
    ReplaceAllFills(ps, Pairs(p, head, tail));
    if Covers(ps, Pairs(p, head, tail)) {
      ReplaceAllLeavesNoPlaceholder(ps, Pairs(p, head, tail));
    }
  }

  lemma NamesBraceFree()
    ensures forall k :: 0 <= k < |PlaceholderNames| ==> BraceFree(PlaceholderNames[k])
  {
    forall k | 0 <= k < |PlaceholderNames| ensures BraceFree(PlaceholderNames[k]) {
      IdentifierBraceFree(PlaceholderNames[k]);
    }
  }
}

/** `formatMarketPrompt`: as the traction prompt, with the active
    locations replaced before the website text. */
module MarketPrompt {
  import opened Js
  import opened PromptTemplate
  import opened ExtraContext

  datatype MarketPromptParams = MarketPromptParams(
    startup_name: string,
    startup_url: string,
    sector: string,
    subsector: string,
    problem_general: string,
    solution_what: string,
    product_type: string,
    active_locations: string,
    website_text: string,
    extra_context_data: Option<string>)

  const PlaceholderNames: seq<string> := [
    "startup_name", "startup_url", "sector", "subsector", "problem_general", "solution_what",
    "product_type", "active_locations", "website_text"]

  function Pairs(p: MarketPromptParams, head: string, tail: string): (r: seq<(string, string)>)
    ensures Names(r) == PlaceholderNames
    ensures r[8].1 == WebsiteTextWithContext(p.website_text, p.extra_context_data, head, tail)
  {
    [ ("startup_name", p.startup_name), ("startup_url", p.startup_url),
      ("sector", p.sector), ("subsector", p.subsector),
      ("problem_general", p.problem_general), ("solution_what", p.solution_what),
      ("product_type", p.product_type), ("active_locations", p.active_locations),
      ("website_text", WebsiteTextWithContext(p.website_text, p.extra_context_data, head, tail)) ]
  }

  function FormatMarketPrompt(template: string, p: MarketPromptParams, head: string, tail: string): (r: string)
    ensures !Contains(template, "{{") ==> r == template
  {
    ReplaceAll(template, Pairs(p, head, tail))
  }

  /** The `{{website_text}}` slot receives the page text followed by the
      private-context section. */
  lemma MarketWebsiteSlot(ps: seq<Piece>, p: MarketPromptParams, head: string, tail: string)
    ensures forall i :: 0 <= i < |ps| && ps[i] == Slot("website_text") ==>
      Subst(ps, Pairs(p, head, tail))[i]
        == Lit(WebsiteTextWithContext(p.website_text, p.extra_context_data, head, tail))
  {
    var pairs := Pairs(p, head, tail);
    assert forall j :: 0 <= j < 8 ==> pairs[j].0 != pairs[8].0 by {
      assert Names(pairs) == PlaceholderNames;
      forall j | 0 <= j < 8 ensures pairs[j].0 != pairs[8].0 {
        assert pairs[j].0 == PlaceholderNames[j] && pairs[8].0 == PlaceholderNames[8];
      }
    }
    LookupFirst(pairs, 8);
  }

  /** Every placeholder's slot receives its parameter verbatim (the
      `{{website_text}}` slot the value MarketWebsiteSlot gives it), the rest of
      the template is kept, and no placeholder is left when every slot of
      the template has a parameter. */
  lemma FormatMarketFills(ps: seq<Piece>, p: MarketPromptParams, head: string, tail: string)
    requires SafePieces(ps) && UniqueSlots(ps)
    requires SafeTexts(Values(Pairs(p, head, tail)))
    ensures FormatMarketPrompt(Render(ps), p, head, tail) == Render(Subst(ps, Pairs(p, head, tail)))
    ensures Covers(ps, Pairs(p, head, tail)) ==> !Contains(FormatMarketPrompt(Render(ps), p, head, tail), "{{")
  {
    NamesBraceFree();
    SafeValuesOfParts(Pairs(p, head, tail));
    ReplaceAllFills(ps, Pairs(p, head, tail));
    if Covers(ps, Pairs(p, head, tail)) {
      ReplaceAllLeavesNoPlaceholder(ps, Pairs(p, head, tail));
    }
  }

  lemma NamesBraceFree()
    ensures forall k :: 0 <= k < |PlaceholderNames| ==> BraceFree(PlaceholderNames[k])
  {
    forall k | 0 <= k < |PlaceholderNames| ensures BraceFree(PlaceholderNames[k]) {
      IdentifierBraceFree(PlaceholderNames[k]);
    }
  }
}

/** `formatTeamPrompt`: six placeholders, then the website text with the
    private-context section appended. */
module TeamPrompt {
  import opened Js
  import opened PromptTemplate
  import opened ExtraContext

  datatype TeamPromptParams = TeamPromptParams(
    startup_name: string,
    startup_url: string,
    sector: string,
    subsector: string,
    problem_general: string,
    solution_what: string,
    website_text: string,
    extra_context_data: Option<string>)

  const PlaceholderNames: seq<string> := [
    "startup_name", "startup_url", "sector", "subsector", "problem_general", "solution_what",
    "website_text"]

  function Pairs(p: TeamPromptParams, head: string, tail: string): (r: seq<(string, string)>)
    ensures Names(r) == PlaceholderNames
    ensures r[6].1 == WebsiteTextWithContext(p.website_text, p.extra_context_data, head, tail)
  {
    [ ("startup_name", p.startup_name), ("startup_url", p.startup_url),
      ("sector", p.sector), ("subsector", p.subsector),
      ("problem_general", p.problem_general), ("solution_what", p.solution_what),
      ("website_text", WebsiteTextWithContext(p.website_text, p.extra_context_data, head, tail)) ]
  }

  function FormatTeamPrompt(template: string, p: TeamPromptParams, head: string, tail: string): (r: string)
    ensures !Contains(template, "{{") ==> r == template
  {
    ReplaceAll(template, Pairs(p, head, tail))
  }

  /** The `{{website_text}}` slot receives the page text followed by the
      private-context section. */
  lemma TeamWebsiteSlot(ps: seq<Piece>, p: TeamPromptParams, head: string, tail: string)
    ensures forall i :: 0 <= i < |ps| && ps[i] == Slot("website_text") ==>
      Subst(ps, Pairs(p, head, tail))[i]
        == Lit(WebsiteTextWithContext(p.website_text, p.extra_context_data, head, tail))
  {
    var pairs := Pairs(p, head, tail);
    assert forall j :: 0 <= j < 6 ==> pairs[j].0 != pairs[6].0 by {
      assert Names(pairs) == PlaceholderNames;
      forall j | 0 <= j < 6 ensures pairs[j].0 != pairs[6].0 {
        assert pairs[j].0 == PlaceholderNames[j] && pairs[6].0 == PlaceholderNames[6];
      }
    }
    LookupFirst(pairs, 6);
  }

  /** Every placeholder's slot receives its parameter verbatim (the
      `{{website_text}}` slot the value TeamWebsiteSlot gives it), the rest of
      the template is kept, and no placeholder is left when every slot of
      the template has a parameter. */
  lemma FormatTeamFills(ps: seq<Piece>, p: TeamPromptParams, head: string, tail: string)
    requires SafePieces(ps) && UniqueSlots(ps)
    requires SafeTexts(Values(Pairs(p, head, tail)))
    ensures FormatTeamPrompt(Render(ps), p, head, tail) == Render(Subst(ps, Pairs(p, head, tail)))
    ensures Covers(ps, Pairs(p, head, tail)) ==> !Contains(FormatTeamPrompt(Render(ps), p, head, tail), "{{")
  {
    NamesBraceFree();
    SafeValuesOfParts(Pairs(p, head, tail));
    ReplaceAllFills(ps, Pairs(p, head, tail));
    if Covers(ps, Pairs(p, head, tail)) {
      ReplaceAllLeavesNoPlaceholder(ps, Pairs(p, head, tail));
    }
  }

  lemma NamesBraceFree()
    ensures forall k :: 0 <= k < |PlaceholderNames| ==> BraceFree(PlaceholderNames[k])
  {
    forall k | 0 <= k < |PlaceholderNames| ensures BraceFree(PlaceholderNames[k]) {
      IdentifierBraceFree(PlaceholderNames[k]);
    }
  }
}
