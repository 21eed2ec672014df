/** The four-node analysis run: fetch the homepage text, ask the model
    for the problem and solution, fill in defaults, then ask the model
    for competitors and keep the well-formed ones. Each node writes the
    shared state object in place. The page fetch and the two model
    calls (with their JSON parsing) are parameters. */
module AnalysisGraph {
  import opened Js
  import opened Collections
  import opened AnalysisSchema
  import ProblemSolutionPrompt
  import CompetitionPrompt

  // ---- the model's partial answer ----

  /** What the parsed `active_locations` holds when it is truthy: a list,
      or some other value that is not an array. */
  datatype Locations = LocationList(items: seq<string>) | NotAList

  /** `Partial<Analysis>` as parsed from the model's JSON; `None` stands
      for a missing or falsy property. */
  datatype PartialAnalysis = PartialAnalysis(
    problem: Option<Problem>,
    solution: Option<Solution>,
    product_type: Option<string>,
    sector: Option<string>,
    subsector: Option<string>,
    active_locations: Option<Locations>,
    sources: Option<seq<string>>,
    competition: Option<seq<Competitor>>)

  /** The initial `result_json: {}`. */
  const EmptyResult: PartialAnalysis := PartialAnalysis(None, None, None, None, None, None, None, None)

  /** A competitor as the model returns it: every property may be
      missing. */
  datatype RawCompetitor = RawCompetitor(
    name: Option<string>,
    website: Option<string>,
    product_type: Option<string>,
    sector: Option<string>,
    subsector: Option<string>,
    problem_similarity: Option<string>,
    solution_summary: Option<string>,
    similarities: Option<seq<string>>,
    differences: Option<seq<string>>,
    active_locations: Option<seq<string>>,
    sources: Option<seq<string>>)

  // ---- validation ----

  const Unknown: string := "Unknown"
  const DefaultProblem: Problem := Problem(Unknown, Unknown)
  const DefaultSolution: Solution := Solution(Unknown, Unknown, Unknown)

  /** Every property the competition node reads is present. */
  predicate Validated(p: PartialAnalysis) {
    p.problem.Some? && p.solution.Some? && p.product_type.Some? && p.sector.Some? && p.subsector.Some? &&
    p.active_locations.Some? && p.active_locations.value.LocationList? && p.sources.Some?
  }

  /** The sources after validation: the given list (or `[url]` when it is
      missing), then `url`, without repetitions (`Array.from(new Set(…))`). */
  function ValidatedSources(sources: Option<seq<string>>, url: string): seq<string> {
    Dedup(sources.GetOr([url]) + [url])
  }

  /** The locations after validation: a list is kept, anything else
      becomes `[]`. */
  function ValidatedLocations(l: Option<Locations>): seq<string> {
    if l.Some? && l.value.LocationList? then l.value.items else []
  }

  /** What `validateNode` leaves in `result_json`. */
  function Validate(p: PartialAnalysis, url: string): (r: PartialAnalysis)
    ensures Validated(r) && r.competition == p.competition
  {
    PartialAnalysis(
      Some(p.problem.GetOr(DefaultProblem)),
      Some(p.solution.GetOr(DefaultSolution)),
      Some(Or(p.product_type, Unknown)),
      Some(Or(p.sector, Unknown)),
      Some(Or(p.subsector, Unknown)),
      Some(LocationList(ValidatedLocations(p.active_locations))),
      Some(ValidatedSources(p.sources, url)),
      p.competition)
  }

  /** Falsy properties get their default and truthy ones are kept. */
  lemma ValidateDefaults(p: PartialAnalysis, url: string)
    ensures var r := Validate(p, url);
      (p.problem.None? ==> r.problem == Some(DefaultProblem)) && (p.problem.Some? ==> r.problem == p.problem) &&
      (p.solution.None? ==> r.solution == Some(DefaultSolution)) && (p.solution.Some? ==> r.solution == p.solution) &&
      (Truthy(p.product_type) ==> r.product_type == p.product_type) &&
      (!Truthy(p.product_type) ==> r.product_type == Some(Unknown)) &&
      (Truthy(p.sector) ==> r.sector == p.sector) && (!Truthy(p.sector) ==> r.sector == Some(Unknown)) &&
      (Truthy(p.subsector) ==> r.subsector == p.subsector) && (!Truthy(p.subsector) ==> r.subsector == Some(Unknown)) &&
      (p.active_locations.Some? && p.active_locations.value.LocationList? ==> r.active_locations == p.active_locations) &&
      (!(p.active_locations.Some? && p.active_locations.value.LocationList?) ==> r.active_locations == Some(LocationList([])))
  {
  }

  /** The validated sources have no repetitions, hold `url` once, keep
      the first-occurrence order of the given sources, and end with `url`
      when it was not among them. */
  lemma ValidatedSourcesFacts(sources: Option<seq<string>>, url: string)
    ensures var given, r := sources.GetOr([url]), ValidatedSources(sources, url);
      NoDups(r) && url in r && (forall x :: x in r <==> x in given || x == url) &&
      InFirstOrder(r, given + [url]) &&
      r == Dedup(given) + (if url in given then [] else [url]) &&
      (url !in given ==> r[|r| - 1] == url)
  {
    var given := sources.GetOr([url]);
    DedupOrder(given + [url]);
    DedupSnoc(given, url);
  }

  /** Validating again changes nothing. */
  lemma ValidateIdempotent(p: PartialAnalysis, url: string)
    ensures Validate(Validate(p, url), url) == Validate(p, url)
  {
    var s := ValidatedSources(p.sources, url);
    ValidatedSourcesFacts(p.sources, url);
    DedupSnoc(s, url);
    DedupIdempotent(p.sources.GetOr([url]) + [url]);
    assert ValidatedSources(Some(s), url) == s;
    assert Unknown != "" by { assert Unknown[0] == 'U'; }
  }

  // ---- the competitor filter ----

  /** A competitor is kept when its name, problem similarity and solution
      summary are all truthy. */
  predicate Keeps(c: RawCompetitor) {
    Truthy(c.name) && Truthy(c.problem_similarity) && Truthy(c.solution_summary)
  }

  /** `{...comp, similarities: comp.similarities || [], …}`. */
  function Clean(c: RawCompetitor): (r: Competitor)
    requires Keeps(c)
    ensures r.name == c.name.value && r.problem_similarity == c.problem_similarity.value
    ensures r.solution_summary == c.solution_summary.value
    ensures r.website == c.website && r.product_type == c.product_type
    ensures r.sector == c.sector && r.subsector == c.subsector
    ensures r.similarities == c.similarities.GetOr([]) && r.differences == c.differences.GetOr([])
    ensures r.active_locations == c.active_locations.GetOr([]) && r.sources == c.sources.GetOr([])
  {
    Competitor(c.name.value, c.website, c.product_type, c.sector, c.subsector,
               c.problem_similarity.value, c.solution_summary.value,
               c.similarities.GetOr([]), c.differences.GetOr([]),
               c.active_locations.GetOr([]), c.sources.GetOr([]))
  }

  /** The competitors that pass the check, in order. */
  function KeptCompetitors(list: seq<RawCompetitor>): (r: seq<RawCompetitor>)
    ensures |r| <= |list|
    ensures forall c :: c in r <==> c in list && Keeps(c)
    decreases |list|
  {
    if list == [] then []
    else
      var init, last := list[..|list| - 1], list[|list| - 1];
      assert forall c :: c in list <==> c in init || c == last;
      KeptCompetitors(init) + (if Keeps(last) then [last] else [])
  }

  /** The check decides competitor by competitor: one competitor is kept
      alone iff it passes, and the kept list of a concatenation is the
      concatenation of the kept lists. Together these fix every copy of a
      repeated competitor. */
  lemma {:induction false} KeptCompetitorsAppend(xs: seq<RawCompetitor>, ys: seq<RawCompetitor>)
    ensures forall c :: KeptCompetitors([c]) == if Keeps(c) then [c] else []
    ensures KeptCompetitors(xs + ys) == KeptCompetitors(xs) + KeptCompetitors(ys)
    decreases |ys|
  {
    forall c ensures KeptCompetitors([c]) == if Keeps(c) then [c] else [] {
      assert [c][..0] == [];
    }
    if ys == [] {
      assert xs + ys == xs;
    } else {
      var init, last := ys[..|ys| - 1], ys[|ys| - 1];
      assert (xs + ys)[..|xs + ys| - 1] == xs + init && (xs + ys)[|xs + ys| - 1] == last;
      KeptCompetitorsAppend(xs, init);
      Assoc(KeptCompetitors(xs), KeptCompetitors(init), if Keeps(last) then [last] else []);
    }
  }

  /** The cleaned list `competitionNode` stores. */
  function CleanCompetition(list: seq<RawCompetitor>): (r: seq<Competitor>)
    ensures |r| == |KeptCompetitors(list)|
  {
    var kept := KeptCompetitors(list);
    seq(|kept|, i requires 0 <= i < |kept| => Clean(kept[i]))
  }

  /** The kept competitors are the input's, in their input order. */
  lemma {:induction false} KeptCompetitorsSubsequence(list: seq<RawCompetitor>)
    ensures IsSubsequence(KeptCompetitors(list), list)
    decreases |list|
  {
    if list != [] {
      var init, last := list[..|list| - 1], list[|list| - 1];
      KeptCompetitorsSubsequence(init);
      SubsequenceSnoc(KeptCompetitors(init), init, last, Keeps(last));
      assert init + [last] == list;
    }
  }

  /** The loop of `competitionNode`: one push per competitor that passes
      the check. */
  method CleanCompetitors(list: seq<RawCompetitor>) returns (clean: seq<Competitor>)
    ensures clean == CleanCompetition(list)
  {
    clean := [];
    var i := 0;
    while i < |list|
      invariant 0 <= i <= |list|
      invariant clean == CleanCompetition(list[..i])
    {
      var comp := list[i];
      assert list[..i + 1][..i] == list[..i] && list[..i + 1][i] == comp;
      if Keeps(comp) {
        clean := clean + [Clean(comp)];
      }
      i := i + 1;
    }
    assert list[..|list|] == list;
  }

  /** Every stored competitor has a non-empty name, problem similarity and
      solution summary. */
  lemma CleanCompetitionWellFormed(list: seq<RawCompetitor>, i: nat)
    requires i < |CleanCompetition(list)|
    ensures var c := CleanCompetition(list)[i];
      c.name != "" && c.problem_similarity != "" && c.solution_summary != ""
  {
    assert KeptCompetitors(list)[i] in KeptCompetitors(list);
  }

  // ---- prompts ----

  /** `analysis.active_locations.join(', ') || '[]'`. */
  function LocationsText(locations: seq<string>): (r: string)
    ensures Join(locations, ", ") != "" ==> r == Join(locations, ", ")
    ensures Join(locations, ", ") == "" ==> r == "[]"
  {
    Or(Some(Join(locations, ", ")), "[]")
  }

  /** The competition prompt's parameters, read from the validated
      analysis. */
  function CompetitionParams(name: string, url: string, v: PartialAnalysis): CompetitionPrompt.CompetitionPromptParams
    requires Validated(v)
  {
    CompetitionPrompt.CompetitionPromptParams(
      name, url, v.problem.value.general, v.problem.value.example,
      v.solution.value.what_it_is, v.solution.value.how_it_works, v.solution.value.example,
      v.product_type.value, v.sector.value, v.subsector.value,
      LocationsText(v.active_locations.value.items))
  }

  /** `state.result_json as Analysis` once every property is present. */
  function ToAnalysis(v: PartialAnalysis): (a: Analysis)
    requires Validated(v) && v.competition.Some?
    ensures a.sources == v.sources.value && a.active_locations == v.active_locations.value.items
    ensures a.competition == v.competition.value && a.created_at.None? && a.updated_at.None?
  {
    Analysis(v.problem.value, v.solution.value, v.product_type.value, v.sector.value, v.subsector.value,
             v.active_locations.value.items, v.sources.value, v.competition.value, None, None)
  }

  /** What `runAnalysis` resolves to: the run of the four nodes in order,
      each reading what the previous ones wrote; a throw of either model
      call rejects the run. */
  function RunResult(name: string, url: string, fetchText: string -> string,
                     psTemplate: string, analyze: string -> Call<PartialAnalysis>,
                     compTemplate: string, respond: string -> Call<Option<seq<RawCompetitor>>>): (r: Call<Analysis>)
    ensures var ps := analyze(ProblemSolutionPrompt.FormatProblemSolutionPrompt(psTemplate, name, url, fetchText(url)));
      ps.Throws? ==> r == Throws(ps.error)
    ensures var ps := analyze(ProblemSolutionPrompt.FormatProblemSolutionPrompt(psTemplate, name, url, fetchText(url)));
      ps.Returns? ==>
        var comp := respond(CompetitionPrompt.FormatCompetitionPrompt(compTemplate, CompetitionParams(name, url, Validate(ps.value, url))));
        (comp.Throws? ==> r == Throws(comp.error)) &&
        (comp.Returns? ==> r.Returns? && r.value.competition == CleanCompetition(comp.value.GetOr([])))
  {
    var text := fetchText(url);
    match analyze(ProblemSolutionPrompt.FormatProblemSolutionPrompt(psTemplate, name, url, text))
    case Throws(e) => Throws(e)
    case Returns(raw) =>
      var v := Validate(raw, url);
      match respond(CompetitionPrompt.FormatCompetitionPrompt(compTemplate, CompetitionParams(name, url, v)))
      case Throws(e) => Throws(e)
      case Returns(list) => Returns(ToAnalysis(v.(competition := Some(CleanCompetition(list.GetOr([]))))))
  }

  /** A completed run carries defaulted fields, sources without
      repetitions that include the startup URL, and only well-formed
      competitors. */
  lemma RunResultFacts(name: string, url: string, fetchText: string -> string,
                       psTemplate: string, analyze: string -> Call<PartialAnalysis>,
                       compTemplate: string, respond: string -> Call<Option<seq<RawCompetitor>>>)
    ensures var r := RunResult(name, url, fetchText, psTemplate, analyze, compTemplate, respond);
      r.Returns? ==>
        NoDups(r.value.sources) && url in r.value.sources &&
        r.value.product_type != "" && r.value.sector != "" && r.value.subsector != "" &&
        forall i :: 0 <= i < |r.value.competition| ==>
          r.value.competition[i].name != "" && r.value.competition[i].problem_similarity != ""
          && r.value.competition[i].solution_summary != ""
  {
    var r := RunResult(name, url, fetchText, psTemplate, analyze, compTemplate, respond);
    var text := fetchText(url);
    var a := analyze(ProblemSolutionPrompt.FormatProblemSolutionPrompt(psTemplate, name, url, text));
    if r.Returns? {
      var v := Validate(a.value, url);
      var list := respond(CompetitionPrompt.FormatCompetitionPrompt(compTemplate, CompetitionParams(name, url, v))).value;
      ValidatedSourcesFacts(a.value.sources, url);
      assert Unknown != "" by { assert Unknown[0] == 'U'; }
      forall i | 0 <= i < |r.value.competition|
        ensures r.value.competition[i].name != "" && r.value.competition[i].problem_similarity != ""
          && r.value.competition[i].solution_summary != ""
      {
        CleanCompetitionWellFormed(list.GetOr([]), i);
      }
    }
  }

  // ---- the state and its nodes ----

  /** `AnalysisState`, shared by the nodes and written in place. */
  class AnalysisState {
    var startup_name: string
    var startup_url: string
    var website_text: string
    var result_json: PartialAnalysis

    /** The initial state of `runAnalysis`. */
    constructor(name: string, url: string)
      ensures startup_name == name && startup_url == url
      ensures website_text == "" && result_json == EmptyResult
    {
      startup_name := name;
      startup_url := url;
      website_text := "";
      result_json := EmptyResult;
    }

    /** `fetchNode`: stores the homepage text. */
    method FetchNode(fetchText: string -> string)
      modifies this
      ensures website_text == fetchText(startup_url)
      ensures startup_name == old(startup_name) && startup_url == old(startup_url)
      ensures result_json == old(result_json)
    {
      website_text := fetchText(startup_url);
    }

    /** `analyzeNode`: stores the parsed answer to the problem/solution
        prompt, or passes on the throw. */
    method AnalyzeNode(psTemplate: string, analyze: string -> Call<PartialAnalysis>) returns (thrown: Option<Thrown>)
      modifies this
      ensures var call := analyze(ProblemSolutionPrompt.FormatProblemSolutionPrompt(psTemplate, startup_name, startup_url, website_text));
        (thrown.None? <==> call.Returns?) && (call.Throws? ==> thrown == Some(call.error)) &&
        result_json == (if call.Returns? then call.value else old(result_json))
      ensures startup_name == old(startup_name) && startup_url == old(startup_url)
      ensures website_text == old(website_text)
    {
      var prompt := ProblemSolutionPrompt.FormatProblemSolutionPrompt(psTemplate, startup_name, startup_url, website_text);
      var call := analyze(prompt);
      if call.Throws? {
        return Some(call.error);
      }
      result_json := call.value;
      thrown := None;
    }

    /** `validateNode`: fills in each missing property in turn, then
        de-duplicates the sources with the startup URL appended. */
    method ValidateNode()
      modifies this
      ensures result_json == Validate(old(result_json), startup_url)
      ensures startup_name == old(startup_name) && startup_url == old(startup_url)
      ensures website_text == old(website_text)
    {
      ghost var given := result_json;
      var result := result_json;
      if result.problem.None? {
        result := result.(problem := Some(DefaultProblem));
      }
      if result.solution.None? {
        result := result.(solution := Some(DefaultSolution));
      }
      assert result == given.(problem := Validate(given, startup_url).problem, solution := Validate(given, startup_url).solution);
      if !Truthy(result.product_type) {
        result := result.(product_type := Some(Unknown));
      }
      if !Truthy(result.sector) {
        result := result.(sector := Some(Unknown));
      }
      if !Truthy(result.subsector) {
        result := result.(subsector := Some(Unknown));
      }
      assert result == Validate(given, startup_url).(active_locations := given.active_locations, sources := given.sources);
      if result.active_locations.None? {
        result := result.(active_locations := Some(LocationList([])));
      }
      if result.sources.None? {
        result := result.(sources := Some([startup_url]));
      }
      var sources := Dedup(result.sources.value + [startup_url]);
      result := result.(sources := Some(sources));
      if !result.active_locations.value.LocationList? {
        result := result.(active_locations := Some(LocationList([])));
      }
      result_json := result;
    }

    /** `competitionNode`: asks for competitors of the validated analysis
        and stores the cleaned list, or passes on the throw. */
    method CompetitionNode(compTemplate: string, respond: string -> Call<Option<seq<RawCompetitor>>>)
      returns (thrown: Option<Thrown>)
      requires Validated(result_json)
      modifies this
      ensures var call := respond(CompetitionPrompt.FormatCompetitionPrompt(compTemplate,
                                    CompetitionParams(startup_name, startup_url, old(result_json))));
        (thrown.None? <==> call.Returns?) && (call.Throws? ==> thrown == Some(call.error)) &&
        result_json == (if call.Returns? then old(result_json).(competition := Some(CleanCompetition(call.value.GetOr([]))))
                        else old(result_json))
      ensures startup_name == old(startup_name) && startup_url == old(startup_url)
      ensures website_text == old(website_text)
    {
      var prompt := CompetitionPrompt.FormatCompetitionPrompt(compTemplate,
                      CompetitionParams(startup_name, startup_url, result_json));
      var call := respond(prompt);
      if call.Throws? {
        return Some(call.error);
      }
      var clean := CleanCompetitors(call.value.GetOr([]));
      result_json := result_json.(competition := Some(clean));
      thrown := None;
    }
  }

  /** `runAnalysis`: fetch, analyze, validate, competition, in that order,
      on one state object. */
  method RunAnalysis(name: string, url: string, fetchText: string -> string,
                     psTemplate: string, analyze: string -> Call<PartialAnalysis>,
                     compTemplate: string, respond: string -> Call<Option<seq<RawCompetitor>>>)
    returns (r: Call<Analysis>)
    ensures r == RunResult(name, url, fetchText, psTemplate, analyze, compTemplate, respond)
  {
    var state := new AnalysisState(name, url);
    state.FetchNode(fetchText);
    var thrown := state.AnalyzeNode(psTemplate, analyze);
    if thrown.Some? {
      return Throws(thrown.value);
    }
    state.ValidateNode();
    thrown := state.CompetitionNode(compTemplate, respond);
    if thrown.Some? {
      return Throws(thrown.value);
    }
    r := Returns(ToAnalysis(state.result_json));
  }
}
