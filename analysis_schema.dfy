/** The records of the four-node analysis (problem, solution, product
    type, sector, locations, sources and competitors) and the stored
    analysis list entry. Optional properties are `Option`s. */
module AnalysisSchema {
  import opened Js

  datatype Problem = Problem(general: string, example: string)

  datatype Solution = Solution(what_it_is: string, how_it_works: string, example: string)

  datatype Competitor = Competitor(
    name: string,
    website: Option<string>,
    product_type: Option<string>,
    sector: Option<string>,
    subsector: Option<string>,
    problem_similarity: string,
    solution_summary: string,
    similarities: seq<string>,
    differences: seq<string>,
    active_locations: seq<string>,
    sources: seq<string>)

  datatype Analysis = Analysis(
    problem: Problem,
    solution: Solution,
    product_type: string,
    sector: string,
    subsector: string,
    active_locations: seq<string>,
    sources: seq<string>,
    competition: seq<Competitor>,
    created_at: Option<string>,
    updated_at: Option<string>)
}
