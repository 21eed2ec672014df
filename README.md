# Pitch Panda core, modelled in Dafny

Pitch Panda is a web app that analyses a startup from its website and its pitch deck. Its pipeline runs these stages:

1. Ingest the deck slides and the website chunks.
2. Extract evidence snippets.
3. Run the core and business analyses.
4. Run the risk analysis.
5. Merge the results into a final analysis.
6. Write an investment memo.

Around the LLM, network, DOM and storage calls sits deterministic logic. This project models that logic and proves properties of it:

- **String and URL helpers** (`string_utils.dfy`, `web.dfy`, `js.dfy`):
  - `getDomain`, `slugify` and `ensureScheme`. `src/utils/web.ts:5-10` holds a second copy of `ensureScheme` with the same body as `src/utils/string.ts:27-32`, so `StringUtils.EnsureScheme` models both;
  - the HTML-to-text cleanup and truncation of `fetchWebsiteText`;
  - a small model of the JavaScript string operations they rely on: trim, ASCII case mapping, `join`, `split` and number printing.
- **The two stores:**
  - `domain_db.dfy`: analyses keyed by domain, in a class over a map;
  - `list_db.dfy`: an append-only list of analyses, in a class over a sequence.
- **The pipeline state machine** (`graph_builder.dfy`):
  - `mergeState` and `executeNode`;
  - the fixed stage order of `runAnalysis` and `streamAnalysis`, including the conditional vision stage and the progress events.
- **The nodes:**
  - deck ingestion (`ingest_deck.dfy`);
  - evidence extraction (`evidence_extraction.dfy`, `evidence_text.dfy`);
  - core, business and risk analysis (`core_analysis.dfy`, `business_analysis.dfy`, `risk_analysis.dfy`);
  - merge (`merge_analysis.dfy`);
  - the investment memo (`investment_memo.dfy`).

  Each node is modelled with its guard, its error branch and its context builder. The conditional `sections.push` pattern is shared in `pushes.dfy`.
- **The older four-node pipeline** (`analysis_graph.dfy`): fetch, analyze, validate, competition.
- **Renderers and prompts:**
  - the markdown and clipboard renderer (`renderer.dfy`);
  - the `format*Prompt` functions over chained first-occurrence `String.replace` (`prompt_template.dfy`, `prompts.dfy`). These include the `$` patterns of GetSubstitution (section 22.1.3.19.1 of ECMA-262).
- **Services:**
  - the section chunker and the never-throwing `scrapeWebsite` (`scraper.dfy`);
  - the retry loop `withRetry` (`llm_retry.dfy`);
  - the deck file dispatch and image numbering (`deck_files.dfy`).
- **Schemas** (`analysis_schema.dfy`, `pipeline_schema.dfy`): the records the code passes around, as datatypes.

External calls become parameters of the members that use them. These are:

- the LLM, `fetch`, the parsed DOM, `encodeURIComponent`, pdf rendering and `FileReader`;
- `localStorage`, modelled as a field holding the stored value, or "absent" or "corrupt";
- the clock and locale strings.

Where the code does something unusual, the model follows the code. Examples:

- On update, the domain store takes `created_at` from the incoming record.
- The merge duplicates errors after a node's catch branch.
- A risk category such as `constructor` breaks the memo's grouping.

Integers are unbounded. JavaScript numbers appear as counts, slide image page numbers and delays, where this makes no difference. Three cases differ, and all three are listed below: the floating point of `Math.pow`, traction values, and the page of an evidence item's provenance. The model takes the last two to be integers.

## Model

| member | source | states |
|---|---|---|
| StringUtils.StripScheme | src/utils/string.ts:7 | one leading "https://" or "http://" is removed, compared case-sensitively; otherwise the URL is unchanged |
| StringUtils.BeforeSlash | src/utils/string.ts:9 | the result is the prefix before the first '/', contains no '/', and is followed by '/' when shorter than the input |
| StringUtils.StripWww | src/utils/string.ts:11 | a leading "www." is removed, otherwise the text is unchanged |
| StringUtils.GetDomain | src/utils/string.ts:4-16 | the domain is entirely lower-case and contains no '/' |
| StringUtils.GetDomainOfParts | src/utils/string.ts:3-12 | any scheme (none, http, https), any "www." prefix and any path give the same domain: the lower-cased host |
| StringUtils.StripSchemeOfParts | src/utils/string.ts:7 | "http://" or "https://" put in front of a string is exactly what the first step removes |
| StringUtils.NoSchemeInHost | src/utils/string.ts:7 | a host with no ':' or '/', followed by a path, has no scheme to strip |
| StringUtils.GetDomainUpperScheme | src/utils/string.ts:7-12 | the scheme is matched before lower-casing, so "HTTPS://x.io" keeps its scheme and yields "https:" |
| StringUtils.GetDomainUpperWww | src/utils/string.ts:11-12 | "WWW." is matched before lower-casing, so "WWW.X.IO" yields "www.x.io" |
| StringUtils.BeforeSlashStops | src/utils/string.ts:9 | the split stops at the first '/' of a path |
| StringUtils.ReplaceRuns | src/utils/string.ts:22 | each maximal run of characters outside a-z, 0-9, '_' and '-' becomes one '-'; the result has only slug characters, is no longer than the input, and a string of slug characters is unchanged |
| StringUtils.DropLeadingDashes | src/utils/string.ts:23 | exactly the leading run of '-' is removed |
| StringUtils.DropTrailingDashes | src/utils/string.ts:23 | exactly the trailing run of '-' is removed |
| StringUtils.Slugify | src/utils/string.ts:19-24 | the slug contains only a-z, 0-9, '_' and '-', and neither starts nor ends with '-' |
| StringUtils.SlugifyIdempotent | src/utils/string.ts:19-24 | slugifying a slug changes nothing |
| StringUtils.SlugifyExample | src/utils/string.ts:18 | "Super City AI" becomes "super-city-ai" |
| StringUtils.ReplaceRunsJoin | src/utils/string.ts:22 | words of slug characters separated by single spaces come out joined by '-' |
| StringUtils.EnsureScheme | src/utils/string.ts:27-32 | the result has an http or https scheme; a URL that has one is unchanged; any other gets "https://" in front |
| StringUtils.EnsureSchemeIdempotent | src/utils/string.ts:27-32 | applying ensureScheme twice is the same as applying it once |
| Web.TagLength | src/utils/web.ts:40 | a tag match starts with '<', ends at the first '>' after it, and has at least one character in between |
| Web.StripTags | src/utils/web.ts:40 | replacing the tags never lengthens the text and introduces only spaces |
| Web.StripTagsLeavesNoTags | src/utils/web.ts:40 | no tag is left after the replacement |
| Web.StripTagsIdempotent | src/utils/web.ts:40 | a second tag replacement changes nothing |
| Web.StripTagsOfNoTags | src/utils/web.ts:40 | text without tags is unchanged |
| Web.CollapseSpaces | src/utils/web.ts:41 | after collapsing, no two adjacent characters are white space, and the text is no longer |
| Web.CleanText | src/utils/web.ts:37-42 | the cleaned text has no white space at either end and no two adjacent white-space characters |
| Web.ExtractText | src/utils/web.ts:44 | the result is the fallback "(No readable text found on homepage.)" when the cleaned text or the limit is empty; otherwise it is a non-empty prefix of the cleaned text, at most maxChars long, cut only at maxChars |
| Web.ErrorText | src/utils/web.ts:69-72 | an Error is reported as "(Error fetching site: <message>)", anything else as "(Error fetching site: Unknown error)" |
| Web.ErrorTextShape | src/utils/web.ts:71 | every error text opens with "(Error fetching site: " and ends with ")" |
| Web.ReadOutcome | src/utils/web.ts:24-72 | a rejected request, a status outside 200-299 or a failing body read gives the error text. Otherwise the result is the extracted text of the body |
| Web.RequestUrl | src/utils/web.ts:13-24 | the browser requests the CORS proxy with the encoded full URL; the server requests the full URL itself |
| Web.FetchWebsiteText | src/utils/web.ts:12-73 | the text is read from the response to the requested URL, or is the error text |
| Web.FetchWebsiteTextDefault | src/utils/web.ts:12 | with the default maxChars of 10000, a page that was read gives the fallback text or at most 10000 characters |
| Web.FetchFailuresAreReported | src/utils/web.ts:24-72 | a rejected request, a non-ok status or a failing body read is reported in the returned text, never thrown |
| Web.BranchesAgree | src/utils/web.ts:37-44 | the browser and the server branch return the same text for the same response |
| Renderer.BulletList | src/ai/core/renderer.ts:5-11 | an empty list renders as the given placeholder; otherwise the text starts with "- " and the first item |
| Renderer.RenderLocations | src/ai/core/renderer.ts:5-7 | no locations render as "- None specified" |
| Renderer.Bullets | src/ai/core/renderer.ts:9-11 | no items render as "- None" |
| Renderer.BulletListLines | src/ai/core/renderer.ts:6 | a non-empty list splits back into one "- item" line per item, in order, when no item holds a line break |
| Renderer.Truncate | src/ai/core/renderer.ts:13-16 | text whose trimmed form fits in n characters is returned trimmed. Longer text becomes a prefix of the trimmed text with no trailing white space, followed by '…'. For n >= 1 the result is at most n characters, and the kept prefix falls short of the first n - 1 characters only by white space. For n < 1 the result is '…' alone |
| Renderer.TruncatedPart | src/ai/core/renderer.ts:15 | `substring(0, n - 1).trimEnd()` is a prefix of the text, at most n - 1 characters long, and every character it drops from those n - 1 is white space |
| Renderer.Head | src/ai/core/renderer.ts:68 | `xs[0]`, or the falsy undefined of an empty list |
| Renderer.ClipName | src/ai/core/renderer.ts:53 | an empty name becomes "Unknown"; any other name is trimmed; the result never has white space at either end |
| Renderer.Normalized | src/ai/core/renderer.ts:56-57 | the compared product type is lower-case |
| Renderer.SolutionTag | src/ai/core/renderer.ts:58-65 | a competitor with a falsy product type is tagged "solution unspecified"; otherwise the tag is "same product type" or "different product type (X)", X being the competitor's own product type |
| Renderer.SolutionTagCases | src/ai/core/renderer.ts:56-65 | "same product type" iff both normalised product types are non-empty and equal. "solution unspecified" iff the competitor has no product type. Otherwise "different product type (X)" |
| Renderer.SolutionTagLength | src/ai/core/renderer.ts:58-65 | every tag is at least as long as "same product type" |
| Renderer.Note | src/ai/core/renderer.ts:68 | the note is the first non-empty of the first difference, the first similarity and the solution summary |
| Renderer.Geo | src/ai/core/renderer.ts:70 | geo is never empty: the comma-joined locations, or "n/a" when they join to nothing |
| Renderer.ClipLine | src/ai/core/renderer.ts:52-72 | a competitor line is longer than the empty-list placeholder, so the two cannot be confused |
| Renderer.ClipLineParts | src/ai/core/renderer.ts:71 | a line is the name, ": same problem; ", the tag and "; ", then the truncated note of at most 180 characters, then "; geo: " and the geo text, in that order and nothing else |
| Renderer.ClipLines | src/ai/core/renderer.ts:52-72 | one line per competitor, in input order |
| Renderer.RenderCompetitionClipboard | src/ai/core/renderer.ts:47-75 | no competitors give "(no competitors found)"; otherwise the block opens with the first competitor's line |
| Renderer.ClipboardEmptyIff | src/ai/core/renderer.ts:47-75 | the block is "(no competitors found)" exactly when there are no competitors |
| Renderer.ClipboardLines | src/ai/core/renderer.ts:74 | splitting the block at line breaks gives back each competitor's line, in order |
| Renderer.SourcesList | src/ai/core/renderer.ts:20 | the competitor's sources as a bullet list, or "- None" and a line break when there are none |
| Renderer.WebsiteLine | src/ai/core/renderer.ts:21 | "**Website:** w" and a line break for a truthy website w, else nothing |
| Renderer.CompetitorHeader | src/ai/core/renderer.ts:19-28 | the "### name" line, then the website line, then the product type line, and last the sector/subsector line; a falsy product type, sector or subsector is shown as "Unknown" |
| Renderer.CompetitorFields | src/ai/core/renderer.ts:24-43 | the six field texts: problem similarity, solution summary, similarity bullets, difference bullets, locations and sources |
| Renderer.CompetitorBlocks | src/ai/core/renderer.ts:27-43 | seven blocks: the header, then each fixed caption (Problem similarity, Solution summary, Similarities, Differences, Active Locations, Sources) followed by its field |
| Renderer.RenderCompetitor | src/ai/core/renderer.ts:18-45 | the section is exactly its seven blocks joined by blank lines, with a final line break. It opens with "### name" on its own line, and every field appears under its own caption in the fixed order |
| Renderer.RenderedCompetitors | src/ai/core/renderer.ts:81 | one rendered section per competitor, in order |
| Renderer.CompetitionSection | src/ai/core/renderer.ts:79-84 | an empty competition gives "No competitors found."; otherwise the section opens with the first competitor's rendering |
| Renderer.CompetitionSectionEmptyIff | src/ai/core/renderer.ts:79-84 | "No competitors found." is written exactly when the competition is empty |
| Renderer.MarkdownBodies | src/ai/core/renderer.ts:94-120 | there is one body per fixed heading |
| Renderer.Sections | src/ai/core/renderer.ts:94-120 | each section starts with its fixed heading line, in the fixed order |
| Renderer.MarkdownBlocks | src/ai/core/renderer.ts:90-120 | the report blocks are the title, the website line, then the sections under the fixed headings, in order |
| Renderer.RenderMarkdown | src/ai/core/renderer.ts:77-122 | the report is its blocks joined by blank lines, with a final line break |
| DomainDb.Records | src/database/db.ts:12-20 | the stored map, or the empty map when nothing is stored or the blob fails to parse |
| DomainDb.SavedRecord | src/database/db.ts:42-63 | updated_at is now. A new domain also gets created_at = now. An existing domain keeps the incoming analysis's created_at, not the stored one. Every other field is the incoming analysis's own |
| DomainDb.SavedSources | src/database/db.ts:46 | the saved sources begin with the URL and hold no duplicates. They contain exactly the URL and the incoming sources, and keep the incoming sources in first-occurrence order |
| DomainDb.SaveInto | src/database/db.ts:50-63 | the URL's domain maps to the saved record, one key is added, and every other domain keeps its record |
| DomainDb.DeleteFrom | src/database/db.ts:76-78 | exactly the URL's domain is removed and every other record is kept |
| DomainDb.Lookup | src/database/db.ts:24-26 | a record is found iff the URL's domain is a key, and it is that key's record |
| DomainDb.SameDomainSameRecord | src/database/db.ts:24-39 | URLs that differ only in scheme, "www.", path or the case of the host address the same record |
| DomainDb.DomainStore.GetAll | src/database/db.ts:12-20 | the stored map, or the empty map when the blob is absent or corrupt |
| DomainDb.DomainStore.GetByUrl | src/database/db.ts:23-27 | the record stored under the URL's domain, if there is one |
| DomainDb.DomainStore.Exists | src/database/db.ts:30-34 | holds iff getByUrl finds a record |
| DomainDb.DomainStore.Save | src/database/db.ts:37-71 | when the write succeeds, exists(url) holds afterwards, getByUrl(url) is the saved record, and every URL of another domain reads as before. A failing write is re-thrown and the storage is unchanged |
| DomainDb.DomainStore.Delete | src/database/db.ts:74-85 | when the write succeeds, exists(url) is false afterwards and every URL of another domain reads as before. A failing write is re-thrown and the storage is unchanged |
| DomainDb.DomainStore.Clear | src/database/db.ts:88-91 | the storage key is removed and getAll is empty |
| ListDb.FindById | src/data/db.ts:19-22 | None iff no entry has the id; otherwise the entry at the first index whose id matches |
| ListDb.RemoveId | src/data/db.ts:39 | no entry with the id is left, an entry occurs in the result iff it occurs in the input with another id, and the result is no longer than the input |
| ListDb.RemoveIdSubsequence | src/data/db.ts:39 | the kept entries keep their original order |
| ListDb.RemoveIdAppend | src/data/db.ts:39 | a single entry is kept iff its id differs, and removing from a concatenation is removing from each part; so every copy of a kept entry survives |
| ListDb.RemoveIdOfAbsent | src/data/db.ts:39 | deleting an id no entry carries changes nothing |
| ListDb.RemoveIdIdempotent | src/data/db.ts:39 | deleting twice is the same as deleting once |
| ListDb.FindAfterRemoveOther | src/data/db.ts:19-39 | deleting one id leaves the lookup of every other id unchanged |
| ListDb.FindAfterAppend | src/data/db.ts:21-28 | after an append, the lookup finds the earlier match if there is one, else the new entry when its id matches, so duplicate ids are allowed |
| ListDb.ListStore.GetAll | src/data/db.ts:8-16 | the stored list, or [] when nothing is stored or the blob fails to parse |
| ListDb.ListStore.GetById | src/data/db.ts:19-22 | None iff no stored entry has the id; otherwise the first stored entry with that id |
| ListDb.ListStore.Save | src/data/db.ts:25-34 | when the write succeeds, the entry is appended: the length grows by one and the earlier entries are unchanged. A failing write is re-thrown and the storage is unchanged |
| ListDb.ListStore.Delete | src/data/db.ts:37-45 | when the write succeeds, the entries with another id are written back in order and the id is no longer found. A failing write is re-thrown and the storage is unchanged |
| ListDb.ListStore.Clear | src/data/db.ts:48-50 | the storage key is removed and getAll is [] |
| GraphBuilder.Pick | src/graph/graphBuilder.ts:36-37 | a property the update has replaces the state's; an absent one keeps it |
| GraphBuilder.ErrorsOf | src/graph/graphBuilder.ts:39 | the update's errors, or [] when it has none |
| GraphBuilder.MergeState | src/graph/graphBuilder.ts:34-41 | the merged errors are the state's errors followed by the update's |
| GraphBuilder.MergeTakesUpdate | src/graph/graphBuilder.ts:35-38 | every other property comes from the update when the update has it, else from the state |
| GraphBuilder.MergeNothing | src/graph/graphBuilder.ts:34-41 | merging the empty update changes nothing |
| GraphBuilder.Combine | src/graph/graphBuilder.ts:34-41 | the combined update of two merges keeps the errors of both, in order |
| GraphBuilder.MergeTwice | src/graph/graphBuilder.ts:99-138 | two merges in a row equal one merge of the combined update |
| GraphBuilder.CatchBranchDuplicates | src/graph/graphBuilder.ts:39-137 | an update carrying `[...state.errors, msg]` makes the merged errors repeat every earlier error: 2n + 1 entries |
| GraphBuilder.ExecuteNode | src/graph/graphBuilder.ts:46-62 | a resolved node result is returned unchanged. A throw becomes an update whose only field is errors = ["<nodeName> failed: <message>"] |
| GraphBuilder.MergeResult | src/graph/graphBuilder.ts:39-99 | merging a null node result throws the engine's TypeError; any other update is merged |
| GraphBuilder.Then | src/graph/graphBuilder.ts:89-172 | once a merge has thrown, later stages do not run |
| GraphBuilder.InitialState | src/graph/graphBuilder.ts:73-87 | every artefact is null and errors is []. url defaults to "". startup_id defaults to "analysis-<now>" when none is given |
| GraphBuilder.Pair | src/graph/graphBuilder.ts:94-138 | both paired nodes are called, in the listed order, on the same snapshot |
| GraphBuilder.Single | src/graph/graphBuilder.ts:124-125 | a single stage calls exactly its node |
| GraphBuilder.StageCalls | src/graph/graphBuilder.ts:89-163 | stage k calls exactly its listed nodes, in order; the vision stage calls nothing for a state without slides |
| GraphBuilder.CallsBound | src/graph/graphBuilder.ts:89-163 | from stage k on, every call is to a node of stage k or a later one, and a whole run makes at most nine calls |
| GraphBuilder.Fail | src/graph/graphBuilder.ts:173-259 | the catch branch pushes "Pipeline failed: <message>" onto the errors of the state at the throw and changes nothing else |
| GraphBuilder.Events | src/graph/graphBuilder.ts:203-260 | between one and seven events are yielded from the first stage on |
| GraphBuilder.RunPair | src/graph/graphBuilder.ts:205-210 | the method's run equals the specification of a paired stage |
| GraphBuilder.RunSingle | src/graph/graphBuilder.ts:227-228 | the method's run equals the specification of a single stage |
| GraphBuilder.RunVision | src/graph/graphBuilder.ts:214-223 | the method's run equals the specification of the conditional vision stage |
| GraphBuilder.Step | src/graph/graphBuilder.ts:203-260 | one stage of the loop: it stops exactly when a merge throws, and the events and calls so far plus the remaining stages' equal the specification's |
| GraphBuilder.StreamAnalysis | src/graph/graphBuilder.ts:184-261 | the yielded events and the node calls are exactly those of the seven-stage specification |
| GraphBuilder.RunAnalysis | src/graph/graphBuilder.ts:67-178 | the returned state is the state of the stream's last event |
| GraphBuilder.MergeResultKeepsErrors | src/graph/graphBuilder.ts:39 | a merge, successful or not, keeps the errors it started from as a prefix |
| GraphBuilder.StageKeepsErrors | src/graph/graphBuilder.ts:89-172 | no stage removes an error |
| GraphBuilder.EventsKeepErrors | src/graph/graphBuilder.ts:203-260 | every event carries the errors of the starting state and of every earlier event, as a prefix |
| GraphBuilder.EventsShape | src/graph/graphBuilder.ts:211-259 | every event but the last is the stage event of its position; the last is the "error" event (progress -1) or the "complete" event |
| GraphBuilder.ShapedProgress | src/graph/graphBuilder.ts:211-253 | in events of that shape, progress only grows up to 100, and an "error" event can only come last |
| GraphBuilder.StreamProgress | src/graph/graphBuilder.ts:211-259 | from any stage on (the whole stream being the run from stage 0), the progress reported only grows (15, 30, 45, 65, 80, 90, 100), and "error" can only be the last event |
| GraphBuilder.VisionRunsIffSlides | src/graph/graphBuilder.ts:107-117 | the vision node runs iff deck_slides is non-null and non-empty; otherwise only deck_structured becomes [] |
| GraphBuilder.StageMergesWhenNeverNull | src/graph/graphBuilder.ts:51-61 | when no node resolves to null, every stage's merge succeeds |
| GraphBuilder.CompleteRun | src/graph/graphBuilder.ts:211-253 | when no node resolves to null, a stream yields all seven stage events in order and never "error" |
| IngestDeckNode.ValidSlides | src/nodes/ingestDeck.ts:30-32 | a slide occurs in the result iff it occurs in the input with a non-zero page and an imageDataUrl starting with "data:image/"; there are no more of them than inputs |
| IngestDeckNode.ValidSlidesSubsequence | src/nodes/ingestDeck.ts:30-32 | the kept slides are an order-preserving subsequence of the input |
| IngestDeckNode.ValidSlidesAppend | src/nodes/ingestDeck.ts:30-32 | a single slide is kept iff it is valid, and filtering a concatenation is filtering each part; so every copy of a valid slide survives |
| IngestDeckNode.ValidSlidesOfValid | src/nodes/ingestDeck.ts:30-32 | slides that are all valid are kept unchanged |
| IngestDeckNode.ValidSlidesIdempotent | src/nodes/ingestDeck.ts:30-32 | filtering the output again changes nothing |
| IngestDeckNode.ValidSlidesKeepAllIff | src/nodes/ingestDeck.ts:34 | nothing is filtered out iff every slide is valid |
| IngestDeckNode.ValidSlidesDropsInvalid | src/nodes/ingestDeck.ts:30-36 | one invalid slide makes the output shorter |
| IngestDeckNode.IngestDeck | src/nodes/ingestDeck.ts:18-54 | missing or empty slides give deck_slides = []; otherwise deck_slides is the valid slides. No other property is set, errors included |
| IngestDeckNode.IngestDeckMerged | src/nodes/ingestDeck.ts:18-44 | after the merge the state holds only valid slides, a subsequence of the ones it had, and the errors are unchanged |
| MergeAnalysisNode.CountKind | src/nodes/mergeAnalysis.ts:92-97 | a kind is counted at most once per item |
| MergeAnalysisNode.CountKindsSum | src/nodes/mergeAnalysis.ts:94-95 | since every source is "deck_slide" or "website", the two counts add up to the number of items |
| MergeAnalysisNode.CountSources | src/nodes/mergeAnalysis.ts:92-97 | the loop adds each kind's count to its counter |
| MergeAnalysisNode.CountAllSources | src/nodes/mergeAnalysis.ts:89-105 | the seven calls leave the deck and website counters at the totals over the seven counted arrays |
| MergeAnalysisNode.AreaSizes | src/nodes/mergeAnalysis.ts:111-116 | one size per coverage area |
| MergeAnalysisNode.AreaNamesDistinct | src/nodes/mergeAnalysis.ts:111-116 | the six coverage area names are distinct |
| MergeAnalysisNode.CoverageIff | src/nodes/mergeAnalysis.ts:110-118 | coverage names an area iff its array is non-empty, in the order problem, solution, team, traction, funding, competition |
| MergeAnalysisNode.EvidenceSummary | src/nodes/mergeAnalysis.ts:71 | "No evidence available" when there is no evidence |
| MergeAnalysisNode.SourcesAddUp | src/nodes/mergeAnalysis.ts:92-107 | deck + website equals the total length of the seven arrays counted (value_prop, business_model and claims included, team, traction and funding not) |
| MergeAnalysisNode.SummaryStartsWithTotal | src/nodes/mergeAnalysis.ts:77-86 | the summary opens with the sum of the seven lengths (problem, solution, team, traction, funding, competition, market) |
| MergeAnalysisNode.SummaryShape | src/nodes/mergeAnalysis.ts:120 | the three parts are joined by ". " |
| MergeAnalysisNode.BuildEvidenceSummary | src/nodes/mergeAnalysis.ts:70-121 | the counting and pushing computes exactly the specified summary |
| MergeAnalysisNode.BuildCoverage | src/nodes/mergeAnalysis.ts:110-116 | the conditional pushes compute exactly the specified coverage list |
| MergeAnalysisNode.MergeAnalysis | src/nodes/mergeAnalysis.ts:16-65 | a missing core, business or risk gives final_analysis = null and errors = state.errors followed by the message; otherwise the update holds only final_analysis |
| MergeAnalysisNode.MergeAnalysisCopies | src/nodes/mergeAnalysis.ts:26-49 | the final analysis copies startup_id, url and every sub-record unchanged, and carries the evidence summary |
| MergeAnalysisNode.MergeAnalysisInPipeline | src/nodes/mergeAnalysis.ts:20-64 | after the merge there is a final analysis iff core, business and risk were present. With one missing, every earlier error appears twice |
| EvidenceExtractionNode.WebsiteBlock | src/nodes/evidenceExtraction.ts:52 | a chunk's block opens with its bracketed "[Website: location]" |
| EvidenceExtractionNode.WebsiteBlocks | src/nodes/evidenceExtraction.ts:50-53 | one block per chunk, in order |
| EvidenceExtractionNode.WebsiteContextCases | src/nodes/evidenceExtraction.ts:47-55 | "No website content available." iff the chunks are null or empty; otherwise the context opens with the first chunk's block and contains every chunk's block |
| EvidenceExtractionNode.WebsiteContext | src/nodes/evidenceExtraction.ts:47-55 | null or empty chunks give "No website content available." |
| EvidenceExtractionNode.WebsiteContextTwo | src/nodes/evidenceExtraction.ts:54 | two chunks are joined by "\n---\n", in order |
| EvidenceExtractionNode.SlideHeader | src/nodes/evidenceExtraction.ts:66 | every block's first line is the bracketed "[Slide p - Type: t]" header |
| EvidenceExtractionNode.FigureLines | src/nodes/evidenceExtraction.ts:72 | one line per figure, in order |
| EvidenceExtractionNode.LogoTexts | src/nodes/evidenceExtraction.ts:75 | one text per logo, in order |
| EvidenceExtractionNode.VisualLines | src/nodes/evidenceExtraction.ts:79 | one line per visual structure, in order |
| EvidenceExtractionNode.When | src/nodes/evidenceExtraction.ts:67-81 | a conditional part is present iff its condition holds, and is then its text |
| EvidenceExtractionNode.Candidates | src/nodes/evidenceExtraction.ts:65-82 | the parts array has eight entries, each null or a non-empty string |
| EvidenceExtractionNode.Compact | src/nodes/evidenceExtraction.ts:83 | `filter(Boolean)` keeps no empty string and never lengthens the list |
| EvidenceExtractionNode.CompactEight | src/nodes/evidenceExtraction.ts:83 | over eight entries none of which is "", the filter keeps exactly the present ones, in order |
| EvidenceExtractionNode.SlideParts | src/nodes/evidenceExtraction.ts:65-84 | a block's lines are the header, then each present part in the listed order |
| EvidenceExtractionNode.SlidePartsPresent | src/nodes/evidenceExtraction.ts:67-81 | the Title line is present iff the title is truthy; each of Bullets, Figures, Logos, Claims, Visuals and Caveats iff its list is non-empty |
| EvidenceExtractionNode.BareSlide | src/nodes/evidenceExtraction.ts:65-84 | a slide with nothing but its header renders as the header alone |
| EvidenceExtractionNode.SlideBlockStartsWithHeader | src/nodes/evidenceExtraction.ts:65-86 | every block opens with its slide's header |
| EvidenceExtractionNode.SlideBlocks | src/nodes/evidenceExtraction.ts:63-87 | one block per slide, in order |
| EvidenceExtractionNode.DeckContextCases | src/nodes/evidenceExtraction.ts:60-89 | "No pitch deck available." iff the slides are null or empty; otherwise the context opens with the first header and contains every slide's block |
| EvidenceExtractionNode.DeckContext | src/nodes/evidenceExtraction.ts:60-89 | null or empty slides give "No pitch deck available." |
| EvidenceExtractionNode.NoContentNoCall | src/nodes/evidenceExtraction.ts:102-114 | without website chunks and deck slides the model is not consulted |
| EvidenceExtractionNode.ModelSeesContexts | src/nodes/evidenceExtraction.ts:116-141 | the model sees only the two rendered contexts |
| EvidenceExtractionNode.EvidenceExtraction | src/nodes/evidenceExtraction.ts:97-168 | the update sets evidence and at most errors. evidence is non-null iff there is website or deck content and the model returns, and then errors are left alone. Without content, errors are the state's followed by the no-content message. A failing model gives the state's errors followed by one message with the node's failure prefix |
| EvidenceExtractionNode.EvidenceExtractionMerged | src/nodes/evidenceExtraction.ts:97-168 | after the merge, evidence is set iff there is content and the model returns. Success keeps the errors. Both failure branches repeat the earlier errors before their message. Nothing else changes |
| EvidenceText.SourceTag | src/nodes/coreAnalysis.ts:44 | a deck-slide source is tagged with "Slide " and its page, or "Slide undefined" without one; a website source is tagged with its location, or "undefined" without one |
| EvidenceText.SourceTagReadsBack | src/nodes/coreAnalysis.ts:44 | for a deck slide with a page, the digits after "Slide " read back as that page |
| EvidenceText.Numbered | src/nodes/coreAnalysis.ts:44-72 | line i is "<i+1>. " followed by the i-th text, one line per item |
| EvidenceText.NumberedReadsBack | src/nodes/coreAnalysis.ts:44 | the digits line i opens with read back as i + 1, followed by ". " and the text itself |
| EvidenceText.Texts | src/nodes/coreAnalysis.ts:65 | each item's text, in order |
| EvidenceText.TaggedTexts | src/nodes/coreAnalysis.ts:44 | each item's text with its source tag, in order |
| EvidenceText.Section | src/nodes/coreAnalysis.ts:44 | a section opens with its heading |
| Pushes.Kept | src/nodes/coreAnalysis.ts:39-73 | the guarded pushes keep no more items than there are candidates |
| Pushes.KeptSubsequence | src/nodes/coreAnalysis.ts:39-73 | the pushed sections keep their candidate order |
| Pushes.KeptMembers | src/nodes/coreAnalysis.ts:39-73 | only candidate sections are pushed |
| Pushes.KeptIff | src/nodes/coreAnalysis.ts:42-70 | with distinct candidates, a candidate is pushed iff its guarding list is non-empty |
| Pushes.PositionsFrom | src/nodes/coreAnalysis.ts:42-73 | the positions from a start on with a non-empty guard, increasing |
| Pushes.Positions | src/nodes/coreAnalysis.ts:42-73 | exactly the positions with a non-empty guard, in increasing order |
| Pushes.KeptAt | src/nodes/coreAnalysis.ts:39-73 | the pushed sections are the candidates at those positions, in order |
| Pushes.KeptNone | src/nodes/coreAnalysis.ts:39-75 | when every guard is empty nothing is pushed |
| Pushes.KeptAll | src/nodes/coreAnalysis.ts:39-75 | when every guard is non-empty every candidate is pushed |
| Pushes.KeptAppend | src/nodes/coreAnalysis.ts:39-73 | pushing over two stretches of candidates is pushing over their concatenation |
| Pushes.KeptSnoc | src/nodes/coreAnalysis.ts:39-73 | one more guarded push extends the kept prefix |
| Pushes.KeptFive | src/nodes/coreAnalysis.ts:42-73 | five guarded pushes from [] keep exactly the specified sections |
| Pushes.KeptSix | src/nodes/mergeAnalysis.ts:110-116 | six guarded pushes from [] keep exactly the specified sections |
| Pushes.PushStep | src/nodes/coreAnalysis.ts:42-46 | `if (size > 0) xs.push(item)` is concatenation with zero or one item |
| Pushes.KeptJoinContains | src/nodes/coreAnalysis.ts:39-75 | every candidate section whose guarding list is non-empty occurs in the joined context |
| PipelineSchema.OneMoreErrorOf | src/nodes/coreAnalysis.ts:125 | `[...state.errors, message]` keeps the earlier errors as a prefix and adds exactly one message |
| CoreAnalysisNode.RelevantClaims | src/nodes/coreAnalysis.ts:71 | at most the first five claims, as a prefix of the claims |
| CoreAnalysisNode.CoreSections | src/nodes/coreAnalysis.ts:42-73 | five candidate sections, in push order |
| CoreAnalysisNode.CoreSizes | src/nodes/coreAnalysis.ts:42-70 | one guarding list per candidate section |
| CoreAnalysisNode.CoreSectionsAt | src/nodes/coreAnalysis.ts:39-75 | a section appears iff its list is non-empty, in the order Problem, Solution, Value Proposition, Market Context, Claims |
| CoreAnalysisNode.ClaimsSectionLines | src/nodes/coreAnalysis.ts:70-73 | the claims section lists at most five claims, numbered from 1, without a source tag |
| CoreAnalysisNode.CoreContextEmpty | src/nodes/coreAnalysis.ts:39-75 | evidence with all five lists empty renders as the empty context |
| CoreAnalysisNode.BuildCoreEvidenceContext | src/nodes/coreAnalysis.ts:35-76 | the method's pushes and join compute exactly the specified context ("No evidence available." without evidence) |
| CoreAnalysisNode.PushCoreSections | src/nodes/coreAnalysis.ts:39-73 | the five guarded pushes, in order |
| CoreAnalysisNode.CoreEvidenceContext | src/nodes/coreAnalysis.ts:35-76 | "No evidence available." without evidence; otherwise every section whose list is non-empty appears in the context |
| CoreAnalysisNode.CoreAnalysis | src/nodes/coreAnalysis.ts:84-128 | the update sets core and at most errors. core is non-null iff there is evidence and the model returns, and then errors are left alone. Otherwise errors are the state's followed by one message with the node's failure prefix |
| CoreAnalysisNode.NoEvidenceNoCall | src/nodes/coreAnalysis.ts:88-90 | without evidence the model is not consulted |
| CoreAnalysisNode.CoreAnalysisMerged | src/nodes/coreAnalysis.ts:84-128 | after the merge, core is set iff there is evidence and the model returns. Success keeps the errors. Missing evidence or a failing model repeats the earlier errors before the message. Nothing else changes |
| BusinessAnalysisNode.FundingLineDefault | src/nodes/businessAnalysis.ts:68 | a funding line opens with the round type, or "Round" when it is missing or empty. With no amount, investors or date, the line is that opening alone |
| BusinessAnalysisNode.TeamLineBare | src/nodes/businessAnalysis.ts:47 | a team fact without role or background renders as the name alone |
| BusinessAnalysisNode.TeamLines | src/nodes/businessAnalysis.ts:47 | one tagged line per team fact, in order |
| BusinessAnalysisNode.TractionLines | src/nodes/businessAnalysis.ts:54 | one tagged line per traction fact, in order |
| BusinessAnalysisNode.FundingLines | src/nodes/businessAnalysis.ts:68 | one tagged line per funding fact, in order |
| BusinessAnalysisNode.BusinessSections | src/nodes/businessAnalysis.ts:45-77 | five candidate sections, in push order |
| BusinessAnalysisNode.BusinessSizes | src/nodes/businessAnalysis.ts:45-73 | one guarding list per candidate section |
| BusinessAnalysisNode.BusinessSectionsAt | src/nodes/businessAnalysis.ts:42-79 | a section appears iff its list is non-empty, in the order Team, Traction, Competition, Funding, Business Model |
| BusinessAnalysisNode.BuildBusinessEvidenceContext | src/nodes/businessAnalysis.ts:38-80 | the method's pushes and join compute exactly the specified context ("No evidence available." without evidence) |
| BusinessAnalysisNode.PushBusinessSections | src/nodes/businessAnalysis.ts:42-77 | the five guarded pushes, in order |
| BusinessAnalysisNode.BusinessEvidenceContext | src/nodes/businessAnalysis.ts:38-80 | "No evidence available." without evidence; otherwise every section whose list is non-empty appears in the context |
| BusinessAnalysisNode.BusinessAnalysis | src/nodes/businessAnalysis.ts:88-133 | the update sets business and at most errors. business is non-null iff there is evidence and the model returns, and then errors are left alone. Otherwise errors are the state's followed by one message with the node's failure prefix |
| BusinessAnalysisNode.NoEvidenceNoCall | src/nodes/businessAnalysis.ts:92-94 | without evidence the model is not consulted |
| BusinessAnalysisNode.BusinessAnalysisMerged | src/nodes/businessAnalysis.ts:88-133 | after the merge, business is set iff there is evidence and the model returns. Success keeps the errors. Missing evidence or a failing model repeats the earlier errors before the message. Nothing else changes |
| RiskAnalysisNode.SizeText | src/nodes/riskAnalysis.ts:72 | the team size, or "Unknown" when it is missing or empty |
| RiskAnalysisNode.MemberLines | src/nodes/riskAnalysis.ts:74 | one "- name (role)" line per member, in order |
| RiskAnalysisNode.MetricPairs | src/nodes/riskAnalysis.ts:77 | one "metric: value" pair per metric, in order |
| RiskAnalysisNode.MetricsText | src/nodes/riskAnalysis.ts:77 | "None reported" when there are no metrics, else the pairs joined by ", " |
| RiskAnalysisNode.MonetizationText | src/nodes/riskAnalysis.ts:91 | "Not specified" when the list is absent or joins to the empty string, else the joined list |
| RiskAnalysisNode.BusinessSummaries | src/nodes/riskAnalysis.ts:71-91 | five business sections, in push order |
| RiskAnalysisNode.BusinessSummaryHeadings | src/nodes/riskAnalysis.ts:71-91 | each business section opens with its own heading: Team, Traction, Competition, Funding, Business Model |
| RiskAnalysisNode.CoverageCounts | src/nodes/riskAnalysis.ts:98-104 | seven evidence counts, in print order |
| RiskAnalysisNode.CoverageLines | src/nodes/riskAnalysis.ts:98-104 | each coverage line is its label followed by its count |
| RiskAnalysisNode.CoverageReadsBack | src/nodes/riskAnalysis.ts:98-104 | the digits after each label read back as the corresponding array length |
| RiskAnalysisNode.CorePart | src/nodes/riskAnalysis.ts:60-65 | one section iff there is a core |
| RiskAnalysisNode.BusinessPart | src/nodes/riskAnalysis.ts:68-92 | five sections iff there is a business analysis |
| RiskAnalysisNode.CoveragePart | src/nodes/riskAnalysis.ts:95-105 | one section iff there is evidence |
| RiskAnalysisNode.RiskSectionsShape | src/nodes/riskAnalysis.ts:56-107 | the core section comes first iff there is a core, then the five business sections iff there is a business analysis, then coverage iff there is evidence |
| RiskAnalysisNode.BuildRiskContext | src/nodes/riskAnalysis.ts:56-108 | the method's pushes and join compute exactly the specified context |
| RiskAnalysisNode.RiskContext | src/nodes/riskAnalysis.ts:56-108 | the context opens with the core summary when there is a core, and contains every pushed section |
| RiskAnalysisNode.RiskAnalysis | src/nodes/riskAnalysis.ts:116-169 | the update sets risk and at most errors. risk is non-null iff core and business are both present and the model returns, and then errors are left alone. Otherwise errors are the state's followed by one message with the node's failure prefix |
| RiskAnalysisNode.ConsultedContext | src/nodes/riskAnalysis.ts:120-124 | when the model is consulted, its context is the core section then the five business sections, plus coverage iff there is evidence |
| RiskAnalysisNode.MissingInputsNoCall | src/nodes/riskAnalysis.ts:120-122 | without both core and business the model is not consulted |
| RiskAnalysisNode.RiskAnalysisMerged | src/nodes/riskAnalysis.ts:116-169 | after the merge, risk is set iff both analyses exist and the model returns. Success keeps the errors. A missing input or a failing model repeats the earlier errors before the message. Nothing else changes |
| InvestmentMemoNode.CategoriesOf | src/nodes/investmentMemo.ts:166-173 | each risk's category, in order |
| InvestmentMemoNode.InCategory | src/nodes/investmentMemo.ts:168-169 | a category's group holds only risks of that category |
| InvestmentMemoNode.InCategoryComplete | src/nodes/investmentMemo.ts:168-169 | every risk is in the group of its own category |
| InvestmentMemoNode.InCategorySizes | src/nodes/investmentMemo.ts:166-173 | over distinct categories that cover every risk, the group sizes add up to the number of risks |
| InvestmentMemoNode.GroupSizesSnoc | src/nodes/investmentMemo.ts:169 | one more risk adds one to the group sizes when its category is listed |
| InvestmentMemoNode.GroupsPartitionRisks | src/nodes/investmentMemo.ts:166-173 | the groups of the distinct categories hold every risk exactly once |
| InvestmentMemoNode.GroupRisks | src/nodes/investmentMemo.ts:166-173 | the reduce succeeds iff no category is a property name inherited from Object.prototype. Then the categories come in first-occurrence order, each with exactly its risks in original order. Otherwise it fails at an inherited name |
| InvestmentMemoNode.GroupableSnoc | src/nodes/investmentMemo.ts:168-169 | a risk with a non-inherited category keeps the prefix groupable |
| InvestmentMemoNode.AddRisk | src/nodes/investmentMemo.ts:168-170 | one reduce step: after `if (!acc[c]) acc[c] = []` and the push, the accumulator is the grouping of one more risk |
| InvestmentMemoNode.StepOrder | src/nodes/investmentMemo.ts:168 | a category joins the key order exactly when it is new |
| InvestmentMemoNode.StepKeys | src/nodes/investmentMemo.ts:168 | after the step, the keys are exactly the categories seen |
| InvestmentMemoNode.StepValues | src/nodes/investmentMemo.ts:169 | after the step, each key holds exactly its category's risks seen so far, in order |
| InvestmentMemoNode.InCategoryAbsent | src/nodes/investmentMemo.ts:168 | a category that does not occur has an empty group |
| InvestmentMemoNode.CategoriesSnoc | src/nodes/investmentMemo.ts:166-173 | one more risk appends its category |
| InvestmentMemoNode.InCategorySnoc | src/nodes/investmentMemo.ts:169 | one more risk extends only its own category's group |
| InvestmentMemoNode.RiskLineSeverity | src/nodes/investmentMemo.ts:179 | a risk line is "- desc", ending in " [severity]" exactly when a severity is given |
| InvestmentMemoNode.RiskLines | src/nodes/investmentMemo.ts:179 | one line per risk, in order |
| InvestmentMemoNode.RiskBlock | src/nodes/investmentMemo.ts:179 | a block opens with the upper-cased category and a colon on its own line |
| InvestmentMemoNode.RiskBlocks | src/nodes/investmentMemo.ts:176-181 | one block per distinct category |
| InvestmentMemoNode.RiskBlocksOrder | src/nodes/investmentMemo.ts:166-181 | the blocks follow the categories' first occurrences, and each lists exactly the risks of its category, in order |
| InvestmentMemoNode.TeamMemberEntries | src/nodes/investmentMemo.ts:134 | one entry per team member, in order |
| InvestmentMemoNode.OptionalLine | src/nodes/investmentMemo.ts:135-158 | the caption and text when the text is truthy, else an empty line |
| InvestmentMemoNode.MonetizationLine | src/nodes/investmentMemo.ts:163 | "Monetization: ..." only for a non-empty list, else an empty line |
| InvestmentMemoNode.MemoSections | src/nodes/investmentMemo.ts:108-185 | eleven sections, in push order |
| InvestmentMemoNode.MemoHeadings | src/nodes/investmentMemo.ts:111-185 | one heading per section |
| InvestmentMemoNode.MemoSectionHeadings | src/nodes/investmentMemo.ts:111-185 | every section is printed under its own heading, in the fixed order |
| InvestmentMemoNode.MemoContext | src/nodes/investmentMemo.ts:104-188 | "No analysis available" without a final analysis; otherwise it returns iff the risks can be grouped |
| InvestmentMemoNode.BuildMemoContext | src/nodes/investmentMemo.ts:104-188 | the method's pushes, reduce and join compute exactly the specified context, or throw the reduce's TypeError |
| InvestmentMemoNode.BuildRisksSection | src/nodes/investmentMemo.ts:166-181 | the risks section when the risks can be grouped, else the TypeError of the failing push |
| InvestmentMemoNode.RenderBlocks | src/nodes/investmentMemo.ts:176-181 | mapping over the grouped entries gives exactly the specified blocks |
| InvestmentMemoNode.InvestmentMemo | src/nodes/investmentMemo.ts:196-239 | the update sets memo and at most errors. memo is non-null iff there is a final analysis whose risks can be grouped and the model returns, and then errors are left alone. Otherwise errors are the state's followed by one message with the node's failure prefix |
| InvestmentMemoNode.InvestmentMemoMerged | src/nodes/investmentMemo.ts:196-239 | after the merge, memo is set iff there is a groupable final analysis and the model returns. Success keeps the errors. Every failure repeats the earlier errors before its message. Nothing else changes |
| PromptTemplate.IndexOf | src/ai/prompts/competition.ts:71 | the position of the first occurrence of the pattern, or -1 when there is none |
| PromptTemplate.GetSubstitutionLiteral | src/ai/prompts/competition.ts:71 | a replacement without `$` patterns is inserted as written (section 22.1.3.19.1 of ECMA-262) |
| PromptTemplate.ReplaceFirst | src/ai/prompts/competition.ts:71 | a string without the pattern is unchanged |
| PromptTemplate.DollarPatternsExpand | src/ai/prompts/competition.ts:71 | "$$" inserts "$" and "$&" inserts the matched placeholder itself |
| PromptTemplate.FillFirst | src/ai/prompts/competition.ts:71 | filling the first slot of a placeholder keeps the template's pieces |
| PromptTemplate.NoPlaceholderInLit | src/ai/prompts/competition.ts:9-21 | brace-safe template prose holds no start of a placeholder |
| PromptTemplate.NoPlaceholderInOtherSlot | src/ai/prompts/competition.ts:9-21 | one placeholder holds no start of another |
| PromptTemplate.IndexOfShift | src/ai/prompts/competition.ts:71 | when the front holds no occurrence, the first occurrence is the shifted first one of the rest |
| PromptTemplate.ReplaceFirstAtStart | src/ai/prompts/competition.ts:71 | a placeholder at the very start is the one replaced |
| PromptTemplate.ReplaceFirstAfter | src/ai/prompts/competition.ts:71 | text before the first occurrence is kept in front of the replacement |
| PromptTemplate.ReplaceAt | src/ai/prompts/competition.ts:71 | `replace` with a `$`-free value splices the value in at the first occurrence |
| PromptTemplate.ReplaceFirstFills | src/ai/prompts/competition.ts:71 | one `replace` fills exactly the first slot of its placeholder and keeps all other text |
| PromptTemplate.LookupFirst | src/ai/prompts/competition.ts:70-82 | the value used for a name is that of its first replacement pair |
| PromptTemplate.Subst | src/ai/prompts/competition.ts:70-82 | substitution maps each piece, one for one |
| PromptTemplate.FillFirstIsSubst | src/ai/prompts/competition.ts:71 | with each placeholder in one slot, filling the first slot equals substituting that name |
| PromptTemplate.SubstTwice | src/ai/prompts/competition.ts:70-82 | substituting one pair and then the rest equals substituting all pairs at once |
| PromptTemplate.SubstKeepsSafety | src/ai/prompts/competition.ts:70-82 | substituting brace-safe values keeps the template brace-safe, with unique slots |
| PromptTemplate.ReplaceAllFills | src/ai/prompts/competition.ts:70-82 | the chained replacements write each value verbatim into the slot of its placeholder and keep all other text |
| PromptTemplate.ReplaceAll | src/ai/prompts/competition.ts:70-82 | a template with no "{{" comes back unchanged |
| PromptTemplate.NoOpenNoPlaceholder | src/ai/prompts/competition.ts:71 | text without "{{" holds no placeholder, so the search for one finds nothing |
| PromptTemplate.ReplaceAllLeavesNoPlaceholder | src/ai/prompts/competition.ts:70-82 | when every slot has a value, no "{{" is left |
| PromptTemplate.EarlierValueCapturesLaterSlot | src/ai/prompts/competition.ts:70-82 | order matters: an earlier value reading `{{b}}` receives b's value, and the template's own `{{b}}` slot stays unfilled |
| PromptTemplate.FillTwoSlots | src/ai/prompts/competition.ts:71-72 | of two slots, a replacement fills the one of its own placeholder |
| PromptTemplate.ReplaceAllTwo | src/ai/prompts/competition.ts:71-72 | two chained replacements are two first-occurrence replaces in order |
| PromptTemplate.RenderLitsSafe | src/ai/prompts/competition.ts:9-21 | prose made of brace-safe pieces is brace-safe |
| PromptTemplate.BraceSafeNoPlaceholder | src/ai/prompts/competition.ts:9-21 | brace-safe text contains no "{{" |
| ExtraContext.ExtraContextSectionCases | src/ai/prompts/traction.ts:209-222 | the section is empty iff the data is missing, empty or "{}"; otherwise it holds the data verbatim between its fixed head and tail |
| ExtraContext.WebsiteTextWithContext | src/ai/prompts/traction.ts:280 | the website slot's value starts with the page text, and is the page text alone without usable data |
| ExtraContextPrompt.NoContextIsLiteral | src/ai/prompts/extra_context.ts:622-627 | the default text holds no `$` replacement pattern, so it is inserted verbatim |
| ExtraContextPrompt.FormatExtraContextFills | src/ai/prompts/extra_context.ts:622-627 | the single `{{extra_context}}` slot receives the context, or "No additional context provided." when it is empty; every other character is kept |
| ExtraContextPrompt.FormatExtraContextPrompt | src/ai/prompts/extra_context.ts:622-627 | a template with no "{{" comes back unchanged, whatever the values |
| ProblemSolutionPrompt.Pairs | src/ai/prompts/problem_solution.ts:75-77 | the replacement names in order: startup_name, startup_url, website_text |
| ProblemSolutionPrompt.FormatProblemSolutionFills | src/ai/prompts/problem_solution.ts:70-78 | each value lands verbatim in its slot, the rest of the template is kept, and no placeholder remains when the template has no other slots |
| ProblemSolutionPrompt.FormatProblemSolutionPrompt | src/ai/prompts/problem_solution.ts:70-78 | a template with no "{{" comes back unchanged, whatever the values |
| CompetitionPrompt.Pairs | src/ai/prompts/competition.ts:71-81 | the eleven replacement names in their fixed order |
| CompetitionPrompt.FormatCompetitionFills | src/ai/prompts/competition.ts:70-82 | each parameter lands verbatim in its slot, the rest of the template is kept, and no placeholder remains when the template has no other slots |
| CompetitionPrompt.FormatCompetitionPrompt | src/ai/prompts/competition.ts:70-82 | a template with no "{{" comes back unchanged, whatever the values |
| TractionPrompt.Pairs | src/ai/prompts/traction.ts:273-280 | the eight replacement names in their fixed order; website_text carries the page text followed by the section |
| TractionPrompt.TractionWebsiteSlot | src/ai/prompts/traction.ts:280 | the `{{website_text}}` slot receives the page text followed by the private-context section |
| TractionPrompt.FormatTractionFills | src/ai/prompts/traction.ts:208-281 | each value lands verbatim in its slot, the rest of the template is kept, and no placeholder remains when the template has no other slots |
| TractionPrompt.FormatTractionPrompt | src/ai/prompts/traction.ts:208-281 | a template with no "{{" comes back unchanged, whatever the values |
| MarketPrompt.Pairs | src/ai/prompts/market.ts:237-245 | the nine replacement names in their fixed order, active_locations included |
| MarketPrompt.MarketWebsiteSlot | src/ai/prompts/market.ts:245 | the `{{website_text}}` slot receives the page text followed by the private-context section |
| MarketPrompt.FormatMarketFills | src/ai/prompts/market.ts:182-246 | each value lands verbatim in its slot, the rest of the template is kept, and no placeholder remains when the template has no other slots |
| MarketPrompt.FormatMarketPrompt | src/ai/prompts/market.ts:182-246 | a template with no "{{" comes back unchanged, whatever the values |
| TeamPrompt.Pairs | src/ai/prompts/team.ts:94-100 | the seven replacement names in their fixed order |
| TeamPrompt.TeamWebsiteSlot | src/ai/prompts/team.ts:100 | the `{{website_text}}` slot receives the page text followed by the private-context section |
| TeamPrompt.FormatTeamFills | src/ai/prompts/team.ts:70-101 | each value lands verbatim in its slot, the rest of the template is kept, and no placeholder remains when the template has no other slots |
| TeamPrompt.FormatTeamPrompt | src/ai/prompts/team.ts:70-101 | a template with no "{{" comes back unchanged, whatever the values |
| AnalysisGraph.Validate | src/ai/orchestration/graph.ts:33-62 | after validation every required property is present and active_locations is a list; the competition is untouched |
| AnalysisGraph.ValidateDefaults | src/ai/orchestration/graph.ts:39-49 | falsy properties get 'Unknown', [] or the Unknown problem/solution records; truthy ones are kept |
| AnalysisGraph.ValidatedSourcesFacts | src/ai/orchestration/graph.ts:49-53 | the sources have no repetitions and contain the startup URL. They keep the first-occurrence order of the given sources. The URL is appended last when it was not among them |
| AnalysisGraph.ValidateIdempotent | src/ai/orchestration/graph.ts:33-62 | validating a validated result changes nothing |
| AnalysisGraph.Clean | src/ai/orchestration/graph.ts:90-96 | a kept competitor's missing similarities, differences, active_locations and sources become []; every other field is unchanged |
| AnalysisGraph.KeptCompetitors | src/ai/orchestration/graph.ts:88-89 | a competitor occurs in the result iff it occurs in the input with a non-empty name, problem similarity and solution summary; the result is no longer than the input |
| AnalysisGraph.CleanCompetition | src/ai/orchestration/graph.ts:87-98 | one cleaned competitor per kept one |
| AnalysisGraph.KeptCompetitorsSubsequence | src/ai/orchestration/graph.ts:88-98 | the kept competitors keep their input order |
| AnalysisGraph.KeptCompetitorsAppend | src/ai/orchestration/graph.ts:88-89 | a single competitor is kept iff it passes the check, and the kept list of a concatenation is the concatenation of the kept lists; so every copy of a passing competitor survives |
| AnalysisGraph.CleanCompetitors | src/ai/orchestration/graph.ts:87-98 | the loop's pushes compute exactly the specified cleaned list |
| AnalysisGraph.CleanCompetitionWellFormed | src/ai/orchestration/graph.ts:89 | every stored competitor has a non-empty name, problem similarity and solution summary |
| AnalysisGraph.LocationsText | src/ai/orchestration/graph.ts:80 | the comma-joined locations, or "[]" when they join to nothing |
| AnalysisGraph.ToAnalysis | src/ai/orchestration/graph.ts:67-126 | the validated result read as an Analysis carries its sources, locations and competition |
| AnalysisGraph.RunResult | src/ai/orchestration/graph.ts:108-127 | a throw of the problem/solution call or of the competition call rejects the run with that same error. When both return, the analysis holds the cleaned competitor list, or [] for a missing one |
| AnalysisGraph.RunResultFacts | src/ai/orchestration/graph.ts:108-127 | a completed run has repetition-free sources containing the URL, and non-empty product type, sector and subsector. Every competitor has a non-empty name and problem similarity |
| AnalysisGraph.AnalysisState.constructor | src/ai/orchestration/graph.ts:112-117 | the initial state: name and URL given, empty website text, empty result |
| AnalysisGraph.AnalysisState.FetchNode | src/ai/orchestration/graph.ts:12-16 | stores the fetched homepage text and changes nothing else |
| AnalysisGraph.AnalysisState.AnalyzeNode | src/ai/orchestration/graph.ts:18-31 | stores the parsed answer to the problem/solution prompt, or passes the throw on with the state unchanged |
| AnalysisGraph.AnalysisState.ValidateNode | src/ai/orchestration/graph.ts:33-62 | the field-by-field updates leave exactly the specified validated result |
| AnalysisGraph.AnalysisState.CompetitionNode | src/ai/orchestration/graph.ts:64-104 | the prompt is built from the validated analysis, and the cleaned competitor list (or [] for a missing one) is stored; a throw passes on |
| AnalysisGraph.RunAnalysis | src/ai/orchestration/graph.ts:108-127 | fetch, analyze, validate and competition run in that order on one state object, and the result is the pure composition's |
| WebScraper.HeadingTags | src/services/scraper.ts:113 | H1, H2 and H3 match the heading test; P and LI do not |
| WebScraper.Items | src/services/scraper.ts:108-110 | the kept texts are trimmed and non-empty, and there are no more of them than elements |
| WebScraper.ItemsOf | src/services/scraper.ts:109-110 | a text is kept iff some element trims to it and it is non-empty |
| WebScraper.ItemsPrefix | src/services/scraper.ts:108-110 | one more element adds its trimmed text when that is non-empty |
| WebScraper.Groups | src/services/scraper.ts:113-127 | cutting before each heading: there are no empty groups, and there are no groups exactly when there are no texts |
| WebScraper.GroupsFlatten | src/services/scraper.ts:115-138 | the groups, read in order, give back exactly the kept texts |
| WebScraper.GroupsCut | src/services/scraper.ts:113-127 | every heading opens a group, and every group but the first opens with a heading |
| WebScraper.Lines | src/services/scraper.ts:118 | a chunk's lines are its group's texts, in order |
| WebScraper.ChunkIdInjective | src/services/scraper.ts:117-133 | distinct chunk numbers give distinct ids |
| WebScraper.ChunksOf | src/services/scraper.ts:116-137 | one chunk per group; chunk k is "chunk-k" with the joined lines and its group's location |
| WebScraper.TextChunks | src/services/scraper.ts:84-141 | no main content gives no chunks; otherwise there is one chunk per group of texts, and chunk k has id "chunk-k" |
| WebScraper.TextChunksShape | src/services/scraper.ts:84-141 | chunk k is "chunk-k" and holds the k-th group. The groups give the kept texts in order. A chunk's location is its opening heading, or "/" for leading text before any heading |
| WebScraper.NoContentNoChunks | src/services/scraper.ts:98-100 | no main content, or no elements, gives no chunks |
| WebScraper.ChunksOfSnoc | src/services/scraper.ts:131-137 | saving the last group appends its chunk, numbered by the count so far |
| WebScraper.PendingFirst | src/services/scraper.ts:108-127 | the first kept text opens the pending section |
| WebScraper.PendingHeading | src/services/scraper.ts:113-125 | a heading saves the non-empty pending section and becomes the current one |
| WebScraper.PendingContinue | src/services/scraper.ts:127 | any other text joins the pending lines |
| WebScraper.PendingStep | src/services/scraper.ts:108-128 | one kept element keeps the loop invariant |
| WebScraper.PendingDone | src/services/scraper.ts:130-140 | saving the final pending section, if any, completes exactly the specified chunks |
| WebScraper.ConsumeElement | src/services/scraper.ts:108-128 | the callback for one element keeps the loop invariant over the kept texts so far |
| WebScraper.ConsumeElements | src/services/scraper.ts:103-128 | after the forEach the invariant holds for all kept texts |
| WebScraper.ExtractTextChunks | src/services/scraper.ts:84-141 | the loop and the final save compute exactly the specified chunks |
| WebScraper.NormalizeUrl | src/services/scraper.ts:146-158 | the scheme is added when missing, and normalisation succeeds iff the URL constructor accepts the result |
| WebScraper.FetchPage | src/services/scraper.ts:23-55 | an invalid URL's error is passed on. A body is returned only after the URL normalises and the request answers ok, and it is that response's body |
| WebScraper.ScrapeWebsite | src/services/scraper.ts:17-79 | the result is the empty page with no chunks, or a page with the chunks of its own parsed html. A failing fetch gives the empty page, never a throw |
| WebScraper.ScrapeWebsiteOutcome | src/services/scraper.ts:17-79 | the page is read iff the URL parses, the direct request (or the proxied one when it throws) answers ok, and its body can be read. The chunks are the parsed page's. Any other failure gives html "" and no chunks, never a throw |
| LlmRetry.Pow2 | src/services/llmClients.ts:117 | a power of two is at least 1 |
| LlmRetry.FinalError | src/services/llmClients.ts:124 | the last error when it is truthy, else a new Error("Max retries exceeded") |
| LlmRetry.WithRetry | src/services/llmClients.ts:104-125 | at most maxRetries calls (none when it is not positive). A success is returned at once as the first success. If all fail, the last error is re-thrown, or "Max retries exceeded" with no calls. The delay after failure i is baseDelay * 2^i, with none after the final attempt |
| LlmRetry.WithDefaultRetry | src/services/llmClients.ts:104-125 | with the default arguments (3 attempts, base delay 1000 ms): at most three calls, the delays are a prefix of 1000 then 2000 ms, and there is a result iff one of the three attempts returns |
| LlmRetry.BackoffDoubles | src/services/llmClients.ts:116-117 | the first delay is baseDelay and each later one doubles |
| LlmRetry.FinalErrorOfLast | src/services/llmClients.ts:115-124 | a truthy last error is re-thrown unchanged; none or a falsy one is replaced |
| DeckFiles.FileChecksIgnoreCase | src/services/pdfUtils.ts:94-103 | case in the name does not matter for either check, and the type alone decides for "application/pdf" and "image/..." |
| DeckFiles.ImageFiles | src/services/pdfUtils.ts:119 | a file occurs in the result iff it occurs in the input and is an image; the result is no longer than the input |
| DeckFiles.ImageFilesInOrder | src/services/pdfUtils.ts:119 | the image files keep their upload order |
| DeckFiles.ImageFilesAppend | src/services/pdfUtils.ts:119 | a single file is kept iff it is an image, and filtering a concatenation is filtering each part; so every copy of an image file survives |
| DeckFiles.FirstFailure | src/services/pdfUtils.ts:65-74 | the first file whose read fails; all earlier reads succeed |
| DeckFiles.ImageSlides | src/services/pdfUtils.ts:62-77 | returns iff every read succeeds. Then there is one slide per file, in order, with page = index + 1, the file's data URL and its name |
| DeckFiles.ImagesToSlides | src/services/pdfUtils.ts:62-77 | the loop computes exactly the specified slides, or the first failing read's error |
| DeckFiles.ImageSlidesPages | src/services/pdfUtils.ts:70 | pages are positive, strictly increasing, and name their file |
| DeckFiles.LeadingPdfAlone | src/services/pdfUtils.ts:114-116 | a leading PDF is the only file converted; the files after it do not matter |
| DeckFiles.ImagesNumberedAfterFilter | src/services/pdfUtils.ts:119-120 | without a leading PDF, non-images are dropped before numbering: pages run 1..k over the kept images in upload order, and non-images are never read |
| DeckFiles.NoFilesNoSlides | src/services/pdfUtils.ts:109-111 | no files give no slides |
| DeckFiles.ProcessDeckFiles | src/services/pdfUtils.ts:108-121 | no files give no slides. A leading PDF gives exactly pdfToImages of that file. Otherwise a success has one slide per image file, numbered from 1 |
| Js.Trim | src/ai/core/renderer.ts:14 | the trimmed text has no white space at either end, and it is a contiguous part of the input with only white space before and after it |
| Js.Prefix | src/utils/web.ts:44 | `substring(0, n)` is the prefix of length n, clamped to the string |
| Js.ToLowerOfUpper | src/nodes/investmentMemo.ts:179 | upper-casing loses only the letters' case |
| Js.SplitJoin | src/ai/core/renderer.ts:6 | splitting at the separator undoes the join when no element contains it |
| Js.JoinStartsWithFirst | src/nodes/riskAnalysis.ts:107 | a join of a non-empty list opens with its first element |
| Js.JoinContainsAll | src/nodes/riskAnalysis.ts:107 | every element of a list occurs in its join |
| Js.NatToStringValue | src/nodes/mergeAnalysis.ts:86 | the printed digits read back as the number |
| Js.NatToStringInjective | src/services/scraper.ts:117 | distinct numbers print differently |
| Collections.Dedup | src/database/db.ts:46 | `[...new Set(xs)]` has the same members and no repetitions |
| Collections.DedupOrder | src/ai/orchestration/graph.ts:52-53 | de-duplication keeps each element at its first occurrence |
| Collections.DedupFromSnoc | src/ai/orchestration/graph.ts:52 | one more element is appended exactly when it is new |
| Collections.DedupIdempotent | src/ai/orchestration/graph.ts:52-53 | de-duplicating twice is de-duplicating once |

## Left out

- Calls into foreign services are parameters (uninterpreted functions) of the members that use them. These are:
  - the LLM (`callLLM`, `chain.invoke`, `withStructuredOutput`, the vision analysis);
  - `fetch` and `encodeURIComponent`;
  - the `URL` constructor and `DOMParser` with `querySelectorAll`;
  - pdf.js rendering (`pdfToImages`) and `FileReader`;
  - `parseJSON`.
- The lazy `<script>`/`<style>` removal regexes of `fetchWebsiteText` are one parameter, `dropCode`. Only the tag replacement, white-space collapse, trim and truncation are modelled.
- `crawlWebsite`, `cleanHTML` and the choice of main content in the scraper are DOM work. The page is given as the sequence of matched elements, or none when there is no main content.
- The request headers, the `mode` and the proxy flag's log line in `scrapeWebsite` and `fetchWebsiteText` are left out. They do not change the result.
- `console` logging is left out everywhere, including the risk-category tally in riskAnalysis, which is only logged.
- Clocks and locales are parameters:
  - `Date.now()` is `now` in the initial state;
  - `toISOString()` is `now` in the domain store and `analyzedAt` in the merge;
  - `toLocaleDateString()` is `localeDate` in the memo.
- `localStorage` and `JSON.stringify`/`JSON.parse` are modelled as a blob field that is absent, corrupt or present. The shape of parsed JSON is taken on trust, as the source's `as` casts do. A write that fails (`setItem` or `JSON.stringify` throwing) is the `writeError` parameter of the stores' save and delete. Its cause, such as a full storage quota, is not modelled.
- DomainDb.DomainStore.GetByUrl: an ordinary map lookup. It does not model keys inherited from `Object.prototype`: in the source, a domain literally named "constructor" is found in an empty store.
- DomainDb.DomainStore.Exists: map membership, so the `in` test's inherited keys (db.ts:33) are not modelled; the source reports "constructor" as existing in an empty store.
- DomainDb.DomainStore.Save: the `all[domain]` test (db.ts:50) is map membership, so an inherited key such as "constructor" is treated as a new domain and gets created_at = now, where the source takes the update branch.
- `Promise.all` is two evaluations on the same snapshot, merged in the listed order. Concurrency and completion order are not modelled, and neither is `batchProcess`.
- The sleeps of `withRetry` are recorded as the list of their delays rather than awaited.
- LlmRetry.Backoff: exact integer arithmetic. It does not model `Math.pow`'s floating point, which differs only beyond 2^53.
- Each LLM-backed node's call and result parsing is one function returning a value or a thrown error. The prompt texts are opaque parameters: the template lemmas take any template built from brace-safe prose and `{{name}}` slots.
- `toLowerCase`/`toUpperCase` map ASCII letters only; Unicode case mapping and UTF-16 lengths are not modelled, and '…' counts as one character. `trim` removes the full WhiteSpace and LineTerminator sets of ECMA-262.
- InvestmentMemoNode.RenderBlocks:
  - it returns the groups in first-occurrence order;
  - it does not model `Object.entries` listing integer-like keys (such as "1") first in ascending order;
  - categories that collide with `Object.prototype` members are modelled as the TypeError the push throws.
- EvidenceText.SourceTag: the page of a provenance is an integer, while src/schemas/evidence.ts:13 admits any number. A page such as 2.5, which the source prints as "Slide 2.5", is not modelled.
- BusinessAnalysisNode.TractionLines: a traction value is a string or an integer printed by its decimal digits. JavaScript's printing of other numbers, such as 2.5 or 1e21, is not modelled.
- The memo reads only the string fields its lines print. The figures of nested records are not modelled.
- GraphBuilder.Fail: the catastrophic catch pushes onto the state's errors array in place. That array may be shared with an earlier snapshot, but the model returns a new state and does not model the aliasing.
- GraphBuilder.MergeResult: the engine's TypeError text for a null node result is a constant, not the engine's exact wording.
- The ingestDeck catch branch is unreachable, because the filter cannot throw on well-typed slides, so it is not modelled. The ingestWebsite wrapper is not part of this model, since `scrapeWebsite` never throws.
- AnalysisGraph.AnalysisState.FetchNode takes the page text from a `fetchText` parameter. `fetchWebsiteText` itself is modelled in the Web module.
- The only malformed JSON answer the old pipeline handles is a non-list `active_locations`; other ill-typed answers are not modelled.
- `hostname` in the string helpers uses the `URL` constructor and is not modelled.
- UI components, the CLI, the integration test, the mocks and templates without logic, and the re-export files are not part of this model.
