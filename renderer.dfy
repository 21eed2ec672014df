/** The Markdown report of an analysis and its copy-paste block of
    one-line competitor summaries. */
module Renderer {
  import opened Js
  import opened AnalysisSchema

  const TruncateLimit := 180
  const Ellipsis: char := '\U{2026}'

  /** A bullet list, one "- item" line per item, or `ifEmpty` for no
      items; `renderLocations` and `bullets` differ only in that text. */
  function BulletList(items: seq<string>, ifEmpty: string): (r: string)
    ensures items == [] ==> r == ifEmpty
    ensures items != [] ==> StartsWith(r, "- " + items[0])
  {
    if |items| == 0 then ifEmpty
    else
      JoinStartsWith(Prefixed("- ", items), "\n");
      Join(Prefixed("- ", items), "\n")
  }

  function RenderLocations(locs: seq<string>): (r: string)
    ensures locs == [] ==> r == "- None specified"
  {
    BulletList(locs, "- None specified")
  }

  function Bullets(items: seq<string>): (r: string)
    ensures items == [] ==> r == "- None"
  {
    BulletList(items, "- None")
  }

  /** Reading the lines of a non-empty bullet list back gives one "- item"
      line per item, in order, when no item holds a line break. */
  lemma BulletListLines(items: seq<string>, ifEmpty: string)
    requires items != []
    requires forall k :: 0 <= k < |items| ==> '\n' !in items[k]
    ensures Split(BulletList(items, ifEmpty), '\n') == Prefixed("- ", items)
  {
    var lines := Prefixed("- ", items);
    forall k | 0 <= k < |lines| ensures '\n' !in lines[k] {
      assert lines[k] == "- " + items[k];
    }
    SplitJoin(lines, '\n');
  }

  /** `truncate`: the trimmed text when it fits in `n` characters;
      otherwise its first `n - 1` characters without trailing white space,
      followed by an ellipsis. */
  function Truncate(s: string, n: int): (r: string)
    ensures n >= 1 ==> |r| <= n
    ensures |Trim(s)| <= n ==> r == Trim(s)
    ensures |Trim(s)| > n ==>
      |r| >= 1 && r[|r| - 1] == Ellipsis
      && StartsWith(Trim(s), r[..|r| - 1])
      && (r[..|r| - 1] == [] || !IsSpace(r[|r| - 2]))
      && (n >= 1 ==> |r| <= n)
    ensures |Trim(s)| > n && n >= 1 ==>
      |r| - 1 <= n - 1 && forall i :: |r| - 1 <= i < n - 1 ==> IsSpace(Trim(s)[i])
    ensures |Trim(s)| > n && n < 1 ==> r == [Ellipsis]
  {
    var t := Trim(s);
    if |t| <= n then t
    else
      TruncatedPart(t, n);
      TrimEnd(Prefix(t, n - 1)) + [Ellipsis]
  }

  /** What is kept of a text longer than `n`: a prefix of its first
      `n - 1` characters, short of them by white space only. */
  lemma TruncatedPart(t: string, n: int)
    requires |t| > n
    ensures var r := TrimEnd(Prefix(t, n - 1)) + [Ellipsis];
      |r| >= 1 && r[|r| - 1] == Ellipsis
      && StartsWith(t, r[..|r| - 1])
      && (r[..|r| - 1] == [] || !IsSpace(r[|r| - 2]))
      && (n >= 1 ==> |r| <= n && |r| - 1 <= n - 1 && forall i :: |r| - 1 <= i < n - 1 ==> IsSpace(t[i]))
      && (n < 1 ==> r == [Ellipsis])
  {
    var p := Prefix(t, n - 1);
    var kept := TrimEnd(p);
    var r := kept + [Ellipsis];
    assert r[..|kept|] == kept && r[|r| - 1] == Ellipsis;
    assert kept != [] ==> r[|r| - 2] == kept[|kept| - 1];
    assert kept == t[..|kept|];
    if n >= 1 {
      forall i | |kept| <= i < n - 1 ensures IsSpace(t[i]) {
        assert p[i] == t[i];
      }
    }
  }

  /** The first element of a list, or the falsy `undefined` (here "") of an
      empty one. */
  function Head(xs: seq<string>): (r: string)
    ensures xs != [] ==> r == xs[0]
    ensures xs == [] ==> r == ""
  {
    if xs == [] then "" else xs[0]
  }

  /** The competitor's name, "Unknown" when empty, trimmed. */
  function ClipName(c: Competitor): (r: string)
    ensures NoSpaceAtEnds(r)
    ensures c.name == "" ==> r == "Unknown"
    ensures c.name != "" ==> r == Trim(c.name)
  {
    if c.name == "" then
      TrimOfTrimmed("Unknown");
      Trim("Unknown")
    else
      Trim(c.name)
  }

  /** A product type as compared: trimmed and lower-cased. */
  function Normalized(t: string): (r: string)
    ensures IsLower(r)
  {
    ToLowerIsLower(Trim(t));
    ToLower(Trim(t))
  }

  /** The product-type tag of a one-liner. */
  function SolutionTag(targetProductType: string, c: Competitor): (r: string)
    ensures !Truthy(c.product_type) ==> r == "solution unspecified"
    ensures Truthy(c.product_type) ==>
      r == "same product type" || r == "different product type (" + c.product_type.value + ")"
  {
    var tpt := Normalized(targetProductType);
    var cpt := Normalized(Or(c.product_type, ""));
    if cpt != "" && tpt != "" && cpt == tpt then "same product type"
    else if Truthy(c.product_type) then "different product type (" + c.product_type.value + ")"
    else "solution unspecified"
  }

  /** The three tags and exactly when each is chosen. */
  lemma SolutionTagCases(targetProductType: string, c: Competitor)
    ensures var same := Normalized(Or(c.product_type, "")) != ""
                        && Normalized(Or(c.product_type, "")) == Normalized(targetProductType);
      var r := SolutionTag(targetProductType, c);
      (r == "same product type" <==> same)
      && (r == "solution unspecified" <==> !Truthy(c.product_type))
      && (Truthy(c.product_type) && !same ==> r == "different product type (" + c.product_type.value + ")")
  {
    if !Truthy(c.product_type) {
      assert Or(c.product_type, "") == "";
      assert Trim("") == "";
    }
    var r := SolutionTag(targetProductType, c);
    if Truthy(c.product_type) && r != "same product type" {
      assert |r| > |"solution unspecified"|;
    }
  }

  /** The note: the first non-empty of the first difference, the first
      similarity and the solution summary, else "". */
  function Note(c: Competitor): (r: string)
    ensures Head(c.differences) != "" ==> r == c.differences[0]
    ensures Head(c.differences) == "" && Head(c.similarities) != "" ==> r == c.similarities[0]
    ensures Head(c.differences) == "" && Head(c.similarities) == "" ==> r == c.solution_summary
  {
    if Head(c.differences) != "" then Head(c.differences)
    else if Head(c.similarities) != "" then Head(c.similarities)
    else c.solution_summary
  }

  /** The locations joined by ", ", or "n/a" when that is empty. */
  function Geo(c: Competitor): (r: string)
    ensures r != ""
    ensures c.active_locations == [] ==> r == "n/a"
    ensures Join(c.active_locations, ", ") != "" ==> r == Join(c.active_locations, ", ")
  {
    var j := Join(c.active_locations, ", ");
    if j == "" then "n/a" else j
  }

  function ClipLine(targetProductType: string, c: Competitor): (r: string)
    ensures |r| > |"(no competitors found)"|
  {
    SolutionTagLength(targetProductType, c);
    ClipLead(targetProductType, c) + Truncate(Note(c), TruncateLimit) + "; geo: " + Geo(c)
  }

  /** A one-liner is the name part, the truncated note and the location
      part, in that order; the note has at most `TruncateLimit`
      characters. */
  lemma ClipLineParts(targetProductType: string, c: Competitor)
    ensures InThreeParts(ClipLine(targetProductType, c), ClipLead(targetProductType, c),
                         Truncate(Note(c), TruncateLimit), "; geo: " + Geo(c))
    ensures |Truncate(Note(c), TruncateLimit)| <= TruncateLimit
  {
    var lead := ClipLead(targetProductType, c);
    var note := Truncate(Note(c), TruncateLimit);
    ThreeParts(lead, note, "; geo: ", Geo(c));
  }

  /** The name and tag part of a one-liner, up to the note. */
  function ClipLead(targetProductType: string, c: Competitor): string {
    ClipName(c) + ": same problem; " + SolutionTag(targetProductType, c) + "; "
  }

  /** `line` is `a`, then `b`, then `tail`, and nothing else. */
  predicate InThreeParts(line: string, a: string, b: string, tail: string) {
    |line| == |a| + |b| + |tail| && StartsWith(line, a) && EndsWith(line, tail) && line[|a|..|a| + |b|] == b
  }

  lemma ThreeParts(a: string, b: string, c: string, d: string)
    ensures InThreeParts(a + b + c + d, a, b, c + d)
  {
    var r := a + b + c + d;
    assert r == a + b + (c + d);
    assert r[..|a|] == a;
    assert r[|r| - |c + d|..] == c + d;
    assert r[|a|..|a| + |b|] == b;
  }

  lemma SolutionTagLength(targetProductType: string, c: Competitor)
    ensures |SolutionTag(targetProductType, c)| >= |"same product type"|
  {
  }

  function ClipLines(targetProductType: string, competitors: seq<Competitor>): (r: seq<string>)
    ensures |r| == |competitors|
    ensures forall k :: 0 <= k < |r| ==> r[k] == ClipLine(targetProductType, competitors[k])
  {
    seq(|competitors|, k requires 0 <= k < |competitors| => ClipLine(targetProductType, competitors[k]))
  }

  /** `renderCompetitionClipboard` */
  function RenderCompetitionClipboard(targetProductType: string, competitors: seq<Competitor>): (r: string)
    ensures competitors == [] ==> r == "(no competitors found)"
    ensures competitors != [] ==> StartsWith(r, ClipLine(targetProductType, competitors[0]))
  {
    if |competitors| == 0 then "(no competitors found)"
    else
      JoinStartsWith(ClipLines(targetProductType, competitors), "\n");
      Join(ClipLines(targetProductType, competitors), "\n")
  }

  /** The placeholder text appears exactly when there are no competitors. */
  lemma ClipboardEmptyIff(targetProductType: string, competitors: seq<Competitor>)
    ensures RenderCompetitionClipboard(targetProductType, competitors) == "(no competitors found)"
        <==> competitors == []
  {
    if competitors != [] {
      JoinStartsWith(ClipLines(targetProductType, competitors), "\n");
    }
  }

  /** One line per competitor, in input order, when no line holds a line
      break of its own. */
  lemma ClipboardLines(targetProductType: string, competitors: seq<Competitor>)
    requires competitors != []
    requires forall k :: 0 <= k < |competitors| ==> '\n' !in ClipLine(targetProductType, competitors[k])
    ensures Split(RenderCompetitionClipboard(targetProductType, competitors), '\n')
         == ClipLines(targetProductType, competitors)
  {
    SplitJoin(ClipLines(targetProductType, competitors), '\n');
  }

  /** The sources list: a bullet list whose empty form ends with a line
      break of its own. */
  function SourcesList(sources: seq<string>): (r: string)
    ensures r == BulletList(sources, "- None\n")
  {
    if |sources| == 0 then "- None\n" else Join(Prefixed("- ", sources), "\n")
  }

  /** The website line, present only for a truthy website. */
  function WebsiteLine(c: Competitor): (r: string)
    ensures Truthy(c.website) ==> r == "**Website:** " + c.website.value + "\n"
    ensures !Truthy(c.website) ==> r == ""
  {
    if Truthy(c.website) then "**Website:** " + c.website.value + "\n" else ""
  }

  /** `renderCompetitor`: a Markdown section headed by the competitor's
      name. */
  function RenderCompetitor(c: Competitor): (r: string)
    ensures StartsWith(r, "### " + c.name + "\n")
    ensures EndsWith(r, "\n")
    ensures r == Join(CompetitorBlocks(c), "\n\n") + "\n"
  {
    var websiteLine := WebsiteLine(c);
    var prodLine := "**Product type:** " + Or(c.product_type, "Unknown") + "\n";
    var sect := "**Sector/Subsector:** " + Or(c.sector, "Unknown") + " / " + Or(c.subsector, "Unknown");
    var head := "### " + c.name + "\n";
    var body := websiteLine + prodLine + (sect + "\n")
      + "\n**Problem similarity:** " + c.problem_similarity
      + "\n\n**Solution summary:** " + c.solution_summary
      + "\n\n**Similarities**\n" + Bullets(c.similarities)
      + "\n\n**Differences**\n" + Bullets(c.differences)
      + "\n\n**Active Locations**\n" + RenderLocations(c.active_locations)
      + "\n\n**Sources**\n" + SourcesList(c.sources);
    HeadAndLastLine(head, body);
    BlocksOfCompetitor(c);
    CompetitorRegroup(head, websiteLine, prodLine, sect,
      c.problem_similarity, c.solution_summary, Bullets(c.similarities), Bullets(c.differences),
      RenderLocations(c.active_locations), SourcesList(c.sources));
    head + (body + "\n")
  }

  /** The header block of a competitor section: its name, then one line
      each for the website (when truthy), the product type and the
      sector/subsector, the empty ones shown as "Unknown". */
  function CompetitorHeader(c: Competitor): (r: string)
    ensures StartsWith(r, "### " + c.name + "\n" + WebsiteLine(c) + "**Product type:** " + Or(c.product_type, "Unknown") + "\n")
    ensures EndsWith(r, "**Sector/Subsector:** " + Or(c.sector, "Unknown") + " / " + Or(c.subsector, "Unknown"))
  {
    var lines := "### " + c.name + "\n" + WebsiteLine(c) + ("**Product type:** " + Or(c.product_type, "Unknown") + "\n");
    var sect := "**Sector/Subsector:** " + Or(c.sector, "Unknown") + " / " + Or(c.subsector, "Unknown");
    assert (lines + sect)[..|lines|] == lines;
    assert (lines + sect)[|lines + sect| - |sect|..] == sect;
    lines + sect
  }

  /** The captions of the blocks after the header, in order. */
  const CompetitorCaptions: seq<string> := [
    "**Problem similarity:** ", "**Solution summary:** ", "**Similarities**\n",
    "**Differences**\n", "**Active Locations**\n", "**Sources**\n"]

  /** The text under each caption of `CompetitorCaptions`. */
  function CompetitorFields(c: Competitor): (r: seq<string>)
    ensures |r| == |CompetitorCaptions|
    ensures r[0] == c.problem_similarity && r[1] == c.solution_summary
    ensures r[2] == Bullets(c.similarities) && r[3] == Bullets(c.differences)
    ensures r[4] == RenderLocations(c.active_locations) && r[5] == SourcesList(c.sources)
  {
    [c.problem_similarity, c.solution_summary, Bullets(c.similarities), Bullets(c.differences),
     RenderLocations(c.active_locations), SourcesList(c.sources)]
  }

  /** The blocks of a competitor section: the header, then each caption of
      `CompetitorCaptions` followed by its text. */
  function CompetitorBlocks(c: Competitor): (r: seq<string>)
    ensures |r| == 1 + |CompetitorCaptions|
    ensures r[0] == CompetitorHeader(c)
    ensures forall k :: 0 <= k < |CompetitorCaptions| ==> r[k + 1] == CompetitorCaptions[k] + CompetitorFields(c)[k]
  {
    var f := CompetitorFields(c);
    [CompetitorHeader(c)] + seq(|f|, k requires 0 <= k < |f| => CompetitorCaptions[k] + f[k])
  }

  /** The blocks of a competitor section joined by blank lines, written
      out one by one. */
  lemma BlocksOfCompetitor(c: Competitor)
    ensures Join(CompetitorBlocks(c), "\n\n") ==
      ("### " + c.name + "\n" + WebsiteLine(c) + ("**Product type:** " + Or(c.product_type, "Unknown") + "\n")
        + ("**Sector/Subsector:** " + Or(c.sector, "Unknown") + " / " + Or(c.subsector, "Unknown")))
      + "\n\n" + (CompetitorCaptions[0] + c.problem_similarity)
      + "\n\n" + (CompetitorCaptions[1] + c.solution_summary)
      + "\n\n" + (CompetitorCaptions[2] + Bullets(c.similarities))
      + "\n\n" + (CompetitorCaptions[3] + Bullets(c.differences))
      + "\n\n" + (CompetitorCaptions[4] + RenderLocations(c.active_locations))
      + "\n\n" + (CompetitorCaptions[5] + SourcesList(c.sources))
  {
    var b := CompetitorBlocks(c);
    JoinUnfoldSeven(b, "\n\n");
    assert b[1] == CompetitorCaptions[0] + c.problem_similarity;
    assert b[2] == CompetitorCaptions[1] + c.solution_summary;
    assert b[3] == CompetitorCaptions[2] + Bullets(c.similarities);
    assert b[4] == CompetitorCaptions[3] + Bullets(c.differences);
    assert b[5] == CompetitorCaptions[4] + RenderLocations(c.active_locations);
    assert b[6] == CompetitorCaptions[5] + SourcesList(c.sources);
  }

  /** The template of `renderCompetitor`, regrouped into its blocks. */
  lemma CompetitorRegroup(head: string, w: string, prod: string, sect: string,
                          x0: string, x1: string, x2: string, x3: string, x4: string, x5: string)
    ensures head + (w + prod + (sect + "\n")
      + "\n**Problem similarity:** " + x0
      + "\n\n**Solution summary:** " + x1
      + "\n\n**Similarities**\n" + x2
      + "\n\n**Differences**\n" + x3
      + "\n\n**Active Locations**\n" + x4
      + "\n\n**Sources**\n" + x5 + "\n")
      == (head + w + prod + sect) + "\n\n" + (CompetitorCaptions[0] + x0)
         + "\n\n" + (CompetitorCaptions[1] + x1) + "\n\n" + (CompetitorCaptions[2] + x2)
         + "\n\n" + (CompetitorCaptions[3] + x3) + "\n\n" + (CompetitorCaptions[4] + x4)
         + "\n\n" + (CompetitorCaptions[5] + x5) + "\n"
  {
    var sep := "\n\n";
    var t0 := w + prod + (sect + "\n") + "\n**Problem similarity:** " + x0;
    var t1 := t0 + "\n\n**Solution summary:** " + x1;
    var t2 := t1 + "\n\n**Similarities**\n" + x2;
    var t3 := t2 + "\n\n**Differences**\n" + x3;
    var t4 := t3 + "\n\n**Active Locations**\n" + x4;
    var t5 := t4 + "\n\n**Sources**\n" + x5;
    HeaderBlock(head, w, prod, sect, CompetitorCaptions[0], x0);
    var j1 := (head + w + prod + sect) + sep + (CompetitorCaptions[0] + x0);
    var j2 := j1 + sep + (CompetitorCaptions[1] + x1);
    NextBlock(head, t0, j1, "\n\n**Solution summary:** ", CompetitorCaptions[1], x1);
    var j3 := j2 + sep + (CompetitorCaptions[2] + x2);
    NextBlock(head, t1, j2, "\n\n**Similarities**\n", CompetitorCaptions[2], x2);
    var j4 := j3 + sep + (CompetitorCaptions[3] + x3);
    NextBlock(head, t2, j3, "\n\n**Differences**\n", CompetitorCaptions[3], x3);
    var j5 := j4 + sep + (CompetitorCaptions[4] + x4);
    NextBlock(head, t3, j4, "\n\n**Active Locations**\n", CompetitorCaptions[4], x4);
    var j6 := j5 + sep + (CompetitorCaptions[5] + x5);
    NextBlock(head, t4, j5, "\n\n**Sources**\n", CompetitorCaptions[5], x5);
    Suffix(head, t5, j6, "\n");
  }

  /** The header lines and the first caption, regrouped. */
  lemma HeaderBlock(head: string, w: string, prod: string, sect: string, cap: string, x: string)
    requires cap == "**Problem similarity:** "
    ensures head + (w + prod + (sect + "\n") + "\n**Problem similarity:** " + x)
         == (head + w + prod + sect) + "\n\n" + (cap + x)
  {
    assert "\n" + "\n**Problem similarity:** " == "\n\n" + cap;
  }

  /** The final line break, regrouped. */
  lemma Suffix(head: string, t: string, j: string, x: string)
    requires head + t == j
    ensures head + (t + x) == j + x
  {
  }

  /** One more caption and its text, regrouped. */
  lemma NextBlock(head: string, t: string, j: string, lit: string, cap: string, x: string)
    requires head + t == j
    requires lit == "\n\n" + cap
    ensures head + (t + lit + x) == j + "\n\n" + (cap + x)
  {
  }

  lemma JoinUnfoldSeven(b: seq<string>, sep: string)
    requires |b| == 7
    ensures Join(b, sep) == b[0] + sep + b[1] + sep + b[2] + sep + b[3] + sep + b[4] + sep + b[5] + sep + b[6]
  {
    var acc := b[0];
    for k := 1 to 6
      invariant Join(b, sep) == acc + sep + Join(b[k..], sep)
      invariant k == 1 ==> acc == b[0]
      invariant k == 2 ==> acc == b[0] + sep + b[1]
      invariant k == 3 ==> acc == b[0] + sep + b[1] + sep + b[2]
      invariant k == 4 ==> acc == b[0] + sep + b[1] + sep + b[2] + sep + b[3]
      invariant k == 5 ==> acc == b[0] + sep + b[1] + sep + b[2] + sep + b[3] + sep + b[4]
      invariant k == 6 ==> acc == b[0] + sep + b[1] + sep + b[2] + sep + b[3] + sep + b[4] + sep + b[5]
    {
      assert b[k..][1..] == b[k + 1..];
      JoinStep(acc, sep, b[k], Join(b[k + 1..], sep));
      acc := acc + sep + b[k];
    }
    assert Join(b[6..], sep) == b[6];
  }

  lemma HeadAndLastLine(head: string, body: string)
    ensures StartsWith(head + (body + "\n"), head)
    ensures EndsWith(head + (body + "\n"), "\n")
  {
    assert (head + (body + "\n"))[..|head|] == head;
  }

  function RenderedCompetitors(cs: seq<Competitor>): (r: seq<string>)
    ensures |r| == |cs|
    ensures forall k :: 0 <= k < |cs| ==> r[k] == RenderCompetitor(cs[k])
  {
    seq(|cs|, k requires 0 <= k < |cs| => RenderCompetitor(cs[k]))
  }

  function CompetitionSection(cs: seq<Competitor>): (r: string)
    ensures cs == [] ==> r == "No competitors found."
    ensures cs != [] ==> StartsWith(r, RenderCompetitor(cs[0]))
  {
    if |cs| > 0 then
      JoinStartsWith(RenderedCompetitors(cs), "\n\n");
      Join(RenderedCompetitors(cs), "\n\n")
    else "No competitors found."
  }

  /** "No competitors found." is written exactly when there are none. */
  lemma CompetitionSectionEmptyIff(cs: seq<Competitor>)
    ensures CompetitionSection(cs) == "No competitors found." <==> cs == []
  {
    if cs != [] {
      var rs := RenderedCompetitors(cs);
      JoinStartsWith(rs, "\n\n");
      assert Join(rs, "\n\n")[0] == rs[0][0] == '#';
    }
  }

  const MarkdownHeadings: seq<string> := [
    "## Problem", "## Solution", "## Product Type", "## Sector", "## Active Locations",
    "## Competition (Structured)", "## Competition (Copy-paste one-liners)", "## Sources"]

  /** The text under each heading of `MarkdownHeadings`, in order. */
  function MarkdownBodies(a: Analysis): (r: seq<string>)
    ensures |r| == |MarkdownHeadings|
  {
    [ "**General:** " + a.problem.general + "\n**Example:** " + a.problem.example,
      "**Product:** " + a.solution.what_it_is + "\n**How it works:** " + a.solution.how_it_works
        + "\n**Example:** " + a.solution.example,
      a.product_type,
      "**Sector:** " + a.sector + "  \n**Subsector:** " + a.subsector,
      RenderLocations(a.active_locations),
      CompetitionSection(a.competition),
      RenderCompetitionClipboard(a.product_type, a.competition),
      Join(Prefixed("- ", a.sources), "\n") ]
  }

  /** The sections of the report: each heading line of
      `MarkdownHeadings` followed by its text. */
  function Sections(a: Analysis): (r: seq<string>)
    ensures |r| == |MarkdownHeadings|
    ensures forall k :: 0 <= k < |r| ==> StartsWith(r[k], MarkdownHeadings[k] + "\n")
  {
    var bodies := MarkdownBodies(a);
    assert forall k :: 0 <= k < |bodies| ==>
      (MarkdownHeadings[k] + "\n" + bodies[k])[..|MarkdownHeadings[k] + "\n"|] == MarkdownHeadings[k] + "\n";
    seq(|bodies|, k requires 0 <= k < |bodies| => MarkdownHeadings[k] + "\n" + bodies[k])
  }

  /** `renderMarkdown`: the template, section by section. The report is
      its blocks separated by blank lines, with a final line break: the
      sections always appear, in the order of `MarkdownHeadings`. */
  function RenderMarkdown(name: string, url: string, a: Analysis): (r: string)
    ensures r == Join(MarkdownBlocks(name, url, a), "\n\n") + "\n"
  {
    JoinUnfold(MarkdownBlocks(name, url, a), "\n\n");
    var s := Sections(a);
    ("# " + name) + "\n\n" + ("**Website:** " + url)
    + "\n\n" + s[0] + "\n\n" + s[1] + "\n\n" + s[2] + "\n\n" + s[3]
    + "\n\n" + s[4] + "\n\n" + s[5] + "\n\n" + s[6] + "\n\n" + s[7] + "\n"
  }

  /** The blocks of the report: title, website, then the sections. */
  function MarkdownBlocks(name: string, url: string, a: Analysis): (r: seq<string>)
    ensures |r| == 2 + |MarkdownHeadings|
    ensures r[0] == "# " + name && r[1] == "**Website:** " + url
    ensures forall k :: 0 <= k < |MarkdownHeadings| ==> StartsWith(r[k + 2], MarkdownHeadings[k] + "\n")
  {
    ["# " + name, "**Website:** " + url] + Sections(a)
  }

  lemma JoinUnfold(b: seq<string>, sep: string)
    requires |b| == 10
    ensures Join(b, sep) == b[0] + sep + b[1] + sep + b[2] + sep + b[3] + sep + b[4] + sep
                          + b[5] + sep + b[6] + sep + b[7] + sep + b[8] + sep + b[9]
  {
    var acc := b[0];
    for k := 1 to 9
      invariant Join(b, sep) == acc + sep + Join(b[k..], sep)
      invariant k == 1 ==> acc == b[0]
      invariant k == 2 ==> acc == b[0] + sep + b[1]
      invariant k == 3 ==> acc == b[0] + sep + b[1] + sep + b[2]
      invariant k == 4 ==> acc == b[0] + sep + b[1] + sep + b[2] + sep + b[3]
      invariant k == 5 ==> acc == b[0] + sep + b[1] + sep + b[2] + sep + b[3] + sep + b[4]
      invariant k == 6 ==> acc == b[0] + sep + b[1] + sep + b[2] + sep + b[3] + sep + b[4] + sep + b[5]
      invariant k == 7 ==> acc == b[0] + sep + b[1] + sep + b[2] + sep + b[3] + sep + b[4] + sep + b[5]
                                  + sep + b[6]
      invariant k == 8 ==> acc == b[0] + sep + b[1] + sep + b[2] + sep + b[3] + sep + b[4] + sep + b[5]
                                  + sep + b[6] + sep + b[7]
      invariant k == 9 ==> acc == b[0] + sep + b[1] + sep + b[2] + sep + b[3] + sep + b[4] + sep + b[5]
                                  + sep + b[6] + sep + b[7] + sep + b[8]
    {
      assert b[k..][1..] == b[k + 1..];
      JoinStep(acc, sep, b[k], Join(b[k + 1..], sep));
      acc := acc + sep + b[k];
    }
    assert Join(b[9..], sep) == b[9];
  }

  lemma JoinStep(acc: string, sep: string, x: string, rest: string)
    ensures acc + sep + (x + sep + rest) == (acc + sep + x) + sep + rest
  {
  }
}
