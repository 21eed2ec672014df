/** The line formats the analysis nodes share when they render evidence
    for a model: the provenance tag, the numbering and the bold-headed
    section. */
module EvidenceText {
  import opened Js
  import opened PipelineSchema

  /** What a builder returns when the state has no evidence. */
  const NoEvidence: string := "No evidence available."

  /** The provenance of an item: `Slide <page>` for a deck slide, else the
      location; an absent page or location prints as `undefined`. */
  function SourceTag(p: Provenance): (r: string)
    ensures p.kind == DeckSlide ==> StartsWith(r, "Slide ")
    ensures p.kind == DeckSlide && p.page.None? ==> r == "Slide undefined"
    ensures p.kind == Website ==> r == OptText(p.location)
  {
    if p.kind == DeckSlide then "Slide " + OptIntText(p.page) else OptText(p.location)
  }

  /** The digits after `Slide ` read back as the slide's page. */
  lemma SourceTagReadsBack(p: Provenance)
    requires p.kind == DeckSlide && p.page.Some? && p.page.value >= 0
    ensures var r := SourceTag(p);
      |r| > 6 && r[..6] == "Slide " && DigitsValue(r[6..]) == p.page.value &&
      forall k :: 6 <= k < |r| ==> IsDigit(r[k])
  {
    var r := SourceTag(p);
    assert r[6..] == NatToString(p.page.value);
    NatToStringValue(p.page.value);
  }

  /** A line followed by its ` [Source: …]` tag. */
  function Tagged(text: string, p: Provenance): string {
    text + " [Source: " + SourceTag(p) + "]"
  }

  /** `items.map((x, i) => `${i + 1}. ${x}`)`: the lines numbered from 1. */
  function Numbered(lines: seq<string>): (r: seq<string>)
    ensures |r| == |lines|
    ensures forall i :: 0 <= i < |lines| ==> r[i] == NatToString(i + 1) + ". " + lines[i]
  {
    seq(|lines|, i requires 0 <= i < |lines| => NatToString(i + 1) + ". " + lines[i])
  }

  /** Line `i` opens with digits that read as `i + 1`, then `. ` and the
      line itself. */
  lemma NumberedReadsBack(lines: seq<string>, i: nat)
    requires i < |lines|
    ensures var r := Numbered(lines)[i]; var d := |NatToString(i + 1)|;
      DigitsValue(r[..d]) == i + 1 && r[d..] == ". " + lines[i] &&
      forall k :: 0 <= k < d ==> IsDigit(r[k])
  {
    var r := Numbered(lines)[i];
    var d := |NatToString(i + 1)|;
    assert r[..d] == NatToString(i + 1);
    NatToStringValue(i + 1);
  }

  /** The text of each item, in order. */
  function Texts(xs: seq<EvidenceItem>): (r: seq<string>)
    ensures |r| == |xs|
    ensures forall i :: 0 <= i < |xs| ==> r[i] == xs[i].text
  {
    seq(|xs|, i requires 0 <= i < |xs| => xs[i].text)
  }

  /** The text of each item with its source tag, in order. */
  function TaggedTexts(xs: seq<EvidenceItem>): (r: seq<string>)
    ensures |r| == |xs|
    ensures forall i :: 0 <= i < |xs| ==> r[i] == Tagged(xs[i].text, xs[i].source)
  {
    seq(|xs|, i requires 0 <= i < |xs| => Tagged(xs[i].text, xs[i].source))
  }

  /** A section: the heading on its own line, then the lines. */
  function Section(heading: string, lines: seq<string>): (r: string)
    ensures StartsWith(r, heading)
  {
    assert (heading + "\n" + Join(lines, "\n"))[..|heading|] == heading;
    heading + "\n" + Join(lines, "\n")
  }
}
