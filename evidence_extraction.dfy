/** The evidence extraction node: it renders the website chunks and the
    structured slides as two text contexts, hands them to the extraction
    model, and stores what comes back as the state's evidence. With
    neither a website nor a deck it makes no model call and records an
    error instead. */
module EvidenceExtractionNode {
  import opened Js
  import opened PipelineSchema
  import GraphBuilder

  // ---- website context ----

  const NoWebsiteContent: string := "No website content available."
  const WebsiteSeparator: string := "\n---\n"

  /** One chunk: its location in brackets, then its text. */
  function WebsiteBlock(c: TextChunk): (r: string)
    ensures |r| > 0 && r[0] == '['
  {
    "[Website: " + c.location + "]\n" + c.text + "\n"
  }

  /** `chunks.map(...)`: one block per chunk, in order. */
  function WebsiteBlocks(cs: seq<TextChunk>): (r: seq<string>)
    ensures |r| == |cs|
    ensures forall i :: 0 <= i < |cs| ==> r[i] == WebsiteBlock(cs[i])
  {
    seq(|cs|, i requires 0 <= i < |cs| => WebsiteBlock(cs[i]))
  }

  /** `buildWebsiteContext`. */
  function WebsiteContext(chunks: Option<seq<TextChunk>>): (r: string)
    ensures chunks.None? || chunks.value == [] ==> r == NoWebsiteContent
  {
    if chunks.None? || |chunks.value| == 0 then NoWebsiteContent
    else Join(WebsiteBlocks(chunks.value), WebsiteSeparator)
  }

  /** The placeholder text appears exactly when there are no chunks;
      otherwise the context opens with the first chunk's block and holds
      every chunk's block. */
  lemma WebsiteContextCases(chunks: Option<seq<TextChunk>>)
    ensures WebsiteContext(chunks) == NoWebsiteContent <==> chunks.None? || chunks.value == []
    ensures chunks.Some? && chunks.value != [] ==>
      StartsWith(WebsiteContext(chunks), WebsiteBlock(chunks.value[0])) &&
      forall k :: 0 <= k < |chunks.value| ==> Contains(WebsiteContext(chunks), WebsiteBlock(chunks.value[k]))
  {
    if chunks.Some? && chunks.value != [] {
      var blocks := WebsiteBlocks(chunks.value);
      JoinStartsWith(blocks, WebsiteSeparator);
      var r := WebsiteContext(chunks);
      assert r[0] == '[' by {
        assert r[..|blocks[0]|] == blocks[0];
      }
      assert NoWebsiteContent[0] == 'N';
      forall k | 0 <= k < |chunks.value|
        ensures Contains(r, WebsiteBlock(chunks.value[k]))
      {
        JoinContains(blocks, WebsiteSeparator, k);
      }
    }
  }

  /** Two chunks are joined by the separator, the second block after the
      first. */
  lemma WebsiteContextTwo(a: TextChunk, b: TextChunk)
    ensures WebsiteContext(Some([a, b])) == WebsiteBlock(a) + WebsiteSeparator + WebsiteBlock(b)
  {
    var blocks := WebsiteBlocks([a, b]);
    assert blocks[1..] == [WebsiteBlock(b)];
  }

  // ---- deck context ----

  const NoDeckContent: string := "No pitch deck available."
  const SlideSeparator: string := "\n\n---\n\n"

  /** `[Slide p - Type: t]`, the line every block opens with. */
  function SlideHeader(s: Slide): (r: string)
    ensures |r| > 0 && r[0] == '['
  {
    "[Slide " + IntToString(s.page) + " - Type: " + SlideTypeName(s.slide_type) + "]"
  }

  /** `  - label: value` followed by the unit when it is truthy. */
  function FigureLine(f: Figure): string {
    "  - " + f.label_text + ": " + f.value + Or(f.unit, "")
  }

  /** The logo's name, then its role in parentheses when truthy. */
  function LogoText(l: Logo): string {
    l.name + (if Truthy(l.role) then " (" + l.role.value + ")" else "")
  }

  /** `  - type`, then `: subject` and ` (trend)` when each is truthy. */
  function VisualLine(v: VisualStructure): string {
    "  - " + v.kind +
    (if Truthy(v.subject) then ": " + v.subject.value else "") +
    (if Truthy(v.qualitative_trend) then " (" + v.qualitative_trend.value + ")" else "")
  }

  function FigureLines(fs: seq<Figure>): (r: seq<string>)
    ensures |r| == |fs|
    ensures forall i :: 0 <= i < |fs| ==> r[i] == FigureLine(fs[i])
  {
    seq(|fs|, i requires 0 <= i < |fs| => FigureLine(fs[i]))
  }

  function LogoTexts(ls: seq<Logo>): (r: seq<string>)
    ensures |r| == |ls|
    ensures forall i :: 0 <= i < |ls| ==> r[i] == LogoText(ls[i])
  {
    seq(|ls|, i requires 0 <= i < |ls| => LogoText(ls[i]))
  }

  function VisualLines(vs: seq<VisualStructure>): (r: seq<string>)
    ensures |r| == |vs|
    ensures forall i :: 0 <= i < |vs| ==> r[i] == VisualLine(vs[i])
  {
    seq(|vs|, i requires 0 <= i < |vs| => VisualLine(vs[i]))
  }

  /** A part that is present only when its condition holds; a present
      part never is the empty string. */
  function When(c: bool, text: string): (r: Option<string>)
    requires text != ""
    ensures r.Some? <==> c
    ensures r.Some? ==> r.value == text
  {
    if c then Some(text) else None
  }

  /** The eight entries of the `parts` array, `null` where a part is
      absent, in the order the block lists them. */
  function Candidates(s: Slide): (r: seq<Option<string>>)
    ensures |r| == 8
    ensures forall i :: 0 <= i < 8 ==> r[i].None? || r[i].value != ""
  {
    [Some(SlideHeader(s)),
     When(Truthy(s.title), "Title: " + s.title.GetOr("")),
     When(|s.main_bullets| > 0, "Bullets:\n" + Join(Prefixed("  - ", s.main_bullets), "\n")),
     When(|s.figures| > 0, "Figures:\n" + Join(FigureLines(s.figures), "\n")),
     When(|s.logos| > 0, "Logos: " + Join(LogoTexts(s.logos), ", ")),
     When(|s.claims| > 0, "Claims:\n" + Join(Prefixed("  - ", s.claims), "\n")),
     When(|s.visual_structures| > 0, "Visuals:\n" + Join(VisualLines(s.visual_structures), "\n")),
     When(|s.caveats| > 0, "Caveats: " + Join(s.caveats, "; "))]
  }

  /** `filter(Boolean)` on an array of strings and `null`s: drops the
      `null`s and the empty strings, keeps the rest in order. */
  function Compact(xs: seq<Option<string>>): (r: seq<string>)
    ensures |r| <= |xs|
    ensures forall i :: 0 <= i < |r| ==> r[i] != ""
  {
    if xs == [] then []
    else
      var rest := Compact(xs[1..]);
      if xs[0].Some? && xs[0].value != "" then [xs[0].value] + rest else rest
  }

  /** The present entries, as a list of zero or one strings each. */
  function Present(o: Option<string>): (r: seq<string>)
    ensures |r| <= 1
  {
    if o.Some? then [o.value] else []
  }

  lemma CompactStep(c: seq<Option<string>>, i: nat)
    requires i < |c| && (c[i].None? || c[i].value != "")
    ensures Compact(c[i..]) == Present(c[i]) + Compact(c[i + 1..])
  {
    assert c[i..][1..] == c[i + 1..];
  }

  lemma CompactFour(c: seq<Option<string>>, i: nat)
    requires i + 4 <= |c|
    requires forall j :: i <= j < i + 4 ==> c[j].None? || c[j].value != ""
    ensures Compact(c[i..]) ==
      Present(c[i]) + (Present(c[i + 1]) + (Present(c[i + 2]) + (Present(c[i + 3]) + Compact(c[i + 4..]))))
  {
    CompactStep(c, i + 3);
    CompactStep(c, i + 2);
    CompactStep(c, i + 1);
    CompactStep(c, i);
  }

  /** `filter(Boolean)` over eight entries none of which is an empty
      string keeps the present ones. */
  lemma CompactEight(c: seq<Option<string>>)
    requires |c| == 8
    requires forall i :: 0 <= i < 8 ==> c[i].None? || c[i].value != ""
    ensures Compact(c) == Present(c[0]) + Present(c[1]) + Present(c[2]) + Present(c[3]) +
                          Present(c[4]) + Present(c[5]) + Present(c[6]) + Present(c[7])
  {
    assert c[8..] == [];
    CompactFour(c, 4);
    CompactFour(c, 0);
    assert c[0..] == c;
    var p0, p1, p2, p3 := Present(c[0]), Present(c[1]), Present(c[2]), Present(c[3]);
    var p4, p5, p6, p7 := Present(c[4]), Present(c[5]), Present(c[6]), Present(c[7]);
    var x := p0 + p1 + p2 + p3;
    assert Compact(c) == p0 + (p1 + (p2 + (p3 + (p4 + (p5 + (p6 + (p7 + []))))))) ;
    assert p7 + [] == p7;
    Assoc(p5, p6, p7);
    Assoc(p4, p5, p6 + p7);
    Assoc(p4 + p5, p6, p7);
    var y := p4 + p5 + p6 + p7;
    Assoc(p2, p3, y);
    Assoc(p1, p2, p3 + y);
    Assoc(p0, p1, p2 + (p3 + y));
    Assoc(p0 + p1, p2, p3 + y);
    Assoc(p0 + p1 + p2, p3, y);
    Assoc(x, p4 + p5 + p6, p7);
    Assoc(x, p4 + p5, p6);
    Assoc(x, p4, p5);
  }

  /** One slide's block: its parts, one per line. */
  function SlideBlock(s: Slide): string {
    Join(Compact(Candidates(s)), "\n")
  }

  /** No present part is empty, so `filter(Boolean)` drops exactly the
      absent ones: the block's lines are the header, then each part whose
      condition holds, in the listed order. */
  lemma SlideParts(s: Slide)
    ensures var c := Candidates(s);
      Compact(c) == [SlideHeader(s)] + Present(c[1]) + Present(c[2]) + Present(c[3]) +
                    Present(c[4]) + Present(c[5]) + Present(c[6]) + Present(c[7])
  {
    CompactEight(Candidates(s));
  }

  /** Which optional parts a slide's block has: the title iff it is
      truthy, each list iff it is non-empty. */
  lemma SlidePartsPresent(s: Slide)
    ensures var c := Candidates(s);
      (c[1].Some? <==> Truthy(s.title)) &&
      (c[2].Some? <==> |s.main_bullets| > 0) &&
      (c[3].Some? <==> |s.figures| > 0) &&
      (c[4].Some? <==> |s.logos| > 0) &&
      (c[5].Some? <==> |s.claims| > 0) &&
      (c[6].Some? <==> |s.visual_structures| > 0) &&
      (c[7].Some? <==> |s.caveats| > 0)
  {
  }

  /** A slide with nothing but its header renders as the header alone. */
  lemma BareSlide(s: Slide)
    requires !Truthy(s.title) && s.main_bullets == [] && s.figures == [] && s.logos == []
    requires s.claims == [] && s.visual_structures == [] && s.caveats == []
    ensures SlideBlock(s) == SlideHeader(s)
  {
    SlideParts(s);
  }

  /** Every block opens with its slide's header. */
  lemma SlideBlockStartsWithHeader(s: Slide)
    ensures StartsWith(SlideBlock(s), SlideHeader(s))
    ensures SlideBlock(s)[0] == '['
  {
    SlideParts(s);
    var lines := Compact(Candidates(s));
    JoinStartsWith(lines, "\n");
    assert SlideBlock(s)[..|SlideHeader(s)|] == SlideHeader(s);
  }

  function SlideBlocks(ss: seq<Slide>): (r: seq<string>)
    ensures |r| == |ss|
    ensures forall i :: 0 <= i < |ss| ==> r[i] == SlideBlock(ss[i])
  {
    seq(|ss|, i requires 0 <= i < |ss| => SlideBlock(ss[i]))
  }

  /** `buildDeckContext`. */
  function DeckContext(slides: Option<seq<Slide>>): (r: string)
    ensures slides.None? || slides.value == [] ==> r == NoDeckContent
  {
    if slides.None? || |slides.value| == 0 then NoDeckContent
    else Join(SlideBlocks(slides.value), SlideSeparator)
  }

  /** The placeholder text appears exactly when there are no slides;
      otherwise the context opens with the first slide's header and holds
      every slide's block. */
  lemma DeckContextCases(slides: Option<seq<Slide>>)
    ensures DeckContext(slides) == NoDeckContent <==> slides.None? || slides.value == []
    ensures slides.Some? && slides.value != [] ==>
      StartsWith(DeckContext(slides), SlideHeader(slides.value[0])) &&
      forall k :: 0 <= k < |slides.value| ==> Contains(DeckContext(slides), SlideBlock(slides.value[k]))
  {
    if slides.Some? && slides.value != [] {
      var blocks := SlideBlocks(slides.value);
      var r := DeckContext(slides);
      JoinStartsWith(blocks, SlideSeparator);
      SlideBlockStartsWithHeader(slides.value[0]);
      assert r[..|blocks[0]|] == blocks[0];
      assert r[..|SlideHeader(slides.value[0])|] == blocks[0][..|SlideHeader(slides.value[0])|];
      assert r[0] == '[';
      assert NoDeckContent[0] == 'N';
      forall k | 0 <= k < |slides.value|
        ensures Contains(r, SlideBlock(slides.value[k]))
      {
        JoinContains(blocks, SlideSeparator, k);
      }
    }
  }

  // ---- the node ----

  const NoContentMessage: string := "No content available for evidence extraction (both website and deck missing)"
  const FailurePrefix: string := "Failed to extract evidence: "

  predicate HasWebsite(s: StartupState) {
    s.web_chunks.Some? && |s.web_chunks.value| > 0
  }

  predicate HasDeck(s: StartupState) {
    s.deck_structured.Some? && |s.deck_structured.value| > 0
  }

  /** `evidenceExtraction`, with the extraction model as a parameter that
      receives the website and the deck contexts. Every throw inside the
      `try` comes from the model call. */
  function EvidenceExtraction(s: StartupState, extract: (string, string) -> Call<Evidence>): (u: Update)
    ensures u == NoUpdate.(evidence := u.evidence, errors := u.errors) && u.evidence.Set?
    ensures u.evidence.value.Some? <==>
      (HasWebsite(s) || HasDeck(s)) && extract(WebsiteContext(s.web_chunks), DeckContext(s.deck_structured)).Returns?
    ensures u.evidence.value.Some? ==> u.errors.Keep?
    ensures !HasWebsite(s) && !HasDeck(s) ==> u.errors == Set(s.errors + [NoContentMessage])
    ensures (HasWebsite(s) || HasDeck(s)) && u.evidence.value.None? ==>
      u.errors.Set? && OneMoreError(s.errors, u.errors.value, FailurePrefix)
  {
    if !HasWebsite(s) && !HasDeck(s) then
      NoUpdate.(evidence := Set(None), errors := Set(s.errors + [NoContentMessage]))
    else
      match extract(WebsiteContext(s.web_chunks), DeckContext(s.deck_structured))
      case Returns(e) => NoUpdate.(evidence := Set(Some(e)))
      case Throws(err) =>
        OneMoreErrorOf(s.errors, FailurePrefix, Describe(err));
        NoUpdate.(evidence := Set(None), errors := Set(s.errors + [FailurePrefix + Describe(err)]))
  }

  /** Without content the model is not consulted: any two models give the
      same update. */
  lemma NoContentNoCall(s: StartupState, m1: (string, string) -> Call<Evidence>, m2: (string, string) -> Call<Evidence>)
    requires !HasWebsite(s) && !HasDeck(s)
    ensures EvidenceExtraction(s, m1) == EvidenceExtraction(s, m2)
  {
  }

  /** With content, the model sees exactly the two rendered contexts: two
      models that agree on them give the same update. */
  lemma ModelSeesContexts(s: StartupState, m1: (string, string) -> Call<Evidence>, m2: (string, string) -> Call<Evidence>)
    requires m1(WebsiteContext(s.web_chunks), DeckContext(s.deck_structured)) ==
             m2(WebsiteContext(s.web_chunks), DeckContext(s.deck_structured))
    ensures EvidenceExtraction(s, m1) == EvidenceExtraction(s, m2)
  {
  }

  /** After the graph merges the node's update: the evidence is set
      exactly when there is content and the model returns; success keeps
      the errors, and both failure branches repeat the earlier errors
      before their message. Nothing but the evidence and the errors
      changes. */
  lemma EvidenceExtractionMerged(s: StartupState, extract: (string, string) -> Call<Evidence>)
    ensures var r := GraphBuilder.MergeState(s, EvidenceExtraction(s, extract));
      var call := extract(WebsiteContext(s.web_chunks), DeckContext(s.deck_structured));
      (r.evidence.Some? <==> (HasWebsite(s) || HasDeck(s)) && call.Returns?) &&
      (r.evidence.Some? ==> r.evidence.value == call.value && r.errors == s.errors) &&
      (!HasWebsite(s) && !HasDeck(s) ==> r.errors == s.errors + s.errors + [NoContentMessage]) &&
      ((HasWebsite(s) || HasDeck(s)) && call.Throws? ==>
         r.errors == s.errors + s.errors + [FailurePrefix + Describe(call.error)]) &&
      r == s.(evidence := r.evidence, errors := r.errors)
  {
    var u := EvidenceExtraction(s, extract);
    var call := extract(WebsiteContext(s.web_chunks), DeckContext(s.deck_structured));
    if !HasWebsite(s) && !HasDeck(s) {
      GraphBuilder.CatchBranchDuplicates(s, u, NoContentMessage);
    } else if call.Throws? {
      GraphBuilder.CatchBranchDuplicates(s, u, FailurePrefix + Describe(call.error));
    }
  }
}
