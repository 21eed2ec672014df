/** Website scraping: the page is fetched directly or through a CORS
    proxy, and its headings, paragraphs, list items and quotes are cut
    into chunks at every H1–H3. Parsing the page (`DOMParser` and the
    element queries), the `URL` constructor, the network and
    `encodeURIComponent` are parameters. */
module WebScraper {
  import opened Js
  import opened PipelineSchema
  import StringUtils

  /** One element matched by `h1, h2, h3, p, li, blockquote`, in
      document order. */
  datatype Element = Element(tagName: string, textContent: string)

  /** `tagName.match(/H[1-3]/)`: the tag name contains `H` followed by
      a digit from 1 to 3. */
  predicate IsHeadingTag(tag: string) {
    exists i :: 0 <= i < |tag| - 1 && tag[i] == 'H' && '1' <= tag[i + 1] <= '3'
  }

  lemma HeadingTags()
    ensures IsHeadingTag("H1") && IsHeadingTag("H2") && IsHeadingTag("H3")
    ensures !IsHeadingTag("P") && !IsHeadingTag("LI")
  {
    assert "H1"[0] == 'H' && "H1"[1] == '1';
    assert "H2"[0] == 'H' && "H2"[1] == '2';
    assert "H3"[0] == 'H' && "H3"[1] == '3';
    assert "LI"[0] != 'H';
  }

  // ---- the specification of the chunker ----

  /** An element whose trimmed text is not empty, with whether it is a
      heading. */
  datatype Item = Item(heading: bool, text: string)

  /** The elements the loop does not skip, trimmed, in order. */
  function Items(elements: seq<Element>): (r: seq<Item>)
    ensures |r| <= |elements|
    ensures forall k :: 0 <= k < |r| ==> r[k].text != ""
    decreases |elements|
  {
    if elements == [] then []
    else
      var last := elements[|elements| - 1];
      var text := Trim(last.textContent);
      Items(elements[..|elements| - 1]) + (if text == "" then [] else [Item(IsHeadingTag(last.tagName), text)])
  }

  /** The item an element contributes: none when its trimmed text is
      empty. */
  function ItemOf(e: Element): seq<Item> {
    var text := Trim(e.textContent);
    if text == "" then [] else [Item(IsHeadingTag(e.tagName), text)]
  }

  lemma ItemsPrefix(elements: seq<Element>, i: nat)
    requires i < |elements|
    ensures Items(elements[..i + 1]) == Items(elements[..i]) + ItemOf(elements[i])
  {
    assert elements[..i + 1][..i] == elements[..i];
  }

  /** An item is kept exactly when some element trims to its text. */
  lemma {:induction false} ItemsOf(elements: seq<Element>)
    ensures forall it :: it in Items(elements) <==>
      exists e :: e in elements && Trim(e.textContent) == it.text && it.text != "" && it.heading == IsHeadingTag(e.tagName)
    decreases |elements|
  {
    if elements != [] {
      var init, last := elements[..|elements| - 1], elements[|elements| - 1];
      ItemsOf(init);
      assert elements == init + [last];
      assert forall e :: e in elements <==> e in init || e == last;
    }
  }

  predicate NonEmptyGroups(gs: seq<seq<Item>>) {
    forall k :: 0 <= k < |gs| ==> gs[k] != []
  }

  /** The items cut before every heading: each group is one chunk's
      lines. */
  function Groups(items: seq<Item>): (g: seq<seq<Item>>)
    ensures |g| <= |items|
    ensures g == [] <==> items == []
    ensures NonEmptyGroups(g)
    decreases |items|
  {
    if items == [] then []
    else
      var g := Groups(items[..|items| - 1]);
      var last := items[|items| - 1];
      if last.heading || g == [] then g + [[last]]
      else g[..|g| - 1] + [g[|g| - 1] + [last]]
  }

  function Flatten(gs: seq<seq<Item>>): seq<Item>
    decreases |gs|
  {
    if gs == [] then [] else Flatten(gs[..|gs| - 1]) + gs[|gs| - 1]
  }

  /** Headings only open groups. */
  predicate HeadingsOpen(gs: seq<seq<Item>>) {
    forall k, j :: 0 <= k < |gs| && 0 < j < |gs[k]| ==> !gs[k][j].heading
  }

  /** Every group but the first opens with a heading. */
  predicate OpenedByHeadings(gs: seq<seq<Item>>)
    requires NonEmptyGroups(gs)
  {
    forall k :: 0 < k < |gs| ==> gs[k][0].heading
  }

  lemma FlattenSnoc(gs: seq<seq<Item>>, x: seq<Item>)
    ensures Flatten(gs + [x]) == Flatten(gs) + x
  {
    assert (gs + [x])[..|gs|] == gs;
  }

  lemma FlattenExtendLast(gs: seq<seq<Item>>, y: Item)
    requires gs != []
    ensures Flatten(gs[..|gs| - 1] + [gs[|gs| - 1] + [y]]) == Flatten(gs) + [y]
  {
    var n := |gs| - 1;
    FlattenSnoc(gs[..n], gs[n] + [y]);
    assert Flatten(gs) == Flatten(gs[..n]) + gs[n];
  }

  /** The groups, read in order, give back the items. */
  lemma {:induction false} GroupsFlatten(items: seq<Item>)
    ensures Flatten(Groups(items)) == items
    decreases |items|
  {
    if items != [] {
      var init, last := items[..|items| - 1], items[|items| - 1];
      var g := Groups(init);
      GroupsFlatten(init);
      assert items == init + [last];
      if last.heading || g == [] {
        FlattenSnoc(g, [last]);
      } else {
        FlattenExtendLast(g, last);
      }
    }
  }

  /** The groups are cut exactly at the headings. */
  lemma {:induction false} GroupsCut(items: seq<Item>)
    ensures HeadingsOpen(Groups(items)) && OpenedByHeadings(Groups(items))
    decreases |items|
  {
    if items != [] {
      var init, last := items[..|items| - 1], items[|items| - 1];
      var g := Groups(init);
      GroupsCut(init);
      if last.heading || g == [] {
        var h: seq<seq<Item>> := g + [[last]];
        assert forall k :: 0 <= k < |g| ==> h[k] == g[k];
      } else {
        var n := |g| - 1;
        var h: seq<seq<Item>> := g[..n] + [g[n] + [last]];
        forall k, j | 0 <= k < |h| && 0 < j < |h[k]| ensures !h[k][j].heading {
          if k < n {
            assert h[k] == g[k];
          } else if j < |g[n]| {
            assert h[k][j] == g[n][j];
          }
        }
        forall k | 0 < k < |h| ensures h[k][0].heading {
          assert h[k][0] == g[k][0];
        }
      }
    }
  }

  function Lines(group: seq<Item>): (r: seq<string>)
    ensures |r| == |group| && forall j :: 0 <= j < |group| ==> r[j] == group[j].text
  {
    seq(|group|, j requires 0 <= j < |group| => group[j].text)
  }

  /** `currentSection || '/'` for the group: its heading, or `/` for the
      content before the first heading. */
  function Location(group: seq<Item>): string
    requires group != []
  {
    if group[0].heading then group[0].text else "/"
  }

  /** `chunk-${chunks.length}`. */
  function ChunkId(k: nat): string {
    "chunk-" + NatToString(k)
  }

  lemma ChunkIdInjective(k: nat, m: nat)
    requires ChunkId(k) == ChunkId(m)
    ensures k == m
  {
    assert NatToString(k) == ChunkId(k)[6..];
    assert NatToString(m) == ChunkId(m)[6..];
    NatToStringInjective(k, m);
  }

  /** One chunk per group, numbered in emission order. */
  function ChunksOf(gs: seq<seq<Item>>): (r: seq<TextChunk>)
    requires NonEmptyGroups(gs)
    ensures |r| == |gs|
    ensures forall k :: 0 <= k < |gs| ==> r[k] == TextChunk(ChunkId(k), Join(Lines(gs[k]), "\n"), Location(gs[k]))
  {
    seq(|gs|, k requires 0 <= k < |gs| => TextChunk(ChunkId(k), Join(Lines(gs[k]), "\n"), Location(gs[k])))
  }

  /** What `extractTextChunks` returns for the parsed page: `None` stands
      for a page without `main`, `article` or `body`. */
  function TextChunks(content: Option<seq<Element>>): (r: seq<TextChunk>)
    ensures content.None? ==> r == []
    ensures content.Some? ==> |r| == |Groups(Items(content.value))|
    ensures forall k :: 0 <= k < |r| ==> r[k].id == ChunkId(k)
  {
    if content.None? then []
    else
      ChunksOf(Groups(Items(content.value)))
  }

  /** Chunk `k` is `chunk-k`; its lines are the `k`-th group of the
      non-empty trimmed texts, which together give those texts in
      document order; its location is the group's heading, or `/` for
      the first group when it does not open with a heading. */
  lemma TextChunksShape(elements: seq<Element>)
    ensures var c, gs := TextChunks(Some(elements)), Groups(Items(elements));
      |c| == |gs| && Flatten(gs) == Items(elements) && HeadingsOpen(gs) && OpenedByHeadings(gs) &&
      forall k :: 0 <= k < |c| ==>
        c[k].id == ChunkId(k) && c[k].text == Join(Lines(gs[k]), "\n") && gs[k] != [] &&
        (gs[k][0].heading ==> c[k].location == gs[k][0].text) &&
        (!gs[k][0].heading ==> k == 0 && c[k].location == "/")
  {
    GroupsFlatten(Items(elements));
    GroupsCut(Items(elements));
  }

  lemma NoContentNoChunks()
    ensures TextChunks(None) == []
    ensures TextChunks(Some([])) == []
  {
  }

  // ---- the loop ----

  /** What the loop holds between elements: the chunks of every group but
      the last, the last group's lines pending, and the section it
      belongs to. */
  predicate Pending(items: seq<Item>, chunks: seq<TextChunk>, currentSection: string, sectionTexts: seq<string>) {
    var gs := Groups(items);
    if gs == [] then chunks == [] && currentSection == "" && sectionTexts == []
    else
      var n := |gs| - 1;
      chunks == ChunksOf(gs[..n]) && sectionTexts == Lines(gs[n]) &&
      Or(Some(currentSection), "/") == Location(gs[n])
  }

  lemma ChunksOfSnoc(gs: seq<seq<Item>>)
    requires gs != [] && NonEmptyGroups(gs)
    ensures var n := |gs| - 1;
      ChunksOf(gs) == ChunksOf(gs[..n]) + [TextChunk(ChunkId(n), Join(Lines(gs[n]), "\n"), Location(gs[n]))]
  {
  }

  /** The pending section saved as the next chunk. */
  function Saved(chunks: seq<TextChunk>, currentSection: string, sectionTexts: seq<string>): seq<TextChunk> {
    chunks + [TextChunk(ChunkId(|chunks|), Join(sectionTexts, "\n"), Or(Some(currentSection), "/"))]
  }

  /** The first kept element opens the first group. */
  lemma PendingFirst(it: Item)
    requires it.text != ""
    ensures Pending([it], [], if it.heading then it.text else "", [it.text])
  {
    assert [it][..0] == [];
    assert Groups([it]) == [[it]];
  }

  /** A heading closes the pending group and opens a new one. */
  lemma PendingHeading(items: seq<Item>, it: Item, chunks: seq<TextChunk>, currentSection: string,
                       sectionTexts: seq<string>)
    requires it.text != "" && it.heading && items != []
    requires Pending(items, chunks, currentSection, sectionTexts)
    ensures |sectionTexts| > 0
    ensures Pending(items + [it], Saved(chunks, currentSection, sectionTexts), it.text, [it.text])
  {
    var g := Groups(items);
    assert (items + [it])[..|items|] == items;
    assert Groups(items + [it]) == g + [[it]];
    assert (g + [[it]])[..|g|] == g;
    ChunksOfSnoc(g);
  }

  /** Any other element joins the pending group. */
  lemma PendingContinue(items: seq<Item>, it: Item, chunks: seq<TextChunk>, currentSection: string,
                        sectionTexts: seq<string>)
    requires it.text != "" && !it.heading && items != []
    requires Pending(items, chunks, currentSection, sectionTexts)
    ensures Pending(items + [it], chunks, currentSection, sectionTexts + [it.text])
  {
    var g := Groups(items);
    var n := |g| - 1;
    assert (items + [it])[..|items|] == items;
    var h := g[..n] + [g[n] + [it]];
    assert Groups(items + [it]) == h;
    assert h[..n] == g[..n];
    assert Lines(g[n] + [it]) == Lines(g[n]) + [it.text];
  }

  /** One kept element, against the specification: a heading saves a
      non-empty pending section and becomes the current section; the
      text then joins the pending lines. */
  lemma PendingStep(items: seq<Item>, it: Item, chunks: seq<TextChunk>, currentSection: string,
                    sectionTexts: seq<string>)
    requires it.text != ""
    requires Pending(items, chunks, currentSection, sectionTexts)
    ensures it.heading ==>
      Pending(items + [it], if |sectionTexts| > 0 then Saved(chunks, currentSection, sectionTexts) else chunks,
              it.text, (if |sectionTexts| > 0 then [] else sectionTexts) + [it.text])
    ensures !it.heading ==> Pending(items + [it], chunks, currentSection, sectionTexts + [it.text])
  {
    if items == [] {
      assert [] + [it] == [it];
      PendingFirst(it);
    } else if it.heading {
      PendingHeading(items, it, chunks, currentSection, sectionTexts);
    } else {
      PendingContinue(items, it, chunks, currentSection, sectionTexts);
    }
  }

  /** Saving the last pending section, if any, completes the chunks. */
  lemma PendingDone(items: seq<Item>, chunks: seq<TextChunk>, currentSection: string, sectionTexts: seq<string>)
    requires Pending(items, chunks, currentSection, sectionTexts)
    ensures ChunksOf(Groups(items)) == if |sectionTexts| > 0 then Saved(chunks, currentSection, sectionTexts) else chunks
  {
    if items != [] {
      ChunksOfSnoc(Groups(items));
    }
  }

  /** The body of the `forEach` callback for one element: skip it when
      its trimmed text is empty; a heading first saves the pending
      section; then the text is added to the section. */
  method ConsumeElement(ghost items: seq<Item>, e: Element, chunks: seq<TextChunk>, currentSection: string,
                        sectionTexts: seq<string>)
    returns (chunks': seq<TextChunk>, currentSection': string, sectionTexts': seq<string>)
    requires Pending(items, chunks, currentSection, sectionTexts)
    ensures Pending(items + ItemOf(e), chunks', currentSection', sectionTexts')
  {
    chunks', currentSection', sectionTexts' := chunks, currentSection, sectionTexts;
    var text := Trim(e.textContent);
    if text == "" {
      assert items + ItemOf(e) == items;
      return;
    }
    PendingStep(items, Item(IsHeadingTag(e.tagName), text), chunks, currentSection, sectionTexts);
    if IsHeadingTag(e.tagName) {
      if |sectionTexts'| > 0 {
        chunks' := Saved(chunks', currentSection', sectionTexts');
        sectionTexts' := [];
      }
      currentSection' := text;
    }
    sectionTexts' := sectionTexts' + [text];
  }

  /** The `forEach` over the matched elements. */
  method ConsumeElements(sections: seq<Element>)
    returns (chunks: seq<TextChunk>, currentSection: string, sectionTexts: seq<string>)
    ensures Pending(Items(sections), chunks, currentSection, sectionTexts)
  {
    chunks, currentSection, sectionTexts := [], "", [];
    ghost var items: seq<Item> := [];
    for i := 0 to |sections|
      invariant items == Items(sections[..i])
      invariant Pending(items, chunks, currentSection, sectionTexts)
    {
      ItemsPrefix(sections, i);
      chunks, currentSection, sectionTexts := ConsumeElement(items, sections[i], chunks, currentSection, sectionTexts);
      items := items + ItemOf(sections[i]);
    }
    assert sections[..|sections|] == sections;
  }

  /** `extractTextChunks` after parsing: one pass over the elements that
      keeps the current section and its pending lines, then the last
      section is saved. */
  method ExtractTextChunks(content: Option<seq<Element>>) returns (chunks: seq<TextChunk>)
    ensures chunks == TextChunks(content)
  {
    if content.None? {
      return [];
    }
    var currentSection, sectionTexts;
    chunks, currentSection, sectionTexts := ConsumeElements(content.value);
    PendingDone(Items(content.value), chunks, currentSection, sectionTexts);
    if |sectionTexts| > 0 {
      chunks := Saved(chunks, currentSection, sectionTexts);
    }
  }

  // ---- scrapeWebsite ----

  /** What `fetch` resolves to: the status flag, its text, and what
      reading the body gives. */
  datatype Response = Response(ok: bool, statusText: string, body: Call<string>)

  datatype Scraped = Scraped(html: string, chunks: seq<TextChunk>)

  const ProxyPrefix: string := "https://corsproxy.io/?"
  const BothFailedMessage: string := "Both direct fetch and proxy failed due to CORS restrictions"

  /** `normalizeURL`: the scheme is added when missing, then the `URL`
      constructor (the parameter `href`) parses it. */
  function NormalizeUrl(url: string, href: string -> Call<string>): (r: Call<string>)
    ensures href(StringUtils.EnsureScheme(url)).Returns? <==> r.Returns?
  {
    var withScheme := StringUtils.EnsureScheme(url);
    match href(withScheme)
    case Returns(h) => Returns(h)
    case Throws(_) => Throws(ErrorObject("Invalid URL: " + withScheme))
  }

  /** The direct request, and the proxied one only when the direct one
      throws. */
  function Request(normalized: string, fetch: string -> Call<Response>, encodeUriComponent: string -> string): Call<Response> {
    match fetch(normalized)
    case Returns(r) => Returns(r)
    case Throws(_) =>
      match fetch(ProxyPrefix + encodeUriComponent(normalized))
      case Returns(r) => Returns(r)
      case Throws(_) => Throws(ErrorObject(BothFailedMessage))
  }

  /** The body of the try block up to `response.text()`. */
  function FetchPage(url: string, href: string -> Call<string>, fetch: string -> Call<Response>,
                     encodeUriComponent: string -> string): (r: Call<string>)
    ensures NormalizeUrl(url, href).Throws? ==> r == NormalizeUrl(url, href)
    ensures r.Returns? ==>
      var request := Request(NormalizeUrl(url, href).value, fetch, encodeUriComponent);
      NormalizeUrl(url, href).Returns? && request.Returns? && request.value.ok && r == request.value.body
  {
    match NormalizeUrl(url, href)
    case Throws(e) => Throws(e)
    case Returns(normalized) =>
      match Request(normalized, fetch, encodeUriComponent)
      case Throws(e) => Throws(e)
      case Returns(response) =>
        if !response.ok then Throws(ErrorObject("Failed to fetch " + normalized + ": " + response.statusText))
        else response.body
  }

  /** `scrapeWebsite`: every failure is caught and yields an empty page
      with no chunks. */
  function ScrapeWebsite(url: string, href: string -> Call<string>, fetch: string -> Call<Response>,
                         encodeUriComponent: string -> string, parse: string -> Option<seq<Element>>): (r: Scraped)
    ensures r == Scraped("", []) || r.chunks == TextChunks(parse(r.html))
    ensures FetchPage(url, href, fetch, encodeUriComponent).Throws? ==> r == Scraped("", [])
  {
    match FetchPage(url, href, fetch, encodeUriComponent)
    case Throws(_) => Scraped("", [])
    case Returns(html) => Scraped(html, TextChunks(parse(html)))
  }

  /** The page is read exactly when the URL parses, the direct request
      (or, when it throws, the proxied one) answers with an ok status,
      and its body can be read; then the chunks are those of the parsed
      page, and otherwise the result is empty. */
  lemma ScrapeWebsiteOutcome(url: string, href: string -> Call<string>, fetch: string -> Call<Response>,
                             encodeUriComponent: string -> string, parse: string -> Option<seq<Element>>)
    ensures var r := ScrapeWebsite(url, href, fetch, encodeUriComponent, parse);
      var h := href(StringUtils.EnsureScheme(url));
      var direct := if h.Returns? then fetch(h.value) else Throws(ErrorObject(""));
      var proxied := if h.Returns? then fetch(ProxyPrefix + encodeUriComponent(h.value)) else Throws(ErrorObject(""));
      var response := if direct.Returns? then direct else proxied;
      var read := h.Returns? && response.Returns? && response.value.ok && response.value.body.Returns?;
      (read ==> r == Scraped(response.value.body.value, TextChunks(parse(response.value.body.value)))) &&
      (!read ==> r == Scraped("", []))
  {
  }
}
