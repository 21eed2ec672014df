/** The homepage reader: it fetches a URL (through a CORS proxy when it
    runs in a browser), reduces the HTML to plain text and cuts it to a
    maximum length. It never fails: every error becomes a text in
    parentheses. */
module Web {
  import opened Js
  import StringUtils

  const DefaultMaxChars := 10000
  const NoTextFallback := "(No readable text found on homepage.)"
  const ProxyPrefix := "https://corsproxy.io/?"

  /** The length of the match of `/<[^>]+>/` at the start of `s`, or 0:
      a '<', at least one character that is not '>', and the first '>'
      after them. */
  function TagLength(s: string): (n: nat)
    ensures n == 0 || (3 <= n <= |s| && s[0] == '<' && s[n - 1] == '>' && '>' !in s[1..n - 1])
  {
    if |s| >= 2 && s[0] == '<' && s[1] != '>' then
      var k := FirstIndex(s[2..], '>');
      if k >= 0 then
        assert s[1..k + 2] == [s[1]] + s[2..][..k];
        k + 3
      else 0
    else 0
  }

  /** `html.replace(/<[^>]+>/g, ' ')`: every tag, scanning from the left,
      becomes a single space. */
  function StripTags(s: string): (r: string)
    ensures |r| <= |s|
    ensures forall c :: c in r ==> c in s || c == ' '
    decreases |s|
  {
    if s == [] then []
    else
      var n := TagLength(s);
      if n > 0 then " " + StripTags(s[n..])
      else [s[0]] + StripTags(s[1..])
  }

  /** No tag is left anywhere in `s`. */
  predicate NoTags(s: string) {
    forall i :: 0 <= i < |s| ==> TagLength(s[i..]) == 0
  }

  lemma NoTagsCons(c: char, s: string)
    requires NoTags(s) && TagLength([c] + s) == 0
    ensures NoTags([c] + s)
  {
    var t := [c] + s;
    forall i | 0 <= i < |t| ensures TagLength(t[i..]) == 0 {
      if i > 0 {
        assert t[i..] == s[i - 1..];
      }
    }
  }

  /** After the replacement no tag is left, so a second pass changes
      nothing. */
  lemma {:induction false} StripTagsLeavesNoTags(s: string)
    ensures NoTags(StripTags(s))
    decreases |s|
  {
    if s != [] {
      var n := TagLength(s);
      if n > 0 {
        StripTagsLeavesNoTags(s[n..]);
        NoTagsCons(' ', StripTags(s[n..]));
      } else {
        StripTagsLeavesNoTags(s[1..]);
        var rest := StripTags(s[1..]);
        var r := [s[0]] + rest;
        if s[0] == '<' && |s| >= 2 {
          if s[1] == '>' {
            assert TagLength(s[1..]) == 0;
            assert r[1] == '>';
          } else {
            assert FirstIndex(s[2..], '>') == -1;
            if |s| >= 3 {
              assert '>' !in s[3..] by {
                assert forall c :: c in s[3..] ==> c in s[2..];
              }
              assert TagLength(s[1..]) == 0 by {
                assert s[1..][2..] == s[3..];
              }
            }
            assert rest == [s[1]] + StripTags(s[2..]);
            assert '>' !in StripTags(s[2..]);
            assert r[2..] == StripTags(s[2..]);
          }
        }
        NoTagsCons(s[0], rest);
      }
    }
  }

  lemma StripTagsIdempotent(s: string)
    ensures StripTags(StripTags(s)) == StripTags(s)
  {
    StripTagsLeavesNoTags(s);
    StripTagsOfNoTags(StripTags(s));
  }

  lemma {:induction false} StripTagsOfNoTags(s: string)
    requires NoTags(s)
    ensures StripTags(s) == s
    decreases |s|
  {
    if s != [] {
      assert TagLength(s[0..]) == 0;
      assert s[0..] == s;
      assert NoTags(s[1..]) by {
        forall i | 0 <= i < |s[1..]| ensures TagLength(s[1..][i..]) == 0 {
          assert s[1..][i..] == s[i + 1..];
        }
      }
      StripTagsOfNoTags(s[1..]);
    }
  }

  /** No two white-space characters are next to each other. */
  predicate SingleSpaced(s: string) {
    forall i :: 0 <= i < |s| - 1 ==> !(IsSpace(s[i]) && IsSpace(s[i + 1]))
  }

  /** `s.replace(/\s+/g, ' ')`; `inRun` says the character before `s` was
      white space already replaced. */
  function CollapseSpaces(s: string, inRun: bool): (r: string)
    ensures SingleSpaced(r)
    ensures inRun ==> r == [] || !IsSpace(r[0])
    ensures |r| <= |s|
  {
    if s == [] then []
    else if !IsSpace(s[0]) then [s[0]] + CollapseSpaces(s[1..], false)
    else if inRun then CollapseSpaces(s[1..], true)
    else " " + CollapseSpaces(s[1..], true)
  }

  lemma SingleSpacedPart(s: string, r: string)
    requires SingleSpaced(s) && Contains(s, r)
    ensures SingleSpaced(r)
  {
    var i :| 0 <= i <= |s| && OccursAt(s, r, i);
    forall k | 0 <= k < |r| - 1 ensures !(IsSpace(r[k]) && IsSpace(r[k + 1])) {
      assert r[k] == s[i + k] && r[k + 1] == s[i + k + 1];
    }
  }

  /** The cleanup chain: the `<script>` and `<style>` blocks removed (by
      `dropCode`), tags replaced by spaces, white space collapsed, and the
      ends trimmed. */
  function CleanText(html: string, dropCode: string -> string): (r: string)
    ensures NoSpaceAtEnds(r)
    ensures SingleSpaced(r)
  {
    var collapsed := CollapseSpaces(StripTags(dropCode(html)), false);
    var r := Trim(collapsed);
    SingleSpacedPart(collapsed, r);
    r
  }

  /** `text.substring(0, maxChars) || fallback` on the cleaned page: the
      longest prefix of at most `maxChars` characters, or the fallback
      when that prefix is empty. */
  function ExtractText(html: string, maxChars: int, dropCode: string -> string): (r: string)
    ensures var clean := CleanText(html, dropCode);
      if clean == [] || maxChars <= 0 then r == NoTextFallback
      else StartsWith(clean, r) && 0 < |r| <= maxChars && (|r| == maxChars || r == clean)
  {
    var t := Prefix(CleanText(html, dropCode), maxChars);
    if t == "" then NoTextFallback else t
  }

  /** What `fetch` gives back: a rejection, or a response with its status
      code and body text. */
  datatype FetchOutcome = Rejected(error: Thrown) | Responded(status: int, body: Call<string>)

  /** The outcomes the `catch` block reports: a rejected request, a
      non-ok status, or a body that cannot be read. */
  predicate Fails(o: FetchOutcome) {
    o.Rejected? || !Ok(o.status) || o.body.Throws?
  }

  predicate Ok(status: int) { 200 <= status <= 299 }

  /** The text returned from the `catch` block. */
  function ErrorText(e: Thrown): (r: string)
    ensures e.ErrorObject? ==> r == "(Error fetching site: " + e.message + ")"
    ensures e.OtherValue? ==> r == "(Error fetching site: Unknown error)"
  {
    "(Error fetching site: " + (if e.ErrorObject? then e.message else "Unknown error") + ")"
  }

  /** The URL actually requested: `fullUrl` itself, or the proxy URL with
      `fullUrl` encoded by `encodeUriComponent`. */
  function RequestUrl(url: string, isBrowser: bool, encodeUriComponent: string -> string): (r: string)
    ensures isBrowser ==> r == ProxyPrefix + encodeUriComponent(StringUtils.EnsureScheme(url))
    ensures !isBrowser ==> r == StringUtils.EnsureScheme(url)
  {
    var fullUrl := StringUtils.EnsureScheme(url);
    if isBrowser then ProxyPrefix + encodeUriComponent(fullUrl) else fullUrl
  }

  /** What one branch does with the outcome of its request: a non-ok status
      is thrown as `HTTP <status>` and caught, a rejection of the request
      or of the body read is caught, and a page is cleaned and cut. */
  function ReadOutcome(o: FetchOutcome, maxChars: int, dropCode: string -> string): (r: string)
    ensures Fails(o) ==> StartsWith(r, "(Error fetching site: ") && EndsWith(r, ")")
    ensures !Fails(o) ==> r == ExtractText(o.body.value, maxChars, dropCode)
  {
    match o
    case Rejected(e) =>
      ErrorTextShape(e);
      ErrorText(e)
    case Responded(status, body) =>
      if !Ok(status) then
        ErrorTextShape(ErrorObject("HTTP " + IntToString(status)));
        ErrorText(ErrorObject("HTTP " + IntToString(status)))
      else
        match body
        case Throws(e) =>
          ErrorTextShape(e);
          ErrorText(e)
        case Returns(html) => ExtractText(html, maxChars, dropCode)
  }

  lemma ErrorTextShape(e: Thrown)
    ensures StartsWith(ErrorText(e), "(Error fetching site: ") && EndsWith(ErrorText(e), ")")
  {
    var p := "(Error fetching site: ";
    var m := if e.ErrorObject? then e.message else "Unknown error";
    assert (p + m + ")")[..|p|] == p;
  }

  /** `fetchWebsiteText(url)` with the default `maxChars`: a page is cut
      to at most 10000 characters. */
  function FetchWebsiteTextDefault(url: string, isBrowser: bool,
                                   encodeUriComponent: string -> string,
                                   fetch: string -> FetchOutcome,
                                   dropCode: string -> string): (r: string)
    ensures var o := fetch(RequestUrl(url, isBrowser, encodeUriComponent));
      !Fails(o) ==> r == NoTextFallback || |r| <= DefaultMaxChars
  {
    FetchWebsiteText(url, DefaultMaxChars, isBrowser, encodeUriComponent, fetch, dropCode)
  }

  /** `fetchWebsiteText`: the network is the function `fetch` from the
      requested URL to its outcome. */
  function FetchWebsiteText(url: string, maxChars: int, isBrowser: bool,
                            encodeUriComponent: string -> string,
                            fetch: string -> FetchOutcome,
                            dropCode: string -> string): (r: string)
    ensures r == ReadOutcome(fetch(RequestUrl(url, isBrowser, encodeUriComponent)), maxChars, dropCode)
  {
    var fullUrl := StringUtils.EnsureScheme(url);
    if isBrowser then ReadOutcome(fetch(ProxyPrefix + encodeUriComponent(fullUrl)), maxChars, dropCode)
    else ReadOutcome(fetch(fullUrl), maxChars, dropCode)
  }

  /** Every failure is reported in the returned text instead of being
      thrown: a rejection by its message, a non-ok status by its code. */
  lemma FetchFailuresAreReported(url: string, maxChars: int, isBrowser: bool,
                                 encodeUriComponent: string -> string,
                                 fetch: string -> FetchOutcome,
                                 dropCode: string -> string)
    ensures var o := fetch(RequestUrl(url, isBrowser, encodeUriComponent));
      var r := FetchWebsiteText(url, maxChars, isBrowser, encodeUriComponent, fetch, dropCode);
      (o.Rejected? && o.error.ErrorObject? ==> r == "(Error fetching site: " + o.error.message + ")")
      && (o.Rejected? && o.error.OtherValue? ==> r == "(Error fetching site: Unknown error)")
      && (o.Responded? && !Ok(o.status) ==> r == "(Error fetching site: HTTP " + IntToString(o.status) + ")")
      && (o.Responded? && Ok(o.status) && o.body.Throws? && o.body.error.ErrorObject? ==>
            r == "(Error fetching site: " + o.body.error.message + ")")
      && (o.Responded? && Ok(o.status) && o.body.Throws? && o.body.error.OtherValue? ==>
            r == "(Error fetching site: Unknown error)")
  {
    var o := fetch(RequestUrl(url, isBrowser, encodeUriComponent));
    if o.Responded? {
      HttpErrorText(IntToString(o.status));
    }
  }

  lemma HttpErrorText(code: string)
    ensures ErrorText(ErrorObject("HTTP " + code)) == "(Error fetching site: HTTP " + code + ")"
  {
    var p := "(Error fetching site: ";
    assert p + "HTTP " == "(Error fetching site: HTTP ";
    assert p + ("HTTP " + code) == (p + "HTTP ") + code;
  }

  /** The browser and the server branch differ only in the URL they
      request: given the same response they return the same text. */
  lemma BranchesAgree(url: string, maxChars: int,
                      encodeUriComponent: string -> string,
                      fetch: string -> FetchOutcome,
                      dropCode: string -> string)
    requires fetch(RequestUrl(url, true, encodeUriComponent)) == fetch(RequestUrl(url, false, encodeUriComponent))
    ensures FetchWebsiteText(url, maxChars, true, encodeUriComponent, fetch, dropCode)
         == FetchWebsiteText(url, maxChars, false, encodeUriComponent, fetch, dropCode)
  {
  }
}
