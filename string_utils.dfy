/** URL and file-name helpers: the domain under which an analysis is
    stored, a file-name slug, and the default `https://` scheme. */
module StringUtils {
  import opened Js

  /** `url.replace(/^https?:\/\//, '')`: at most one leading scheme is
      removed, compared case-sensitively. */
  function StripScheme(url: string): (r: string)
    ensures StartsWith(url, "https://") ==> r == url[8..]
    ensures StartsWith(url, "http://") ==> r == url[7..]
    ensures !StartsWith(url, "http://") && !StartsWith(url, "https://") ==> r == url
  {
    if StartsWith(url, "https://") then
      assert url[4] == 's';
      url[8..]
    else if StartsWith(url, "http://") then url[7..]
    else url
  }

  /** `s.split('/')[0]`: everything before the first '/'. */
  function BeforeSlash(s: string): (r: string)
    ensures '/' !in r
    ensures StartsWith(s, r)
    ensures |r| < |s| ==> s[|r|] == '/'
  {
    if s == [] || s[0] == '/' then [] else [s[0]] + BeforeSlash(s[1..])
  }

  /** `s.replace(/^www\./, '')` */
  function StripWww(s: string): (r: string)
    ensures StartsWith(s, "www.") ==> r == s[4..]
    ensures !StartsWith(s, "www.") ==> r == s
  {
    if StartsWith(s, "www.") then s[4..] else s
  }

  /** `getDomain`: the host part of a URL, lower-cased, without scheme,
      path or "www.". The `try`/`catch` around it cannot fire: none of the
      steps throws on a string. */
  function GetDomain(url: string): (r: string)
    ensures IsLower(r)
    ensures '/' !in r
  {
    var d := StripWww(BeforeSlash(StripScheme(url)));
    ToLowerIsLower(d);
    ToLowerNoSlash(d);
    ToLower(d)
  }

  lemma ToLowerNoSlash(s: string)
    requires '/' !in s
    ensures '/' !in ToLower(s)
  {
    forall i | 0 <= i < |s| ensures ToLower(s)[i] != '/' {
      assert s[i] != '/';
    }
  }

  lemma DiffersAt(x: string, p: string, j: nat)
    requires j < |p| && j < |x| && x[j] != p[j]
    ensures !StartsWith(x, p)
  {
    assert |p| > |x| || x[..|p|][j] == x[j];
  }

  /** A host without ':' or '/' followed by a path cannot look like a
      scheme. */
  lemma NoSchemeInHost(host: string, path: string)
    requires ':' !in host && '/' !in host
    requires path == [] || path[0] == '/'
    ensures !HasScheme(host + path)
  {
    var x := host + path;
    if |x| >= 7 {
      var j := if |host| > 4 then 4 else |host|;
      assert x[j] != "http://"[j];
      DiffersAt(x, "http://", j);
    }
    if |x| >= 8 {
      var j := if |host| > 5 then 5 else |host|;
      assert x[j] != "https://"[j];
      DiffersAt(x, "https://", j);
    }
  }

  /** The scheme part of a URL built from a scheme and the rest. */
  lemma StripSchemeOfParts(scheme: string, rest: string)
    requires scheme == "http://" || scheme == "https://" || (scheme == "" && !HasScheme(rest))
    ensures StripScheme(scheme + rest) == rest
  {
    if scheme == "http://" {
      assert StartsWith(scheme + rest, "http://");
      assert (scheme + rest)[7..] == rest;
    } else if scheme == "https://" {
      assert StartsWith(scheme + rest, "https://");
      assert (scheme + rest)[8..] == rest;
    } else {
      assert scheme + rest == rest;
    }
  }

  /** Two URLs for the same host give the same domain whatever their
      scheme (none, http or https), their "www." prefix or their path;
      the host is lower-cased. */
  lemma {:induction false} GetDomainOfParts(scheme: string, www: string, host: string, path: string)
    requires scheme == "" || scheme == "http://" || scheme == "https://"
    requires www == "" || www == "www."
    requires ':' !in host && '/' !in host && !StartsWith(host, "www.")
    requires path == [] || path[0] == '/'
    ensures GetDomain(scheme + www + host + path) == ToLower(host)
  {
    var rest := www + host + path;
    assert scheme + www + host + path == scheme + rest;
    if scheme == "" {
      if www == "" {
        NoSchemeInHost(host, path);
        assert rest == host + path;
      } else {
        DiffersAt(rest, "http://", 0);
        DiffersAt(rest, "https://", 0);
      }
    }
    StripSchemeOfParts(scheme, rest);
    assert '/' !in www + host;
    if path == [] {
      assert rest == www + host;
      BeforeSlashNoSlash(www + host);
    } else {
      assert rest == (www + host) + path;
      BeforeSlashStops(www + host, path);
    }
    if www == "" {
      assert www + host == host;
    } else {
      assert StartsWith(www + host, "www.");
      assert (www + host)[4..] == host;
    }
    assert StripWww(www + host) == host;
  }

  /** The scheme and "www." are matched case-sensitively, before
      lower-casing: "HTTPS:" + "//x.io" keeps its upper-case scheme, which
      then ends the domain at the first '/'. */
  lemma GetDomainUpperScheme(s: string, h: string)
    requires s == "HTTPS:" && h == "//x.io"
    ensures GetDomain(s + h) == "https:"
  {
    DiffersAt(s + h, "http://", 0);
    DiffersAt(s + h, "https://", 0);
    BeforeSlashStops(s, h);
    DiffersAt(s, "www.", 0);
    assert ToLower(s) == "https:";
  }

  /** Likewise an upper-case "WWW." is kept, then lower-cased. */
  lemma GetDomainUpperWww(s: string)
    requires s == "WWW.X.IO"
    ensures GetDomain(s) == "www.x.io"
  {
    DiffersAt(s, "http://", 0);
    DiffersAt(s, "https://", 0);
    BeforeSlashNoSlash(s);
    DiffersAt(s, "www.", 0);
    assert ToLower(s) == "www.x.io";
  }

  lemma {:induction false} BeforeSlashNoSlash(s: string)
    requires '/' !in s
    ensures BeforeSlash(s) == s
  {
    if s != [] {
      BeforeSlashNoSlash(s[1..]);
    }
  }

  lemma {:induction false} BeforeSlashStops(s: string, t: string)
    requires '/' !in s && t != [] && t[0] == '/'
    ensures BeforeSlash(s + t) == s
  {
    if s == [] {
      assert s + t == t;
    } else {
      assert (s + t)[1..] == s[1..] + t;
      BeforeSlashStops(s[1..], t);
    }
  }

  /** Characters kept by `slugify`: `[a-z0-9_-]`. */
  predicate SlugChar(c: char) {
    ('a' <= c <= 'z') || ('0' <= c <= '9') || c == '_' || c == '-'
  }

  predicate AllSlugChars(s: string) {
    forall i :: 0 <= i < |s| ==> SlugChar(s[i])
  }

  /** `s.replace(/[^a-z0-9_-]+/g, '-')`: every maximal run of other
      characters becomes one '-'; `inRun` says the previous character
      already belonged to such a run. */
  function ReplaceRuns(s: string, inRun: bool): (r: string)
    ensures AllSlugChars(r)
    ensures |r| <= |s|
    ensures AllSlugChars(s) ==> r == s
  {
    if s == [] then []
    else if SlugChar(s[0]) then [s[0]] + ReplaceRuns(s[1..], false)
    else if inRun then ReplaceRuns(s[1..], true)
    else "-" + ReplaceRuns(s[1..], true)
  }

  /** Removes the leading run of '-' (the `^-+` alternative). */
  function DropLeadingDashes(s: string): (r: string)
    ensures |r| <= |s| && r == s[|s| - |r|..]
    ensures forall i :: 0 <= i < |s| - |r| ==> s[i] == '-'
    ensures r == [] || r[0] != '-'
  {
    if s != [] && s[0] == '-' then
      var r := DropLeadingDashes(s[1..]);
      assert forall i :: 1 <= i < |s| - |r| ==> s[i] == s[1..][i - 1];
      assert s[1..][|s| - 1 - |r|..] == s[|s| - |r|..];
      r
    else s
  }

  /** Removes the trailing run of '-' (the `-+$` alternative). */
  function DropTrailingDashes(s: string): (r: string)
    ensures |r| <= |s| && r == s[..|r|]
    ensures forall i :: |r| <= i < |s| ==> s[i] == '-'
    ensures r == [] || r[|r| - 1] != '-'
  {
    if s != [] && s[|s| - 1] == '-' then DropTrailingDashes(s[..|s| - 1]) else s
  }

  /** `slugify`: lower-case, runs of other characters to '-', and no '-'
      at either end. */
  function Slugify(text: string): (r: string)
    ensures AllSlugChars(r)
    ensures r == [] || (r[0] != '-' && r[|r| - 1] != '-')
  {
    var t := ReplaceRuns(ToLower(text), false);
    var u := DropLeadingDashes(t);
    var r := DropTrailingDashes(u);
    SlugCharsSlice(t, |t| - |u|, |t|);
    SlugCharsSlice(u, 0, |r|);
    r
  }

  lemma SlugCharsSlice(s: string, i: nat, j: nat)
    requires AllSlugChars(s) && i <= j <= |s|
    ensures AllSlugChars(s[i..j])
  {
    forall k | 0 <= k < j - i ensures SlugChar(s[i..j][k]) {
      assert s[i..j][k] == s[i + k];
    }
  }

  lemma SlugIsLower(s: string)
    requires AllSlugChars(s)
    ensures ToLower(s) == s
  {
    forall i | 0 <= i < |s| ensures !IsUpper(s[i]) {
      assert SlugChar(s[i]);
    }
    ToLowerOfLower(s);
  }

  /** Slugifying a slug changes nothing. */
  lemma SlugifyIdempotent(text: string)
    ensures Slugify(Slugify(text)) == Slugify(text)
  {
    var s := Slugify(text);
    SlugIsLower(s);
    assert ReplaceRuns(s, false) == s;
  }

  lemma {:induction false} ReplaceRunsWord(w: string, rest: string, inRun: bool)
    requires w != [] && AllSlugChars(w)
    ensures ReplaceRuns(w + rest, inRun) == w + ReplaceRuns(rest, false)
  {
    assert (w + rest)[0] == w[0];
    assert (w + rest)[1..] == w[1..] + rest;
    if |w| > 1 {
      ReplaceRunsWord(w[1..], rest, false);
    }
  }

  lemma LowerExample(a: string, b: string)
    requires a == "Super City" && b == " AI"
    ensures ToLower(a + b) == "super city ai"
  {
    ToLowerAppend(a, b);
    assert ToLower(a) == "super city";
    assert ToLower(b) == " ai";
  }

  lemma ReplaceRunsSpace(rest: string)
    ensures ReplaceRuns(" " + rest, false) == "-" + ReplaceRuns(rest, true)
  {
    assert (" " + rest)[1..] == rest;
  }

  lemma WordThenSpace(a: string, rest: string, inRun: bool)
    requires a != [] && AllSlugChars(a)
    ensures ReplaceRuns(a + " " + rest, inRun) == a + "-" + ReplaceRuns(rest, true)
  {
    ReplaceRunsWord(a, " " + rest, inRun);
    ReplaceRunsSpace(rest);
    assert a + " " + rest == a + (" " + rest);
  }

  /** Words of slug characters separated by single spaces come out
      joined by '-'. */
  lemma {:induction false} ReplaceRunsJoin(ws: seq<string>, inRun: bool)
    requires ws != [] && forall i :: 0 <= i < |ws| ==> ws[i] != [] && AllSlugChars(ws[i])
    ensures ReplaceRuns(Join(ws, " "), inRun) == Join(ws, "-")
    decreases |ws|
  {
    if |ws| == 1 {
      ReplaceRunsWord(ws[0], "", inRun);
      assert ws[0] + "" == ws[0];
    } else {
      ReplaceRunsJoin(ws[1..], true);
      WordThenSpace(ws[0], Join(ws[1..], " "), inRun);
    }
  }

  /** The documented example: "Super City AI" becomes "super-city-ai". */
  lemma SlugifyExample()
    ensures Slugify("Super City AI") == "super-city-ai"
  {
    LowerExample("Super City", " AI");
    assert "Super City" + " AI" == "Super City AI";
    var ws := ["super", "city", "ai"];
    ReplaceRunsJoin(ws, false);
    ExampleJoins(ws);
    SlugifyBySteps("Super City AI", "super city ai", "super-city-ai");
  }

  lemma ExampleJoins(ws: seq<string>)
    requires ws == ["super", "city", "ai"]
    ensures Join(ws, " ") == "super city ai"
    ensures Join(ws, "-") == "super-city-ai"
  {
    assert ws[1..] == ["city", "ai"] && ws[1..][1..] == ["ai"];
    assert "city" + " " + "ai" == "city ai";
    assert "super" + " " + "city ai" == "super city ai";
    assert "city" + "-" + "ai" == "city-ai";
    assert "super" + "-" + "city-ai" == "super-city-ai";
  }

  lemma SlugifyBySteps(text: string, lowered: string, runs: string)
    requires ToLower(text) == lowered && ReplaceRuns(lowered, false) == runs
    requires runs != [] && runs[0] != '-' && runs[|runs| - 1] != '-'
    ensures Slugify(text) == runs
  {
  }

  predicate HasScheme(url: string) {
    StartsWith(url, "http://") || StartsWith(url, "https://")
  }

  /** `ensureScheme`: "https://" is put in front of a URL without an
      http or https scheme. */
  function EnsureScheme(url: string): (r: string)
    ensures HasScheme(r)
    ensures HasScheme(url) ==> r == url
    ensures !HasScheme(url) ==> r == "https://" + url
  {
    if !StartsWith(url, "http://") && !StartsWith(url, "https://") then "https://" + url else url
  }

  lemma EnsureSchemeIdempotent(url: string)
    ensures EnsureScheme(EnsureScheme(url)) == EnsureScheme(url)
  {
  }
}
