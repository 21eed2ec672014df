/** Filling a prompt template: `String.prototype.replace` with a string
    pattern (first occurrence only, with the `$` patterns of the
    replacement expanded as GetSubstitution of ECMA-262, 2024 edition,
    section 22.1.3.19.1, prescribes), chained over a list of
    `{{name}}` placeholders.

    A template is described by its pieces: literal text and `{{name}}`
    slots. When the literal text and the values are brace-safe (every '{'
    is followed by a character other than '{') and the values hold none of
    the four `$` patterns, each replacement fills exactly the slot of its
    placeholder. */
module PromptTemplate {
  import opened Js

  /** The first occurrence of `pat` in `s`, or -1 (`s.indexOf(pat)`). */
  function IndexOf(s: string, pat: string): (k: int)
    ensures -1 <= k <= |s|
    ensures k >= 0 ==> OccursAt(s, pat, k) && forall j :: 0 <= j < k ==> !OccursAt(s, pat, j)
    ensures k < 0 ==> forall j :: 0 <= j <= |s| ==> !OccursAt(s, pat, j)
    decreases |s|
  {
    if |s| < |pat| then -1
    else if s[..|pat|] == pat then 0
    else
      var k := IndexOf(s[1..], pat);
      OccursAtTail(s, pat);
      assert s[0..|pat|] == s[..|pat|];
      if k < 0 then -1 else k + 1
  }

  lemma OccursAtTail(s: string, pat: string)
    requires s != []
    ensures forall j :: 1 <= j <= |s| ==> (OccursAt(s, pat, j) <==> OccursAt(s[1..], pat, j - 1))
  {
    forall j | 1 <= j <= |s| ensures OccursAt(s, pat, j) <==> OccursAt(s[1..], pat, j - 1) {
      if j + |pat| <= |s| {
        var a, b := s[j..j + |pat|], s[1..][j - 1..j - 1 + |pat|];
        assert |a| == |b|;
        forall k | 0 <= k < |a| ensures a[k] == b[k] {
          assert a[k] == s[j + k];
        }
        assert a == b;
      }
    }
  }

  /** The characters that make a `$` special in a replacement string. */
  predicate SpecialAfterDollar(c: char) {
    c == '$' || c == '&' || c == '`' || c == '\''
  }

  /** The replacement text for one match, with `matched` the matched
      string and `before`/`after` the text around it: "$$" gives "$", "$&"
      the match, "$`" the text before it and "$'" the text after it; with
      a string pattern there are no captures, so every other `$` is
      literal. */
  function GetSubstitution(matched: string, before: string, after: string, repl: string): string
    decreases |repl|
  {
    if repl == [] then []
    else if |repl| >= 2 && repl[0] == '$' && SpecialAfterDollar(repl[1]) then
      var r := if repl[1] == '$' then "$" else if repl[1] == '&' then matched
               else if repl[1] == '`' then before else after;
      r + GetSubstitution(matched, before, after, repl[2..])
    else [repl[0]] + GetSubstitution(matched, before, after, repl[1..])
  }

  /** `repl` holds none of "$$", "$&", "$`", "$'". */
  predicate NoDollarPattern(repl: string) {
    forall i :: 0 <= i < |repl| - 1 && repl[i] == '$' ==> !SpecialAfterDollar(repl[i + 1])
  }

  /** Without `$` patterns the replacement is inserted as it is. */
  lemma {:induction false} GetSubstitutionLiteral(matched: string, before: string, after: string, repl: string)
    requires NoDollarPattern(repl)
    ensures GetSubstitution(matched, before, after, repl) == repl
    decreases |repl|
  {
    if repl != [] {
      assert NoDollarPattern(repl[1..]) by {
        forall i | 0 <= i < |repl[1..]| - 1 && repl[1..][i] == '$'
          ensures !SpecialAfterDollar(repl[1..][i + 1])
        {
          assert repl[i + 1] == '$';
        }
      }
      GetSubstitutionLiteral(matched, before, after, repl[1..]);
    }
  }

  /** `s.replace(pat, repl)` for a string pattern. */
  function ReplaceFirst(s: string, pat: string, repl: string): (r: string)
    ensures IndexOf(s, pat) < 0 ==> r == s
  {
    var k := IndexOf(s, pat);
    if k < 0 then s
    else s[..k] + GetSubstitution(pat, s[..k], s[k + |pat|..], repl) + s[k + |pat|..]
  }

  /** With a `$` pattern the value is not inserted as written: "$$"
      becomes "$", and "$&" puts the placeholder itself back. */
  lemma DollarPatternsExpand(pat: string)
    ensures ReplaceFirst(pat, pat, "$$") == "$"
    ensures ReplaceFirst(pat, pat, "$&") == pat
  {
    assert OccursAt(pat, pat, 0);
    assert IndexOf(pat, pat) == 0;
    assert pat[..0] == [] && pat[|pat|..] == [];
    assert "$$"[2..] == [] && "$&"[2..] == [];
  }

  /** `placeholders.reduce((s, (n, v)) => s.replace('{{' + n + '}}', v), template)`:
      the chained replacements of a `format...Prompt` function, in order. */
  function ReplaceAll(s: string, pairs: seq<(string, string)>): (r: string)
    ensures !Contains(s, "{{") ==> r == s
    decreases |pairs|
  {
    if pairs == [] then s
    else
      NoOpenNoPlaceholder(s, pairs[0].0);
      ReplaceAll(ReplaceFirst(s, Placeholder(pairs[0].0), pairs[0].1), pairs[1..])
  }

  /** A text without "{{" holds no placeholder. */
  lemma NoOpenNoPlaceholder(s: string, name: string)
    ensures !Contains(s, "{{") ==> IndexOf(s, Placeholder(name)) < 0
  {
    var k := IndexOf(s, Placeholder(name));
    if k >= 0 {
      assert s[k..k + 2] == Placeholder(name)[..2] == "{{";
      assert OccursAt(s, "{{", k);
    }
  }

  function Placeholder(name: string): string {
    "{{" + name + "}}"
  }

  /** A piece of a template: literal text, or the slot of a placeholder. */
  datatype Piece = Lit(text: string) | Slot(name: string)

  function PieceText(p: Piece): string {
    match p
    case Lit(t) => t
    case Slot(n) => Placeholder(n)
  }

  /** The text of a template given by its pieces. */
  function Render(ps: seq<Piece>): string
  {
    if ps == [] then "" else PieceText(ps[0]) + Render(ps[1..])
  }

  lemma RenderCons(p: Piece, ps: seq<Piece>)
    ensures Render([p] + ps) == PieceText(p) + Render(ps)
  {
    assert ([p] + ps)[1..] == ps;
  }

  /** Every '{' is followed by a character other than '{': the text holds
      no "{{" and does not end in '{'. */
  predicate BraceSafe(s: string) {
    forall i :: 0 <= i < |s| && s[i] == '{' ==> i + 1 < |s| && s[i + 1] != '{'
  }

  predicate BraceFree(name: string) {
    '{' !in name && '}' !in name
  }

  predicate SafePiece(p: Piece) {
    match p
    case Lit(t) => BraceSafe(t)
    case Slot(n) => BraceFree(n)
  }

  predicate SafePieces(ps: seq<Piece>) {
    forall i :: 0 <= i < |ps| ==> SafePiece(ps[i])
  }

  /** Texts that go in verbatim and cannot be mistaken for a slot. */
  predicate SafeTexts(vs: seq<string>) {
    forall k :: 0 <= k < |vs| ==> BraceSafe(vs[k]) && NoDollarPattern(vs[k])
  }

  /** Placeholder names with brace-free names, and values that go in
      verbatim and cannot be mistaken for a slot. */
  predicate SafeValues(pairs: seq<(string, string)>) {
    forall k :: 0 <= k < |pairs| ==>
      BraceFree(pairs[k].0) && BraceSafe(pairs[k].1) && NoDollarPattern(pairs[k].1)
  }

  /** No placeholder name occurs twice among the slots. */
  predicate UniqueSlots(ps: seq<Piece>) {
    forall i, j :: 0 <= i < j < |ps| && ps[i].Slot? && ps[j].Slot? ==> ps[i].name != ps[j].name
  }

  /** The template with its first `{{n}}` slot replaced by the value. */
  function FillFirst(ps: seq<Piece>, n: string, v: string): (r: seq<Piece>)
    ensures |r| == |ps|
  {
    if ps == [] then []
    else if ps[0] == Slot(n) then [Lit(v)] + ps[1..]
    else [ps[0]] + FillFirst(ps[1..], n, v)
  }

  /** A literal text that is brace-safe holds no placeholder starting
      inside it, whatever follows. */
  lemma NoPlaceholderInLit(t: string, rest: string, n: string)
    requires BraceSafe(t)
    ensures forall i :: 0 <= i < |t| ==> !OccursAt(t + rest, Placeholder(n), i)
  {
    var s := t + rest;
    var w := Placeholder(n);
    forall i | 0 <= i < |t| ensures !OccursAt(s, w, i) {
      if i + |w| <= |s| {
        assert w[0] == '{' && w[1] == '{';
        assert s[i] != '{' || s[i + 1] != '{' by {
          if s[i] == '{' {
            assert t[i] == '{';
            assert s[i + 1] == t[i + 1];
          }
        }
        assert s[i..i + |w|][0] == s[i] && s[i..i + |w|][1] == s[i + 1];
      }
    }
  }

  lemma PlaceholderChars(m: string)
    ensures var p := Placeholder(m);
      |p| == |m| + 4 && p[0] == '{' && p[1] == '{' && p[|m| + 2] == '}' && p[|m| + 3] == '}' &&
      forall j :: 0 <= j < |m| ==> p[2 + j] == m[j]
  {
  }

  /** Two placeholders of different brace-free names differ at some index
      both of them have. */
  lemma PlaceholdersDiffer(m: string, n: string) returns (k: nat)
    requires BraceFree(m) && BraceFree(n) && m != n
    ensures k < |Placeholder(m)| && k < |Placeholder(n)| && Placeholder(m)[k] != Placeholder(n)[k]
  {
    PlaceholderChars(m);
    PlaceholderChars(n);
    if |m| < |n| {
      k := 2 + |m|;
      assert Placeholder(n)[k] == n[|m|];
    } else if |m| > |n| {
      k := 2 + |n|;
      assert Placeholder(m)[k] == m[|n|];
    } else {
      assert exists j :: 0 <= j < |m| && m[j] != n[j];
      var j :| 0 <= j < |m| && m[j] != n[j];
      k := 2 + j;
    }
  }

  /** The slot of another name holds no placeholder of `n` starting inside
      it, whatever follows. */
  lemma NoPlaceholderInOtherSlot(m: string, rest: string, n: string)
    requires BraceFree(m) && BraceFree(n) && m != n
    ensures forall i :: 0 <= i < |Placeholder(m)| ==> !OccursAt(Placeholder(m) + rest, Placeholder(n), i)
  {
    var t := Placeholder(m);
    var s := t + rest;
    var w := Placeholder(n);
    PlaceholderChars(m);
    PlaceholderChars(n);
    forall i | 0 <= i < |t| ensures !OccursAt(s, w, i) {
      if i + |w| <= |s| {
        if i == 0 {
          var k := PlaceholdersDiffer(m, n);
          assert s[0..|w|][k] == s[k] == t[k];
        } else if i == 1 {
          assert t[2] != '{' by {
            if |m| > 0 { assert t[2] == m[0]; }
          }
          assert s[i..i + |w|][1] == s[2] == t[2];
        } else {
          assert t[i] != '{' by {
            if i - 2 < |m| { assert t[i] == m[i - 2]; }
          }
          assert s[i..i + |w|][0] == s[i] == t[i];
        }
      }
    }
  }

  /** If `a` holds no start of an occurrence, the first occurrence in
      `a + b` is the first one in `b`, shifted. */
  lemma IndexOfShift(a: string, b: string, w: string)
    requires forall i :: 0 <= i < |a| ==> !OccursAt(a + b, w, i)
    ensures IndexOf(a + b, w) == if IndexOf(b, w) < 0 then -1 else |a| + IndexOf(b, w)
  {
    var s := a + b;
    forall j | 0 <= j <= |b| ensures OccursAt(s, w, |a| + j) <==> OccursAt(b, w, j) {
      if j + |w| <= |b| {
        assert s[|a| + j..|a| + j + |w|] == b[j..j + |w|];
      }
    }
    var kb := IndexOf(b, w);
    var k := IndexOf(s, w);
    if k >= 0 {
      assert k >= |a|;
      assert OccursAt(b, w, k - |a|);
    }
    if kb >= 0 {
      assert OccursAt(s, w, |a| + kb);
    }
  }

  /** A placeholder at the very start is the one replaced. */
  lemma ReplaceFirstAtStart(rest: string, w: string, v: string)
    requires NoDollarPattern(v)
    ensures ReplaceFirst(w + rest, w, v) == v + rest
  {
    var s := w + rest;
    assert OccursAt(s, w, 0);
    assert IndexOf(s, w) == 0;
    assert s[..0] == [] && s[|w|..] == rest;
    GetSubstitutionLiteral(w, [], rest, v);
  }

  /** A text without an occurrence starting in it is kept in front of the
      replacement in what follows it. */
  lemma ReplaceFirstAfter(t: string, rest: string, w: string, v: string)
    requires IndexOf(t + rest, w) == if IndexOf(rest, w) < 0 then -1 else |t| + IndexOf(rest, w)
    requires NoDollarPattern(v)
    ensures ReplaceFirst(t + rest, w, v) == t + ReplaceFirst(rest, w, v)
  {
    var kb := IndexOf(rest, w);
    if kb >= 0 {
      ReplaceFirstAfterAt(t, rest, w, v, kb);
    }
  }

  lemma ReplaceFirstAfterAt(t: string, rest: string, w: string, v: string, kb: int)
    requires 0 <= kb && IndexOf(rest, w) == kb && IndexOf(t + rest, w) == |t| + kb
    requires NoDollarPattern(v)
    ensures ReplaceFirst(t + rest, w, v) == t + ReplaceFirst(rest, w, v)
  {
    ReplaceAt(t + rest, w, v, |t| + kb);
    ReplaceAt(rest, w, v, kb);
    ReplaceFirstAfterSplice(t, rest, w, v, kb);
  }

  lemma ReplaceFirstAfterSplice(t: string, rest: string, w: string, v: string, kb: nat)
    requires kb + |w| <= |rest|
    requires ReplaceFirst(t + rest, w, v) == Splice(t + rest, |t| + kb, |w|, v)
    requires ReplaceFirst(rest, w, v) == Splice(rest, kb, |w|, v)
    ensures ReplaceFirst(t + rest, w, v) == t + ReplaceFirst(rest, w, v)
  {
    SpliceAfter(t, rest, kb, |w|, v);
  }

  /** `s` with the `len` characters at `k` replaced by `v`. */
  function Splice(s: string, k: nat, len: nat, v: string): string
    requires k + len <= |s|
  {
    s[..k] + v + s[k + len..]
  }

  lemma SpliceAfter(t: string, rest: string, k: nat, len: nat, v: string)
    requires k + len <= |rest|
    ensures Splice(t + rest, |t| + k, len, v) == t + Splice(rest, k, len, v)
  {
    var x, y := rest[..k], rest[k + len..];
    assert (t + rest)[..|t| + k] == t + x;
    assert (t + rest)[|t| + k + len..] == y;
    Assoc(t, x, v);
    Assoc(t, x + v, y);
  }

  lemma ReplaceAt(s: string, w: string, v: string, k: int)
    requires 0 <= k && IndexOf(s, w) == k && NoDollarPattern(v)
    ensures k + |w| <= |s| && ReplaceFirst(s, w, v) == Splice(s, k, |w|, v)
  {
    assert OccursAt(s, w, k);
    var pre, post := s[..k], s[k + |w|..];
    GetSubstitutionLiteral(w, pre, post, v);
    assert ReplaceFirst(s, w, v) == pre + v + post;
  }

  lemma SafePiecesTail(ps: seq<Piece>)
    requires ps != [] && SafePieces(ps)
    ensures SafePieces(ps[1..])
  {
    forall i | 0 <= i < |ps[1..]| ensures SafePiece(ps[1..][i]) {
      assert ps[1..][i] == ps[i + 1];
    }
  }

  /** One replacement fills the first slot of its placeholder. */
  lemma {:induction false} ReplaceFirstFills(ps: seq<Piece>, n: string, v: string)
    requires SafePieces(ps) && BraceFree(n) && NoDollarPattern(v)
    ensures ReplaceFirst(Render(ps), Placeholder(n), v) == Render(FillFirst(ps, n, v))
  {
    var w := Placeholder(n);
    if ps == [] {
      assert IndexOf("", w) < 0;
    } else {
      var t := PieceText(ps[0]);
      var rest := Render(ps[1..]);
      if ps[0] == Slot(n) {
        ReplaceFirstAtStart(rest, w, v);
        RenderCons(Lit(v), ps[1..]);
      } else {
        if ps[0].Lit? {
          NoPlaceholderInLit(t, rest, n);
        } else {
          NoPlaceholderInOtherSlot(ps[0].name, rest, n);
        }
        IndexOfShift(t, rest, w);
        ReplaceFirstAfter(t, rest, w, v);
        SafePiecesTail(ps);
        ReplaceFirstFills(ps[1..], n, v);
        RenderCons(ps[0], FillFirst(ps[1..], n, v));
      }
    }
  }

  /** The pieces with every slot whose name has a value (the first pair
      with that name) replaced by that value. */
  function Lookup(pairs: seq<(string, string)>, n: string): Option<string>
  {
    if pairs == [] then None
    else if pairs[0].0 == n then Some(pairs[0].1)
    else Lookup(pairs[1..], n)
  }

  /** The value found for a name is that of its first pair. */
  lemma {:induction false} LookupFirst(pairs: seq<(string, string)>, k: int)
    requires 0 <= k < |pairs| && forall j :: 0 <= j < k ==> pairs[j].0 != pairs[k].0
    ensures Lookup(pairs, pairs[k].0) == Some(pairs[k].1)
  {
    if k > 0 {
      LookupFirst(pairs[1..], k - 1);
    }
  }

  function SubstPiece(p: Piece, pairs: seq<(string, string)>): Piece
  {
    match p
    case Lit(_) => p
    case Slot(n) =>
      match Lookup(pairs, n)
      case Some(v) => Lit(v)
      case None => p
  }

  function Subst(ps: seq<Piece>, pairs: seq<(string, string)>): (r: seq<Piece>)
    ensures |r| == |ps|
    ensures forall i :: 0 <= i < |ps| ==> r[i] == SubstPiece(ps[i], pairs)
  {
    seq(|ps|, i requires 0 <= i < |ps| => SubstPiece(ps[i], pairs))
  }

  lemma LookupCons(p: (string, string), rest: seq<(string, string)>, n: string)
    ensures Lookup([p] + rest, n) == if p.0 == n then Some(p.1) else Lookup(rest, n)
  {
    assert ([p] + rest)[1..] == rest;
  }

  lemma LookupOne(p: (string, string), n: string)
    ensures Lookup([p], n) == if p.0 == n then Some(p.1) else None
  {
    assert [p][1..] == [];
  }

  lemma {:induction false} FillFirstIsSubst(ps: seq<Piece>, n: string, v: string)
    requires UniqueSlots(ps)
    ensures FillFirst(ps, n, v) == Subst(ps, [(n, v)])
  {
    if ps != [] {
      assert UniqueSlots(ps[1..]) by {
        forall i, j | 0 <= i < j < |ps[1..]| && ps[1..][i].Slot? && ps[1..][j].Slot?
          ensures ps[1..][i].name != ps[1..][j].name
        {
          assert ps[1..][i] == ps[i + 1] && ps[1..][j] == ps[j + 1];
        }
      }
      var r := FillFirst(ps, n, v);
      var sub := Subst(ps, [(n, v)]);
      forall i | 0 <= i < |ps| ensures r[i] == sub[i] {
        if ps[i].Slot? {
          LookupOne((n, v), ps[i].name);
        }
        if i > 0 {
          if ps[0] == Slot(n) {
            if ps[i].Slot? {
              assert ps[i].name != n;
            }
          } else {
            FillFirstIsSubst(ps[1..], n, v);
            assert r[i] == FillFirst(ps[1..], n, v)[i - 1];
          }
        }
      }
    }
  }

  lemma SubstTwice(ps: seq<Piece>, p: (string, string), rest: seq<(string, string)>)
    ensures Subst(Subst(ps, [p]), rest) == Subst(ps, [p] + rest)
  {
    forall i | 0 <= i < |ps| ensures SubstPiece(SubstPiece(ps[i], [p]), rest) == SubstPiece(ps[i], [p] + rest) {
      if ps[i].Slot? {
        LookupOne(p, ps[i].name);
        LookupCons(p, rest, ps[i].name);
      }
    }
  }

  lemma SubstKeepsSafety(ps: seq<Piece>, pairs: seq<(string, string)>)
    requires SafePieces(ps) && SafeValues(pairs) && UniqueSlots(ps)
    ensures SafePieces(Subst(ps, pairs)) && UniqueSlots(Subst(ps, pairs))
  {
    forall i | 0 <= i < |ps| ensures SafePiece(SubstPiece(ps[i], pairs)) {
      if ps[i].Slot? {
        LookupSafe(pairs, ps[i].name);
      }
    }
  }

  lemma {:induction false} LookupSafe(pairs: seq<(string, string)>, n: string)
    requires SafeValues(pairs)
    ensures Lookup(pairs, n).Some? ==> BraceSafe(Lookup(pairs, n).value)
  {
    if pairs != [] && pairs[0].0 != n {
      assert SafeValues(pairs[1..]) by {
        forall k | 0 <= k < |pairs[1..]| ensures BraceFree(pairs[1..][k].0) && BraceSafe(pairs[1..][k].1) && NoDollarPattern(pairs[1..][k].1) {
          assert pairs[1..][k] == pairs[k + 1];
        }
      }
      LookupSafe(pairs[1..], n);
    }
  }

  /** The chained replacements write every value verbatim in the slot of
      its placeholder and leave all other text as it is. */
  lemma {:induction false} ReplaceAllFills(ps: seq<Piece>, pairs: seq<(string, string)>)
    requires SafePieces(ps) && UniqueSlots(ps) && SafeValues(pairs)
    ensures ReplaceAll(Render(ps), pairs) == Render(Subst(ps, pairs))
    decreases |pairs|
  {
    if pairs == [] {
      assert Subst(ps, pairs) == ps;
    } else {
      var p := pairs[0];
      ReplaceFirstFills(ps, p.0, p.1);
      FillFirstIsSubst(ps, p.0, p.1);
      var ps1 := Subst(ps, [p]);
      assert SafeValues([p]);
      SubstKeepsSafety(ps, [p]);
      assert SafeValues(pairs[1..]) by {
        forall k | 0 <= k < |pairs[1..]| ensures BraceFree(pairs[1..][k].0) && BraceSafe(pairs[1..][k].1) && NoDollarPattern(pairs[1..][k].1) {
          assert pairs[1..][k] == pairs[k + 1];
        }
      }
      ReplaceAllFills(ps1, pairs[1..]);
      SubstTwice(ps, p, pairs[1..]);
      assert [p] + pairs[1..] == pairs;
    }
  }

  function Names(pairs: seq<(string, string)>): (r: seq<string>)
    ensures |r| == |pairs|
    ensures forall k :: 0 <= k < |pairs| ==> r[k] == pairs[k].0
  {
    seq(|pairs|, k requires 0 <= k < |pairs| => pairs[k].0)
  }

  function Values(pairs: seq<(string, string)>): (r: seq<string>)
    ensures |r| == |pairs|
    ensures forall k :: 0 <= k < |pairs| ==> r[k] == pairs[k].1
  {
    seq(|pairs|, k requires 0 <= k < |pairs| => pairs[k].1)
  }

  lemma SafeValuesOfParts(pairs: seq<(string, string)>)
    requires forall k :: 0 <= k < |pairs| ==> BraceFree(Names(pairs)[k])
    requires SafeTexts(Values(pairs))
    ensures SafeValues(pairs)
  {
    forall k | 0 <= k < |pairs| ensures BraceFree(pairs[k].0) && BraceSafe(pairs[k].1) && NoDollarPattern(pairs[k].1) {
      assert Names(pairs)[k] == pairs[k].0;
      assert Values(pairs)[k] == pairs[k].1;
    }
  }

  /** The placeholder names of the prompts: lower-case letters and '_'. */
  predicate Identifier(name: string) {
    forall i :: 0 <= i < |name| ==> ('a' <= name[i] <= 'z') || name[i] == '_'
  }

  lemma IdentifierBraceFree(name: string)
    requires Identifier(name)
    ensures BraceFree(name)
  {
  }

  /** Every slot of the template has a value. */
  predicate Covers(ps: seq<Piece>, pairs: seq<(string, string)>) {
    forall i :: 0 <= i < |ps| && ps[i].Slot? ==> ps[i].name in Names(pairs)
  }

  lemma {:induction false} LookupFound(pairs: seq<(string, string)>, n: string)
    requires n in Names(pairs)
    ensures Lookup(pairs, n).Some?
  {
    if pairs[0].0 != n {
      assert n in Names(pairs[1..]) by {
        var k :| 0 <= k < |pairs| && Names(pairs)[k] == n;
        assert k > 0 && Names(pairs[1..])[k - 1] == n;
      }
      LookupFound(pairs[1..], n);
    }
  }

  lemma {:induction false} RenderLitsSafe(ps: seq<Piece>)
    requires SafePieces(ps) && forall i :: 0 <= i < |ps| ==> ps[i].Lit?
    ensures BraceSafe(Render(ps))
  {
    if ps != [] {
      assert SafePieces(ps[1..]) by {
        forall i | 0 <= i < |ps[1..]| ensures SafePiece(ps[1..][i]) {
          assert ps[1..][i] == ps[i + 1];
        }
      }
      RenderLitsSafe(ps[1..]);
      BraceSafeConcat(ps[0].text, Render(ps[1..]));
    }
  }

  lemma BraceSafeConcat(a: string, b: string)
    requires BraceSafe(a) && BraceSafe(b)
    ensures BraceSafe(a + b)
  {
    var s := a + b;
    forall i | 0 <= i < |s| && s[i] == '{' ensures i + 1 < |s| && s[i + 1] != '{' {
      if i < |a| {
        assert a[i] == '{';
      } else {
        assert b[i - |a|] == '{';
      }
    }
  }

  lemma BraceSafeNoPlaceholder(s: string)
    requires BraceSafe(s)
    ensures !Contains(s, "{{")
  {
    forall i | 0 <= i <= |s| ensures !OccursAt(s, "{{", i) {
      if i + 2 <= |s| && s[i] == '{' {
        assert s[i..i + 2][1] == s[i + 1];
      }
    }
  }

  /** When every slot has a value, no "{{" is left in the result. */
  lemma ReplaceAllLeavesNoPlaceholder(ps: seq<Piece>, pairs: seq<(string, string)>)
    requires SafePieces(ps) && UniqueSlots(ps) && SafeValues(pairs) && Covers(ps, pairs)
    ensures !Contains(ReplaceAll(Render(ps), pairs), "{{")
  {
    ReplaceAllFills(ps, pairs);
    var filled := Subst(ps, pairs);
    SubstKeepsSafety(ps, pairs);
    forall i | 0 <= i < |filled| ensures filled[i].Lit? {
      if ps[i].Slot? {
        LookupFound(pairs, ps[i].name);
      }
    }
    RenderLitsSafe(filled);
    BraceSafeNoPlaceholder(Render(filled));
  }

  /** Replacement order matters: a value that itself reads `{{b}}`, put in
      an earlier slot, receives the value meant for `b`, and the template's
      own `{{b}}` slot stays unfilled. */
  lemma EarlierValueCapturesLaterSlot(pre: string, mid: string, post: string, a: string, b: string, v: string)
    requires BraceSafe(pre) && BraceSafe(mid) && BraceSafe(post)
    requires BraceFree(a) && BraceFree(b) && a != b
    requires NoDollarPattern(Placeholder(b)) && NoDollarPattern(v)
    ensures ReplaceAll(pre + Placeholder(a) + mid + Placeholder(b) + post, [(a, Placeholder(b)), (b, v)])
         == pre + v + mid + Placeholder(b) + post
  {
    var pb := Placeholder(b);
    FillTwoSlots(pre, mid, post, a, b, pb);
    FillTwoSlots(pre, mid, post, b, b, v);
    ReplaceAllTwo(pre + Placeholder(a) + mid + pb + post, (a, pb), (b, v));
  }

  /** A template with a single slot gets the value in that slot. */
  lemma FillOneSlot(pre: string, post: string, a: string, v: string)
    requires BraceSafe(pre) && BraceSafe(post) && BraceFree(a) && NoDollarPattern(v)
    ensures ReplaceFirst(pre + Placeholder(a) + post, Placeholder(a), v) == pre + v + post
  {
    var ps := [Lit(pre), Slot(a), Lit(post)];
    assert SafePieces(ps);
    ReplaceFirstFills(ps, a, v);
    assert FillFirst(ps, a, v) == [Lit(pre), Lit(v), Lit(post)];
    RenderThree(ps, pre, Placeholder(a), post);
    RenderThree([Lit(pre), Lit(v), Lit(post)], pre, v, post);
  }

  lemma RenderThree(ps: seq<Piece>, t0: string, t1: string, t2: string)
    requires |ps| == 3
    requires PieceText(ps[0]) == t0 && PieceText(ps[1]) == t1 && PieceText(ps[2]) == t2
    ensures Render(ps) == t0 + t1 + t2
  {
    assert ps[2..][1..] == [];
    assert Render(ps[2..]) == t2;
    assert ps[1..][1..] == ps[2..];
    assert Render(ps[1..]) == t1 + t2;
  }

  /** The first of two slots, `{{a}}` then `{{b}}`, is the one a
      replacement of `{{a}}` fills. */
  lemma FillTwoSlots(pre: string, mid: string, post: string, a: string, b: string, v: string)
    requires BraceSafe(pre) && BraceSafe(mid) && BraceSafe(post)
    requires BraceFree(a) && BraceFree(b) && NoDollarPattern(v)
    ensures ReplaceFirst(pre + Placeholder(a) + mid + Placeholder(b) + post, Placeholder(a), v)
         == pre + v + mid + Placeholder(b) + post
  {
    var ps := [Lit(pre), Slot(a), Lit(mid), Slot(b), Lit(post)];
    assert SafePieces(ps);
    ReplaceFirstFills(ps, a, v);
    assert FillFirst(ps, a, v) == [Lit(pre), Lit(v), Lit(mid), Slot(b), Lit(post)];
    RenderFive(ps, pre, Placeholder(a), mid, Placeholder(b), post);
    RenderFive([Lit(pre), Lit(v), Lit(mid), Slot(b), Lit(post)], pre, v, mid, Placeholder(b), post);
  }

  lemma ReplaceAllTwo(s: string, p: (string, string), q: (string, string))
    ensures ReplaceAll(s, [p, q]) == ReplaceFirst(ReplaceFirst(s, Placeholder(p.0), p.1), Placeholder(q.0), q.1)
  {
    var s1 := ReplaceFirst(s, Placeholder(p.0), p.1);
    assert [p, q][1..] == [q];
    assert ReplaceAll(s, [p, q]) == ReplaceAll(s1, [q]);
    assert [q][1..] == [];
    assert ReplaceAll(s1, [q]) == ReplaceAll(ReplaceFirst(s1, Placeholder(q.0), q.1), []);
  }

  lemma RenderFive(ps: seq<Piece>, t0: string, t1: string, t2: string, t3: string, t4: string)
    requires |ps| == 5
    requires PieceText(ps[0]) == t0 && PieceText(ps[1]) == t1 && PieceText(ps[2]) == t2
    requires PieceText(ps[3]) == t3 && PieceText(ps[4]) == t4
    ensures Render(ps) == t0 + t1 + t2 + t3 + t4
  {
    assert ps[4..][1..] == [];
    assert Render(ps[4..]) == t4;
    assert ps[3..][1..] == ps[4..];
    assert Render(ps[3..]) == t3 + t4;
    assert ps[2..][1..] == ps[3..];
    assert Render(ps[2..]) == t2 + (t3 + t4);
    assert ps[1..][1..] == ps[2..];
    assert Render(ps[1..]) == t1 + (t2 + (t3 + t4));
  }
}
