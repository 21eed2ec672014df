/** The seven-stage analysis graph: how a node's partial update is merged
    into the state, how a failing node is turned into an error update,
    and the fixed order in which `runAnalysis` and `streamAnalysis` run
    the stages. The nodes themselves are parameters: each maps the state
    it is given to an outcome (an update, `null`, or a thrown value). */
module GraphBuilder {
  import opened Js
  import opened PipelineSchema

  /** `...update` for one property. */
  function Pick<T>(f: Field<T>, current: T): (r: T)
    ensures f.Set? ==> r == f.value
    ensures f.Keep? ==> r == current
  {
    if f.Set? then f.value else current
  }

  /** The errors an update contributes: `update.errors || []`. */
  function ErrorsOf(u: Update): (r: seq<string>)
    ensures u.errors.Set? ==> r == u.errors.value
    ensures u.errors.Keep? ==> r == []
  {
    if u.errors.Set? then u.errors.value else []
  }

  /** `mergeState`: every property the update has replaces the state's,
      except `errors`, which accumulate. */
  function MergeState(s: StartupState, u: Update): (r: StartupState)
    ensures r.errors == s.errors + ErrorsOf(u)
  {
    StartupState(
      Pick(u.startup_id, s.startup_id),
      Pick(u.url, s.url),
      Pick(u.deck_slides, s.deck_slides),
      Pick(u.website_html, s.website_html),
      Pick(u.web_chunks, s.web_chunks),
      Pick(u.deck_structured, s.deck_structured),
      Pick(u.evidence, s.evidence),
      Pick(u.core, s.core),
      Pick(u.business, s.business),
      Pick(u.risk, s.risk),
      Pick(u.final_analysis, s.final_analysis),
      Pick(u.memo, s.memo),
      s.errors + ErrorsOf(u))
  }

  /** Every other property comes from the update when the update has
      it, and from the state otherwise. */
  lemma MergeTakesUpdate(s: StartupState, u: Update)
    ensures var r := MergeState(s, u);
      (u.startup_id.Set? ==> r.startup_id == u.startup_id.value) &&
      (u.startup_id.Keep? ==> r.startup_id == s.startup_id) &&
      (u.url.Set? ==> r.url == u.url.value) &&
      (u.url.Keep? ==> r.url == s.url) &&
      (u.deck_slides.Set? ==> r.deck_slides == u.deck_slides.value) &&
      (u.deck_slides.Keep? ==> r.deck_slides == s.deck_slides) &&
      (u.website_html.Set? ==> r.website_html == u.website_html.value) &&
      (u.website_html.Keep? ==> r.website_html == s.website_html) &&
      (u.web_chunks.Set? ==> r.web_chunks == u.web_chunks.value) &&
      (u.web_chunks.Keep? ==> r.web_chunks == s.web_chunks) &&
      (u.deck_structured.Set? ==> r.deck_structured == u.deck_structured.value) &&
      (u.deck_structured.Keep? ==> r.deck_structured == s.deck_structured) &&
      (u.evidence.Set? ==> r.evidence == u.evidence.value) &&
      (u.evidence.Keep? ==> r.evidence == s.evidence) &&
      (u.core.Set? ==> r.core == u.core.value) &&
      (u.core.Keep? ==> r.core == s.core) &&
      (u.business.Set? ==> r.business == u.business.value) &&
      (u.business.Keep? ==> r.business == s.business) &&
      (u.risk.Set? ==> r.risk == u.risk.value) &&
      (u.risk.Keep? ==> r.risk == s.risk) &&
      (u.final_analysis.Set? ==> r.final_analysis == u.final_analysis.value) &&
      (u.final_analysis.Keep? ==> r.final_analysis == s.final_analysis) &&
      (u.memo.Set? ==> r.memo == u.memo.value) &&
      (u.memo.Keep? ==> r.memo == s.memo)
  {
  }

  /** Merging the empty update changes nothing. */
  lemma MergeNothing(s: StartupState)
    ensures MergeState(s, NoUpdate) == s
  {
  }

  /** The later of two writes to one property: the second if it sets it. */
  function Later<T>(f1: Field<T>, f2: Field<T>): Field<T>
  {
    if f2.Set? then f2 else f1
  }

  /** The update two consecutive merges amount to: the later property
      wins, and the errors of both are kept in order. */
  function Combine(u1: Update, u2: Update): (u: Update)
    ensures ErrorsOf(u) == ErrorsOf(u1) + ErrorsOf(u2)
  {
    Update(
      Later(u1.startup_id, u2.startup_id), Later(u1.url, u2.url),
      Later(u1.deck_slides, u2.deck_slides), Later(u1.website_html, u2.website_html),
      Later(u1.web_chunks, u2.web_chunks), Later(u1.deck_structured, u2.deck_structured),
      Later(u1.evidence, u2.evidence), Later(u1.core, u2.core),
      Later(u1.business, u2.business), Later(u1.risk, u2.risk),
      Later(u1.final_analysis, u2.final_analysis), Later(u1.memo, u2.memo),
      Set(ErrorsOf(u1) + ErrorsOf(u2)))
  }

  /** Two merges in a row are one merge of the combined update. */
  lemma MergeTwice(s: StartupState, u1: Update, u2: Update)
    ensures MergeState(MergeState(s, u1), u2) == MergeState(s, Combine(u1, u2))
  {
    assert s.errors + ErrorsOf(u1) + ErrorsOf(u2) == s.errors + (ErrorsOf(u1) + ErrorsOf(u2));
  }

  /** A node whose catch branch returns `[...state.errors, msg]` makes the
      merge repeat every earlier error. */
  lemma CatchBranchDuplicates(s: StartupState, u: Update, msg: string)
    requires u.errors == Set(s.errors + [msg])
    ensures MergeState(s, u).errors == s.errors + s.errors + [msg]
    ensures |MergeState(s, u).errors| == 2 * |s.errors| + 1
  {
    assert s.errors + (s.errors + [msg]) == s.errors + s.errors + [msg];
  }

  /** What awaiting a node gives: an update, `null`, or a thrown value. */
  datatype Outcome = Resolved(update: Update) | ResolvedNull | Rejected(error: Thrown)

  /** `executeNode`: the node's result unchanged, or on a throw an update
      holding only the error line "<nodeName> failed: <message>". */
  function ExecuteNode(nodeName: string, outcome: Outcome): (r: Option<Update>)
    ensures outcome.Resolved? ==> r == Some(outcome.update)
    ensures outcome.ResolvedNull? ==> r == None
    ensures outcome.Rejected? ==>
      r == Some(ErrorsOnly([nodeName + " failed: " + Describe(outcome.error)]))
  {
    match outcome
    case Resolved(u) => Some(u)
    case ResolvedNull => None
    case Rejected(e) => Some(ErrorsOnly([nodeName + " failed: " + Describe(e)]))
  }

  /** The only throw left inside the pipeline's `try`: reading `errors`
      of a `null` update in `mergeState` (the engine's TypeError text). */
  const NullUpdateMessage: string := "Cannot read properties of null (reading 'errors')"

  /** A merge that either succeeds or throws, keeping the state it had. */
  datatype Merged = Merged(state: StartupState) | Crashed(state: StartupState, message: string)

  function MergeResult(s: StartupState, r: Option<Update>): (m: Merged)
    ensures r.None? ==> m == Crashed(s, NullUpdateMessage)
    ensures r.Some? ==> m == Merged(MergeState(s, r.value))
  {
    if r.Some? then Merged(MergeState(s, r.value)) else Crashed(s, NullUpdateMessage)
  }

  /** The next merge, unless an earlier one has thrown. */
  function Then(m: Merged, r: Option<Update>): (m': Merged)
    ensures m.Crashed? ==> m' == m
    ensures m.Merged? ==> m' == MergeResult(m.state, r)
  {
    if m.Crashed? then m else MergeResult(m.state, r)
  }

  /** The nine nodes of the graph. */
  datatype Nodes = Nodes(
    ingestWebsite: StartupState -> Outcome,
    ingestDeck: StartupState -> Outcome,
    deckVision: StartupState -> Outcome,
    evidenceExtraction: StartupState -> Outcome,
    coreAnalysis: StartupState -> Outcome,
    businessAnalysis: StartupState -> Outcome,
    riskAnalysis: StartupState -> Outcome,
    mergeAnalysis: StartupState -> Outcome,
    investmentMemo: StartupState -> Outcome)

  /** `Partial<StartupState>` as the caller passes it. */
  datatype Input = Input(startup_id: Option<string>, url: Option<string>, deck_slides: Option<seq<SlideImage>>)

  /** The state both entry points start from; `now` stands for `Date.now()`. */
  function InitialState(input: Input, now: nat): (s: StartupState)
    ensures s.startup_id == (if Truthy(input.startup_id) then input.startup_id.value else "analysis-" + NatToString(now))
    ensures s.url == Or(input.url, "")
    ensures s.deck_slides == input.deck_slides
    ensures s.website_html.None? && s.web_chunks.None? && s.deck_structured.None?
    ensures s.evidence.None? && s.core.None? && s.business.None? && s.risk.None?
    ensures s.final_analysis.None? && s.memo.None?
    ensures s.errors == []
  {
    StartupState(
      Or(input.startup_id, "analysis-" + NatToString(now)),
      Or(input.url, ""),
      input.deck_slides,
      None, None, None, None, None, None, None, None, None,
      [])
  }

  /** `state.deck_slides && state.deck_slides.length > 0`. */
  predicate HasSlides(s: StartupState) {
    s.deck_slides.Some? && |s.deck_slides.value| > 0
  }

  /** The update used when the vision stage is skipped. */
  const SkipVision: Update := NoUpdate.(deck_structured := Set(Some([])))

  /** The nodes a stage calls, in order, and the merged result. */
  datatype StageRun = StageRun(calls: seq<string>, result: Merged)

  /** Two nodes run on the same snapshot and are merged in the listed order. */
  function Pair(n1: string, f1: StartupState -> Outcome, n2: string, f2: StartupState -> Outcome,
                s: StartupState): (r: StageRun)
    ensures r.calls == [n1, n2]
  {
    var first := ExecuteNode(n1, f1(s));
    var second := ExecuteNode(n2, f2(s));
    StageRun([n1, n2], Then(MergeResult(s, first), second))
  }

  function Single(n: string, f: StartupState -> Outcome, s: StartupState): (r: StageRun)
    ensures r.calls == [n]
  {
    StageRun([n], MergeResult(s, ExecuteNode(n, f(s))))
  }

  /** The nodes each stage calls, in order. */
  const StageNodes: seq<seq<string>> := [
    ["ingestWebsite", "ingestDeck"], ["deckVisionUnderstanding"], ["evidenceExtraction"],
    ["coreAnalysis", "businessAnalysis"], ["riskAnalysis"], ["mergeAnalysis"], ["investmentMemo"]]

  /** Stage `k` (0-based) of the graph: it calls the nodes of
      `StageNodes[k]`, except that the vision stage calls nothing for a
      state without slides. */
  function Stage(nodes: Nodes, k: nat, s: StartupState): StageRun
    requires k < 7
  {
    if k == 0 then Pair("ingestWebsite", nodes.ingestWebsite, "ingestDeck", nodes.ingestDeck, s)
    else if k == 1 then
      if HasSlides(s) then Single("deckVisionUnderstanding", nodes.deckVision, s)
      else StageRun([], Merged(MergeState(s, SkipVision)))
    else if k == 2 then Single("evidenceExtraction", nodes.evidenceExtraction, s)
    else if k == 3 then Pair("coreAnalysis", nodes.coreAnalysis, "businessAnalysis", nodes.businessAnalysis, s)
    else if k == 4 then Single("riskAnalysis", nodes.riskAnalysis, s)
    else if k == 5 then Single("mergeAnalysis", nodes.mergeAnalysis, s)
    else Single("investmentMemo", nodes.investmentMemo, s)
  }

  const StageNames: seq<string> := ["ingest", "vision", "evidence", "analysis", "risk", "merge", "complete"]
  const Progress: seq<int> := [15, 30, 45, 65, 80, 90, 100]

  /** One value `streamAnalysis` yields. */
  datatype Event = Event(stage: string, progress: int, state: StartupState)

  /** The catch branch: "Pipeline failed: <message>" is pushed onto the
      errors of the state as it was when the throw happened. */
  function Fail(s: StartupState, message: string): (r: StartupState)
    ensures r.errors == s.errors + ["Pipeline failed: " + message]
    ensures r == s.(errors := r.errors)
  {
    s.(errors := s.errors + ["Pipeline failed: " + message])
  }

  /** The events yielded from stage `k` on. */
  function Events(nodes: Nodes, k: nat, s: StartupState): (r: seq<Event>)
    requires k <= 7
    ensures k < 7 ==> 1 <= |r| <= 7 - k
    ensures k == 7 ==> r == []
    decreases 7 - k
  {
    if k == 7 then []
    else
      var run := Stage(nodes, k, s);
      match run.result
      case Merged(next) => [Event(StageNames[k], Progress[k], next)] + Events(nodes, k + 1, next)
      case Crashed(at, message) => [Event("error", -1, Fail(at, message))]
  }

  /** The nodes called from stage `k` on, in order: each stage's nodes
      at most once, so never more than nine calls. */
  function Calls(nodes: Nodes, k: nat, s: StartupState): seq<string>
    requires k <= 7
    decreases 7 - k
  {
    if k == 7 then []
    else
      var run := Stage(nodes, k, s);
      if run.result.Merged? then run.calls + Calls(nodes, k + 1, run.result.state) else run.calls
  }

  /** Stage `k` calls the nodes of `StageNodes[k]`, in order, except that
      the vision stage calls nothing for a state without slides. */
  lemma StageCalls(nodes: Nodes, k: nat, s: StartupState)
    requires k < 7
    ensures Stage(nodes, k, s).calls == if k == 1 && !HasSlides(s) then [] else StageNodes[k]
  {
  }

  /** From stage `k` on, every call is to a node of stage `k` or a later
      one, and a whole run makes at most nine calls. */
  lemma {:induction false} CallsBound(nodes: Nodes, k: nat, s: StartupState)
    requires k <= 7
    ensures var r := Calls(nodes, k, s);
      |r| <= 9 - k - (if k > 3 then 1 else 0) - (if k > 0 then 1 else 0)
      && forall i :: 0 <= i < |r| ==> exists j :: k <= j < 7 && r[i] in StageNodes[j]
    decreases 7 - k
  {
    if k < 7 {
      var run := Stage(nodes, k, s);
      StageCalls(nodes, k, s);
      if run.result.Merged? {
        CallsBound(nodes, k + 1, run.result.state);
        var rest := Calls(nodes, k + 1, run.result.state);
        var r := run.calls + rest;
        forall i | 0 <= i < |r| ensures exists j :: k <= j < 7 && r[i] in StageNodes[j] {
          if i < |run.calls| {
            assert r[i] in StageNodes[k];
          } else {
            assert r[i] == rest[i - |run.calls|];
            var j :| k + 1 <= j < 7 && rest[i - |run.calls|] in StageNodes[j];
            assert k <= j < 7 && r[i] in StageNodes[j];
          }
        }
        assert Calls(nodes, k, s) == r;
      } else {
        forall i | 0 <= i < |run.calls| ensures exists j :: k <= j < 7 && run.calls[i] in StageNodes[j] {
          assert run.calls[i] in StageNodes[k];
        }
        assert Calls(nodes, k, s) == run.calls;
      }
    }
  }

  /** The state of the last event of a run. */
  function LastState(events: seq<Event>): (r: StartupState)
    requires events != []
  {
    events[|events| - 1].state
  }

  /** Two nodes awaited together (`Promise.all`) on the same state, their
      results merged in the listed order. */
  method RunPair(n1: string, f1: StartupState -> Outcome, n2: string, f2: StartupState -> Outcome,
                 state: StartupState) returns (run: StageRun)
    ensures run == Pair(n1, f1, n2, f2, state)
  {
    var first := ExecuteNode(n1, f1(state));
    var second := ExecuteNode(n2, f2(state));
    var m := MergeResult(state, first);
    if m.Merged? {
      m := MergeResult(m.state, second);
    }
    run := StageRun([n1, n2], m);
  }

  method RunSingle(n: string, f: StartupState -> Outcome, state: StartupState) returns (run: StageRun)
    ensures run == Single(n, f, state)
  {
    var update := ExecuteNode(n, f(state));
    run := StageRun([n], MergeResult(state, update));
  }

  /** The conditional vision stage. */
  method RunVision(nodes: Nodes, state: StartupState) returns (run: StageRun)
    ensures run == Stage(nodes, 1, state)
  {
    if state.deck_slides.Some? && |state.deck_slides.value| > 0 {
      run := RunSingle("deckVisionUnderstanding", nodes.deckVision, state);
    } else {
      run := StageRun([], Merged(MergeState(state, NoUpdate.(deck_structured := Set(Some([]))))));
    }
  }

  /** The body of stage `k`: run its nodes, merge, and yield the new
      state, or yield the "error" event and stop when a merge throws.
      What was yielded so far plus what the remaining stages yield is
      unchanged by the step. */
  method Step(nodes: Nodes, k: nat, state: StartupState, events: seq<Event>, calls: seq<string>)
    returns (state': StartupState, events': seq<Event>, calls': seq<string>, stop: bool)
    requires k < 7
    ensures stop <==> Stage(nodes, k, state).result.Crashed?
    ensures !stop ==> state' == Stage(nodes, k, state).result.state
    ensures stop ==> events' == events + Events(nodes, k, state) && calls' == calls + Calls(nodes, k, state)
    ensures !stop ==> events' + Events(nodes, k + 1, state') == events + Events(nodes, k, state)
    ensures !stop ==> calls' + Calls(nodes, k + 1, state') == calls + Calls(nodes, k, state)
  {
    var run: StageRun;
    if k == 0 {
      run := RunPair("ingestWebsite", nodes.ingestWebsite, "ingestDeck", nodes.ingestDeck, state);
    } else if k == 1 {
      run := RunVision(nodes, state);
    } else if k == 2 {
      run := RunSingle("evidenceExtraction", nodes.evidenceExtraction, state);
    } else if k == 3 {
      run := RunPair("coreAnalysis", nodes.coreAnalysis, "businessAnalysis", nodes.businessAnalysis, state);
    } else if k == 4 {
      run := RunSingle("riskAnalysis", nodes.riskAnalysis, state);
    } else if k == 5 {
      run := RunSingle("mergeAnalysis", nodes.mergeAnalysis, state);
    } else {
      run := RunSingle("investmentMemo", nodes.investmentMemo, state);
    }
    assert run == Stage(nodes, k, state);
    calls' := calls + run.calls;
    if run.result.Crashed? {
      state' := run.result.state;
      events' := events + [Event("error", -1, Fail(run.result.state, run.result.message))];
      stop := true;
    } else {
      state' := run.result.state;
      var e := Event(StageNames[k], Progress[k], state');
      events' := events + [e];
      stop := false;
      Assoc(events, [e], Events(nodes, k + 1, state'));
      Assoc(calls, run.calls, Calls(nodes, k + 1, state'));
    }
  }

  /** `streamAnalysis`: runs the seven stages in order, yielding the state
      after each one (progress 15, 30, 45, 65, 80, 90, 100), or an "error"
      event with progress -1 when a merge throws. */
  method StreamAnalysis(nodes: Nodes, input: Input, now: nat) returns (events: seq<Event>, calls: seq<string>)
    ensures events == Events(nodes, 0, InitialState(input, now))
    ensures calls == Calls(nodes, 0, InitialState(input, now))
  {
    var state := InitialState(input, now);
    ghost var total := Events(nodes, 0, state);
    ghost var totalCalls := Calls(nodes, 0, state);
    events := [];
    calls := [];
    assert events + Events(nodes, 0, state) == total;
    assert calls + Calls(nodes, 0, state) == totalCalls;
    var stop: bool;
    var k: nat := 0;  // the stage about to run, 0 to 6
    state, events, calls, stop := Step(nodes, k, state, events, calls);
    if stop { return; }
    k := k + 1;
    state, events, calls, stop := Step(nodes, k, state, events, calls);
    if stop { return; }
    k := k + 1;
    state, events, calls, stop := Step(nodes, k, state, events, calls);
    if stop { return; }
    k := k + 1;
    state, events, calls, stop := Step(nodes, k, state, events, calls);
    if stop { return; }
    k := k + 1;
    state, events, calls, stop := Step(nodes, k, state, events, calls);
    if stop { return; }
    k := k + 1;
    state, events, calls, stop := Step(nodes, k, state, events, calls);
    if stop { return; }
    k := k + 1;
    state, events, calls, stop := Step(nodes, k, state, events, calls);
    if stop { return; }
    assert events + Events(nodes, k + 1, state) == total;
    assert events + [] == events;
    assert calls + Calls(nodes, k + 1, state) == totalCalls;
    assert calls + [] == calls;
  }

  /** `runAnalysis`: the same stages without the yields; it returns the
      state of the last event (the completed state, or the state with
      "Pipeline failed: ..." pushed after a throw). */
  method RunAnalysis(nodes: Nodes, input: Input, now: nat) returns (state: StartupState)
    ensures state == LastState(Events(nodes, 0, InitialState(input, now)))
  {
    var events, calls := StreamAnalysis(nodes, input, now);
    state := LastState(events);
  }

  // ---- properties of a run ----

  predicate IsPrefix(a: seq<string>, b: seq<string>) {
    |a| <= |b| && b[..|a|] == a
  }

  lemma PrefixTrans(a: seq<string>, b: seq<string>, c: seq<string>)
    requires IsPrefix(a, b) && IsPrefix(b, c)
    ensures IsPrefix(a, c)
  {
    assert c[..|a|] == c[..|b|][..|a|];
  }

  /** A merge, successful or not, keeps the errors it started from. */
  lemma MergeResultKeepsErrors(s: StartupState, r: Option<Update>)
    ensures IsPrefix(s.errors, MergeResult(s, r).state.errors)
  {
    assert MergeResult(s, r).state.errors[..|s.errors|] == s.errors;
  }

  /** The errors before a stage are a prefix of those after it, and of
      those of the "error" event when it throws. */
  predicate KeepsErrors(s: StartupState, run: StageRun) {
    IsPrefix(s.errors, run.result.state.errors) &&
    (run.result.Crashed? ==> IsPrefix(s.errors, Fail(run.result.state, run.result.message).errors))
  }

  lemma FailKeepsErrors(s: StartupState, m: Merged)
    requires m.Crashed? && IsPrefix(s.errors, m.state.errors)
    ensures IsPrefix(s.errors, Fail(m.state, m.message).errors)
  {
    var f := Fail(m.state, m.message);
    assert f.errors[..|m.state.errors|] == m.state.errors;
    PrefixTrans(s.errors, m.state.errors, f.errors);
  }

  lemma PairKeepsErrors(n1: string, f1: StartupState -> Outcome, n2: string, f2: StartupState -> Outcome,
                        s: StartupState)
    ensures KeepsErrors(s, Pair(n1, f1, n2, f2, s))
  {
    var first := ExecuteNode(n1, f1(s));
    var second := ExecuteNode(n2, f2(s));
    var m := MergeResult(s, first);
    var r := Then(m, second);
    MergeResultKeepsErrors(s, first);
    if m.Merged? {
      MergeResultKeepsErrors(m.state, second);
      PrefixTrans(s.errors, m.state.errors, r.state.errors);
    }
    if r.Crashed? {
      FailKeepsErrors(s, r);
    }
  }

  lemma SingleKeepsErrors(n: string, f: StartupState -> Outcome, s: StartupState)
    ensures KeepsErrors(s, Single(n, f, s))
  {
    var r := MergeResult(s, ExecuteNode(n, f(s)));
    MergeResultKeepsErrors(s, ExecuteNode(n, f(s)));
    if r.Crashed? {
      FailKeepsErrors(s, r);
    }
  }

  /** No stage removes an error, whether its merges succeed or throw. */
  lemma StageKeepsErrors(nodes: Nodes, k: nat, s: StartupState)
    requires k < 7
    ensures KeepsErrors(s, Stage(nodes, k, s))
  {
    if k == 0 {
      PairKeepsErrors("ingestWebsite", nodes.ingestWebsite, "ingestDeck", nodes.ingestDeck, s);
    } else if k == 1 {
      if HasSlides(s) {
        SingleKeepsErrors("deckVisionUnderstanding", nodes.deckVision, s);
      } else {
        MergeResultKeepsErrors(s, Some(SkipVision));
      }
    } else if k == 2 {
      SingleKeepsErrors("evidenceExtraction", nodes.evidenceExtraction, s);
    } else if k == 3 {
      PairKeepsErrors("coreAnalysis", nodes.coreAnalysis, "businessAnalysis", nodes.businessAnalysis, s);
    } else if k == 4 {
      SingleKeepsErrors("riskAnalysis", nodes.riskAnalysis, s);
    } else if k == 5 {
      SingleKeepsErrors("mergeAnalysis", nodes.mergeAnalysis, s);
    } else {
      SingleKeepsErrors("investmentMemo", nodes.investmentMemo, s);
    }
  }

  /** Every event of a run carries all errors of the state it started
      from, and every event carries all errors of the events before it. */
  predicate ErrorsGrow(start: seq<string>, e: seq<Event>) {
    (forall i :: 0 <= i < |e| ==> IsPrefix(start, e[i].state.errors)) &&
    (forall i, j :: 0 <= i < j < |e| ==> IsPrefix(e[i].state.errors, e[j].state.errors))
  }

  /** A stage event in front of the later events keeps `ErrorsGrow`. */
  lemma ErrorsGrowCons(start: seq<string>, ev: Event, rest: seq<Event>)
    requires IsPrefix(start, ev.state.errors) && ErrorsGrow(ev.state.errors, rest)
    ensures ErrorsGrow(start, [ev] + rest)
  {
    var e := [ev] + rest;
    forall i | 0 <= i < |e| ensures IsPrefix(start, e[i].state.errors) {
      if i > 0 {
        assert e[i] == rest[i - 1];
        PrefixTrans(start, ev.state.errors, e[i].state.errors);
      }
    }
    forall i, j | 0 <= i < j < |e| ensures IsPrefix(e[i].state.errors, e[j].state.errors) {
      assert e[j] == rest[j - 1];
      if i > 0 {
        assert e[i] == rest[i - 1];
      }
    }
  }

  lemma {:induction false} EventsKeepErrors(nodes: Nodes, k: nat, s: StartupState)
    requires k <= 7
    ensures ErrorsGrow(s.errors, Events(nodes, k, s))
    decreases 7 - k
  {
    if k < 7 {
      StageKeepsErrors(nodes, k, s);
      EventsStep(nodes, k, s);
      var run := Stage(nodes, k, s);
      if run.result.Merged? {
        var next := run.result.state;
        EventsKeepErrors(nodes, k + 1, next);
        ErrorsGrowCons(s.errors, Event(StageNames[k], Progress[k], next), Events(nodes, k + 1, next));
      }
    }
  }

  /** One unfolding of `Events`. */
  lemma EventsStep(nodes: Nodes, k: nat, s: StartupState)
    requires k < 7
    ensures Stage(nodes, k, s).result.Merged? ==>
      Events(nodes, k, s) == [Event(StageNames[k], Progress[k], Stage(nodes, k, s).result.state)]
                             + Events(nodes, k + 1, Stage(nodes, k, s).result.state)
    ensures Stage(nodes, k, s).result.Crashed? ==>
      Events(nodes, k, s) == [Event("error", -1, Fail(Stage(nodes, k, s).result.state, Stage(nodes, k, s).result.message))]
  {
  }

  /** The events of stages `k`, `k + 1`, ...: every event but the last is
      the stage event of its position; the last is either the "error"
      event (progress -1) or the "complete" event (progress 100) of a run
      that reached the end. */
  predicate Shaped(e: seq<Event>, k: nat) {
    e != [] && k + |e| <= 7 &&
    (forall i :: 0 <= i < |e| - 1 ==> e[i].stage == StageNames[k + i] && e[i].progress == Progress[k + i]) &&
    ((e[|e| - 1].stage == "error" && e[|e| - 1].progress == -1) ||
     (k + |e| == 7 && e[|e| - 1].stage == "complete" && e[|e| - 1].progress == 100))
  }

  /** Every event but the last is the stage event of its position; the
      last is either the "error" event (progress -1) or the "complete"
      event (progress 100) of a run that reached the end. */
  lemma {:induction false} EventsShape(nodes: Nodes, k: nat, s: StartupState)
    requires k < 7
    ensures Shaped(Events(nodes, k, s), k)
    decreases 7 - k
  {
    var run := Stage(nodes, k, s);
    EventsStep(nodes, k, s);
    if run.result.Merged? {
      var next := run.result.state;
      var ev := Event(StageNames[k], Progress[k], next);
      if k + 1 < 7 {
        EventsShape(nodes, k + 1, next);
        ShapedCons(ev, Events(nodes, k + 1, next), k);
      } else {
        assert [ev] + [] == [ev];
      }
    }
  }

  /** A stage event in front of the events of the later stages. */
  lemma ShapedCons(ev: Event, rest: seq<Event>, k: nat)
    requires k < 7 && Shaped(rest, k + 1)
    requires ev.stage == StageNames[k] && ev.progress == Progress[k]
    ensures Shaped([ev] + rest, k)
  {
    var e := [ev] + rest;
    forall i | 0 <= i < |e| - 1
      ensures e[i].stage == StageNames[k + i] && e[i].progress == Progress[k + i]
    {
      if i > 0 {
        assert e[i] == rest[i - 1];
      }
    }
    assert e[|e| - 1] == rest[|rest| - 1];
  }

  lemma ProgressGrows(a: nat, b: nat)
    requires a < b < 7
    ensures 0 < Progress[a] < Progress[b] <= 100
  {
  }

  lemma StageNameNotError(a: nat)
    requires a < 7
    ensures StageNames[a] != "error"
  {
  }

  /** In events of that shape the progress only grows, up to 100, and
      an "error" event can only come last. */
  lemma ShapedProgress(e: seq<Event>, k: nat)
    requires Shaped(e, k)
    ensures forall i, j :: 0 <= i < j < |e| && e[j].progress != -1 ==> 0 < e[i].progress < e[j].progress <= 100
    ensures forall i :: 0 <= i < |e| - 1 ==> e[i].stage != "error" && e[i].progress != -1
  {
    forall i | 0 <= i < |e| - 1 ensures e[i].stage != "error" && e[i].progress != -1 {
      StageNameNotError(k + i);
      ProgressGrows(k + i, 6);
    }
    forall i, j | 0 <= i < j < |e| && e[j].progress != -1 ensures 0 < e[i].progress < e[j].progress <= 100 {
      if j < |e| - 1 {
        ProgressGrows(k + i, k + j);
      } else {
        ProgressGrows(k + i, 6);
      }
    }
  }

  /** The progress a stream reports only grows, up to 100, and an
      "error" event can only come last; this holds of the events from
      any stage `k` on, the whole stream being `k == 0`. */
  lemma StreamProgress(nodes: Nodes, k: nat, s: StartupState)
    requires k < 7
    ensures var e := Events(nodes, k, s);
      (forall i, j :: 0 <= i < j < |e| && e[j].progress != -1 ==> 0 < e[i].progress < e[j].progress <= 100) &&
      (forall i :: 0 <= i < |e| - 1 ==> e[i].stage != "error" && e[i].progress != -1)
  {
    EventsShape(nodes, k, s);
    ShapedProgress(Events(nodes, k, s), k);
  }

  /** The vision node runs exactly when the state has slides; otherwise
      the stage only sets `deck_structured` to `[]`. */
  lemma VisionRunsIffSlides(nodes: Nodes, s: StartupState)
    ensures "deckVisionUnderstanding" in Stage(nodes, 1, s).calls <==> HasSlides(s)
    ensures !HasSlides(s) ==> Stage(nodes, 1, s).result == Merged(s.(deck_structured := Some([])))
  {
  }

  /** No node resolves to `null`: the condition under which nothing in
      the pipeline's `try` can throw. */
  ghost predicate NeverNull(nodes: Nodes) {
    forall s: StartupState ::
      !nodes.ingestWebsite(s).ResolvedNull? && !nodes.ingestDeck(s).ResolvedNull? &&
      !nodes.deckVision(s).ResolvedNull? && !nodes.evidenceExtraction(s).ResolvedNull? &&
      !nodes.coreAnalysis(s).ResolvedNull? && !nodes.businessAnalysis(s).ResolvedNull? &&
      !nodes.riskAnalysis(s).ResolvedNull? && !nodes.mergeAnalysis(s).ResolvedNull? &&
      !nodes.investmentMemo(s).ResolvedNull?
  }

  lemma StageMergesWhenNeverNull(nodes: Nodes, k: nat, s: StartupState)
    requires k < 7 && NeverNull(nodes)
    ensures Stage(nodes, k, s).result.Merged?
  {
    assert !nodes.ingestWebsite(s).ResolvedNull? && !nodes.ingestDeck(s).ResolvedNull?;
    assert !nodes.coreAnalysis(s).ResolvedNull? && !nodes.businessAnalysis(s).ResolvedNull?;
  }

  /** When no node resolves to `null` (a node that throws is caught by
      `executeNode`), a stream yields all seven stage events in order,
      and never the "error" event. */
  lemma {:induction false} CompleteRun(nodes: Nodes, k: nat, s: StartupState)
    requires k <= 7 && NeverNull(nodes)
    ensures var e := Events(nodes, k, s);
      |e| == 7 - k &&
      forall i :: 0 <= i < |e| ==> e[i].stage == StageNames[k + i] && e[i].progress == Progress[k + i]
    decreases 7 - k
  {
    if k < 7 {
      var e := Events(nodes, k, s);
      StageMergesWhenNeverNull(nodes, k, s);
      EventsStep(nodes, k, s);
      var next := Stage(nodes, k, s).result.state;
      var rest := Events(nodes, k + 1, next);
      CompleteRun(nodes, k + 1, next);
      forall i | 0 <= i < |e| ensures e[i].stage == StageNames[k + i] && e[i].progress == Progress[k + i] {
        if i > 0 {
          assert e[i] == rest[i - 1];
        }
      }
    }
  }
}
