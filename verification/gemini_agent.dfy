/**
 * The Gemini adapter (backend/app/agents/gemini_agent.py): a round loop over a streamed
 * `generate_content` whose function calls arrive whole, under call ids the adapter makes up.
 */
module GeminiAgent {
  import opened Wrappers
  import opened Json
  import opened AgentCore
  import opened ToolSpecs
  import Text

  // ---------------------------------------------------------------------------
  // Tool declarations in Gemini's shape
  // ---------------------------------------------------------------------------

  /** `{"function_declarations": [...]}`: one tool group. */
  datatype ToolGroup = ToolGroup(declarations: seq<FunctionDecl>)

  /** `_to_gemini_tools`: no groups when there is no function spec, else one group holding every declaration in spec order. */
  function ToGeminiTools(specs: seq<ToolSpec>): (r: seq<ToolGroup>)
    requires FunctionsNamed(specs)
    ensures |r| <= 1
    ensures |r| == 1 ==> r[0].declarations == FunctionDecls(specs)
  {
    var decls := FunctionDecls(specs);
    if |decls| == 0 then [] else [ToolGroup(decls)]
  }

  /** There is a tool group exactly when some spec is a function spec, and it declares each of them. */
  lemma ToGeminiToolsGroups(specs: seq<ToolSpec>, d: FunctionDecl)
    requires FunctionsNamed(specs)
    ensures |ToGeminiTools(specs)| == 1 <==> exists i :: 0 <= i < |specs| && IsFunction(specs[i])
    ensures |ToGeminiTools(specs)| == 1 ==>
      (d in ToGeminiTools(specs)[0].declarations <==> exists i :: 0 <= i < |specs| && IsFunction(specs[i]) && Declare(specs[i]) == d)
  {
    FunctionDeclsEmpty(specs);
    FunctionDeclsMembers(specs, d);
  }

  /** `GEMINI_TOOLS`, computed once from the registry: a single group of the eleven declarations. */
  function RegisteredTools(): (r: seq<ToolGroup>)
    ensures |r| == 1 && |r[0].declarations| == |Registry|
  {
    RegistryWellFormed();
    FunctionDeclsEmpty(Registry);
    assert IsFunction(Registry[0]);
    RegisteredDeclsCount(Registry);
    ToGeminiTools(Registry)
  }

  /** When every spec is a function spec, each gets a declaration. */
  lemma {:induction false} RegisteredDeclsCount(specs: seq<ToolSpec>)
    requires forall i :: 0 <= i < |specs| ==> IsFunction(specs[i]) && specs[i].name.Some?
    ensures FunctionsNamed(specs) && |FunctionDecls(specs)| == |specs|
    decreases |specs|
  {
    if |specs| > 0 {
      RegisteredDeclsCount(specs[1..]);
    }
  }

  // ---------------------------------------------------------------------------
  // The conversation in Gemini's shape
  // ---------------------------------------------------------------------------

  /** One entry of `contents`: a text turn, or a tool turn carrying a `function_response`. */
  datatype Content<R> =
    | TextTurn(role: string, text: string)
    | FunctionResponse(name: string, response: R)

  /** The Gemini role of a client role: `assistant` becomes `model`; anything else, or none, becomes `user`. */
  function GeminiRole(role: Option<string>): (r: string)
    ensures r == "model" <==> role == Some("assistant")
    ensures r == "model" || r == "user"
  {
    var given := role.GetOr("user");
    if given == "assistant" then "model" else "user"
  }

  /** `_convert_messages_to_contents`: one text turn per message, in order; a missing content becomes `""`. */
  function ConvertMessages<R>(messages: seq<InputMessage>): (contents: seq<Content<R>>)
    ensures |contents| == |messages|
    ensures forall i :: 0 <= i < |messages| ==>
      && contents[i].TextTurn?
      && (contents[i].role == "model" <==> messages[i].role == Some("assistant"))
      && (contents[i].role == "model" || contents[i].role == "user")
      && contents[i].text == messages[i].content.GetOr("")
  {
    if |messages| == 0 then []
    else [TextTurn(GeminiRole(messages[0].role), messages[0].content.GetOr(""))] + ConvertMessages(messages[1..])
  }

  // ---------------------------------------------------------------------------
  // Call ids
  // ---------------------------------------------------------------------------

  /** `f"gemini-{name}-{len(pending_calls)}-{round_idx}"`. */
  function CallId(name: string, position: nat, round: nat): string {
    "gemini-" + name + "-" + Text.NatToString(position) + "-" + Text.NatToString(round)
  }

  /** A `-` before a run of digits can be found again from the end: the digits and what precedes the dash are determined. */
  lemma SplitAtLastDash(a: string, d1: string, b: string, d2: string)
    requires Text.AllDigits(d1) && Text.AllDigits(d2)
    requires a + "-" + d1 == b + "-" + d2
    ensures a == b && d1 == d2
  {
    var x := a + "-" + d1;
    var y := b + "-" + d2;
    assert x[|a|] == '-' && y[|b|] == '-';
    if |d1| < |d2| {
      assert false;
    } else if |d2| < |d1| {
      assert false;
    }
    assert d1 == x[|a| + 1..];
    assert d2 == y[|b| + 1..];
    assert a == x[..|a|];
    assert b == y[..|b|];
  }

  /** Distinct (name, position, round) triples give distinct call ids, whatever the tool names contain. */
  lemma CallIdInjective(n1: string, k1: nat, r1: nat, n2: string, k2: nat, r2: nat)
    requires CallId(n1, k1, r1) == CallId(n2, k2, r2)
    ensures n1 == n2 && k1 == k2 && r1 == r2
  {
    var p1 := "gemini-" + n1;
    var p2 := "gemini-" + n2;
    var j1 := Text.NatToString(k1);
    var j2 := Text.NatToString(k2);
    var q1 := Text.NatToString(r1);
    var q2 := Text.NatToString(r2);
    assert CallId(n1, k1, r1) == (p1 + "-" + j1) + "-" + q1;
    assert CallId(n2, k2, r2) == (p2 + "-" + j2) + "-" + q2;
    SplitAtLastDash(p1 + "-" + j1, q1, p2 + "-" + j2, q2);
    SplitAtLastDash(p1, j1, p2, j2);
    assert n1 == p1[7..] && n2 == p2[7..];
    Text.NatToStringInjective(k1, k2);
    Text.NatToStringInjective(r1, r2);
  }

  // ---------------------------------------------------------------------------
  // Stream chunks
  // ---------------------------------------------------------------------------

  /** A function call's `args`: absent, a mapping, or something `dict()` cannot convert. */
  datatype RawArgs = NoArgs | ArgsMapping(fields: map<string, Json>) | Unconvertible

  /** A `function_call` part; an empty `name` stands for a missing or empty one. */
  datatype FunctionCall = FunctionCall(name: string, args: RawArgs)

  /** A part of a candidate's content; `functionCall` is absent for text parts. */
  datatype Part = Part(functionCall: Option<FunctionCall>)

  /** A candidate; `parts` is absent when the candidate has no (truthy) content. */
  datatype Candidate = Candidate(parts: Option<seq<Part>>)

  /** A streamed chunk: its text (empty when missing) and its candidates. */
  datatype GChunk = GChunk(text: string, candidates: seq<Candidate>)

  /** The unit of processing: a chunk's text, then each function-call part of each candidate, in that order. */
  datatype GPiece = TextPiece(text: string) | CallPiece(call: FunctionCall)

  function PartPieces(parts: seq<Part>): seq<GPiece> {
    if |parts| == 0 then []
    else (if parts[0].functionCall.Some? then [CallPiece(parts[0].functionCall.value)] else []) + PartPieces(parts[1..])
  }

  function CandidatePieces(cs: seq<Candidate>): seq<GPiece> {
    if |cs| == 0 then []
    else (if cs[0].parts.Some? then PartPieces(cs[0].parts.value) else []) + CandidatePieces(cs[1..])
  }

  function ChunkPieces(c: GChunk): seq<GPiece> {
    (if c.text != "" then [TextPiece(c.text)] else []) + CandidatePieces(c.candidates)
  }

  /** The pieces of a whole stream, in the order the source handles them. */
  function Pieces(chunks: seq<GChunk>): seq<GPiece> {
    if |chunks| == 0 then [] else ChunkPieces(chunks[0]) + Pieces(chunks[1..])
  }

  // ---------------------------------------------------------------------------
  // The call accumulator
  // ---------------------------------------------------------------------------

  /** `dict(raw_args)`, falling back to `{}` when there are no arguments or they cannot be converted. */
  function ConvertArgs(raw: RawArgs): map<string, Json> {
    match raw
    case ArgsMapping(fields) => fields
    case _ => map[]
  }

  /**
   * What a round has accumulated: events emitted, assistant text, pending calls, and the
   * exception that stopped the stream, if any (`json.dumps` of the arguments can raise).
   */
  datatype Accumulator<R> = Accumulator(events: seq<Event<R>>, text: string, pending: seq<PendingCall>, failure: Option<string>)

  /** `json.dumps(args, ensure_ascii=False)`, which may raise. */
  type Dumps = map<string, Json> -> Result<string>

  function Step<R>(acc: Accumulator<R>, p: GPiece, round: nat, dumps: Dumps): Accumulator<R> {
    if acc.failure.Some? then acc
    else
      match p
      case TextPiece(t) => acc.(events := acc.events + [TextDelta(t)], text := acc.text + t)
      case CallPiece(fc) =>
        if fc.name == "" then acc
        else
          var args := ConvertArgs(fc.args);
          var id := CallId(fc.name, |acc.pending|, round);
          var pending := acc.pending + [PendingCall(id, fc.name, JObj(args))];
          match dumps(args)
          case Ok(text) => acc.(events := acc.events + [ToolArgsDelta(id, text)], pending := pending)
          case Err(m) => acc.(pending := pending, failure := Some(m))
  }

  /** The accumulator after handling `ps` in round `round`. */
  function Ingest<R>(ps: seq<GPiece>, round: nat, dumps: Dumps): Accumulator<R> {
    if |ps| == 0 then Accumulator([], "", [], None) else Step(Ingest(ps[..|ps| - 1], round, dumps), ps[|ps| - 1], round, dumps)
  }

  /** The reference list of calls: the function-call pieces that carry a name, in arrival order. */
  function NamedCalls(ps: seq<GPiece>): seq<FunctionCall> {
    if |ps| == 0 then []
    else
      var last := ps[|ps| - 1];
      NamedCalls(ps[..|ps| - 1]) + (if last.CallPiece? && last.call.name != "" then [last.call] else [])
  }

  /** The pending calls the named calls should become: call `j` has position `j` in its id and its converted arguments. */
  predicate PendingMatch(pending: seq<PendingCall>, named: seq<FunctionCall>, round: nat) {
    |pending| == |named|
    && forall j :: 0 <= j < |pending| ==>
      pending[j] == PendingCall(CallId(named[j].name, j, round), named[j].name, JObj(ConvertArgs(named[j].args)))
  }

  /** One `tool_args_delta` per pending call, under its id, carrying its serialised arguments. */
  predicate ArgsDeltasMatch<R>(deltas: seq<Event<R>>, pending: seq<PendingCall>, dumps: Dumps) {
    |deltas| == |pending|
    && forall j :: 0 <= j < |pending| ==>
      pending[j].args.JObj? && dumps(pending[j].args.fields).Ok?
      && deltas[j] == ToolArgsDelta(pending[j].id, dumps(pending[j].args.fields).value)
  }

  /**
   * A stream that did not fail yields one pending call per named function call, numbered in
   * arrival order, and one `tool_args_delta` for each; the events are streaming events whose
   * texts spell the assistant text.
   */
  lemma {:induction false} IngestFacts<R>(ps: seq<GPiece>, round: nat, dumps: Dumps)
    ensures var acc := Ingest<R>(ps, round, dumps);
      && StreamingOnly(acc.events) && NoTerminal(acc.events)
      && Texts(acc.events) == acc.text
      && (acc.failure.None? ==> PendingMatch(acc.pending, NamedCalls(ps), round))
      && (acc.failure.None? ==> ArgsDeltasMatch(ArgsDeltas(acc.events), acc.pending, dumps))
      && (acc.failure.Some? ==> |acc.pending| > 0)
  {
    IngestEvents<R>(ps, round, dumps);
    IngestPending<R>(ps, round, dumps);
    IngestArgsDeltas<R>(ps, round, dumps);
  }

  /** The accumulator emits only streaming events, and their texts spell the assistant text. */
  lemma {:induction false} IngestEvents<R>(ps: seq<GPiece>, round: nat, dumps: Dumps)
    ensures var acc := Ingest<R>(ps, round, dumps);
      StreamingOnly(acc.events) && NoTerminal(acc.events) && Texts(acc.events) == acc.text
    decreases |ps|
  {
    if |ps| > 0 {
      var init := ps[..|ps| - 1];
      var last := ps[|ps| - 1];
      var prev := Ingest<R>(init, round, dumps);
      var acc := Ingest<R>(ps, round, dumps);
      assert acc == Step(prev, last, round, dumps);
      IngestEvents<R>(init, round, dumps);
      var added := acc.events[|prev.events|..];
      assert acc.events == prev.events + added;
      TextsAppend(prev.events, added);
      if prev.failure.None? && last.TextPiece? {
        assert added == [TextDelta(last.text)];
        assert added[..0] == [];
      } else if |added| > 0 {
        assert added[..0] == [];
        assert added[0].ToolArgsDelta?;
      }
    }
  }

  /** Without a failure the pending calls are the named calls, numbered by arrival; a failure happens at a call. */
  lemma {:induction false} IngestPending<R>(ps: seq<GPiece>, round: nat, dumps: Dumps)
    ensures var acc := Ingest<R>(ps, round, dumps);
      && (acc.failure.None? ==> PendingMatch(acc.pending, NamedCalls(ps), round))
      && (acc.failure.Some? ==> |acc.pending| > 0)
    decreases |ps|
  {
    if |ps| > 0 {
      var init := ps[..|ps| - 1];
      IngestPending<R>(init, round, dumps);
      StepPending(Ingest<R>(init, round, dumps), ps[|ps| - 1], round, dumps, NamedCalls(init));
    }
  }

  /** One step keeps the pending calls matched with the named calls, the step's own call appended. */
  lemma StepPending<R>(prev: Accumulator<R>, last: GPiece, round: nat, dumps: Dumps, named: seq<FunctionCall>)
    requires prev.failure.None? ==> PendingMatch(prev.pending, named, round)
    requires prev.failure.Some? ==> |prev.pending| > 0
    ensures var acc := Step(prev, last, round, dumps);
      && (acc.failure.None? ==> PendingMatch(acc.pending, named + (if last.CallPiece? && last.call.name != "" then [last.call] else []), round))
      && (acc.failure.Some? ==> |acc.pending| > 0)
  {
    if prev.failure.None? && last.CallPiece? && last.call.name != "" {
      var fc := last.call;
      AppendPending(prev.pending, named, PendingCall(CallId(fc.name, |prev.pending|, round), fc.name, JObj(ConvertArgs(fc.args))), fc, round);
    } else {
      assert named + [] == named;
    }
  }

  lemma AppendPending(pending: seq<PendingCall>, named: seq<FunctionCall>, c: PendingCall, fc: FunctionCall, round: nat)
    requires PendingMatch(pending, named, round)
    requires c == PendingCall(CallId(fc.name, |pending|, round), fc.name, JObj(ConvertArgs(fc.args)))
    ensures PendingMatch(pending + [c], named + [fc], round)
  {
    var after := pending + [c];
    var all := named + [fc];
    forall j | 0 <= j < |after|
      ensures after[j] == PendingCall(CallId(all[j].name, j, round), all[j].name, JObj(ConvertArgs(all[j].args)))
    {
      if j < |pending| {
        assert after[j] == pending[j] && all[j] == named[j];
      } else {
        assert after[j] == c && all[j] == fc;
      }
    }
  }

  /** Without a failure every pending call has its `tool_args_delta`, in order, carrying `json.dumps` of its arguments. */
  lemma {:induction false} IngestArgsDeltas<R>(ps: seq<GPiece>, round: nat, dumps: Dumps)
    ensures var acc := Ingest<R>(ps, round, dumps);
      acc.failure.None? ==> ArgsDeltasMatch(ArgsDeltas(acc.events), acc.pending, dumps)
    decreases |ps|
  {
    if |ps| > 0 {
      var init := ps[..|ps| - 1];
      IngestArgsDeltas<R>(init, round, dumps);
      StepArgsDeltas(Ingest<R>(init, round, dumps), ps[|ps| - 1], round, dumps);
    }
  }

  /** One step keeps every pending call matched with its `tool_args_delta`. */
  lemma StepArgsDeltas<R>(prev: Accumulator<R>, last: GPiece, round: nat, dumps: Dumps)
    requires prev.failure.None? ==> ArgsDeltasMatch(ArgsDeltas(prev.events), prev.pending, dumps)
    ensures var acc := Step(prev, last, round, dumps);
      acc.failure.None? ==> ArgsDeltasMatch(ArgsDeltas(acc.events), acc.pending, dumps)
  {
    if prev.failure.None? {
      match last
      case TextPiece(t) => TextKeepsArgsDeltas(prev.events, prev.pending, t, dumps);
      case CallPiece(fc) =>
        if fc.name != "" {
          var args := ConvertArgs(fc.args);
          if dumps(args).Ok? {
            var c := PendingCall(CallId(fc.name, |prev.pending|, round), fc.name, JObj(args));
            CallKeepsArgsDeltas(prev.events, prev.pending, c, dumps);
          }
        }
    }
  }

  /** A text delta leaves the argument deltas, and so their match with the pending calls, as they were. */
  lemma TextKeepsArgsDeltas<R>(events: seq<Event<R>>, pending: seq<PendingCall>, t: string, dumps: Dumps)
    requires ArgsDeltasMatch(ArgsDeltas(events), pending, dumps)
    ensures ArgsDeltasMatch(ArgsDeltas(events + [TextDelta(t)]), pending, dumps)
  {
    var added: seq<Event<R>> := [TextDelta(t)];
    ArgsDeltasAppend(events, added);
    assert ArgsDeltas(added) == [] by { assert added[..0] == []; }
    assert ArgsDeltas(events) + [] == ArgsDeltas(events);
  }

  /** A call whose arguments serialise, emitted with its delta, keeps the match. */
  lemma CallKeepsArgsDeltas<R>(events: seq<Event<R>>, pending: seq<PendingCall>, c: PendingCall, dumps: Dumps)
    requires ArgsDeltasMatch(ArgsDeltas(events), pending, dumps)
    requires c.args.JObj? && dumps(c.args.fields).Ok?
    ensures ArgsDeltasMatch(ArgsDeltas(events + [ToolArgsDelta(c.id, dumps(c.args.fields).value)]), pending + [c], dumps)
  {
    var d: Event<R> := ToolArgsDelta(c.id, dumps(c.args.fields).value);
    ArgsDeltasSnoc(events, d);
    AppendMatched(ArgsDeltas(events), pending, d, c, dumps);
  }

  /** Appending a call together with its matching delta keeps the match. */
  lemma AppendMatched<R>(deltas: seq<Event<R>>, pending: seq<PendingCall>, d: Event<R>, c: PendingCall, dumps: Dumps)
    requires ArgsDeltasMatch(deltas, pending, dumps)
    requires c.args.JObj? && dumps(c.args.fields).Ok? && d == ToolArgsDelta(c.id, dumps(c.args.fields).value)
    ensures ArgsDeltasMatch(deltas + [d], pending + [c], dumps)
  {
    var after := deltas + [d];
    var all := pending + [c];
    forall j | 0 <= j < |all|
      ensures all[j].args.JObj? && dumps(all[j].args.fields).Ok?
      ensures after[j] == ToolArgsDelta(all[j].id, dumps(all[j].args.fields).value)
    {
      if j < |pending| {
        assert all[j] == pending[j] && after[j] == deltas[j];
      } else {
        assert all[j] == c && after[j] == d;
      }
    }
  }

  // ---------------------------------------------------------------------------
  // The round
  // ---------------------------------------------------------------------------

  /** Everything a run depends on besides the conversation: the scripted model, the tool executor, `json.dumps`. */
  datatype Env<!S, !R> = Env(
    provider: seq<Content<R>> -> ProviderRound<GChunk>,
    exec: Executor<S, R>,
    dumps: Dumps)

  /** The tool turn recording a call's result; it names the tool, not the call id. */
  function Response<R>(c: PendingCall, result: R): Content<R> {
    FunctionResponse(c.name, result)
  }

  /** How a round ended: the invocation finished, or it continues with longer contents. */
  datatype RoundEnd<S, R> =
    | Finished(events: seq<Event<R>>, state: S)
    | Continue(events: seq<Event<R>>, contents: seq<Content<R>>, state: S)

  /** Round `round`, from the model's scripted answer. */
  function Round<S, R>(env: Env<S, R>, round: nat, pr: ProviderRound<GChunk>, contents: seq<Content<R>>, state: S): (r: RoundEnd<S, R>)
    ensures r.Finished? ==> EndsWithOneTerminal(r.events)
    ensures r.Continue? ==> NoTerminal(r.events) && |r.contents| > |contents|
    ensures ResultsFollowCalls(r.events) && (|r.events| > 0 ==> !r.events[0].ToolResult?)
  {
    IngestFacts<R>(Pieces(pr.chunks), round, env.dumps);
    Conclude(env, Ingest<R>(Pieces(pr.chunks), round, env.dumps), pr.failure, contents, state)
  }

  /** The stream's end: an exception while streaming, then `done` without calls, else the tool phase. */
  function Conclude<S, R>(env: Env<S, R>, acc: Accumulator<R>, failure: Option<string>, contents: seq<Content<R>>, state: S)
    : (r: RoundEnd<S, R>)
    requires NoTerminal(acc.events) && StreamingOnly(acc.events)
    ensures r.Finished? ==> EndsWithOneTerminal(r.events)
    ensures r.Continue? ==> NoTerminal(r.events) && |r.contents| > |contents|
    ensures ResultsFollowCalls(r.events) && (|r.events| > 0 ==> !r.events[0].ToolResult?)
  {
    var stop := if acc.failure.Some? then acc.failure else failure;
    if stop.Some? then
      StreamingPairs(acc.events);
      CloseStream(acc.events, Error(stop.value));
      Finished(acc.events + [Error(stop.value)], state)
    else if |acc.pending| == 0 then
      StreamingPairs(acc.events);
      CloseStream(acc.events, Done);
      Finished(acc.events + [Done], state)
    else
      ToolPhase(env, acc, contents, state)
  }

  /** The model turn joins the contents only when the round produced text. */
  function ModelTurn<R>(text: string): seq<Content<R>> {
    if text != "" then [TextTurn("model", text)] else []
  }

  /**
   * Executes the pending calls in order; a raising tool ends the invocation with an `error`,
   * otherwise the contents gain the model's text turn (when there is text) and one
   * `function_response` turn per call.
   */
  function ToolPhase<S, R>(env: Env<S, R>, acc: Accumulator<R>, contents: seq<Content<R>>, state: S): (r: RoundEnd<S, R>)
    requires |acc.pending| > 0 && NoTerminal(acc.events) && StreamingOnly(acc.events)
    ensures r.Finished? ==> EndsWithOneTerminal(r.events)
    ensures r.Continue? ==> NoTerminal(r.events) && |r.contents| > |contents|
    ensures ResultsFollowCalls(r.events) && (|r.events| > 0 ==> !r.events[0].ToolResult?)
    ensures var x := ExecuteCalls(acc.pending, env.exec, Response, state);
      && (r.Finished? <==> x.failure.Some?)
      && (r.Finished? ==> r.events == acc.events + ExecutionEvents(acc.pending, x) + [Error(x.failure.value)] && r.state == x.state)
  {
    var calls := acc.pending;
    var x := ExecuteCalls(calls, env.exec, Response, state);
    var events := acc.events + ExecutionEvents(calls, x);
    PhaseAfterStreaming(acc.events, calls, x);
    if x.failure.Some? then
      CloseStream(events, Error(x.failure.value));
      Finished(events + [Error(x.failure.value)], x.state)
    else
      Continue(events, contents + ModelTurn(acc.text) + x.entries, x.state)
  }

  /** Rounds `k`, `k+1`, ... up to the budget; `k` is also the `round_idx` in the call ids. */
  function Rounds<S, R>(env: Env<S, R>, maxRounds: int, k: nat, contents: seq<Content<R>>, state: S): (run: Run<S, R>)
    ensures EndsWithOneTerminal(run.events)
    ensures ResultsFollowCalls(run.events)
    decreases if k < maxRounds then maxRounds - k else 0
  {
    if k >= maxRounds then
      var run := Run([Error(LimitMessage(maxRounds))], state);
      assert run.events[..0] == [];
      run
    else
      match Round(env, k, env.provider(contents), contents, state)
      case Finished(events, s) => Run(events, s)
      case Continue(events, c, s) =>
        var rest := Rounds(env, maxRounds, k + 1, c, s);
        PrependKeepsOneTerminal(events, rest.events);
        ConcatKeepsPairing(events, rest.events);
        Run(events + rest.events, rest.state)
  }

  /** `stream`: every invocation emits exactly one terminal event, as its last event, and pairs every result with its call. */
  function Stream<S, R>(env: Env<S, R>, messages: seq<InputMessage>, maxRounds: int, state: S): (run: Run<S, R>)
    ensures EndsWithOneTerminal(run.events)
    ensures ResultsFollowCalls(run.events)
  {
    Rounds(env, maxRounds, 0, ConvertMessages(messages), state)
  }

  // ---------------------------------------------------------------------------
  // Properties of the loop
  // ---------------------------------------------------------------------------

  /** The round's accumulator for a model answer. */
  function RoundAccumulator<S, R>(env: Env<S, R>, round: nat, pr: ProviderRound<GChunk>): Accumulator<R> {
    Ingest<R>(Pieces(pr.chunks), round, env.dumps)
  }

  /** A round whose stream ends cleanly without a named function call ends the invocation with its text deltas and `done`. */
  lemma NoCallsEndsWithDone<S, R>(env: Env<S, R>, maxRounds: int, k: nat, contents: seq<Content<R>>, state: S)
    requires k < maxRounds
    requires var pr := env.provider(contents);
      pr.failure.None? && RoundAccumulator(env, k, pr).failure.None? && NamedCalls(Pieces(pr.chunks)) == []
    ensures var acc := RoundAccumulator(env, k, env.provider(contents));
      var run := Rounds(env, maxRounds, k, contents, state);
      && run.events == acc.events + [Done]
      && run.state == state
      && (forall i :: 0 <= i < |acc.events| ==> acc.events[i].TextDelta?)
      && Texts(acc.events) == acc.text
  {
    var pr := env.provider(contents);
    var acc := RoundAccumulator(env, k, pr);
    IngestFacts<R>(Pieces(pr.chunks), k, env.dumps);
    assert |acc.pending| == 0;
    forall i | 0 <= i < |acc.events|
      ensures acc.events[i].TextDelta?
    {
      if acc.events[i].ToolArgsDelta? {
        NoArgsDeltas(acc.events, i);
      }
    }
  }

  /** A `tool_args_delta` in a stream shows up among its args deltas. */
  lemma {:induction false} NoArgsDeltas<R>(events: seq<Event<R>>, i: nat)
    requires i < |events| && events[i].ToolArgsDelta?
    ensures |ArgsDeltas(events)| > 0
    decreases |events|
  {
    if i < |events| - 1 {
      NoArgsDeltas(events[..|events| - 1], i);
    }
  }

  /** An exception while streaming ends the invocation with the events streamed so far and one `error` with its message. */
  lemma StreamFailureEndsWithError<S, R>(env: Env<S, R>, maxRounds: int, k: nat, contents: seq<Content<R>>, state: S)
    requires k < maxRounds
    requires var pr := env.provider(contents);
      pr.failure.Some? || RoundAccumulator(env, k, pr).failure.Some?
    ensures var pr := env.provider(contents);
      var acc := RoundAccumulator(env, k, pr);
      var run := Rounds(env, maxRounds, k, contents, state);
      && run.events == acc.events + [Error(if acc.failure.Some? then acc.failure.value else pr.failure.value)]
      && StreamingOnly(acc.events)
  {
    IngestFacts<R>(Pieces(env.provider(contents).chunks), k, env.dumps);
  }

  /**
   * A tool that raises ends the invocation: the round's streamed events, the pairs of the calls
   * that returned, the `tool_call` of the raising one, then one `error` carrying the message that
   * tool raised on the state its predecessors left; no later round runs.
   */
  lemma ToolFailureEndsWithError<S, R>(env: Env<S, R>, maxRounds: int, k: nat, contents: seq<Content<R>>, state: S)
    requires k < maxRounds
    requires var pr := env.provider(contents);
      var acc := RoundAccumulator(env, k, pr);
      pr.failure.None? && acc.failure.None? && |acc.pending| > 0
    requires ExecuteCalls(RoundAccumulator(env, k, env.provider(contents)).pending, env.exec, Response, state).failure.Some?
    ensures var acc := RoundAccumulator(env, k, env.provider(contents));
      var x := ExecuteCalls(acc.pending, env.exec, Response, state);
      var run := Rounds(env, maxRounds, k, contents, state);
      && |x.results| < |acc.pending|
      && OutcomeAt(acc.pending, env.exec, state, |x.results|) == Raised(x.failure.value)
      && run.events == acc.events + ExecutionEvents(acc.pending, x) + [Error(x.failure.value)]
      && run.state == x.state
  {
    var acc := RoundAccumulator(env, k, env.provider(contents));
    IngestFacts<R>(Pieces(env.provider(contents).chunks), k, env.dumps);
    ExecuteCallsThreads(acc.pending, env.exec, Response, state);
  }

  /** The events of a continuing tool round: the streamed ones, then `tool_call`, `tool_result` per pending call in order. */
  ghost predicate CallsAfter<R>(acc: Accumulator<R>, events: seq<Event<R>>) {
    var n := |acc.pending|;
    && |events| == |acc.events| + 2 * n
    && events[..|acc.events|] == acc.events
    && forall j :: 0 <= j < n ==>
      && events[|acc.events| + 2 * j] == ToolCall(acc.pending[j].name, acc.pending[j].id, acc.pending[j].args)
      && events[|acc.events| + 2 * j + 1].ToolResult?
      && events[|acc.events| + 2 * j + 1].callId == acc.pending[j].id
      && events[|acc.events| + 2 * j + 1].name == acc.pending[j].name
  }

  /**
   * The contents after a continuing tool round begin with the earlier contents and the model's
   * text turn, only when there was text, and hold one more turn per call.
   */
  ghost predicate TurnsAfter<R>(acc: Accumulator<R>, contents: seq<Content<R>>, c: seq<Content<R>>) {
    var m := |contents| + |ModelTurn<R>(acc.text)|;
    && |c| == m + |acc.pending|
    && c[..|contents|] == contents
    && (acc.text != "" <==> m == |contents| + 1)
    && (acc.text != "" ==> c[|contents|] == TextTurn("model", acc.text))
  }

  /** Those turns are one `function_response` per call in order, naming its tool and holding the result its `tool_result` event carries. */
  ghost predicate ResponsesAfter<R>(acc: Accumulator<R>, contents: seq<Content<R>>, c: seq<Content<R>>, events: seq<Event<R>>) {
    var m := |contents| + |ModelTurn<R>(acc.text)|;
    forall j :: 0 <= j < |acc.pending| && m + j < |c| && |acc.events| + 2 * j + 1 < |events| && events[|acc.events| + 2 * j + 1].ToolResult? ==>
      c[m + j] == FunctionResponse(acc.pending[j].name, events[|acc.events| + 2 * j + 1].result)
  }

  /** The shape of a continuing tool round. */
  ghost predicate ContinuesWithCalls<S, R>(acc: Accumulator<R>, contents: seq<Content<R>>, r: RoundEnd<S, R>) {
    r.Continue? && CallsAfter(acc, r.events) && TurnsAfter(acc, contents, r.contents) && ResponsesAfter(acc, contents, r.contents, r.events)
  }

  /** A tool phase that continues has the shape above. */
  lemma ToolPhaseContinues<S, R>(env: Env<S, R>, acc: Accumulator<R>, contents: seq<Content<R>>, state: S)
    requires |acc.pending| > 0 && NoTerminal(acc.events) && StreamingOnly(acc.events)
    requires ToolPhase(env, acc, contents, state).Continue?
    ensures ContinuesWithCalls(acc, contents, ToolPhase(env, acc, contents, state))
  {
    var x := ExecuteCalls(acc.pending, env.exec, Response, state);
    assert x.failure.None?;
    assert ToolPhase(env, acc, contents, state)
      == Continue(acc.events + CallResultPairs(acc.pending, x.results), contents + ModelTurn(acc.text) + x.entries, x.state);
    ContinuationShape(acc, contents, x.results, x.entries, x.state);
  }

  /** The continuation built from the calls' results and response turns has the shape above. */
  lemma ContinuationShape<S, R>(acc: Accumulator<R>, contents: seq<Content<R>>, results: seq<R>, entries: seq<Content<R>>, state: S)
    requires |results| == |entries| == |acc.pending|
    requires forall k :: 0 <= k < |entries| ==> entries[k] == FunctionResponse(acc.pending[k].name, results[k])
    ensures ContinuesWithCalls(acc, contents,
      Continue(acc.events + CallResultPairs(acc.pending, results), contents + ModelTurn(acc.text) + entries, state))
  {
    CallsShape(acc, results);
    TurnsShape(acc, contents, entries);
    ResponsesShape(acc, contents, entries, results);
  }

  /** The events half of the shape. */
  lemma CallsShape<R>(acc: Accumulator<R>, results: seq<R>)
    requires |results| == |acc.pending|
    ensures CallsAfter(acc, acc.events + CallResultPairs(acc.pending, results))
  {
    PairsAfter(acc.events, acc.pending, results);
  }

  /** The turns half of the shape. */
  lemma TurnsShape<R>(acc: Accumulator<R>, contents: seq<Content<R>>, entries: seq<Content<R>>)
    requires |entries| == |acc.pending|
    ensures TurnsAfter(acc, contents, contents + ModelTurn(acc.text) + entries)
  {
    var turn := ModelTurn<R>(acc.text);
    var c := contents + turn + entries;
    assert c == contents + (turn + entries);
    PrefixOfAppend(contents, turn + entries);
    if acc.text != "" {
      IndexAfter(contents, turn + entries, 0);
    }
  }

  /** The responses half of the shape. */
  lemma ResponsesShape<R>(acc: Accumulator<R>, contents: seq<Content<R>>, entries: seq<Content<R>>, results: seq<R>)
    requires |results| == |entries| == |acc.pending|
    requires forall k :: 0 <= k < |entries| ==> entries[k] == FunctionResponse(acc.pending[k].name, results[k])
    ensures ResponsesAfter(acc, contents, contents + ModelTurn(acc.text) + entries, acc.events + CallResultPairs(acc.pending, results))
  {
    var events := acc.events + CallResultPairs(acc.pending, results);
    var front := contents + ModelTurn<R>(acc.text);
    var c := front + entries;
    var m := |contents| + |ModelTurn<R>(acc.text)|;
    assert |front| == m;
    forall j | 0 <= j < |acc.pending|
      ensures events[|acc.events| + 2 * j + 1] == ToolResult(acc.pending[j].name, acc.pending[j].id, results[j])
      ensures c[m + j] == FunctionResponse(acc.pending[j].name, results[j])
    {
      IndexAfter(front, entries, j);
      ResultAfter(acc.events, acc.pending, results, j);
    }
  }

  // ---------------------------------------------------------------------------
  // Call ids are unique across the stream
  // ---------------------------------------------------------------------------

  /** No two `tool_call` events share a call id. */
  predicate DistinctCallIds<R>(events: seq<Event<R>>) {
    forall i, j :: 0 <= i < j < |events| && events[i].ToolCall? && events[j].ToolCall? ==> events[i].callId != events[j].callId
  }

  /** Every `tool_call` carries an id made in some round at or after `lo`. */
  ghost predicate IdsFromRound<R>(events: seq<Event<R>>, lo: nat) {
    forall i :: 0 <= i < |events| && events[i].ToolCall? ==>
      exists name, position, round :: lo <= round && events[i].callId == CallId(name, position, round)
  }

  /** Every `tool_call` carries an id made in round `round` exactly. */
  ghost predicate IdsOfRound<R>(events: seq<Event<R>>, round: nat) {
    forall i :: 0 <= i < |events| && events[i].ToolCall? ==>
      exists name, position :: events[i].callId == CallId(name, position, round)
  }

  /** The calls of a round: pending call `j` carries position `j` and the round's index. */
  ghost predicate NumberedCalls(pending: seq<PendingCall>, round: nat) {
    forall j :: 0 <= j < |pending| ==> pending[j].id == CallId(pending[j].name, j, round)
  }

  /** The pending calls of a round are numbered by position, whether or not the stream failed. */
  lemma {:induction false} IngestNumbered<R>(ps: seq<GPiece>, round: nat, dumps: Dumps)
    ensures NumberedCalls(Ingest<R>(ps, round, dumps).pending, round)
    decreases |ps|
  {
    if |ps| > 0 {
      IngestNumbered<R>(ps[..|ps| - 1], round, dumps);
    }
  }

  /** The `tool_call` events of an execution phase carry the calls' ids, pairwise distinct and all of one round. */
  lemma PhaseIds<S, R, H>(calls: seq<PendingCall>, x: Execution<S, R, H>, round: nat)
    requires NumberedCalls(calls, round)
    requires |x.results| <= |calls|
    requires x.failure.Some? ==> |x.results| < |calls|
    ensures DistinctCallIds(ExecutionEvents(calls, x)) && IdsOfRound(ExecutionEvents(calls, x), round)
  {
    var e := ExecutionEvents(calls, x);
    forall i, j | 0 <= i < j < |e| && e[i].ToolCall? && e[j].ToolCall?
      ensures e[i].callId != e[j].callId
    {
      CallPosition(calls, x, i);
      CallPosition(calls, x, j);
      assert i == 2 * (i / 2) && j == 2 * (j / 2);
      if e[i].callId == e[j].callId {
        CallIdInjective(calls[i / 2].name, i / 2, round, calls[j / 2].name, j / 2, round);
      }
    }
    forall i | 0 <= i < |e| && e[i].ToolCall?
      ensures exists name, position :: e[i].callId == CallId(name, position, round)
    {
      CallPosition(calls, x, i);
      assert e[i].callId == CallId(calls[i / 2].name, i / 2, round);
    }
  }

  /** A round's events carry distinct call ids, all made in that round. */
  lemma RoundIds<S, R>(env: Env<S, R>, round: nat, pr: ProviderRound<GChunk>, contents: seq<Content<R>>, state: S)
    ensures var r := Round(env, round, pr, contents, state);
      DistinctCallIds(r.events) && IdsOfRound(r.events, round)
  {
    var acc := Ingest<R>(Pieces(pr.chunks), round, env.dumps);
    IngestEvents<R>(Pieces(pr.chunks), round, env.dumps);
    IngestNumbered<R>(Pieces(pr.chunks), round, env.dumps);
    ConcludeIds(env, acc, pr.failure, contents, state, round);
  }

  lemma ConcludeIds<S, R>(env: Env<S, R>, acc: Accumulator<R>, failure: Option<string>, contents: seq<Content<R>>, state: S, round: nat)
    requires NoTerminal(acc.events) && StreamingOnly(acc.events) && NumberedCalls(acc.pending, round)
    ensures var r := Conclude(env, acc, failure, contents, state);
      DistinctCallIds(r.events) && IdsOfRound(r.events, round)
  {
    var stop := if acc.failure.Some? then acc.failure else failure;
    if stop.Some? || |acc.pending| == 0 {
      var r := Conclude(env, acc, failure, contents, state);
      assert forall i :: 0 <= i < |r.events| ==> !r.events[i].ToolCall?;
    } else {
      ToolPhaseIds(env, acc, contents, state, round);
    }
  }

  lemma ToolPhaseIds<S, R>(env: Env<S, R>, acc: Accumulator<R>, contents: seq<Content<R>>, state: S, round: nat)
    requires |acc.pending| > 0 && NoTerminal(acc.events) && StreamingOnly(acc.events) && NumberedCalls(acc.pending, round)
    ensures var r := ToolPhase(env, acc, contents, state);
      DistinctCallIds(r.events) && IdsOfRound(r.events, round)
  {
    var r := ToolPhase(env, acc, contents, state);
    var x := ExecuteCalls(acc.pending, env.exec, Response, state);
    var phase := ExecutionEvents(acc.pending, x);
    PhaseIds(acc.pending, x, round);
    var tail: seq<Event<R>> := if x.failure.Some? then [Error(x.failure.value)] else [];
    assert r.events == acc.events + phase + tail;
    forall i | 0 <= i < |r.events| && r.events[i].ToolCall?
      ensures |acc.events| <= i < |acc.events| + |phase| && r.events[i] == phase[i - |acc.events|]
    {
    }
  }

  /** Ids made in round `k` are made in a round at or after `k`. */
  lemma OfRoundFromRound<R>(events: seq<Event<R>>, k: nat)
    requires IdsOfRound(events, k)
    ensures IdsFromRound(events, k)
  {
    forall i | 0 <= i < |events| && events[i].ToolCall?
      ensures exists name, position, round :: k <= round && events[i].callId == CallId(name, position, round)
    {
      var n1, p1 :| events[i].callId == CallId(n1, p1, k);
      assert k <= k && events[i].callId == CallId(n1, p1, k);
    }
  }

  /** Joining a round's events to those of later rounds keeps call ids distinct. */
  lemma JoinRoundIds<R>(a: seq<Event<R>>, k: nat, b: seq<Event<R>>)
    requires DistinctCallIds(a) && IdsOfRound(a, k)
    requires DistinctCallIds(b) && IdsFromRound(b, k + 1)
    ensures DistinctCallIds(a + b) && IdsFromRound(a + b, k)
  {
    var c := a + b;
    forall i, j | 0 <= i < j < |c| && c[i].ToolCall? && c[j].ToolCall?
      ensures c[i].callId != c[j].callId
    {
      if j < |a| {
        assert c[i] == a[i] && c[j] == a[j];
      } else if i >= |a| {
        assert c[i] == b[i - |a|] && c[j] == b[j - |a|];
      } else {
        assert c[i] == a[i] && c[j] == b[j - |a|];
        var n1, p1 :| a[i].callId == CallId(n1, p1, k);
        var n2, p2, r2 :| k + 1 <= r2 && b[j - |a|].callId == CallId(n2, p2, r2);
        if c[i].callId == c[j].callId {
          CallIdInjective(n1, p1, k, n2, p2, r2);
        }
      }
    }
    forall i | 0 <= i < |c| && c[i].ToolCall?
      ensures exists name, position, round :: k <= round && c[i].callId == CallId(name, position, round)
    {
      if i < |a| {
        assert c[i] == a[i];
        var n1, p1 :| a[i].callId == CallId(n1, p1, k);
        assert k <= k && c[i].callId == CallId(n1, p1, k);
      } else {
        assert c[i] == b[i - |a|];
      }
    }
  }

  /** Within one invocation no two tool calls share a call id: ids name their round and their position in it. */
  lemma {:induction false} UniqueCallIds<S, R>(env: Env<S, R>, maxRounds: int, k: nat, contents: seq<Content<R>>, state: S)
    ensures var run := Rounds(env, maxRounds, k, contents, state);
      DistinctCallIds(run.events) && IdsFromRound(run.events, k)
    decreases if k < maxRounds then maxRounds - k else 0
  {
    if k < maxRounds {
      var r := Round(env, k, env.provider(contents), contents, state);
      RoundIds(env, k, env.provider(contents), contents, state);
      match r
      case Finished(events, s) =>
        OfRoundFromRound(events, k);
      case Continue(events, c, s) =>
        UniqueCallIds(env, maxRounds, k + 1, c, s);
        JoinRoundIds(events, k, Rounds(env, maxRounds, k + 1, c, s).events);
    }
  }

  // ---------------------------------------------------------------------------
  // The round budget
  // ---------------------------------------------------------------------------

  /** The model calls a named function in every answer, and neither the stream nor serialisation fails. */
  ghost predicate AlwaysCallsTools<S, R(!new)>(env: Env<S, R>) {
    forall contents: seq<Content<R>>, round: nat :: var pr := env.provider(contents);
      pr.failure.None? && RoundAccumulator(env, round, pr).failure.None? && RoundAccumulator(env, round, pr).pending != []
  }

  /** Every tool returns. */
  ghost predicate ToolsReturn<S(!new), R>(env: Env<S, R>) {
    forall s, n, a :: env.exec(s, n, a).1.Returned?
  }

  /** Under a model that always calls tools and tools that always return, every round continues. */
  lemma RoundContinues<S(!new), R(!new)>(env: Env<S, R>, k: nat, contents: seq<Content<R>>, state: S)
    requires AlwaysCallsTools(env) && ToolsReturn(env)
    ensures Round(env, k, env.provider(contents), contents, state).Continue?
  {
    var pr := env.provider(contents);
    var acc := RoundAccumulator(env, k, pr);
    IngestFacts<R>(Pieces(pr.chunks), k, env.dumps);
    assert Round(env, k, pr, contents, state) == ToolPhase(env, acc, contents, state);
    ReturningToolsRunAll(acc.pending, env.exec, Response<R>, state);
  }

  /** A round that continues is followed by the rest of the rounds, from the grown conversation and the state it left. */
  lemma RoundsStep<S, R>(env: Env<S, R>, maxRounds: int, k: nat, contents: seq<Content<R>>, state: S)
    requires k < maxRounds && Round(env, k, env.provider(contents), contents, state).Continue?
    ensures var r := Round(env, k, env.provider(contents), contents, state);
      Rounds(env, maxRounds, k, contents, state).events == r.events + Rounds(env, maxRounds, k + 1, r.contents, r.state).events
  {
  }

  /** A stream that never stops calling tools ends with the round-limit `error`. */
  lemma {:induction false} BudgetEndsWithLimit<S(!new), R(!new)>(env: Env<S, R>, maxRounds: int, k: nat, contents: seq<Content<R>>, state: S)
    requires AlwaysCallsTools(env) && ToolsReturn(env)
    ensures var run := Rounds(env, maxRounds, k, contents, state);
      run.events[|run.events| - 1] == Error(LimitMessage(maxRounds))
    decreases if k < maxRounds then maxRounds - k else 0
  {
    if k < maxRounds {
      RoundContinues(env, k, contents, state);
      var r := Round(env, k, env.provider(contents), contents, state);
      BudgetEndsWithLimit(env, maxRounds, k + 1, r.contents, r.state);
      var rest := Rounds(env, maxRounds, k + 1, r.contents, r.state).events;
      RoundsStep(env, maxRounds, k, contents, state);
      assert (r.events + rest)[|r.events + rest| - 1] == rest[|rest| - 1];
    }
  }

  /** A stream that never stops calling tools never emits `done`. */
  lemma {:induction false} BudgetNeverDone<S(!new), R(!new)>(env: Env<S, R>, maxRounds: int, k: nat, contents: seq<Content<R>>, state: S)
    requires AlwaysCallsTools(env) && ToolsReturn(env)
    ensures var run := Rounds(env, maxRounds, k, contents, state);
      forall i :: 0 <= i < |run.events| ==> !run.events[i].Done?
    decreases if k < maxRounds then maxRounds - k else 0
  {
    if k < maxRounds {
      RoundContinues(env, k, contents, state);
      var r := Round(env, k, env.provider(contents), contents, state);
      BudgetNeverDone(env, maxRounds, k + 1, r.contents, r.state);
      RoundsStep(env, maxRounds, k, contents, state);
      PrependKeepsNoDone(r.events, Rounds(env, maxRounds, k + 1, r.contents, r.state).events);
    }
  }

  /** A stream that never stops calling tools ends with the round-limit `error`, and `done` never appears. */
  lemma BudgetExhaustion<S(!new), R(!new)>(env: Env<S, R>, maxRounds: int, k: nat, contents: seq<Content<R>>, state: S)
    requires AlwaysCallsTools(env) && ToolsReturn(env)
    ensures var run := Rounds(env, maxRounds, k, contents, state);
      && run.events[|run.events| - 1] == Error(LimitMessage(maxRounds))
      && forall i :: 0 <= i < |run.events| ==> !run.events[i].Done?
  {
    BudgetEndsWithLimit(env, maxRounds, k, contents, state);
    BudgetNeverDone(env, maxRounds, k, contents, state);
  }

}
