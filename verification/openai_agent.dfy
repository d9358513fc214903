/**
 * The OpenAI adapter (backend/app/agents/openai_agent.py): a round loop over a streaming chat
 * completion whose tool calls arrive as index-addressed fragments.
 */
module OpenAIAgent {
  import opened Wrappers
  import opened Json
  import opened AgentCore
  import opened ToolSpecs

  // ---------------------------------------------------------------------------
  // Tool declarations in OpenAI's shape
  // ---------------------------------------------------------------------------

  /** `{"type": "function", "function": {...}}`. */
  datatype OpenAITool = OpenAITool(decl: FunctionDecl)

  /** `_to_openai_tools`: wraps the declaration of every function spec, in spec order, skipping the rest. */
  function ToOpenAITools(specs: seq<ToolSpec>): (r: seq<OpenAITool>)
    requires FunctionsNamed(specs)
    ensures |r| == |FunctionDecls(specs)|
    ensures forall i :: 0 <= i < |r| ==> r[i].decl == FunctionDecls(specs)[i]
  {
    if |specs| == 0 then []
    else
      var rest := ToOpenAITools(specs[1..]);
      if IsFunction(specs[0]) then
        assert FunctionDecls(specs) == [Declare(specs[0])] + FunctionDecls(specs[1..]);
        [OpenAITool(Declare(specs[0]))] + rest
      else
        assert FunctionDecls(specs) == FunctionDecls(specs[1..]);
        rest
  }

  /** `OPENAI_TOOLS`, computed once from the registry. */
  function RegisteredTools(): seq<OpenAITool> {
    RegistryWellFormed();
    ToOpenAITools(Registry)
  }

  // ---------------------------------------------------------------------------
  // Stream chunks
  // ---------------------------------------------------------------------------

  /**
   * One tool-call fragment. `index` is absent when the provider sent none; an empty `id`,
   * `name` or `arguments` stands for a missing or empty field (the source tests each for truthiness).
   */
  datatype ToolCallDelta = ToolCallDelta(index: Option<nat>, id: string, name: string, arguments: string)

  /** The `delta` of a choice; an empty `content` stands for a missing one. */
  datatype Delta = Delta(content: string, toolCalls: seq<ToolCallDelta>)

  /** A streamed chunk; only the first choice is read, and a chunk without choices is skipped. */
  datatype Chunk = Chunk(choices: seq<Delta>)

  /** The unit of processing: a chunk's content, then each of its tool-call fragments, in that order. */
  datatype Piece = ContentPiece(text: string) | CallPiece(call: ToolCallDelta)

  function DeltaPieces(d: Delta): seq<Piece> {
    (if d.content != "" then [ContentPiece(d.content)] else [])
      + seq(|d.toolCalls|, i requires 0 <= i < |d.toolCalls| => CallPiece(d.toolCalls[i]))
  }

  /** The pieces of a whole stream, in the order the source handles them. */
  function Pieces(chunks: seq<Chunk>): seq<Piece> {
    if |chunks| == 0 then []
    else (if |chunks[0].choices| == 0 then [] else DeltaPieces(chunks[0].choices[0])) + Pieces(chunks[1..])
  }

  // ---------------------------------------------------------------------------
  // The index-addressed tool-call accumulator
  // ---------------------------------------------------------------------------

  /** One accumulated tool call: `{"id", "function": {"name", "arguments"}}`. */
  datatype Slot = Slot(id: string, name: string, arguments: string)

  /** The placeholder appended while the list is too short for an index. */
  const EmptySlot: Slot := Slot("", "", "")

  /** Appends placeholders until the list has a slot at `idx`. */
  function Grow(slots: seq<Slot>, idx: nat): (r: seq<Slot>)
    ensures |r| == if |slots| > idx then |slots| else idx + 1
    ensures r[..|slots|] == slots
    ensures forall j :: |slots| <= j < |r| ==> r[j] == EmptySlot
    decreases idx + 1 - |slots|
  {
    if |slots| > idx then slots else Grow(slots + [EmptySlot], idx)
  }

  /** Applies one fragment that carries an index. */
  function ApplyDelta(slots: seq<Slot>, d: ToolCallDelta): (r: seq<Slot>)
    requires d.index.Some?
    ensures var idx := d.index.value;
      var before := if idx < |slots| then slots[idx] else EmptySlot;
      && |r| == (if |slots| > idx then |slots| else idx + 1)
      && (forall j :: 0 <= j < |r| && j != idx ==> r[j] == if j < |slots| then slots[j] else EmptySlot)
      && r[idx].id == (if d.id != "" then d.id else before.id)
      && r[idx].name == (if d.name != "" then d.name else before.name)
      && r[idx].arguments == before.arguments + d.arguments
  {
    var idx := d.index.value;
    var g := Grow(slots, idx);
    assert idx < |slots| ==> g[idx] == g[..|slots|][idx];
    assert forall j :: 0 <= j < |slots| ==> g[j] == g[..|slots|][j];
    var s := g[idx];
    g[idx := Slot(if d.id != "" then d.id else s.id, if d.name != "" then d.name else s.name, s.arguments + d.arguments)]
  }

  /** What a round has accumulated: events emitted, assistant content, tool-call slots. */
  datatype Accumulator<R> = Accumulator(events: seq<Event<R>>, content: string, toolCalls: seq<Slot>)

  function Step<R>(acc: Accumulator<R>, p: Piece): Accumulator<R> {
    match p
    case ContentPiece(t) => Accumulator(acc.events + [TextDelta(t)], acc.content + t, acc.toolCalls)
    case CallPiece(d) =>
      if d.index.None? then acc
      else
        var slots := ApplyDelta(acc.toolCalls, d);
        var emitted: seq<Event<R>> := if d.arguments != "" then [ToolArgsDelta(slots[d.index.value].id, d.arguments)] else [];
        Accumulator(acc.events + emitted, acc.content, slots)
  }

  /** The accumulator after handling `ps` from an empty assistant message. */
  function Ingest<R>(ps: seq<Piece>): Accumulator<R> {
    if |ps| == 0 then Accumulator([], "", []) else Step(Ingest(ps[..|ps| - 1]), ps[|ps| - 1])
  }

  // ---------------------------------------------------------------------------
  // Reference readings of the accumulator
  // ---------------------------------------------------------------------------

  /** How many slots the fragments address: one more than the largest index seen. */
  function Width(ps: seq<Piece>): nat {
    if |ps| == 0 then 0
    else
      var w := Width(ps[..|ps| - 1]);
      var last := ps[|ps| - 1];
      if last.CallPiece? && last.call.index.Some? && last.call.index.value >= w then last.call.index.value + 1 else w
  }

  /** The argument fragments sent for index `idx`, concatenated in arrival order. */
  function Fragments(ps: seq<Piece>, idx: nat): string {
    if |ps| == 0 then ""
    else
      var last := ps[|ps| - 1];
      Fragments(ps[..|ps| - 1], idx) + (if last.CallPiece? && last.call.index == Some(idx) then last.call.arguments else "")
  }

  /** The last non-empty id sent for index `idx`, or `""`. */
  function LastId(ps: seq<Piece>, idx: nat): string {
    if |ps| == 0 then ""
    else
      var last := ps[|ps| - 1];
      if last.CallPiece? && last.call.index == Some(idx) && last.call.id != "" then last.call.id else LastId(ps[..|ps| - 1], idx)
  }

  /** The last non-empty name sent for index `idx`, or `""`. */
  function LastName(ps: seq<Piece>, idx: nat): string {
    if |ps| == 0 then ""
    else
      var last := ps[|ps| - 1];
      if last.CallPiece? && last.call.index == Some(idx) && last.call.name != "" then last.call.name else LastName(ps[..|ps| - 1], idx)
  }

  /** The `tool_args_delta` events a stream must produce: one per non-empty fragment, under the id known when it arrived. */
  function ExpectedArgsDeltas<R>(ps: seq<Piece>): seq<Event<R>> {
    if |ps| == 0 then [] else ExpectedArgsDeltas(ps[..|ps| - 1]) + ExpectedLast(ps)
  }

  /** The `tool_args_delta` the last piece must produce, if any. */
  function ExpectedLast<R>(ps: seq<Piece>): seq<Event<R>>
    requires |ps| > 0
  {
    var last := ps[|ps| - 1];
    if last.CallPiece? && last.call.index.Some? && last.call.arguments != ""
    then [ToolArgsDelta(LastId(ps, last.call.index.value), last.call.arguments)] else []
  }

  /**
   * The accumulator emits only streaming events whose texts spell the assistant content,
   * and a round that accumulated no tool call emitted only `text_delta` events.
   */
  lemma {:induction false} IngestEvents<R>(ps: seq<Piece>)
    ensures var acc := Ingest<R>(ps);
      && StreamingOnly(acc.events) && NoTerminal(acc.events)
      && Texts(acc.events) == acc.content
      && (acc.toolCalls == [] ==> forall i :: 0 <= i < |acc.events| ==> acc.events[i].TextDelta?)
    decreases |ps|
  {
    if |ps| > 0 {
      IngestEvents<R>(ps[..|ps| - 1]);
      StepEvents(Ingest<R>(ps[..|ps| - 1]), ps[|ps| - 1]);
    }
  }

  /** One step of the accumulator keeps the facts `IngestEvents` states. */
  lemma StepEvents<R>(prev: Accumulator<R>, p: Piece)
    requires StreamingOnly(prev.events) && NoTerminal(prev.events) && Texts(prev.events) == prev.content
    requires prev.toolCalls == [] ==> forall i :: 0 <= i < |prev.events| ==> prev.events[i].TextDelta?
    ensures var acc := Step(prev, p);
      && StreamingOnly(acc.events) && NoTerminal(acc.events)
      && Texts(acc.events) == acc.content
      && (acc.toolCalls == [] ==> forall i :: 0 <= i < |acc.events| ==> acc.events[i].TextDelta?)
  {
    match p
    case ContentPiece(t) => ContentStepEvents(prev, t);
    case CallPiece(d) => CallStepEvents(prev, d);
  }

  lemma ContentStepEvents<R>(prev: Accumulator<R>, t: string)
    requires StreamingOnly(prev.events) && NoTerminal(prev.events) && Texts(prev.events) == prev.content
    requires prev.toolCalls == [] ==> forall i :: 0 <= i < |prev.events| ==> prev.events[i].TextDelta?
    ensures var acc := Step(prev, ContentPiece(t));
      && StreamingOnly(acc.events) && NoTerminal(acc.events)
      && Texts(acc.events) == acc.content
      && (acc.toolCalls == [] ==> forall i :: 0 <= i < |acc.events| ==> acc.events[i].TextDelta?)
  {
    var acc := Step(prev, ContentPiece(t));
    var added: seq<Event<R>> := [TextDelta(t)];
    assert acc.events == prev.events + added;
    assert forall i :: 0 <= i < |prev.events| ==> acc.events[i] == prev.events[i];
    assert acc.events[|prev.events|] == TextDelta(t);
    TextsAppend(prev.events, added);
    assert Texts(added) == t by {
      assert added[..0] == [];
    }
  }

  lemma CallStepEvents<R>(prev: Accumulator<R>, d: ToolCallDelta)
    requires StreamingOnly(prev.events) && NoTerminal(prev.events) && Texts(prev.events) == prev.content
    requires prev.toolCalls == [] ==> forall i :: 0 <= i < |prev.events| ==> prev.events[i].TextDelta?
    ensures var acc := Step(prev, CallPiece(d));
      && StreamingOnly(acc.events) && NoTerminal(acc.events)
      && Texts(acc.events) == acc.content
      && (acc.toolCalls == [] ==> forall i :: 0 <= i < |acc.events| ==> acc.events[i].TextDelta?)
  {
    if d.index.Some? {
      var slots := ApplyDelta(prev.toolCalls, d);
      var added: seq<Event<R>> := if d.arguments != "" then [ToolArgsDelta(slots[d.index.value].id, d.arguments)] else [];
      var acc := Step(prev, CallPiece(d));
      assert acc == Accumulator(prev.events + added, prev.content, slots);
      assert |slots| > 0;
      AppendArgsDeltas(prev.events, added);
    }
  }

  /** Slot `idx` holds the last id and name sent for it and all of its argument fragments in arrival order. */
  lemma {:induction false} IngestSlots<R>(ps: seq<Piece>)
    ensures var slots := Ingest<R>(ps).toolCalls;
      && |slots| == Width(ps)
      && forall idx :: 0 <= idx < |slots| ==>
           slots[idx] == Slot(LastId(ps, idx), LastName(ps, idx), Fragments(ps, idx))
    decreases |ps|
  {
    if |ps| > 0 {
      var prev := ps[..|ps| - 1];
      var last := ps[|ps| - 1];
      IngestSlots<R>(prev);
      var before := Ingest<R>(prev).toolCalls;
      var slots := Ingest<R>(ps).toolCalls;
      forall idx | 0 <= idx < |slots|
        ensures slots[idx] == Slot(LastId(ps, idx), LastName(ps, idx), Fragments(ps, idx))
      {
        if idx >= |before| {
          BeyondWidth(prev, idx);
        }
      }
    }
  }

  /** An index no fragment has addressed has no id, name or arguments. */
  lemma {:induction false} BeyondWidth(ps: seq<Piece>, idx: nat)
    requires idx >= Width(ps)
    ensures LastId(ps, idx) == "" && LastName(ps, idx) == "" && Fragments(ps, idx) == ""
    decreases |ps|
  {
    if |ps| > 0 {
      BeyondWidth(ps[..|ps| - 1], idx);
    }
  }

  /** Each non-empty argument fragment is emitted once, in arrival order, under the slot's id at that moment. */
  lemma {:induction false} IngestArgsDeltas<R>(ps: seq<Piece>)
    ensures ArgsDeltas(Ingest<R>(ps).events) == ExpectedArgsDeltas<R>(ps)
    decreases |ps|
  {
    if |ps| > 0 {
      var prev := Ingest<R>(ps[..|ps| - 1]).events;
      var events := Ingest<R>(ps).events;
      IngestArgsDeltas<R>(ps[..|ps| - 1]);
      LastArgsDeltas<R>(ps);
      ArgsDeltasAppend(prev, events[|prev|..]);
    }
  }

  /** The events the last piece adds hold exactly the `tool_args_delta` it must produce. */
  lemma LastArgsDeltas<R>(ps: seq<Piece>)
    requires |ps| > 0
    ensures var prev := Ingest<R>(ps[..|ps| - 1]).events;
      var events := Ingest<R>(ps).events;
      && |prev| <= |events| && events == prev + events[|prev|..]
      && ArgsDeltas(events[|prev|..]) == ExpectedLast<R>(ps)
  {
    var last := ps[|ps| - 1];
    var prev := Ingest<R>(ps[..|ps| - 1]);
    var acc := Ingest<R>(ps);
    assert acc == Step(prev, last);
    var added := acc.events[|prev.events|..];
    assert acc.events == prev.events + added;
    if last.CallPiece? && last.call.index.Some? && last.call.arguments != "" {
      IngestSlots<R>(ps);
      var idx := last.call.index.value;
      assert idx < |acc.toolCalls|;
      assert added == [ToolArgsDelta(acc.toolCalls[idx].id, last.call.arguments)];
      assert ArgsDeltas(added) == added by { assert added[..0] == []; }
    } else if last.ContentPiece? {
      assert added == [TextDelta(last.text)];
      assert ArgsDeltas(added) == [] by { assert added[..0] == []; }
    } else {
      assert added == [];
    }
  }

  // ---------------------------------------------------------------------------
  // Conversation history and the round
  // ---------------------------------------------------------------------------

  /** A message of the running conversation; `ToolReply` carries the result that the source serialises into `content`. */
  datatype ChatMessage<R> =
    | Plain(role: string, content: string)
    | Assistant(content: string, toolCalls: seq<Slot>)
    | ToolReply(toolCallId: string, result: R)

  /** The request of one round: the system instructions, the conversation, and the tools when there are any. */
  datatype ChatRequest<R> = ChatRequest(messages: seq<ChatMessage<R>>, tools: Option<seq<OpenAITool>>)

  /**
   * Everything a run depends on besides the conversation: the scripted provider, the tool
   * executor, `json.loads`, the system instructions and the declared tools (`OPENAI_TOOLS`,
   * which the dispatcher builds with `RegisteredTools`).
   */
  datatype Env<!S, !R> = Env(
    provider: ChatRequest<R> -> ProviderRound<Chunk>,
    exec: Executor<S, R>,
    parse: string -> Option<Json>,
    instructions: string,
    tools: seq<OpenAITool>)

  /** The request of a round: the system message before the conversation; the tools, or none when there are none. */
  function Request<S, R>(env: Env<S, R>, history: seq<ChatMessage<R>>): ChatRequest<R> {
    ChatRequest([Plain("system", env.instructions)] + history, if |env.tools| > 0 then Some(env.tools) else None)
  }

  /** `json.loads` with the source's fallback: text that does not decode becomes `{}`. */
  function ParseArguments(parse: string -> Option<Json>, text: string): Json {
    match parse(text)
    case Some(j) => j
    case None => EmptyObject
  }

  /** The finalised calls of a round, one per slot, in slot order. */
  function PendingCalls(slots: seq<Slot>, parse: string -> Option<Json>): (calls: seq<PendingCall>)
    ensures |calls| == |slots|
    ensures forall i :: 0 <= i < |slots| ==>
      && calls[i].id == slots[i].id && calls[i].name == slots[i].name
      && (parse(slots[i].arguments).Some? ==> calls[i].args == parse(slots[i].arguments).value)
      && (parse(slots[i].arguments).None? ==> calls[i].args == EmptyObject)
  {
    seq(|slots|, i requires 0 <= i < |slots| => PendingCall(slots[i].id, slots[i].name, ParseArguments(parse, slots[i].arguments)))
  }

  function Reply<R>(c: PendingCall, result: R): ChatMessage<R> {
    ToolReply(c.id, result)
  }

  /** How a round ended: the invocation finished, or it continues with a longer conversation. */
  datatype RoundEnd<S, R> =
    | Finished(events: seq<Event<R>>, state: S)
    | Continue(events: seq<Event<R>>, history: seq<ChatMessage<R>>, state: S)

  /** One round, from the provider's scripted answer. */
  function Round<S, R>(env: Env<S, R>, pr: ProviderRound<Chunk>, history: seq<ChatMessage<R>>, state: S): (r: RoundEnd<S, R>)
    ensures r.Finished? ==> EndsWithOneTerminal(r.events)
    ensures r.Continue? ==> NoTerminal(r.events) && |r.history| > |history|
    ensures ResultsFollowCalls(r.events) && (|r.events| > 0 ==> !r.events[0].ToolResult?)
  {
    IngestEvents<R>(Pieces(pr.chunks));
    Conclude(env, Ingest<R>(Pieces(pr.chunks)), pr.failure, history, state)
  }

  /** How a round ends once its stream is consumed: `error` on failure, `done` without tool calls, else the tool phase. */
  function Conclude<S, R>(env: Env<S, R>, acc: Accumulator<R>, failure: Option<string>, history: seq<ChatMessage<R>>, state: S)
    : (r: RoundEnd<S, R>)
    requires NoTerminal(acc.events) && StreamingOnly(acc.events)
    ensures r.Finished? ==> EndsWithOneTerminal(r.events)
    ensures r.Continue? ==> NoTerminal(r.events) && |r.history| > |history|
    ensures ResultsFollowCalls(r.events) && (|r.events| > 0 ==> !r.events[0].ToolResult?)
  {
    if failure.Some? then
      StreamingPairs(acc.events);
      CloseStream(acc.events, Error(failure.value));
      Finished(acc.events + [Error(failure.value)], state)
    else if |acc.toolCalls| == 0 then
      StreamingPairs(acc.events);
      CloseStream(acc.events, Done);
      Finished(acc.events + [Done], state)
    else
      ToolPhase(env, acc, history, state)
  }

  /**
   * The end of a round that accumulated tool calls: each call is finalised and executed in slot
   * order; a raising tool ends the invocation with an `error`, otherwise the conversation gains
   * the assistant message and one tool message per call.
   */
  function ToolPhase<S, R>(env: Env<S, R>, acc: Accumulator<R>, history: seq<ChatMessage<R>>, state: S): (r: RoundEnd<S, R>)
    requires |acc.toolCalls| > 0 && NoTerminal(acc.events) && StreamingOnly(acc.events)
    ensures r.Finished? ==> EndsWithOneTerminal(r.events)
    ensures r.Continue? ==> NoTerminal(r.events) && |r.history| > |history|
    ensures ResultsFollowCalls(r.events) && (|r.events| > 0 ==> !r.events[0].ToolResult?)
    ensures var calls := PendingCalls(acc.toolCalls, env.parse);
      var x := ExecuteCalls(calls, env.exec, Reply, state);
      && (r.Finished? <==> x.failure.Some?)
      && (r.Finished? ==> r.events == acc.events + ExecutionEvents(calls, x) + [Error(x.failure.value)] && r.state == x.state)
  {
    var calls := PendingCalls(acc.toolCalls, env.parse);
    var x := ExecuteCalls(calls, env.exec, Reply, state);
    var events := acc.events + ExecutionEvents(calls, x);
    PhaseAfterStreaming(acc.events, calls, x);
    if x.failure.Some? then
      CloseStream(events, Error(x.failure.value));
      Finished(events + [Error(x.failure.value)], x.state)
    else
      Continue(events, history + [Assistant(acc.content, acc.toolCalls)] + x.entries, x.state)
  }

  /** Rounds `k`, `k+1`, ... up to the budget. */
  function Rounds<S, R>(env: Env<S, R>, maxRounds: int, k: nat, history: seq<ChatMessage<R>>, state: S): (run: Run<S, R>)
    ensures EndsWithOneTerminal(run.events)
    ensures ResultsFollowCalls(run.events)
    decreases if k < maxRounds then maxRounds - k else 0
  {
    if k >= maxRounds then
      var run := Run([Error(LimitMessage(maxRounds))], state);
      assert run.events[..0] == [];
      run
    else
      match Round(env, env.provider(Request(env, history)), history, state)
      case Finished(events, s) => Run(events, s)
      case Continue(events, h, s) =>
        var rest := Rounds(env, maxRounds, k + 1, h, s);
        PrependKeepsOneTerminal(events, rest.events);
        ConcatKeepsPairing(events, rest.events);
        Run(events + rest.events, rest.state)
  }

  /** The source reads `m["role"]` and `m["content"]` of every message before the first round. */
  predicate Complete(messages: seq<InputMessage>) {
    forall i :: 0 <= i < |messages| ==> messages[i].role.Some? && messages[i].content.Some?
  }

  /** The conversation the loop starts from: each input message copied with just its role and content. */
  function InitialHistory<R>(messages: seq<InputMessage>): (h: seq<ChatMessage<R>>)
    requires Complete(messages)
    ensures |h| == |messages|
    ensures forall i :: 0 <= i < |h| ==> h[i] == Plain(messages[i].role.value, messages[i].content.value)
  {
    if |messages| == 0 then [] else [Plain(messages[0].role.value, messages[0].content.value)] + InitialHistory(messages[1..])
  }

  /** `stream`: every invocation emits exactly one terminal event, as its last event, and pairs every result with its call. */
  function Stream<S, R>(env: Env<S, R>, messages: seq<InputMessage>, maxRounds: int, state: S): (run: Run<S, R>)
    requires Complete(messages)
    ensures EndsWithOneTerminal(run.events)
    ensures ResultsFollowCalls(run.events)
  {
    Rounds(env, maxRounds, 0, InitialHistory(messages), state)
  }

  // ---------------------------------------------------------------------------
  // Properties of the loop
  // ---------------------------------------------------------------------------

  /** The round's accumulator for a provider answer. */
  function RoundAccumulator<R>(pr: ProviderRound<Chunk>): Accumulator<R> {
    Ingest<R>(Pieces(pr.chunks))
  }

  /**
   * A round without failure and without tool calls ends the invocation: its `text_delta`
   * events, whose texts spell the assistant content, then `done`; no later round runs.
   */
  lemma NoToolCallsEndsWithDone<S, R>(env: Env<S, R>, maxRounds: int, k: nat, history: seq<ChatMessage<R>>, state: S)
    requires k < maxRounds
    requires var pr := env.provider(Request(env, history));
      pr.failure.None? && RoundAccumulator<R>(pr).toolCalls == []
    ensures var acc := RoundAccumulator<R>(env.provider(Request(env, history)));
      var run := Rounds(env, maxRounds, k, history, state);
      && run.events == acc.events + [Done]
      && run.state == state
      && (forall i :: 0 <= i < |acc.events| ==> acc.events[i].TextDelta?)
      && Texts(acc.events) == acc.content
  {
    IngestEvents<R>(Pieces(env.provider(Request(env, history)).chunks));
  }

  /** An exception from the provider ends the invocation with that round's streamed events and one `error` carrying its message. */
  lemma ProviderFailureEndsWithError<S, R>(env: Env<S, R>, maxRounds: int, k: nat, history: seq<ChatMessage<R>>, state: S)
    requires k < maxRounds
    requires env.provider(Request(env, history)).failure.Some?
    ensures var pr := env.provider(Request(env, history));
      var run := Rounds(env, maxRounds, k, history, state);
      && run.events == RoundAccumulator<R>(pr).events + [Error(pr.failure.value)]
      && StreamingOnly(RoundAccumulator<R>(pr).events)
  {
    IngestEvents<R>(Pieces(env.provider(Request(env, history)).chunks));
  }

  /**
   * A tool that raises ends the invocation: the round's streamed events, the pairs of the calls
   * that returned, the `tool_call` of the raising one, then one `error` carrying the message that
   * tool raised on the state its predecessors left; no later round runs.
   */
  lemma ToolFailureEndsWithError<S, R>(env: Env<S, R>, maxRounds: int, k: nat, history: seq<ChatMessage<R>>, state: S)
    requires k < maxRounds
    requires var pr := env.provider(Request(env, history));
      pr.failure.None? && |RoundAccumulator<R>(pr).toolCalls| > 0
    requires var acc := RoundAccumulator<R>(env.provider(Request(env, history)));
      ExecuteCalls(PendingCalls(acc.toolCalls, env.parse), env.exec, Reply, state).failure.Some?
    ensures var acc := RoundAccumulator<R>(env.provider(Request(env, history)));
      var calls := PendingCalls(acc.toolCalls, env.parse);
      var x := ExecuteCalls(calls, env.exec, Reply, state);
      var run := Rounds(env, maxRounds, k, history, state);
      && |x.results| < |calls|
      && OutcomeAt(calls, env.exec, state, |x.results|) == Raised(x.failure.value)
      && run.events == acc.events + ExecutionEvents(calls, x) + [Error(x.failure.value)]
      && run.state == x.state
  {
    var acc := RoundAccumulator<R>(env.provider(Request(env, history)));
    IngestEvents<R>(Pieces(env.provider(Request(env, history)).chunks));
    ExecuteCallsThreads(PendingCalls(acc.toolCalls, env.parse), env.exec, Reply, state);
  }

  /** The events of a continuing tool round: the streamed ones, then `tool_call`, `tool_result` per call in slot order. */
  ghost predicate CallsAfter<S, R>(env: Env<S, R>, acc: Accumulator<R>, events: seq<Event<R>>) {
    var n := |acc.toolCalls|;
    && |events| == |acc.events| + 2 * n
    && events[..|acc.events|] == acc.events
    && forall j :: 0 <= j < n ==>
      && events[|acc.events| + 2 * j] == ToolCall(acc.toolCalls[j].name, acc.toolCalls[j].id, ParseArguments(env.parse, acc.toolCalls[j].arguments))
      && events[|acc.events| + 2 * j + 1].ToolResult?
      && events[|acc.events| + 2 * j + 1].callId == acc.toolCalls[j].id
      && events[|acc.events| + 2 * j + 1].name == acc.toolCalls[j].name
  }

  /** The conversation after a continuing tool round: the assistant message, then one tool message per call carrying its result. */
  ghost predicate RepliesAfter<R>(acc: Accumulator<R>, history: seq<ChatMessage<R>>, h: seq<ChatMessage<R>>, events: seq<Event<R>>) {
    var n := |acc.toolCalls|;
    && |h| == |history| + 1 + n
    && h[..|history|] == history
    && h[|history|] == Assistant(acc.content, acc.toolCalls)
    && forall j :: 0 <= j < n && |acc.events| + 2 * j + 1 < |events| && events[|acc.events| + 2 * j + 1].ToolResult? ==>
      h[|history| + 1 + j] == ToolReply(acc.toolCalls[j].id, events[|acc.events| + 2 * j + 1].result)
  }

  /** The shape of a continuing tool round. */
  ghost predicate ContinuesWithCalls<S, R>(env: Env<S, R>, acc: Accumulator<R>, history: seq<ChatMessage<R>>, r: RoundEnd<S, R>) {
    r.Continue? && CallsAfter(env, acc, r.events) && RepliesAfter(acc, history, r.history, r.events)
  }

  /** A round that continues after a stream without failure accumulated tool calls and has the shape above. */
  lemma ToolRoundAppendsHistory<S, R>(env: Env<S, R>, pr: ProviderRound<Chunk>, history: seq<ChatMessage<R>>, state: S)
    requires pr.failure.None?
    requires Round(env, pr, history, state).Continue?
    ensures |RoundAccumulator<R>(pr).toolCalls| > 0
    ensures ContinuesWithCalls(env, RoundAccumulator<R>(pr), history, Round(env, pr, history, state))
  {
    var acc := RoundAccumulator<R>(pr);
    IngestEvents<R>(Pieces(pr.chunks));
    assert Round(env, pr, history, state) == ToolPhase(env, acc, history, state);
    ToolPhaseContinues(env, acc, history, state);
  }

  /** The continuing tool phase, stated on the accumulator itself. */
  lemma ToolPhaseContinues<S, R>(env: Env<S, R>, acc: Accumulator<R>, history: seq<ChatMessage<R>>, state: S)
    requires |acc.toolCalls| > 0 && NoTerminal(acc.events) && StreamingOnly(acc.events)
    requires ToolPhase(env, acc, history, state).Continue?
    ensures ContinuesWithCalls(env, acc, history, ToolPhase(env, acc, history, state))
  {
    var calls := PendingCalls(acc.toolCalls, env.parse);
    var x := ExecuteCalls(calls, env.exec, Reply, state);
    assert x.failure.None?;
    assert ToolPhase(env, acc, history, state)
      == Continue(acc.events + CallResultPairs(calls, x.results), history + [Assistant(acc.content, acc.toolCalls)] + x.entries, x.state);
    ContinuationShape(env, acc, history, calls, x.results, x.entries, x.state);
  }

  /** The continuation built from the calls' results and history entries has the shape above. */
  lemma ContinuationShape<S, R>(env: Env<S, R>, acc: Accumulator<R>, history: seq<ChatMessage<R>>, calls: seq<PendingCall>, results: seq<R>, entries: seq<ChatMessage<R>>, state: S)
    requires |calls| == |results| == |entries| == |acc.toolCalls|
    requires forall k :: 0 <= k < |calls| ==> calls[k] == PendingCall(acc.toolCalls[k].id, acc.toolCalls[k].name, ParseArguments(env.parse, acc.toolCalls[k].arguments))
    requires forall k :: 0 <= k < |entries| ==> entries[k] == ToolReply(calls[k].id, results[k])
    ensures ContinuesWithCalls(env, acc, history,
      Continue(acc.events + CallResultPairs(calls, results), history + [Assistant(acc.content, acc.toolCalls)] + entries, state))
  {
    CallsShape(env, acc, calls, results);
    RepliesShape(acc, history, entries, calls, results);
  }

  /** The events half of the shape. */
  lemma CallsShape<S, R>(env: Env<S, R>, acc: Accumulator<R>, calls: seq<PendingCall>, results: seq<R>)
    requires |calls| == |results| == |acc.toolCalls|
    requires forall k :: 0 <= k < |calls| ==> calls[k] == PendingCall(acc.toolCalls[k].id, acc.toolCalls[k].name, ParseArguments(env.parse, acc.toolCalls[k].arguments))
    ensures CallsAfter(env, acc, acc.events + CallResultPairs(calls, results))
  {
    PairsAfter(acc.events, calls, results);
  }

  /** The replies half of the shape. */
  lemma RepliesShape<R>(acc: Accumulator<R>, history: seq<ChatMessage<R>>, entries: seq<ChatMessage<R>>, calls: seq<PendingCall>, results: seq<R>)
    requires |calls| == |results| == |entries| == |acc.toolCalls|
    requires forall k :: 0 <= k < |entries| ==> entries[k] == ToolReply(calls[k].id, results[k])
    requires forall k :: 0 <= k < |calls| ==> calls[k].id == acc.toolCalls[k].id
    ensures RepliesAfter(acc, history, history + [Assistant(acc.content, acc.toolCalls)] + entries, acc.events + CallResultPairs(calls, results))
  {
    var events := acc.events + CallResultPairs(calls, results);
    PairsAfter(acc.events, calls, results);
    var h := history + [Assistant(acc.content, acc.toolCalls)] + entries;
    forall j | 0 <= j < |acc.toolCalls|
      ensures h[|history| + 1 + j] == ToolReply(acc.toolCalls[j].id, events[|acc.events| + 2 * j + 1].result)
    {
      assert h[|history| + 1 + j] == entries[j];
    }
    assert h[..|history|] == history;
  }

  /** The provider asks for tools on every request and never fails. */
  ghost predicate AlwaysCallsTools<S, R(!new)>(env: Env<S, R>) {
    forall req :: env.provider(req).failure.None? && RoundAccumulator<R>(env.provider(req)).toolCalls != []
  }

  /** Every tool returns. */
  ghost predicate ToolsReturn<S(!new), R>(env: Env<S, R>) {
    forall s, n, a :: env.exec(s, n, a).1.Returned?
  }

  /** Under a provider that always calls tools and tools that always return, every round continues. */
  lemma RoundContinues<S(!new), R(!new)>(env: Env<S, R>, history: seq<ChatMessage<R>>, state: S)
    requires AlwaysCallsTools(env) && ToolsReturn(env)
    ensures Round(env, env.provider(Request(env, history)), history, state).Continue?
  {
    var pr := env.provider(Request(env, history));
    var acc := RoundAccumulator<R>(pr);
    IngestEvents<R>(Pieces(pr.chunks));
    assert Round(env, pr, history, state) == ToolPhase(env, acc, history, state);
    ReturningToolsRunAll(PendingCalls(acc.toolCalls, env.parse), env.exec, Reply<R>, state);
  }

  /** A round that continues is followed by the rest of the rounds, from the grown conversation and the state it left. */
  lemma RoundsStep<S, R>(env: Env<S, R>, maxRounds: int, k: nat, history: seq<ChatMessage<R>>, state: S)
    requires k < maxRounds && Round(env, env.provider(Request(env, history)), history, state).Continue?
    ensures var r := Round(env, env.provider(Request(env, history)), history, state);
      Rounds(env, maxRounds, k, history, state).events == r.events + Rounds(env, maxRounds, k + 1, r.history, r.state).events
  {
  }

  /** A stream that never stops calling tools ends with the round-limit `error`. */
  lemma {:induction false} BudgetEndsWithLimit<S(!new), R(!new)>(env: Env<S, R>, maxRounds: int, k: nat, history: seq<ChatMessage<R>>, state: S)
    requires AlwaysCallsTools(env) && ToolsReturn(env)
    ensures var run := Rounds(env, maxRounds, k, history, state);
      run.events[|run.events| - 1] == Error(LimitMessage(maxRounds))
    decreases if k < maxRounds then maxRounds - k else 0
  {
    if k < maxRounds {
      RoundContinues(env, history, state);
      var r := Round(env, env.provider(Request(env, history)), history, state);
      BudgetEndsWithLimit(env, maxRounds, k + 1, r.history, r.state);
      var rest := Rounds(env, maxRounds, k + 1, r.history, r.state).events;
      RoundsStep(env, maxRounds, k, history, state);
      assert (r.events + rest)[|r.events + rest| - 1] == rest[|rest| - 1];
    }
  }

  /** A stream that never stops calling tools never emits `done`. */
  lemma {:induction false} BudgetNeverDone<S(!new), R(!new)>(env: Env<S, R>, maxRounds: int, k: nat, history: seq<ChatMessage<R>>, state: S)
    requires AlwaysCallsTools(env) && ToolsReturn(env)
    ensures var run := Rounds(env, maxRounds, k, history, state);
      forall i :: 0 <= i < |run.events| ==> !run.events[i].Done?
    decreases if k < maxRounds then maxRounds - k else 0
  {
    if k < maxRounds {
      RoundContinues(env, history, state);
      var r := Round(env, env.provider(Request(env, history)), history, state);
      BudgetNeverDone(env, maxRounds, k + 1, r.history, r.state);
      RoundsStep(env, maxRounds, k, history, state);
      PrependKeepsNoDone(r.events, Rounds(env, maxRounds, k + 1, r.history, r.state).events);
    }
  }

  /** A stream that never stops calling tools ends with the round-limit `error`, and `done` never appears. */
  lemma BudgetExhaustion<S(!new), R(!new)>(env: Env<S, R>, maxRounds: int, k: nat, history: seq<ChatMessage<R>>, state: S)
    requires AlwaysCallsTools(env) && ToolsReturn(env)
    ensures var run := Rounds(env, maxRounds, k, history, state);
      && run.events[|run.events| - 1] == Error(LimitMessage(maxRounds))
      && forall i :: 0 <= i < |run.events| ==> !run.events[i].Done?
  {
    BudgetEndsWithLimit(env, maxRounds, k, history, state);
    BudgetNeverDone(env, maxRounds, k, history, state);
  }

}
