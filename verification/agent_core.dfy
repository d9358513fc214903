/**
 * The provider-independent vocabulary of both adapters: the canonical event stream, the
 * scripted provider round, the tool executor, and the tool-execution phase that both round
 * loops share once a round has collected its tool calls.
 */
module AgentCore {
  import opened Wrappers
  import opened Json
  import Text

  /** A chat message as the client sends it; either key may be absent. */
  datatype InputMessage = InputMessage(role: Option<string>, content: Option<string>)

  /** The canonical agent event; `R` is the type of tool results. */
  datatype Event<R> =
    | TextDelta(delta: string)
    | ToolArgsDelta(itemId: string, delta: string)
    | ToolCall(name: string, callId: string, arguments: Json)
    | ToolResult(name: string, callId: string, result: R)
    | Done
    | Error(message: string)
  {
    /** `done` and `error` end a stream. */
    predicate IsTerminal() {
      Done? || Error?
    }
  }

  predicate NoTerminal<R>(events: seq<Event<R>>) {
    forall i :: 0 <= i < |events| ==> !events[i].IsTerminal()
  }

  /** The stream invariant: exactly one terminal event, and it is the last one. */
  predicate EndsWithOneTerminal<R>(events: seq<Event<R>>) {
    |events| > 0 && events[|events| - 1].IsTerminal() && NoTerminal(events[..|events| - 1])
  }

  /** Every `tool_result` directly follows the `tool_call` of the same call id and tool name. */
  predicate ResultsFollowCalls<R>(events: seq<Event<R>>) {
    forall i :: 0 <= i < |events| && events[i].ToolResult? ==>
      i > 0 && events[i - 1].ToolCall?
      && events[i - 1].callId == events[i].callId && events[i - 1].name == events[i].name
  }

  /** The concatenated text of the `text_delta` events, in order. */
  function Texts<R>(events: seq<Event<R>>): string {
    if |events| == 0 then ""
    else Texts(events[..|events| - 1]) + (if events[|events| - 1].TextDelta? then events[|events| - 1].delta else "")
  }

  lemma TextsAppend<R>(a: seq<Event<R>>, b: seq<Event<R>>)
    ensures Texts(a + b) == Texts(a) + Texts(b)
    decreases |b|
  {
    if |b| == 0 {
      assert a + b == a;
    } else {
      assert (a + b)[..|a + b| - 1] == a + b[..|b| - 1];
      TextsAppend(a, b[..|b| - 1]);
    }
  }

  /** Only streaming events: `text_delta` and `tool_args_delta`. */
  predicate StreamingOnly<R>(events: seq<Event<R>>) {
    forall i :: 0 <= i < |events| ==> events[i].TextDelta? || events[i].ToolArgsDelta?
  }

  /** The `tool_args_delta` events of a stream, in order. */
  function ArgsDeltas<R>(events: seq<Event<R>>): seq<Event<R>> {
    if |events| == 0 then []
    else ArgsDeltas(events[..|events| - 1]) + (if events[|events| - 1].ToolArgsDelta? then [events[|events| - 1]] else [])
  }

  lemma ArgsDeltasAppend<R>(a: seq<Event<R>>, b: seq<Event<R>>)
    ensures ArgsDeltas(a + b) == ArgsDeltas(a) + ArgsDeltas(b)
    decreases |b|
  {
    if |b| == 0 {
      assert a + b == a;
    } else {
      assert (a + b)[..|a + b| - 1] == a + b[..|b| - 1];
      ArgsDeltasAppend(a, b[..|b| - 1]);
    }
  }

  /** One argument delta appended to a stream is appended to its argument deltas. */
  lemma ArgsDeltasSnoc<R>(events: seq<Event<R>>, d: Event<R>)
    requires d.ToolArgsDelta?
    ensures ArgsDeltas(events + [d]) == ArgsDeltas(events) + [d]
  {
    assert (events + [d])[..|events|] == events;
  }

  /** Appending non-terminal events before a stream that ends with one terminal keeps the invariant. */
  lemma PrependKeepsOneTerminal<R>(a: seq<Event<R>>, b: seq<Event<R>>)
    requires NoTerminal(a) && EndsWithOneTerminal(b)
    ensures EndsWithOneTerminal(a + b)
  {
    var c := a + b;
    assert c[..|c| - 1] == a + b[..|b| - 1];
    assert c[|c| - 1] == b[|b| - 1];
  }

  /** Argument deltas carry no assistant text. */
  lemma {:induction false} ArgsDeltasNoText<R>(b: seq<Event<R>>)
    requires forall i :: 0 <= i < |b| ==> b[i].ToolArgsDelta?
    ensures Texts(b) == ""
    decreases |b|
  {
    if |b| > 0 {
      ArgsDeltasNoText(b[..|b| - 1]);
    }
  }

  /** Appending argument deltas to a streaming prefix keeps it streaming and adds no text. */
  lemma AppendArgsDeltas<R>(a: seq<Event<R>>, b: seq<Event<R>>)
    requires StreamingOnly(a) && NoTerminal(a)
    requires forall i :: 0 <= i < |b| ==> b[i].ToolArgsDelta?
    ensures StreamingOnly(a + b) && NoTerminal(a + b)
    ensures Texts(a + b) == Texts(a)
  {
    TextsAppend(a, b);
    ArgsDeltasNoText(b);
    forall i | 0 <= i < |a + b|
      ensures (a + b)[i].ToolArgsDelta? || (a + b)[i].TextDelta?
    {
      if i >= |a| {
        assert (a + b)[i] == b[i - |a|];
      }
    }
  }

  /** Non-terminal events before a stream without `done` add no `done`. */
  lemma PrependKeepsNoDone<R>(a: seq<Event<R>>, b: seq<Event<R>>)
    requires NoTerminal(a)
    requires forall i :: 0 <= i < |b| ==> !b[i].Done?
    ensures forall i :: 0 <= i < |a + b| ==> !(a + b)[i].Done?
  {
    var c := a + b;
    forall i | 0 <= i < |c|
      ensures !c[i].Done?
    {
      if i < |a| {
        assert c[i] == a[i] && !a[i].IsTerminal();
      } else {
        assert c[i] == b[i - |a|];
      }
    }
  }

  /** Joining two streams that each keep the pairing keeps it, when the second does not open with a result. */
  lemma ConcatKeepsPairing<R>(a: seq<Event<R>>, b: seq<Event<R>>)
    requires ResultsFollowCalls(a) && ResultsFollowCalls(b)
    requires |b| > 0 ==> !b[0].ToolResult?
    ensures ResultsFollowCalls(a + b)
  {
    var c := a + b;
    forall i | 0 <= i < |c| && c[i].ToolResult?
      ensures i > 0 && c[i - 1].ToolCall? && c[i - 1].callId == c[i].callId && c[i - 1].name == c[i].name
    {
      if i < |a| {
        assert c[i] == a[i] && c[i - 1] == a[i - 1];
      } else {
        assert c[i] == b[i - |a|];
        assert c[i - 1] == b[i - |a| - 1];
      }
    }
  }

  /** Streaming events never hold a result, so they keep the pairing. */
  lemma StreamingPairs<R>(events: seq<Event<R>>)
    requires StreamingOnly(events)
    ensures ResultsFollowCalls(events) && (|events| > 0 ==> !events[0].ToolResult?)
  {
  }

  /** Closing a stream without terminal events by one terminal event keeps the pairing and gives the stream invariant. */
  lemma CloseStream<R>(events: seq<Event<R>>, last: Event<R>)
    requires NoTerminal(events) && ResultsFollowCalls(events) && last.IsTerminal()
    ensures EndsWithOneTerminal(events + [last]) && ResultsFollowCalls(events + [last])
    ensures |events| > 0 ==> (events + [last])[0] == events[0]
  {
    var c := events + [last];
    assert c[..|c| - 1] == events;
    forall i | 0 <= i < |c| && c[i].ToolResult?
      ensures i > 0 && c[i - 1].ToolCall? && c[i - 1].callId == c[i].callId && c[i - 1].name == c[i].name
    {
      assert c[i] == events[i] && c[i - 1] == events[i - 1];
    }
  }

  /** The error text when the round budget runs out; it quotes the budget as Python's `str` renders it. */
  function LimitMessage(maxRounds: int): string {
    LimitPrefix + Text.IntToString(maxRounds) + LimitSuffix
  }

  const LimitPrefix: string := "Maximum tool call rounds ("
  const LimitSuffix: string := ") reached. This likely indicates an infinite loop. Please try rephrasing your request or contact support."

  /** The round-limit message names its limit: distinct limits give distinct messages. */
  lemma LimitMessageNamesLimit(a: int, b: int)
    requires LimitMessage(a) == LimitMessage(b)
    ensures a == b
  {
    var pre := LimitPrefix;
    var post := LimitSuffix;
    var sa := Text.IntToString(a);
    var sb := Text.IntToString(b);
    assert LimitMessage(a) == pre + sa + post;
    assert LimitMessage(b) == pre + sb + post;
    assert |sa| == |sb|;
    assert sa == LimitMessage(a)[|pre|..|pre| + |sa|];
    assert sb == LimitMessage(b)[|pre|..|pre| + |sb|];
    Text.IntToStringInjective(a, b);
  }

  /** The outcome of a whole invocation: its events and the final tool state. */
  datatype Run<S, R> = Run(events: seq<Event<R>>, state: S)

  /** What calling a tool did: it returned a result or raised an exception with a message. */
  datatype Outcome<R> = Returned(value: R) | Raised(message: string)

  /** The tool executor, threading the state that tools read and change (`run_tool` in the source). */
  type Executor<!S, R> = (S, string, Json) -> (S, Outcome<R>)

  /**
   * One provider round as a script: the chunks the stream delivers, then, when `failure` is
   * present, the exception raised after them (by the request itself when `chunks` is empty).
   */
  datatype ProviderRound<C> = ProviderRound(chunks: seq<C>, failure: Option<string>)

  /** A finalised tool call waiting to be executed. */
  datatype PendingCall = PendingCall(id: string, name: string, args: Json)

  /** The tool-execution phase: results returned in call order, history entries appended, state, and the exception that ended it, if any. */
  datatype Execution<S, R, H> = Execution(results: seq<R>, entries: seq<H>, state: S, failure: Option<string>)

  /**
   * Runs the calls in order: each runs the tool, and on return records the result and one
   * history entry; a raising tool stops the phase with its message.
   */
  function ExecuteCalls<S, R, H>(calls: seq<PendingCall>, exec: Executor<S, R>, entry: (PendingCall, R) -> H, state: S)
    : (x: Execution<S, R, H>)
    ensures |x.results| == |x.entries| <= |calls|
    ensures x.failure.None? <==> |x.results| == |calls|
    ensures forall k :: 0 <= k < |x.entries| ==> x.entries[k] == entry(calls[k], x.results[k])
    decreases |calls|
  {
    if |calls| == 0 then Execution([], [], state, None)
    else
      var c := calls[0];
      var (s1, out) := exec(state, c.name, c.args);
      match out
      case Raised(m) => Execution([], [], s1, Some(m))
      case Returned(r) =>
        var rest := ExecuteCalls(calls[1..], exec, entry, s1);
        Execution([r] + rest.results, [entry(c, r)] + rest.entries, rest.state, rest.failure)
  }

  /** The `tool_call` event of a pending call. */
  function CallEvent<R>(c: PendingCall): Event<R> {
    ToolCall(c.name, c.id, c.args)
  }

  /** `tool_call` then `tool_result` for each call that returned, in call order. */
  function CallResultPairs<R>(calls: seq<PendingCall>, results: seq<R>): (e: seq<Event<R>>)
    requires |results| <= |calls|
    ensures |e| == 2 * |results|
  {
    if |results| == 0 then []
    else [CallEvent(calls[0]), ToolResult(calls[0].name, calls[0].id, results[0])] + CallResultPairs(calls[1..], results[1..])
  }

  /** The events of a tool-execution phase: the pairs of the calls that returned, then the `tool_call` of the call that raised. */
  function ExecutionEvents<S, R, H>(calls: seq<PendingCall>, x: Execution<S, R, H>): seq<Event<R>>
    requires |x.results| <= |calls|
    requires x.failure.Some? ==> |x.results| < |calls|
  {
    CallResultPairs(calls, x.results) + (if x.failure.Some? then [CallEvent(calls[|x.results|])] else [])
  }

  /** Shape of the pairs: call k's `tool_call` at position 2k, its `tool_result` with the same id and name at 2k+1. */
  lemma {:induction false} CallResultPairsShape<R>(calls: seq<PendingCall>, results: seq<R>)
    requires |results| <= |calls|
    ensures var e := CallResultPairs(calls, results);
      && |e| == 2 * |results|
      && NoTerminal(e) && ResultsFollowCalls(e)
      && (forall k :: 0 <= k < |results| ==> e[2 * k] == CallEvent(calls[k]))
      && (forall k :: 0 <= k < |results| ==> e[2 * k + 1] == ToolResult(calls[k].name, calls[k].id, results[k]))
    decreases |results|
  {
    if |results| > 0 {
      var rest := CallResultPairs(calls[1..], results[1..]);
      CallResultPairsShape(calls[1..], results[1..]);
      var head: seq<Event<R>> := [CallEvent(calls[0]), ToolResult(calls[0].name, calls[0].id, results[0])];
      var e := head + rest;
      assert e == CallResultPairs(calls, results);
      forall k | 1 <= k < |results|
        ensures e[2 * k] == CallEvent(calls[k]) && e[2 * k + 1] == ToolResult(calls[k].name, calls[k].id, results[k])
      {
        assert e[2 * k] == rest[2 * (k - 1)];
        assert e[2 * k + 1] == rest[2 * (k - 1) + 1];
        assert calls[1..][k - 1] == calls[k];
        assert results[1..][k - 1] == results[k];
      }
      assert ResultsFollowCalls(head);
      ConcatKeepsPairing(head, rest);
    }
  }

  /** The pairs of a phase in which every call returned, placed after earlier events, found by position. */
  lemma PairsAfter<R>(prefix: seq<Event<R>>, calls: seq<PendingCall>, results: seq<R>)
    requires |results| == |calls|
    ensures var e := prefix + CallResultPairs(calls, results);
      && |e| == |prefix| + 2 * |calls|
      && e[..|prefix|] == prefix
      && (forall j :: 0 <= j < |calls| ==> e[|prefix| + 2 * j] == CallEvent(calls[j]))
      && (forall j :: 0 <= j < |calls| ==> e[|prefix| + 2 * j + 1] == ToolResult(calls[j].name, calls[j].id, results[j]))
  {
    var pairs := CallResultPairs(calls, results);
    CallResultPairsShape(calls, results);
    var e := prefix + pairs;
    forall j | 0 <= j < |calls|
      ensures e[|prefix| + 2 * j] == pairs[2 * j] && e[|prefix| + 2 * j + 1] == pairs[2 * j + 1]
    {
    }
  }

  /** The events of an execution phase are never terminal and pair each result with its call. */
  lemma ExecutionEventsShape<S, R, H>(calls: seq<PendingCall>, x: Execution<S, R, H>)
    requires |x.results| <= |calls|
    requires x.failure.Some? ==> |x.results| < |calls|
    ensures NoTerminal(ExecutionEvents(calls, x)) && ResultsFollowCalls(ExecutionEvents(calls, x))
  {
    CallResultPairsShape(calls, x.results);
    var tail: seq<Event<R>> := if x.failure.Some? then [CallEvent(calls[|x.results|])] else [];
    assert ResultsFollowCalls(tail);
    ConcatKeepsPairing(CallResultPairs(calls, x.results), tail);
  }

  /** Streamed events followed by a tool-execution phase have no terminal event, keep the pairing, and do not open with a result. */
  lemma PhaseAfterStreaming<S, R, H>(streamed: seq<Event<R>>, calls: seq<PendingCall>, x: Execution<S, R, H>)
    requires NoTerminal(streamed) && StreamingOnly(streamed)
    requires |x.results| <= |calls|
    requires x.failure.Some? ==> |x.results| < |calls|
    ensures var e := streamed + ExecutionEvents(calls, x);
      NoTerminal(e) && ResultsFollowCalls(e) && (|e| > 0 ==> !e[0].ToolResult?)
  {
    var phase := ExecutionEvents(calls, x);
    ExecutionEventsShape(calls, x);
    CallResultPairsShape(calls, x.results);
    assert |phase| > 0 ==> phase[0].ToolCall?;
    assert ResultsFollowCalls(streamed);
    ConcatKeepsPairing(streamed, phase);
    var e := streamed + phase;
    forall i | 0 <= i < |e|
      ensures !e[i].IsTerminal()
    {
      if i < |streamed| {
        assert e[i] == streamed[i];
      } else {
        assert e[i] == phase[i - |streamed|];
      }
    }
  }

  /** The `tool_result` of call `j`, among a phase placed after earlier events. */
  lemma ResultAfter<R>(prefix: seq<Event<R>>, calls: seq<PendingCall>, results: seq<R>, j: nat)
    requires |results| == |calls| && j < |calls|
    ensures (prefix + CallResultPairs(calls, results))[|prefix| + 2 * j + 1] == ToolResult(calls[j].name, calls[j].id, results[j])
  {
    PairsAfter(prefix, calls, results);
  }

  /** Indexing past the first part of a concatenation reads the second part. */
  lemma IndexAfter<T>(a: seq<T>, b: seq<T>, j: nat)
    requires j < |b|
    ensures (a + b)[|a| + j] == b[j]
  {
  }

  /** The first part of a concatenation is its prefix. */
  lemma PrefixOfAppend<T>(a: seq<T>, b: seq<T>)
    ensures (a + b)[..|a|] == a
  {
  }

  /** Position `q` of the pairs holds the `tool_call` of call `q / 2` when `q` is even and its `tool_result` when odd. */
  lemma PairAt<R>(calls: seq<PendingCall>, results: seq<R>, q: nat)
    requires |results| <= |calls| && q < 2 * |results|
    ensures CallResultPairs(calls, results)[q]
      == if q % 2 == 0 then CallEvent(calls[q / 2]) else ToolResult(calls[q / 2].name, calls[q / 2].id, results[q / 2])
  {
    CallResultPairsShape(calls, results);
    var k := q / 2;
    if q % 2 == 0 {
      assert q == 2 * k;
    } else {
      assert q == 2 * k + 1;
    }
  }

  /** A `tool_call` of an execution phase sits at an even position and is the call of half that position. */
  lemma CallPosition<S, R, H>(calls: seq<PendingCall>, x: Execution<S, R, H>, p: nat)
    requires |x.results| <= |calls|
    requires x.failure.Some? ==> |x.results| < |calls|
    requires p < |ExecutionEvents(calls, x)| && ExecutionEvents(calls, x)[p].ToolCall?
    ensures p % 2 == 0 && p / 2 < |calls| && ExecutionEvents(calls, x)[p] == CallEvent(calls[p / 2])
  {
    var e := ExecutionEvents(calls, x);
    var pairs := CallResultPairs(calls, x.results);
    var n := |x.results|;
    CallResultPairsShape(calls, x.results);
    if p < 2 * n {
      assert e[p] == pairs[p];
      PairAt(calls, x.results, p);
    } else {
      assert p == 2 * n;
      assert e[p] == CallEvent(calls[n]);
    }
  }

  /** A phase in which every tool returns executes every call and ends without an exception. */
  lemma {:induction false} ReturningToolsRunAll<S, R, H>(calls: seq<PendingCall>, exec: Executor<S, R>, entry: (PendingCall, R) -> H, state: S)
    requires forall s, n, a :: exec(s, n, a).1.Returned?
    ensures ExecuteCalls(calls, exec, entry, state).failure.None?
    decreases |calls|
  {
    if |calls| > 0 {
      var (s1, out) := exec(state, calls[0].name, calls[0].args);
      ReturningToolsRunAll(calls[1..], exec, entry, s1);
    }
  }

  /** The reference reading of the threaded state: the state before call `k`, each earlier call's tool having run on the state its predecessor left. */
  function StateBefore<S, R>(calls: seq<PendingCall>, exec: Executor<S, R>, state: S, k: nat): S
    requires k <= |calls|
    decreases k
  {
    if k == 0 then state else StateBefore(calls[1..], exec, exec(state, calls[0].name, calls[0].args).0, k - 1)
  }

  /** The outcome the tool of call `k` has on the threaded state. */
  function OutcomeAt<S, R>(calls: seq<PendingCall>, exec: Executor<S, R>, state: S, k: nat): Outcome<R>
    requires k < |calls|
  {
    exec(StateBefore(calls, exec, state, k), calls[k].name, calls[k].args).1
  }

  /** Past the first call, the threaded outcomes are those of the remaining calls from the first call's state. */
  lemma OutcomeAtShift<S, R>(calls: seq<PendingCall>, exec: Executor<S, R>, state: S, k: nat)
    requires 1 <= k < |calls|
    ensures OutcomeAt(calls, exec, state, k) == OutcomeAt(calls[1..], exec, exec(state, calls[0].name, calls[0].args).0, k - 1)
  {
    assert calls[k] == calls[1..][k - 1];
  }

  /** Past the first call, the threaded states are those of the remaining calls from the first call's state. */
  lemma StateBeforeShift<S, R>(calls: seq<PendingCall>, exec: Executor<S, R>, state: S, k: nat)
    requires 1 <= k <= |calls|
    ensures StateBefore(calls, exec, state, k) == StateBefore(calls[1..], exec, exec(state, calls[0].name, calls[0].args).0, k - 1)
  {
  }

  /** A phase with results ran its first call, which returned the first result, and the rest ran from the state it left. */
  lemma ExecuteCallsCons<S, R, H>(calls: seq<PendingCall>, exec: Executor<S, R>, entry: (PendingCall, R) -> H, state: S)
    requires |ExecuteCalls(calls, exec, entry, state).results| > 0
    ensures var out := exec(state, calls[0].name, calls[0].args).1;
      && out.Returned? && OutcomeAt(calls, exec, state, 0) == out
      && ExecuteCalls(calls, exec, entry, state).results
           == [out.value] + ExecuteCalls(calls[1..], exec, entry, exec(state, calls[0].name, calls[0].args).0).results
  {
  }

  /** Result `k` is what the tool of call `k` returned on the threaded state. */
  lemma {:induction false} ExecuteCallsResultAt<S, R, H>(calls: seq<PendingCall>, exec: Executor<S, R>, entry: (PendingCall, R) -> H, state: S, k: nat)
    requires k < |ExecuteCalls(calls, exec, entry, state).results|
    ensures OutcomeAt(calls, exec, state, k) == Returned(ExecuteCalls(calls, exec, entry, state).results[k])
    decreases k
  {
    if k == 0 {
      ExecuteCallsCons(calls, exec, entry, state);
    } else {
      var s1 := exec(state, calls[0].name, calls[0].args).0;
      var rest := ExecuteCalls(calls[1..], exec, entry, s1);
      assert k - 1 < |rest.results| && ExecuteCalls(calls, exec, entry, state).results[k] == rest.results[k - 1] by {
        ExecuteCallsCons(calls, exec, entry, state);
      }
      assert OutcomeAt(calls[1..], exec, s1, k - 1) == Returned(rest.results[k - 1]) by {
        ExecuteCallsResultAt(calls[1..], exec, entry, s1, k - 1);
      }
      assert OutcomeAt(calls, exec, state, k) == OutcomeAt(calls[1..], exec, s1, k - 1) by {
        OutcomeAtShift(calls, exec, state, k);
      }
    }
  }

  /** Every result is what its tool returned on the threaded state. */
  lemma ExecuteCallsResults<S, R, H>(calls: seq<PendingCall>, exec: Executor<S, R>, entry: (PendingCall, R) -> H, state: S)
    ensures var x := ExecuteCalls(calls, exec, entry, state);
      forall k :: 0 <= k < |x.results| ==> OutcomeAt(calls, exec, state, k) == Returned(x.results[k])
  {
    var x := ExecuteCalls(calls, exec, entry, state);
    forall k | 0 <= k < |x.results|
      ensures OutcomeAt(calls, exec, state, k) == Returned(x.results[k])
    {
      ExecuteCallsResultAt(calls, exec, entry, state, k);
    }
  }

  /** The exception that ends the phase is the one the tool after the last returned result raised. */
  lemma {:induction false} ExecuteCallsFailure<S, R, H>(calls: seq<PendingCall>, exec: Executor<S, R>, entry: (PendingCall, R) -> H, state: S)
    ensures var x := ExecuteCalls(calls, exec, entry, state);
      x.failure.Some? ==> |x.results| < |calls| && OutcomeAt(calls, exec, state, |x.results|) == Raised(x.failure.value)
    decreases |calls|
  {
    var x := ExecuteCalls(calls, exec, entry, state);
    if |calls| > 0 {
      var (s1, out) := exec(state, calls[0].name, calls[0].args);
      assert OutcomeAt(calls, exec, state, 0) == out;
      if out.Returned? {
        var rest := ExecuteCalls(calls[1..], exec, entry, s1);
        ExecuteCallsFailure(calls[1..], exec, entry, s1);
        assert |x.results| == 1 + |rest.results|;
        if x.failure.Some? {
          OutcomeAtShift(calls, exec, state, |x.results|);
        }
      }
    }
  }

  /** The final state is the state after the last tool that ran, whether it returned or raised. */
  lemma {:induction false} ExecuteCallsState<S, R, H>(calls: seq<PendingCall>, exec: Executor<S, R>, entry: (PendingCall, R) -> H, state: S)
    ensures var x := ExecuteCalls(calls, exec, entry, state);
      x.state == StateBefore(calls, exec, state, if x.failure.Some? then |x.results| + 1 else |x.results|)
    decreases |calls|
  {
    var x := ExecuteCalls(calls, exec, entry, state);
    if |calls| > 0 {
      var (s1, out) := exec(state, calls[0].name, calls[0].args);
      if out.Returned? {
        var rest := ExecuteCalls(calls[1..], exec, entry, s1);
        ExecuteCallsState(calls[1..], exec, entry, s1);
        assert |x.results| == 1 + |rest.results|;
        StateBeforeShift(calls, exec, state, if x.failure.Some? then |x.results| + 1 else |x.results|);
      } else {
        StateBeforeShift(calls, exec, state, 1);
      }
    }
  }

  /**
   * The phase runs each tool on the state the previous one left: result `k` is what the tool of
   * call `k` returned, the exception that ends the phase is the one the next tool raised, and the
   * final state is the state after the last tool that ran.
   */
  lemma ExecuteCallsThreads<S, R, H>(calls: seq<PendingCall>, exec: Executor<S, R>, entry: (PendingCall, R) -> H, state: S)
    ensures var x := ExecuteCalls(calls, exec, entry, state);
      && (forall k :: 0 <= k < |x.results| ==> OutcomeAt(calls, exec, state, k) == Returned(x.results[k]))
      && (x.failure.Some? ==> |x.results| < |calls| && OutcomeAt(calls, exec, state, |x.results|) == Raised(x.failure.value))
      && x.state == StateBefore(calls, exec, state, if x.failure.Some? then |x.results| + 1 else |x.results|)
  {
    ExecuteCallsResults(calls, exec, entry, state);
    ExecuteCallsFailure(calls, exec, entry, state);
    ExecuteCallsState(calls, exec, entry, state);
  }
}
