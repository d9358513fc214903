/**
 * `stream_agent`: read the provider and the round budget from the environment and hand the
 * conversation to the OpenAI adapter (the default) or the Gemini adapter.
 */
module Agents {
  import opened Wrappers
  import opened AgentCore
  import Text
  import Tools
  import ToolRunner
  import OpenAIAgent
  import GeminiAgent

  datatype Provider = OpenAI | Gemini

  /** The two environment variables the dispatcher reads; `None` when unset. */
  datatype Settings = Settings(modelProvider: Option<string>, maxToolRounds: Option<string>)

  /** The round budget when `MAX_TOOL_ROUNDS` is unset. */
  const DefaultMaxToolRounds: int := 10

  /**
   * `os.getenv("MODEL_PROVIDER", "openai").lower() == "gemini"`: Gemini exactly when the
   * setting spells "gemini" in any mix of cases; anything else, and no setting, is OpenAI.
   */
  function SelectProvider(setting: Option<string>): (p: Provider)
    ensures p == Gemini <==> setting.Some? && Text.EqualsIgnoringCase(setting.value, "gemini")
  {
    var name := Text.Lower(setting.GetOr("openai"));
    assert setting.Some? && Text.EqualsIgnoringCase(setting.value, "gemini") ==> name == "gemini" by {
      if setting.Some? && Text.EqualsIgnoringCase(setting.value, "gemini") {
        assert forall i | 0 <= i < 6 :: name[i] == "gemini"[i];
      }
    }
    if name == "gemini" then Gemini else OpenAI
  }

  /** The text of `int()`'s error for a string it cannot read. */
  function InvalidLiteral(s: string): string {
    "invalid literal for int() with base 10: '" + s + "'"
  }

  /** What `int()` accepts once the surrounding whitespace is stripped: an optional sign and at least one digit. */
  predicate IntLiteral(t: string) {
    || (|t| > 0 && Text.AllDigits(t))
    || (|t| > 1 && (t[0] == '-' || t[0] == '+') && Text.AllDigits(t[1..]))
  }

  /** `int(s)` on a string, base 10. */
  function ParseInt(s: string): (r: Result<int>)
    ensures r.Ok? <==> IntLiteral(Text.Strip(s))
    ensures r.Err? ==> r.message == InvalidLiteral(s)
  {
    match ReadLiteral(Text.Strip(s))
    case Some(v) => Ok(v)
    case None => Err(InvalidLiteral(s))
  }

  /** The value of an already stripped literal, if it is one. */
  function ReadLiteral(t: string): (v: Option<int>)
    ensures v.Some? <==> IntLiteral(t)
  {
    if |t| > 0 && Text.AllDigits(t) then Some(Text.ParseNat(t))
    else if |t| > 1 && t[0] == '-' && Text.AllDigits(t[1..]) then Some(-(Text.ParseNat(t[1..]) as int))
    else if |t| > 1 && t[0] == '+' && Text.AllDigits(t[1..]) then Some(Text.ParseNat(t[1..]))
    else None
  }

  /** `int(os.getenv("MAX_TOOL_ROUNDS", "10"))`. */
  function MaxToolRounds(setting: Option<string>): (r: Result<int>)
    ensures setting.None? ==> r == Ok(DefaultMaxToolRounds)
    ensures setting.Some? ==> r == ParseInt(setting.value)
  {
    assert Text.IntToString(DefaultMaxToolRounds) == "10";
    ParseIntOfString(DefaultMaxToolRounds);
    ParseInt(setting.GetOr("10"))
  }

  /**
   * What the two adapters need: the scripted providers, `json.loads`, the Gemini argument
   * serialiser, the system instructions, the tool executor and the declared OpenAI tools.
   * `Wire` fills the last two with `run_tool` and `OPENAI_TOOLS`.
   */
  datatype Backends = Backends(
    openai: OpenAIAgent.ChatRequest<Tools.ToolOutput> -> ProviderRound<OpenAIAgent.Chunk>,
    gemini: seq<GeminiAgent.Content<Tools.ToolOutput>> -> ProviderRound<GeminiAgent.GChunk>,
    parse: string -> Option<Json.Json>,
    dumps: GeminiAgent.Dumps,
    instructions: string,
    exec: Executor<Tools.Store, Tools.ToolOutput>,
    tools: seq<OpenAIAgent.OpenAITool>)

  /** The backends of the running service: both adapters call `run_tool`, and OpenAI is offered the registry's tools. */
  function Wire(
    openai: OpenAIAgent.ChatRequest<Tools.ToolOutput> -> ProviderRound<OpenAIAgent.Chunk>,
    gemini: seq<GeminiAgent.Content<Tools.ToolOutput>> -> ProviderRound<GeminiAgent.GChunk>,
    parse: string -> Option<Json.Json>,
    dumps: GeminiAgent.Dumps,
    instructions: string,
    ctx: ToolRunner.ToolContext): Backends
  {
    Backends(openai, gemini, parse, dumps, instructions, ToolRunner.Executor(ctx), OpenAIAgent.RegisteredTools())
  }

  /** The OpenAI adapter's environment. */
  function OpenAIEnv(b: Backends): OpenAIAgent.Env<Tools.Store, Tools.ToolOutput> {
    OpenAIAgent.Env(b.openai, b.exec, b.parse, b.instructions, b.tools)
  }

  /** The Gemini adapter's environment. */
  function GeminiEnv(b: Backends): GeminiAgent.Env<Tools.Store, Tools.ToolOutput> {
    GeminiAgent.Env(b.gemini, b.exec, b.dumps)
  }

  /** The run the selected adapter produces with a given round budget: one terminal event, every result after its call. */
  function Dispatch(b: Backends, p: Provider, messages: seq<InputMessage>, rounds: int, store: Tools.Store): (r: Run<Tools.Store, Tools.ToolOutput>)
    requires p == OpenAI ==> OpenAIAgent.Complete(messages)
    ensures EndsWithOneTerminal(r.events) && ResultsFollowCalls(r.events)
  {
    match p
    case Gemini => GeminiAgent.Stream(GeminiEnv(b), messages, rounds, store)
    case OpenAI => OpenAIAgent.Stream(OpenAIEnv(b), messages, rounds, store)
  }

  /**
   * `stream_agent`: an unreadable `MAX_TOOL_ROUNDS` raises before any event; otherwise the
   * selected adapter's run is passed through unchanged, so it ends with exactly one terminal
   * event and pairs every tool result with its call.
   */
  function StreamAgent(b: Backends, settings: Settings, messages: seq<InputMessage>, store: Tools.Store): (r: Result<Run<Tools.Store, Tools.ToolOutput>>)
    requires SelectProvider(settings.modelProvider) == OpenAI ==> OpenAIAgent.Complete(messages)
    ensures r.Err? <==> MaxToolRounds(settings.maxToolRounds).Err?
    ensures r.Err? ==> r.message == MaxToolRounds(settings.maxToolRounds).message
    ensures r.Ok? ==> EndsWithOneTerminal(r.value.events) && ResultsFollowCalls(r.value.events)
    ensures r.Ok? ==> (r.value ==
      Dispatch(b, SelectProvider(settings.modelProvider), messages, MaxToolRounds(settings.maxToolRounds).value, store))
  {
    var p := SelectProvider(settings.modelProvider);
    match MaxToolRounds(settings.maxToolRounds)
    case Err(msg) => Err(msg)
    case Ok(rounds) => Ok(Dispatch(b, p, messages, rounds, store))
  }

  // ---------------------------------------------------------------------------
  // Properties
  // ---------------------------------------------------------------------------

  /** With neither variable set, the conversation goes to OpenAI with ten rounds. */
  lemma DefaultsToOpenAI(b: Backends, messages: seq<InputMessage>, store: Tools.Store)
    requires OpenAIAgent.Complete(messages)
    ensures StreamAgent(b, Settings(None, None), messages, store) == Ok(OpenAIAgent.Stream(OpenAIEnv(b), messages, 10, store))
  {
    assert SelectProvider(None) == OpenAI;
    assert MaxToolRounds(None) == Ok(10);
  }

  /** The provider setting is read without regard to case. */
  lemma ProviderCaseInsensitive(a: string, c: string)
    requires Text.EqualsIgnoringCase(a, c)
    ensures SelectProvider(Some(a)) == SelectProvider(Some(c))
  {
    GeminiSpellingTransfers(a, c);
    GeminiSpellingTransfers(c, a);
  }

  /** A string that matches `a` ignoring case spells "gemini" whenever `a` does. */
  lemma GeminiSpellingTransfers(a: string, c: string)
    requires Text.EqualsIgnoringCase(a, c)
    ensures Text.EqualsIgnoringCase(a, "gemini") ==> Text.EqualsIgnoringCase(c, "gemini")
  {
    if Text.EqualsIgnoringCase(a, "gemini") {
      forall i | 0 <= i < |c|
        ensures Text.LowerChar(c[i]) == Text.LowerChar("gemini"[i])
      {
        assert Text.LowerChar(a[i]) == Text.LowerChar(c[i]);
      }
    }
  }

  /** `int(str(n))` is `n`: every round budget written in decimal is read back exactly. */
  lemma ParseIntOfString(n: int)
    ensures ParseInt(Text.IntToString(n)) == Ok(n)
  {
    if n < 0 {
      ParseIntOfNegative(n);
    } else {
      ParseIntOfNatural(n);
    }
  }

  lemma ParseIntOfNegative(n: int)
    requires n < 0
    ensures ParseInt(Text.IntToString(n)) == Ok(n)
  {
    var m: nat := -n;
    var d := Text.NatToString(m);
    Text.ParseNatToString(m);
    Text.NegativeToString(n);
    var s := Text.IntToString(n);
    assert s[1..] == d;
    ParseIntNegative(s, n);
  }

  lemma ParseIntOfNatural(n: nat)
    ensures ParseInt(Text.IntToString(n)) == Ok(n)
  {
    var s := Text.NatToString(n);
    assert Text.IntToString(n) == s;
    ParseIntDigits(s);
    Text.ParseNatToString(n);
  }

  /** A run of digits reads as its decimal value. */
  lemma ParseIntDigits(s: string)
    requires |s| > 0 && Text.AllDigits(s)
    ensures ParseInt(s) == Ok(Text.ParseNat(s))
  {
    assert Text.IsDigit(s[0]) && Text.IsDigit(s[|s| - 1]);
    StripUnchanged(s);
    assert ReadLiteral(s) == Some(Text.ParseNat(s));
  }

  /** A minus sign before a run of digits reads as the negated value. */
  lemma ParseIntNegative(s: string, n: int)
    requires |s| > 1 && s[0] == '-' && Text.AllDigits(s[1..]) && Text.ParseNat(s[1..]) == -n
    ensures ParseInt(s) == Ok(n)
  {
    assert s[|s| - 1] == s[1..][|s| - 2] && Text.IsDigit(s[|s| - 1]);
    StripUnchanged(s);
    ReadNegative(s, n);
  }

  lemma ReadNegative(s: string, n: int)
    requires |s| > 1 && s[0] == '-' && Text.AllDigits(s[1..]) && Text.ParseNat(s[1..]) == -n
    ensures ReadLiteral(s) == Some(n)
  {
    assert !Text.IsDigit(s[0]);
  }

  /** A string that neither starts nor ends with whitespace is its own `strip()`. */
  lemma StripUnchanged(s: string)
    requires |s| > 0 && !Text.IsSpace(s[0]) && !Text.IsSpace(s[|s| - 1])
    ensures Text.Strip(s) == s
  {
    assert Text.StripLeft(s) == s;
    assert Text.StripRight(s) == s;
  }
}
