/**
 * `run_tool` (backend/app/tools.py): the registry's dispatcher. An unknown name is a normal
 * result; a known one is counted in the tool statistics (best effort), its keyword arguments
 * are bound as Python binds them, and a missing required argument becomes a structured
 * result instead of an exception.
 */
module ToolRunner {
  import opened Wrappers
  import opened Json
  import opened AgentCore
  import opened Tools
  import opened Queries
  import opened StockQueries
  import ToolSpecs
  import Text

  // ---------------------------------------------------------------------------
  // Signatures
  // ---------------------------------------------------------------------------

  /** A tool function's keyword parameters in declaration order, and those without a default. */
  datatype Signature = Signature(params: seq<string>, required: seq<string>)

  /** The Python signatures of the eleven tool functions, by tool name. */
  const Signatures: map<string, Signature> := map[
    "get_medication_by_name" := Signature(["name"], ["name"]),
    "list_medications" := Signature(["search_term", "limit"], []),
    "search_users" := Signature(["name", "email", "phone", "user_id"], []),
    "check_stock_availability" := Signature(["med_id", "store_id"], ["med_id", "store_id"]),
    "list_user_prescriptions" := Signature(["user_id"], ["user_id"]),
    "request_prescription_refill" := Signature(["user_id", "prescription_id"], ["user_id", "prescription_id"]),
    "query_medications_flexible" :=
      Signature(["brand_name", "generic_name", "active_ingredient", "form", "strength", "rx_required", "limit"], []),
    "query_medications_with_stock" :=
      Signature(["search_term", "active_ingredient", "form", "rx_required", "store_ids", "in_stock_only", "limit"], []),
    "query_stock_multiple_stores" := Signature(["med_id", "med_name", "store_ids", "in_stock_only"], []),
    "list_stores" := Signature(["city"], []),
    "query_prescriptions_flexible" :=
      Signature(["user_id", "med_id", "med_name", "expiring_soon_days", "has_refills", "limit"], [])
  ]

  function PropertyNames(ps: ToolSpecs.Parameters): (r: seq<string>)
    ensures |r| == |ps.properties| && forall i :: 0 <= i < |r| ==> r[i] == ps.properties[i].0
  {
    seq(|ps.properties|, i requires 0 <= i < |ps.properties| => ps.properties[i].0)
  }

  /** The spec's name has a function whose parameters and required parameters are the schema's. */
  predicate SignatureMatches(spec: ToolSpecs.ToolSpec) {
    && spec.name.Some? && spec.parameters.Some?
    && spec.name.value in Signatures
    && Signatures[spec.name.value].params == PropertyNames(spec.parameters.value)
    && Signatures[spec.name.value].required == spec.parameters.value.required
  }

  /**
   * The declared schemas agree with the functions: every registered tool has a function of
   * that name whose parameters are the schema's properties and whose required parameters are
   * the schema's required list, and there is no other function.
   */
  lemma SignaturesMatchRegistry()
    ensures forall i :: 0 <= i < |ToolSpecs.Registry| ==> SignatureMatches(ToolSpecs.Registry[i])
    ensures forall name :: name in Signatures ==> exists i :: 0 <= i < |ToolSpecs.Registry| && ToolSpecs.Registry[i].name == Some(name)
  {
    SignaturesMatchFirst();
    SignaturesMatchLast();
    SignaturesAllRegistered();
  }

  lemma SignaturesMatchFirst()
    ensures forall i :: 0 <= i < 6 ==> SignatureMatches(ToolSpecs.Registry[i])
  {
    var reg := ToolSpecs.Registry;
    forall i | 0 <= i < 6 ensures SignatureMatches(reg[i]) {
    }
  }

  lemma SignaturesMatchLast()
    ensures |ToolSpecs.Registry| == 11
    ensures forall i :: 6 <= i < 11 ==> SignatureMatches(ToolSpecs.Registry[i])
  {
    var reg := ToolSpecs.Registry;
    forall i | 6 <= i < 11 ensures SignatureMatches(reg[i]) {
    }
  }

  lemma SignaturesAllRegistered()
    ensures forall name :: name in Signatures ==> exists i :: 0 <= i < |ToolSpecs.Registry| && ToolSpecs.Registry[i].name == Some(name)
  {
    var reg := ToolSpecs.Registry;
    forall name | name in Signatures
      ensures exists i :: 0 <= i < |reg| && reg[i].name == Some(name)
    {
      assert reg[0].name == Some("get_medication_by_name") && reg[1].name == Some("list_medications");
      assert reg[2].name == Some("search_users") && reg[3].name == Some("check_stock_availability");
      assert reg[4].name == Some("list_user_prescriptions") && reg[5].name == Some("request_prescription_refill");
      assert reg[6].name == Some("query_medications_flexible") && reg[7].name == Some("query_medications_with_stock");
      assert reg[8].name == Some("query_stock_multiple_stores") && reg[9].name == Some("list_stores");
      assert reg[10].name == Some("query_prescriptions_flexible");
    }
  }

  // ---------------------------------------------------------------------------
  // Binding keyword arguments
  // ---------------------------------------------------------------------------

  /** A keyword that names no parameter of the function. */
  predicate HasUnexpectedKeyword(sig: Signature, args: map<string, Json>) {
    exists k :: k in args && k !in sig.params
  }

  /** The required parameters that were not passed, in declaration order. */
  function Missing(sig: Signature, args: map<string, Json>): (r: seq<string>)
    ensures |r| <= |sig.required|
    ensures forall p :: p in r <==> p in sig.required && p !in args
    decreases |sig.required|
  {
    if |sig.required| == 0 then []
    else
      var rest := Missing(Signature(sig.params, sig.required[1..]), args);
      assert forall p :: p in sig.required <==> p == sig.required[0] || p in sig.required[1..];
      (if sig.required[0] in args then [] else [sig.required[0]]) + rest
  }

  function Quoted(name: string): string {
    "'" + name + "'"
  }

  /** CPython's list of missing names: `'a'`, `'a' and 'b'`, `'a', 'b', and 'c'`. */
  function NameList(names: seq<string>): string
    requires |names| > 0
  {
    if |names| == 1 then Quoted(names[0])
    else if |names| == 2 then Quoted(names[0]) + " and " + Quoted(names[1])
    else Text.Join(seq(|names| - 1, i requires 0 <= i < |names| - 1 => Quoted(names[i])), ", ") + ", and " + Quoted(names[|names| - 1])
  }

  /** CPython's `TypeError` text for missing positional-or-keyword arguments. */
  function MissingMessage(tool: string, missing: seq<string>): string
    requires |missing| > 0
  {
    var count := Text.NatToString(|missing|);
    var tail := " positional argument" + (if |missing| == 1 then "" else "s") + ": " + NameList(missing);
    tool + "() " + "missing" + (" " + count + " " + "required" + tail)
  }

  /** `sub` occurs in `s` at position `i`. */
  predicate OccursAt(s: string, sub: string, i: int) {
    0 <= i <= |s| - |sub| && s[i..i + |sub|] == sub
  }

  /** `sub in s` for Python strings. */
  predicate Contains(s: string, sub: string) {
    exists i :: 0 <= i <= |s| - |sub| && OccursAt(s, sub, i)
  }

  /** The source's test for a missing-argument `TypeError`: its text mentions both "missing" and "required". */
  predicate LooksMissing(message: string) {
    Contains(message, "missing") && Contains(message, "required")
  }

  lemma OccursAtJoin(a: string, sub: string, b: string)
    ensures OccursAt(a + sub + b, sub, |a|)
  {
    assert (a + sub + b)[|a|..|a| + |sub|] == sub;
  }

  lemma OccursAtShift(p: string, s: string, sub: string, i: int)
    requires OccursAt(s, sub, i)
    ensures OccursAt(p + s, sub, |p| + i)
  {
    assert (p + s)[|p| + i..|p| + i + |sub|] == s[i..i + |sub|];
  }

  /** The test recognises every missing-argument message, whatever the tool and the names. */
  lemma MissingMessageRecognised(tool: string, missing: seq<string>)
    requires |missing| > 0
    ensures LooksMissing(MissingMessage(tool, missing))
  {
    var count := Text.NatToString(|missing|);
    var tail := " positional argument" + (if |missing| == 1 then "" else "s") + ": " + NameList(missing);
    var head := tool + "() ";
    var rest := " " + count + " " + "required" + tail;
    OccursAtJoin(head, "missing", rest);
    OccursAtJoin(" " + count + " ", "required", tail);
    OccursAtShift(head + "missing", rest, "required", |" " + count + " "|);
  }

  /** How a `TypeError` raised by binding the arguments ends: a structured result when it looks like a missing argument, raised otherwise. */
  function ClassifyTypeError(tool: string, message: string): (r: Outcome<ToolOutput>)
    ensures r.Returned? <==> LooksMissing(message)
  {
    if LooksMissing(message) then Returned(MissingRequiredArgument(message, tool)) else Raised(message)
  }

  // ---------------------------------------------------------------------------
  // Dispatch
  // ---------------------------------------------------------------------------

  /**
   * What a tool call can see and cannot change: the catalogue, the clock, and whether the
   * statistics write fails. `statsFail` is one flag for a whole invocation, so either every
   * statistics write of that invocation fails or none does; a failure that comes and goes
   * between calls is not modelled.
   */
  datatype ToolContext = ToolContext(catalog: Catalog, clock: Clock, statsFail: bool)

  /** `_increment_tool_stat`: the upsert adds one to the tool's counter, starting from zero. */
  function IncrementStat(stats: map<string, nat>, tool: string): (r: map<string, nat>)
    ensures tool in r && r[tool] == (if tool in stats then stats[tool] else 0) + 1
    ensures r.Keys == stats.Keys + {tool}
    ensures forall t :: t in stats && t != tool ==> r[t] == stats[t]
  {
    stats[tool := (if tool in stats then stats[tool] else 0) + 1]
  }

  function MapOutcome<A>(o: Outcome<A>, f: A -> ToolOutput): Outcome<ToolOutput> {
    match o
    case Returned(v) => Returned(f(v))
    case Raised(m) => Raised(m)
  }

  /** The ten tools that only read: they see the catalogue and the current prescriptions, nothing else. */
  function ReadTool(cat: Catalog, prescriptions: map<string, Prescription>, name: string, args: map<string, Json>): Outcome<ToolOutput> {
    if name == "get_medication_by_name" then MapOutcome(GetMedicationByName(cat, Arg(args, "name")), l => MedicationLookup(l))
    else if name == "list_medications" then ListMedications(cat, args)
    else if name == "search_users" then SearchUsers(cat, args)
    else if name == "check_stock_availability" then Returned(Stock(CheckStockAvailability(cat, Arg(args, "med_id"), Arg(args, "store_id"))))
    else if name == "list_user_prescriptions" then Returned(ListUserPrescriptions(cat, prescriptions, args))
    else if name == "query_medications_flexible" then QueryMedicationsFlexible(cat, args)
    else if name == "query_medications_with_stock" then QueryMedicationsWithStock(cat, args)
    else if name == "query_stock_multiple_stores" then QueryStockMultipleStores(cat, args)
    else if name == "list_stores" then ListStores(cat, args)
    else QueryPrescriptionsFlexible(cat, prescriptions, args)
  }

  /**
   * `func(**args)` once the arguments bind: the tool function itself. Only the refill tool
   * writes, and no tool touches the statistics; the others read the catalogue and the
   * prescriptions alone.
   */
  function Dispatch(ctx: ToolContext, store: Store, name: string, args: map<string, Json>): (r: (Store, Outcome<ToolOutput>))
    ensures r.0.toolStats == store.toolStats
    ensures name != "request_prescription_refill" ==> r == (store, ReadTool(ctx.catalog, store.prescriptions, name, args))
  {
    if name == "request_prescription_refill" then
      var (s, outcome) := RequestPrescriptionRefill(store, ctx.clock, args);
      (s, Returned(Refill(outcome)))
    else (store, ReadTool(ctx.catalog, store.prescriptions, name, args))
  }

  /** Binding the arguments, then calling the tool: the order in which Python reports binding errors. */
  function Call(ctx: ToolContext, store: Store, name: string, args: Json): (r: (Store, Outcome<ToolOutput>))
    requires name in Signatures
    ensures r.0.toolStats == store.toolStats
    ensures name != "request_prescription_refill" ==> r.0 == store
  {
    var sig := Signatures[name];
    if !args.JObj? then (store, Raised(name + "() argument after ** must be a mapping, not " + TypeName(args)))
    else if HasUnexpectedKeyword(sig, args.fields) then (store, Raised(name + "() got an unexpected keyword argument"))
    else
      var missing := Missing(sig, args.fields);
      if |missing| > 0 then (store, ClassifyTypeError(name, MissingMessage(name, missing)))
      else Dispatch(ctx, store, name, args.fields)
  }

  /**
   * `run_tool`: an unknown name is reported without touching anything; a known one is counted
   * (unless the statistics write fails, which is swallowed) and then called.
   */
  function RunTool(ctx: ToolContext, store: Store, name: string, args: Json): (r: (Store, Outcome<ToolOutput>))
    ensures name !in Signatures ==> r == (store, Returned(UnknownTool(name)))
    ensures name in Signatures && !ctx.statsFail ==> r.0.toolStats == IncrementStat(store.toolStats, name)
    ensures name in Signatures && ctx.statsFail ==> r.0.toolStats == store.toolStats
  {
    if name !in Signatures then (store, Returned(UnknownTool(name)))
    else
      var counted := if ctx.statsFail then store else store.(toolStats := IncrementStat(store.toolStats, name));
      Call(ctx, counted, name, args)
  }

  /** The executor both adapters call. */
  function Executor(ctx: ToolContext): AgentCore.Executor<Store, ToolOutput> {
    (s, name, args) => RunTool(ctx, s, name, args)
  }

  // ---------------------------------------------------------------------------
  // Properties
  // ---------------------------------------------------------------------------

  /**
   * The statistics never decide a call: whether the write fails or not, the tool returns the
   * same result and leaves prescriptions and refill requests the same.
   */
  lemma StatsDoNotAffectResults(ctx: ToolContext, store: Store, name: string, args: Json)
    ensures var failing := RunTool(ctx.(statsFail := true), store, name, args);
      var counting := RunTool(ctx.(statsFail := false), store, name, args);
      && failing.1 == counting.1
      && failing.0.prescriptions == counting.0.prescriptions
      && failing.0.refillRequests == counting.0.refillRequests
  {
    if name in Signatures {
      var counted := store.(toolStats := IncrementStat(store.toolStats, name));
      CallIgnoresStats(ctx, store, counted, name, args);
    }
  }

  /** A call reads neither the statistics nor `statsFail`, and writes nothing but prescriptions and refill requests. */
  lemma CallIgnoresStats(ctx: ToolContext, s1: Store, s2: Store, name: string, args: Json)
    requires name in Signatures
    requires s1.prescriptions == s2.prescriptions && s1.refillRequests == s2.refillRequests
    ensures var a := Call(ctx.(statsFail := true), s1, name, args);
      var b := Call(ctx.(statsFail := false), s2, name, args);
      && a.1 == b.1
      && a.0.prescriptions == b.0.prescriptions && a.0.refillRequests == b.0.refillRequests
      && a.0.toolStats == s1.toolStats && b.0.toolStats == s2.toolStats
  {
    if args.JObj? && !HasUnexpectedKeyword(Signatures[name], args.fields) && |Missing(Signatures[name], args.fields)| == 0 {
      if name == "request_prescription_refill" {
        RefillReadsNoStats(s1, s2, ctx.clock, args.fields);
      } else if name == "list_user_prescriptions" || name == "query_prescriptions_flexible" {
        assert s1.prescriptions == s2.prescriptions;
      }
    }
  }

  /** The refill tool reads only prescriptions and refill requests, and keeps the statistics. */
  lemma RefillReadsNoStats(s1: Store, s2: Store, clock: Clock, args: map<string, Json>)
    requires s1.prescriptions == s2.prescriptions && s1.refillRequests == s2.refillRequests
    ensures var a := RequestPrescriptionRefill(s1, clock, args);
      var b := RequestPrescriptionRefill(s2, clock, args);
      && a.1 == b.1 && a.0.prescriptions == b.0.prescriptions && a.0.refillRequests == b.0.refillRequests
      && a.0.toolStats == s1.toolStats && b.0.toolStats == s2.toolStats
  {
  }

  /** Only the refill tool changes prescriptions or refill requests. */
  lemma OnlyRefillWrites(ctx: ToolContext, store: Store, name: string, args: Json)
    requires name != "request_prescription_refill"
    ensures var r := RunTool(ctx, store, name, args).0;
      r.prescriptions == store.prescriptions && r.refillRequests == store.refillRequests
  {
  }

  /**
   * A call whose arguments bind except for missing required ones returns
   * `MISSING_REQUIRED_ARGUMENT` with CPython's message naming them, and is still counted.
   */
  lemma MissingArgumentsReported(ctx: ToolContext, store: Store, name: string, args: map<string, Json>)
    requires name in Signatures
    requires !HasUnexpectedKeyword(Signatures[name], args)
    requires |Missing(Signatures[name], args)| > 0
    ensures RunTool(ctx, store, name, JObj(args)).1 ==
      Returned(MissingRequiredArgument(MissingMessage(name, Missing(Signatures[name], args)), name))
  {
    MissingMessageRecognised(name, Missing(Signatures[name], args));
  }

  /** A check-stock call without arguments reports both parameters, in declaration order. */
  lemma CheckStockWithoutArguments(ctx: ToolContext, store: Store)
    ensures RunTool(ctx, store, "check_stock_availability", EmptyObject).1 ==
      Returned(MissingRequiredArgument(MissingMessage("check_stock_availability", ["med_id", "store_id"]), "check_stock_availability"))
  {
    var sig := Signatures["check_stock_availability"];
    assert sig == Signature(["med_id", "store_id"], ["med_id", "store_id"]);
    assert Missing(Signature(sig.params, []), map[]) == [];
    assert Missing(Signature(sig.params, ["store_id"]), map[]) == ["store_id"];
    assert Missing(sig, map[]) == ["med_id", "store_id"];
    MissingArgumentsReported(ctx, store, "check_stock_availability", map[]);
  }

  /** With two names the message joins them with "and": `'med_id' and 'store_id'`. */
  lemma TwoNamesJoinedWithAnd(a: string, b: string)
    ensures NameList([a, b]) == "'" + a + "'" + " and " + "'" + b + "'"
  {
  }
}
