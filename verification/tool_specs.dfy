/**
 * The tool registry's declarations (`TOOL_SPECS` in backend/app/tools.py) and the filter that
 * both adapters apply to them before handing them to a provider.
 */
module ToolSpecs {
  import opened Wrappers

  /** The JSON-schema type of one keyword parameter. */
  datatype ParamType = StringParam | IntegerParam | BooleanParam | StringArrayParam

  /** An object schema: the keyword parameters in declaration order and the required ones. */
  datatype Parameters = Parameters(properties: seq<(string, ParamType)>, required: seq<string>)

  /** The schema used when a spec has none: `{"type": "object", "properties": {}}`. */
  const NoParameters: Parameters := Parameters([], [])

  /** A tool spec as written; every key may be missing (`spec.get(...)`). */
  datatype ToolSpec = ToolSpec(kind: Option<string>, name: Option<string>, description: Option<string>, parameters: Option<Parameters>)

  /** Only specs whose `type` is `"function"` are offered to a provider. */
  predicate IsFunction(s: ToolSpec) {
    s.kind == Some("function")
  }

  /** The source reads `spec["name"]` of every function spec, raising `KeyError` when it is missing. */
  predicate FunctionsNamed(specs: seq<ToolSpec>) {
    forall i :: 0 <= i < |specs| && IsFunction(specs[i]) ==> specs[i].name.Some?
  }

  /** A function declaration as a provider receives it. */
  datatype FunctionDecl = FunctionDecl(name: string, description: string, parameters: Parameters)

  /** The declaration of one function spec, with the source's defaults for a missing description or schema. */
  function Declare(s: ToolSpec): FunctionDecl
    requires s.name.Some?
  {
    FunctionDecl(s.name.value, s.description.GetOr(""), s.parameters.GetOr(NoParameters))
  }

  /** The declarations of the function specs, in spec order. */
  function FunctionDecls(specs: seq<ToolSpec>): (r: seq<FunctionDecl>)
    requires FunctionsNamed(specs)
    ensures |r| <= |specs|
  {
    if |specs| == 0 then []
    else (if IsFunction(specs[0]) then [Declare(specs[0])] else []) + FunctionDecls(specs[1..])
  }

  /** Filtering commutes with concatenation: the declarations keep the order of their specs. */
  lemma {:induction false} FunctionDeclsAppend(a: seq<ToolSpec>, b: seq<ToolSpec>)
    requires FunctionsNamed(a) && FunctionsNamed(b)
    ensures FunctionsNamed(a + b)
    ensures FunctionDecls(a + b) == FunctionDecls(a) + FunctionDecls(b)
    decreases |a|
  {
    assert FunctionsNamed(a + b) by {
      forall i | 0 <= i < |a + b| && IsFunction((a + b)[i])
        ensures (a + b)[i].name.Some?
      {
        if i >= |a| { assert (a + b)[i] == b[i - |a|]; }
      }
    }
    if |a| > 0 {
      assert (a + b)[1..] == a[1..] + b;
      FunctionDeclsAppend(a[1..], b);
    } else {
      assert a + b == b;
    }
  }

  /** A declaration is produced exactly for each function spec, and nothing else is. */
  lemma {:induction false} FunctionDeclsMembers(specs: seq<ToolSpec>, d: FunctionDecl)
    requires FunctionsNamed(specs)
    ensures d in FunctionDecls(specs) <==> exists i :: 0 <= i < |specs| && IsFunction(specs[i]) && Declare(specs[i]) == d
    decreases |specs|
  {
    if |specs| > 0 {
      FunctionDeclsMembers(specs[1..], d);
      if d in FunctionDecls(specs[1..]) {
        var i :| 0 <= i < |specs[1..]| && IsFunction(specs[1..][i]) && Declare(specs[1..][i]) == d;
        assert specs[i + 1] == specs[1..][i];
      }
      if exists i :: 0 <= i < |specs| && IsFunction(specs[i]) && Declare(specs[i]) == d {
        var i :| 0 <= i < |specs| && IsFunction(specs[i]) && Declare(specs[i]) == d;
        if i > 0 {
          assert specs[1..][i - 1] == specs[i];
        }
      }
    }
  }

  /** No declarations come out exactly when no spec is a function spec. */
  lemma {:induction false} FunctionDeclsEmpty(specs: seq<ToolSpec>)
    requires FunctionsNamed(specs)
    ensures FunctionDecls(specs) == [] <==> forall i :: 0 <= i < |specs| ==> !IsFunction(specs[i])
    decreases |specs|
  {
    if |specs| > 0 {
      FunctionDeclsEmpty(specs[1..]);
      assert forall i :: 1 <= i < |specs| ==> specs[i] == specs[1..][i - 1];
    }
  }

  function Spec(name: string, description: string, properties: seq<(string, ParamType)>, required: seq<string>): ToolSpec {
    ToolSpec(Some("function"), Some(name), Some(description), Some(Parameters(properties, required)))
  }

  /** The eleven registered tools, with their keyword parameters and required lists (descriptions abridged to their first sentence). */
  const Registry: seq<ToolSpec> := [
    Spec("get_medication_by_name",
         "Fetch detailed medication information from the pharmacy catalog by brand/generic name or active ingredient.",
         [("name", StringParam)], ["name"]),
    Spec("list_medications",
         "List or search medications from the catalog.",
         [("search_term", StringParam), ("limit", IntegerParam)], []),
    Spec("search_users",
         "Search for users by name, email, phone, or user_id.",
         [("name", StringParam), ("email", StringParam), ("phone", StringParam), ("user_id", StringParam)], []),
    Spec("check_stock_availability",
         "Check inventory quantity for a medication in a specific store.",
         [("med_id", StringParam), ("store_id", StringParam)], ["med_id", "store_id"]),
    Spec("list_user_prescriptions",
         "List prescriptions for a user (for refill workflows).",
         [("user_id", StringParam)], ["user_id"]),
    Spec("request_prescription_refill",
         "Submit a refill request for a user's prescription.",
         [("user_id", StringParam), ("prescription_id", StringParam)], ["user_id", "prescription_id"]),
    Spec("query_medications_flexible",
         "Flexible medication query with multiple optional filters.",
         [("brand_name", StringParam), ("generic_name", StringParam), ("active_ingredient", StringParam),
          ("form", StringParam), ("strength", StringParam), ("rx_required", BooleanParam), ("limit", IntegerParam)], []),
    Spec("query_medications_with_stock",
         "Query medications with optional stock filtering across one or more stores.",
         [("search_term", StringParam), ("active_ingredient", StringParam), ("form", StringParam),
          ("rx_required", BooleanParam), ("store_ids", StringArrayParam), ("in_stock_only", BooleanParam),
          ("limit", IntegerParam)], []),
    Spec("query_stock_multiple_stores",
         "Check stock availability for a medication across multiple stores in a single query.",
         [("med_id", StringParam), ("med_name", StringParam), ("store_ids", StringArrayParam),
          ("in_stock_only", BooleanParam)], []),
    Spec("list_stores",
         "List available pharmacy store locations.",
         [("city", StringParam)], []),
    Spec("query_prescriptions_flexible",
         "Flexible prescription query with multiple optional filters.",
         [("user_id", StringParam), ("med_id", StringParam), ("med_name", StringParam),
          ("expiring_soon_days", IntegerParam), ("has_refills", BooleanParam), ("limit", IntegerParam)], [])
  ]

  /** Every registered tool is a named function spec with a schema. */
  lemma RegistryWellFormed()
    ensures FunctionsNamed(Registry)
    ensures forall i :: 0 <= i < |Registry| ==> IsFunction(Registry[i]) && Registry[i].parameters.Some?
  {
  }
}
