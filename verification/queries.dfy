/**
 * The tools of backend/app/tools.py that build their SQL from optional arguments:
 * `search_users`, `query_medications_flexible`, `query_medications_with_stock`,
 * `query_stock_multiple_stores` and `query_prescriptions_flexible`. Each collects conditions
 * and their parameters side by side; the model proves that the parameters fill the
 * placeholders they were collected for.
 */
module Queries {
  import opened Wrappers
  import opened Json
  import opened Sql
  import opened AgentCore
  import opened Tools
  import Text

  // ---------------------------------------------------------------------------
  // Building filters
  // ---------------------------------------------------------------------------

  /** The condition `c` when `present`, and none otherwise. */
  function When(present: bool, c: Condition): seq<Condition> {
    if present then [c] else []
  }

  /** Adds `c` with `values` when `present`, unless an earlier step raised. */
  function AddWhen(acc: Outcome<Filter>, present: bool, c: Condition, values: seq<Json>): (r: Outcome<Filter>)
    requires |values| == |c.holes|
    ensures acc.Raised? ==> r == acc
    ensures acc.Returned? ==> r.Returned? && r.value.conditions == acc.value.conditions + When(present, c)
  {
    match acc
    case Raised(_) => acc
    case Returned(f) => if present then Returned(Add(f, c, values)) else acc
  }

  /** An optional argument matched by `_like`: the keyword and the condition it adds when truthy. */
  datatype LikeSelector = LikeSelector(key: string, condition: Condition)

  /** The `_like` pattern a truthy string selector puts in each of its condition's placeholders. */
  function LikeStep(f: Filter, c: Condition, arg: Json): Filter
    requires arg.JStr?
  {
    Add(f, c, seq(|c.holes|, _ => JStr(Like(arg).value)))
  }

  /** One selector: skipped when falsy, raises when `_like` does, otherwise adds its condition with the pattern in each placeholder. */
  function LikeSelect(f: Filter, args: map<string, Json>, sel: LikeSelector): (r: Outcome<Filter>)
    ensures r.Raised? <==> NotLikeable(Arg(args, sel.key))
    ensures r.Returned? ==> r.value.conditions == f.conditions + (if Truthy(Arg(args, sel.key)) then [sel.condition] else [])
  {
    var arg := Arg(args, sel.key);
    if !Truthy(arg) then Returned(f)
    else
      match Like(arg)
      case Raised(m) => Raised(m)
      case Returned(_) => Returned(LikeStep(f, sel.condition, arg))
  }

  /** A selector keeps the filter aligned. */
  lemma LikeSelectAligned(f: Filter, args: map<string, Json>, sel: LikeSelector)
    requires Aligned(Holes(f.conditions), f.params)
    ensures var r := LikeSelect(f, args, sel);
      r.Returned? ==> Aligned(Holes(r.value.conditions), r.value.params)
  {
    var arg := Arg(args, sel.key);
    if Truthy(arg) && arg.JStr? {
      var c := sel.condition;
      AddKeepsAligned(f, c, seq(|c.holes|, _ => JStr(Like(arg).value)));
    }
  }

  /** Applies the selectors in order; the first that raises ends the fold. */
  function AddLikes(acc: Outcome<Filter>, args: map<string, Json>, sels: seq<LikeSelector>): Outcome<Filter>
    decreases |sels|
  {
    if |sels| == 0 || acc.Raised? then acc
    else AddLikes(LikeSelect(acc.value, args, sels[0]), args, sels[1..])
  }

  /** The fold's first step. */
  lemma AddLikesFirst(f: Filter, args: map<string, Json>, sels: seq<LikeSelector>)
    requires |sels| > 0
    ensures AddLikes(Returned(f), args, sels) == AddLikes(LikeSelect(f, args, sels[0]), args, sels[1..])
  {
  }

  /** Selectors whose arguments are all falsy leave the filter as it is. */
  lemma {:induction false} AddLikesSkip(acc: Outcome<Filter>, args: map<string, Json>, sels: seq<LikeSelector>)
    requires forall i :: 0 <= i < |sels| ==> !Truthy(Arg(args, sels[i].key))
    ensures AddLikes(acc, args, sels) == acc
    decreases |sels|
  {
    if |sels| > 0 && acc.Returned? {
      assert !Truthy(Arg(args, sels[0].key));
      assert forall i :: 0 <= i < |sels[1..]| ==> sels[1..][i] == sels[i + 1];
      AddLikesSkip(acc, args, sels[1..]);
    }
  }

  /** The conditions of the truthy selectors, in order. */
  function Present(args: map<string, Json>, sels: seq<LikeSelector>): seq<Condition>
    decreases |sels|
  {
    if |sels| == 0 then []
    else (if Truthy(Arg(args, sels[0].key)) then [sels[0].condition] else []) + Present(args, sels[1..])
  }

  /** Some selector's argument is truthy but not a string, so `_like` raises on it. */
  predicate SomeNotLikeable(args: map<string, Json>, sels: seq<LikeSelector>) {
    exists i :: 0 <= i < |sels| && NotLikeable(Arg(args, sels[i].key))
  }

  /** The first selector raises, or the rest do. */
  lemma SomeNotLikeableSplit(args: map<string, Json>, sels: seq<LikeSelector>)
    requires |sels| > 0
    ensures SomeNotLikeable(args, sels) <==> NotLikeable(Arg(args, sels[0].key)) || SomeNotLikeable(args, sels[1..])
  {
    var tail := sels[1..];
    if SomeNotLikeable(args, tail) {
      var i :| 0 <= i < |tail| && NotLikeable(Arg(args, tail[i].key));
      assert sels[i + 1] == tail[i];
    }
    if SomeNotLikeable(args, sels) {
      var i :| 0 <= i < |sels| && NotLikeable(Arg(args, sels[i].key));
      if i > 0 { assert tail[i - 1] == sels[i]; }
    }
  }

  /** A raise ends the fold. */
  lemma {:induction false} AddLikesRaised(acc: Outcome<Filter>, args: map<string, Json>, sels: seq<LikeSelector>)
    requires acc.Raised?
    ensures AddLikes(acc, args, sels) == acc
  {
  }

  /** The selectors raise exactly when one of them is truthy and not a string. */
  lemma {:induction false} AddLikesRaises(acc: Outcome<Filter>, args: map<string, Json>, sels: seq<LikeSelector>)
    requires acc.Returned?
    ensures AddLikes(acc, args, sels).Raised? <==> SomeNotLikeable(args, sels)
    decreases |sels|
  {
    if |sels| > 0 {
      SomeNotLikeableSplit(args, sels);
      var next := LikeSelect(acc.value, args, sels[0]);
      if next.Returned? {
        AddLikesRaises(next, args, sels[1..]);
      }
    }
  }

  /** The selectors append the conditions of the truthy ones, in order. */
  lemma {:induction false} AddLikesConditions(acc: Outcome<Filter>, args: map<string, Json>, sels: seq<LikeSelector>)
    requires acc.Returned? && AddLikes(acc, args, sels).Returned?
    ensures AddLikes(acc, args, sels).value.conditions == acc.value.conditions + Present(args, sels)
    decreases |sels|
  {
    if |sels| > 0 {
      var next := LikeSelect(acc.value, args, sels[0]);
      var head := if Truthy(Arg(args, sels[0].key)) then [sels[0].condition] else [];
      var tail := Present(args, sels[1..]);
      assert next.Returned? && AddLikes(acc, args, sels) == AddLikes(next, args, sels[1..]) by {
        AddLikesFirst(acc.value, args, sels);
      }
      assert AddLikes(next, args, sels[1..]).value.conditions == next.value.conditions + tail by {
        AddLikesConditions(next, args, sels[1..]);
      }
      assert Present(args, sels) == head + tail;
      assert next.value.conditions == acc.value.conditions + head;
      assert acc.value.conditions + (head + tail) == (acc.value.conditions + head) + tail;
    }
  }

  /** The selectors keep the filter aligned. */
  lemma {:induction false} AddLikesAligned(acc: Outcome<Filter>, args: map<string, Json>, sels: seq<LikeSelector>)
    requires acc.Returned? && Aligned(Holes(acc.value.conditions), acc.value.params)
    requires AddLikes(acc, args, sels).Returned?
    ensures var r := AddLikes(acc, args, sels).value; Aligned(Holes(r.conditions), r.params)
    decreases |sels|
  {
    if |sels| > 0 {
      LikeSelectAligned(acc.value, args, sels[0]);
      AddLikesAligned(LikeSelect(acc.value, args, sels[0]), args, sels[1..]);
    }
  }

  /** The three facts about a run of selectors together. */
  lemma AddLikesShape(acc: Outcome<Filter>, args: map<string, Json>, sels: seq<LikeSelector>)
    requires acc.Returned? && Aligned(Holes(acc.value.conditions), acc.value.params)
    ensures var r := AddLikes(acc, args, sels);
      && (r.Raised? <==> SomeNotLikeable(args, sels))
      && (r.Returned? ==>
            && r.value.conditions == acc.value.conditions + Present(args, sels)
            && Aligned(Holes(r.value.conditions), r.value.params))
  {
    AddLikesRaises(acc, args, sels);
    if AddLikes(acc, args, sels).Returned? {
      AddLikesConditions(acc, args, sels);
      AddLikesAligned(acc, args, sels);
    }
  }

  /** No condition is added exactly when no selector is truthy. */
  lemma {:induction false} PresentEmpty(args: map<string, Json>, sels: seq<LikeSelector>)
    ensures Present(args, sels) == [] <==> forall i :: 0 <= i < |sels| ==> !Truthy(Arg(args, sels[i].key))
    decreases |sels|
  {
    if |sels| > 0 {
      PresentEmpty(args, sels[1..]);
      assert forall i :: 1 <= i < |sels| ==> sels[i] == sels[1..][i - 1];
    }
  }

  /** A single step of a builder keeps the filter aligned. */
  lemma AddWhenAligned(acc: Outcome<Filter>, present: bool, c: Condition, values: seq<Json>)
    requires |values| == |c.holes|
    requires acc.Returned? ==> Aligned(Holes(acc.value.conditions), acc.value.params)
    ensures var r := AddWhen(acc, present, c, values);
      r.Returned? ==> Aligned(Holes(r.value.conditions), r.value.params)
  {
    if acc.Returned? && present {
      AddKeepsAligned(acc.value, c, values);
    }
  }

  /** A trailing placeholder and its value keep a statement aligned: the `LIMIT %s` every flexible query ends with. */
  lemma AlignedAppend(holes: seq<string>, params: seq<Param>, column: string, value: Json)
    requires Aligned(holes, params)
    ensures Aligned(holes + [column], params + [Param(column, value)])
  {
  }

  /** `1 if rx_required else 0`. */
  function RxFlag(rx: Json): Json {
    JNum(if Truthy(rx) then 1 else 0)
  }

  // ---------------------------------------------------------------------------
  // `search_users`
  // ---------------------------------------------------------------------------

  const UserIdCondition: Condition := Condition("user_id = %s", ["user_id"])

  /** The selectors `search_users` matches with `_like`, after the exact `user_id`. */
  const UserLikes: seq<LikeSelector> := [
    LikeSelector("name", Condition("full_name ILIKE %s", ["full_name"])),
    LikeSelector("email", Condition("email ILIKE %s", ["email"])),
    LikeSelector("phone", Condition("phone ILIKE %s", ["phone"]))
  ]

  const SearchGuardMessage: string := "At least one search parameter (name, email, phone, or user_id) must be provided"

  function UserFilter(args: map<string, Json>): Outcome<Filter> {
    var uid := Arg(args, "user_id");
    AddLikes(AddWhen(Returned(NoFilter), Truthy(uid), UserIdCondition, [uid]), args, UserLikes)
  }

  /** At least one of the four selectors is truthy. */
  predicate HasSelector(args: map<string, Json>) {
    Truthy(Arg(args, "user_id")) || Truthy(Arg(args, "name")) || Truthy(Arg(args, "email")) || Truthy(Arg(args, "phone"))
  }

  /**
   * The user filter raises exactly on a truthy name, email or phone that is not a string;
   * otherwise it holds the user id condition when that is truthy, then those of the truthy
   * `_like` selectors, with parameters aligned; it is empty exactly without a selector.
   */
  lemma UserFilterShape(args: map<string, Json>)
    ensures var r := UserFilter(args);
      && (r.Raised? <==> SomeNotLikeable(args, UserLikes))
      && (r.Returned? ==>
            && r.value.conditions == UserConditions(args)
            && Aligned(Holes(r.value.conditions), r.value.params)
            && (|r.value.conditions| == 0 <==> !HasSelector(args)))
  {
    var uid := Arg(args, "user_id");
    var f0 := AddWhen(Returned(NoFilter), Truthy(uid), UserIdCondition, [uid]);
    AddWhenAligned(Returned(NoFilter), Truthy(uid), UserIdCondition, [uid]);
    assert f0.Returned? && f0.value.conditions == UserIdConditions(uid);
    AddLikesShape(f0, args, UserLikes);
    UserConditionsEmpty(args);
  }

  /** The conditions of `search_users`: the user id when truthy, then the truthy `_like` selectors. */
  function UserConditions(args: map<string, Json>): seq<Condition> {
    UserIdConditions(Arg(args, "user_id")) + Present(args, UserLikes)
  }

  function UserIdConditions(uid: Json): seq<Condition> {
    When(Truthy(uid), UserIdCondition)
  }

  /** The user conditions are empty exactly without a selector. */
  lemma UserConditionsEmpty(args: map<string, Json>)
    ensures |UserConditions(args)| == 0 <==> !HasSelector(args)
  {
    PresentEmpty(args, UserLikes);
    assert (forall i :: 0 <= i < |UserLikes| ==> !Truthy(Arg(args, UserLikes[i].key))) <==>
      !Truthy(Arg(args, "name")) && !Truthy(Arg(args, "email")) && !Truthy(Arg(args, "phone")) by {
      assert UserLikes[0].key == "name" && UserLikes[1].key == "email" && UserLikes[2].key == "phone";
    }
  }

  /** `search_users`: no selector is refused before any query; otherwise the users matching any selector (an OR join). */
  function SearchUsers(cat: Catalog, args: map<string, Json>): (r: Outcome<ToolOutput>)
    ensures r.Raised? <==> SomeNotLikeable(args, UserLikes)
    ensures r.Returned? ==> (r.value == SearchError(SearchGuardMessage) <==> !HasSelector(args))
    ensures r.Returned? ==> r.value.SearchError? || r.value.Users?
  {
    UserFilterShape(args);
    match UserFilter(args)
    case Raised(m) => Raised(m)
    case Returned(f) =>
      if |f.conditions| == 0 then Returned(SearchError(SearchGuardMessage))
      else Returned(Users(cat.users(Select(Where(f.conditions, " OR "), Values(f.params)))))
  }

  /** Without a selector the answer is the guard error whatever the database holds: no query runs. */
  lemma SearchUsersGuardRunsNoQuery(cat1: Catalog, cat2: Catalog, args: map<string, Json>)
    requires !HasSelector(args)
    ensures SearchUsers(cat1, args) == SearchUsers(cat2, args) == Returned(SearchError(SearchGuardMessage))
  {
    UserFilterShape(args);
    assert !SomeNotLikeable(args, UserLikes) by {
      assert forall i :: 0 <= i < |UserLikes| ==> !Truthy(Arg(args, UserLikes[i].key));
    }
  }

  /** With a selector, the query ORs the selectors' conditions in order and passes one value per placeholder. */
  lemma SearchUsersQuery(cat: Catalog, args: map<string, Json>)
    requires HasSelector(args) && !SomeNotLikeable(args, UserLikes)
    ensures var f := UserFilter(args).value;
      && SearchUsers(cat, args) == Returned(Users(cat.users(Select(Text.Join(Sqls(f.conditions), " OR "), Values(f.params)))))
      && Aligned(Holes(f.conditions), f.params)
  {
    UserFilterShape(args);
  }

  // ---------------------------------------------------------------------------
  // `query_medications_flexible`
  // ---------------------------------------------------------------------------

  /** The `_like` filters of `query_medications_flexible`, in the source's order. */
  const MedicationLikes: seq<LikeSelector> := [
    LikeSelector("brand_name", Condition("brand_name ILIKE %s", ["brand_name"])),
    LikeSelector("generic_name", Condition("generic_name ILIKE %s", ["generic_name"])),
    LikeSelector("active_ingredient", Condition("active_ingredients ILIKE %s", ["active_ingredients"])),
    LikeSelector("form", Condition("form ILIKE %s", ["form"])),
    LikeSelector("strength", Condition("strength ILIKE %s", ["strength"]))
  ]

  const RxCondition: Condition := Condition("rx_required = %s", ["rx_required"])

  /** The conditions of `query_medications_flexible`: the `_like` filters, then `rx_required` whenever it is not `None`. */
  function MedicationFilter(args: map<string, Json>): Outcome<Filter> {
    var rx := Arg(args, "rx_required");
    AddWhen(AddLikes(Returned(NoFilter), args, MedicationLikes), rx != JNull, RxCondition, [RxFlag(rx)])
  }

  /** The statement of a flexible query: its WHERE clause, and the parameters with the limit last. */
  function Statement(f: Filter, sep: string, limit: Json): Select {
    Select(Where(f.conditions, sep), Values(f.params + [Param("limit", limit)]))
  }

  /**
   * `query_medications_flexible`: every given filter must hold (an AND join, `1=1` when there
   * is none), and the limit, 20 by default, fills the last placeholder.
   */
  function QueryMedicationsFlexible(cat: Catalog, args: map<string, Json>): (r: Outcome<ToolOutput>)
    ensures r.Raised? <==> SomeNotLikeable(args, MedicationLikes)
    ensures r.Returned? ==> r.value.Medications?
  {
    AddLikesShape(Returned(NoFilter), args, MedicationLikes);
    match MedicationFilter(args)
    case Raised(m) => Raised(m)
    case Returned(f) => Returned(Medications(Summaries(cat.medications(Statement(f, " AND ", ArgOr(args, "limit", JNum(20)))))))
  }

  /**
   * The flexible medication statement: the conditions of the truthy filters and of a given
   * `rx_required`, in order, with the parameters lined up with the placeholders, limit included.
   */
  lemma MedicationStatementAligned(args: map<string, Json>)
    requires !SomeNotLikeable(args, MedicationLikes)
    ensures MedicationFilter(args).Returned?
    ensures var f := MedicationFilter(args).value;
      && f.conditions == MedicationConditions(args)
      && Aligned(Holes(f.conditions) + ["limit"], f.params + [Param("limit", ArgOr(args, "limit", JNum(20)))])
  {
    var rx := Arg(args, "rx_required");
    LikesThenWhen(args, MedicationLikes, rx != JNull, RxCondition, [RxFlag(rx)]);
    var f := MedicationFilter(args).value;
    AlignedAppend(Holes(f.conditions), f.params, "limit", ArgOr(args, "limit", JNum(20)));
  }

  /**
   * The rows of `query_medications_flexible` are those of one statement: the conditions asked
   * for joined by AND (`1=1` without any), each placeholder bound to the value collected for
   * it, and the limit, 20 by default, last.
   */
  lemma MedicationsQuery(cat: Catalog, args: map<string, Json>)
    requires !SomeNotLikeable(args, MedicationLikes)
    ensures MedicationFilter(args).Returned?
    ensures var f := MedicationFilter(args).value;
      var limit := Param("limit", ArgOr(args, "limit", JNum(20)));
      && f.conditions == MedicationConditions(args)
      && QueryMedicationsFlexible(cat, args)
           == Returned(Medications(Summaries(cat.medications(Select(Where(MedicationConditions(args), " AND "), Values(f.params + [limit]))))))
      && Aligned(Holes(f.conditions) + ["limit"], f.params + [limit])
  {
    MedicationStatementAligned(args);
  }

  /** A run of `_like` selectors from the empty filter, then one optional condition. */
  lemma LikesThenWhen(args: map<string, Json>, sels: seq<LikeSelector>, present: bool, c: Condition, values: seq<Json>)
    requires !SomeNotLikeable(args, sels)
    requires |values| == |c.holes|
    ensures var r := AddWhen(AddLikes(Returned(NoFilter), args, sels), present, c, values);
      && r.Returned?
      && r.value.conditions == Present(args, sels) + When(present, c)
      && Aligned(Holes(r.value.conditions), r.value.params)
  {
    var f0 := AddLikes(Returned(NoFilter), args, sels);
    AddLikesShape(Returned(NoFilter), args, sels);
    assert f0.Returned? && f0.value.conditions == Present(args, sels);
    AddWhenAligned(f0, present, c, values);
  }

  /** No filter of `query_medications_flexible` is given. */
  predicate NoMedicationFilter(args: map<string, Json>) {
    Arg(args, "rx_required") == JNull && forall i :: 0 <= i < |MedicationLikes| ==> !Truthy(Arg(args, MedicationLikes[i].key))
  }

  /** The medication query's WHERE clause is `1=1` exactly when no filter is given. */
  lemma MedicationWhereFallback(args: map<string, Json>)
    requires !SomeNotLikeable(args, MedicationLikes)
    ensures MedicationFilter(args).Returned?
    ensures Where(MedicationFilter(args).value.conditions, " AND ") == "1=1" <==> NoMedicationFilter(args)
  {
    MedicationStatementAligned(args);
    MedicationConditionsFallback(args);
  }

  /** The conditions the medication filters add, from the arguments alone. */
  function MedicationConditions(args: map<string, Json>): seq<Condition> {
    Present(args, MedicationLikes) + RxConditions(Arg(args, "rx_required"))
  }

  /** `rx_required = %s` whenever `rx_required` is not `None`. */
  function RxConditions(rx: Json): seq<Condition> {
    When(rx != JNull, RxCondition)
  }

  lemma MedicationConditionsFallback(args: map<string, Json>)
    ensures Where(MedicationConditions(args), " AND ") == "1=1" <==> NoMedicationFilter(args)
  {
    var likes := Present(args, MedicationLikes);
    var rx := RxConditions(Arg(args, "rx_required"));
    PresentEmpty(args, MedicationLikes);
    assert |likes + rx| == 0 <==> NoMedicationFilter(args);
    PresentLonger(args, MedicationLikes);
    LongerThanFallbackConcat(likes, rx);
    LongerThanFallbackDiffers(likes + rx);
    WhereFallback(likes + rx, " AND ");
  }

  /** Every condition the selectors add is longer than `1=1` when every selector's condition is. */
  lemma {:induction false} PresentLonger(args: map<string, Json>, sels: seq<LikeSelector>)
    requires forall i :: 0 <= i < |sels| ==> |sels[i].condition.sql| > 3
    ensures LongerThanFallback(Present(args, sels))
    decreases |sels|
  {
    if |sels| > 0 {
      assert forall i :: 0 <= i < |sels[1..]| ==> sels[1..][i] == sels[i + 1];
      PresentLonger(args, sels[1..]);
      var head: seq<Condition> := if Truthy(Arg(args, sels[0].key)) then [sels[0].condition] else [];
      LongerThanFallbackConcat(head, Present(args, sels[1..]));
    }
  }

  // ---------------------------------------------------------------------------
  // `query_prescriptions_flexible`
  // ---------------------------------------------------------------------------

  const PrescriptionUserCondition: Condition := Condition("p.user_id = %s", ["user_id"])
  const PrescriptionMedCondition: Condition := Condition("p.med_id = %s", ["med_id"])
  const ExpiringCondition: Condition :=
    Condition("CAST(p.expires_at AS DATE) <= CURRENT_DATE + MAKE_INTERVAL(days => %s)", ["expiring_soon_days"])
  const NotExpiredCondition: Condition := Condition("CAST(p.expires_at AS DATE) >= CURRENT_DATE", [])
  const HasRefillsCondition: Condition := Condition("p.refills_remaining > 0", [])
  const NoRefillsCondition: Condition := Condition("p.refills_remaining <= 0", [])

  /**
   * The medication step: an id is used as given; otherwise a name is resolved, and a name that
   * does not identify one medication ends the query (`None`).
   */
  function PrescriptionMedStep(cat: Catalog, args: map<string, Json>, f: Filter): (r: Outcome<Option<Filter>>)
    ensures Truthy(Arg(args, "med_id")) ==> r == Returned(Some(Add(f, PrescriptionMedCondition, [Arg(args, "med_id")])))
    ensures !Truthy(Arg(args, "med_id")) && !Truthy(Arg(args, "med_name")) ==> r == Returned(Some(f))
    ensures r == Returned(None) <==>
      !Truthy(Arg(args, "med_id")) && Truthy(Arg(args, "med_name"))
      && GetMedicationByName(cat, Arg(args, "med_name")).Returned? && !GetMedicationByName(cat, Arg(args, "med_name")).value.Found?
  {
    var medId := Arg(args, "med_id");
    var medName := Arg(args, "med_name");
    if Truthy(medId) then Returned(Some(Add(f, PrescriptionMedCondition, [medId])))
    else if Truthy(medName) then
      match GetMedicationByName(cat, medName)
      case Raised(m) => Raised(m)
      case Returned(lookup) =>
        if lookup.Found? then Returned(Some(Add(f, PrescriptionMedCondition, [JStr(lookup.med.medId)]))) else Returned(None)
    else Returned(Some(f))
  }

  /** The expiry window (two conditions, one placeholder) when `expiring_soon_days` is given, then the refill filter when `has_refills` is. */
  function PrescriptionTail(args: map<string, Json>, f: Filter): Filter {
    var days := Arg(args, "expiring_soon_days");
    var refills := Arg(args, "has_refills");
    var f1 := if days != JNull then Add(Add(f, ExpiringCondition, [days]), NotExpiredCondition, []) else f;
    if refills != JNull then Add(f1, if Truthy(refills) then HasRefillsCondition else NoRefillsCondition, []) else f1
  }

  /** The identifying conditions asked for: the user, then the medication by id or by name. */
  function PrescriptionHeadConditions(args: map<string, Json>): seq<Condition> {
    (if Truthy(Arg(args, "user_id")) then [PrescriptionUserCondition] else [])
    + (if Truthy(Arg(args, "med_id")) || Truthy(Arg(args, "med_name")) then [PrescriptionMedCondition] else [])
  }

  /** The expiry and refill conditions asked for. */
  function PrescriptionTailConditions(args: map<string, Json>): seq<Condition> {
    var refills := Arg(args, "has_refills");
    (if Arg(args, "expiring_soon_days") != JNull then [ExpiringCondition, NotExpiredCondition] else [])
    + (if refills != JNull then [if Truthy(refills) then HasRefillsCondition else NoRefillsCondition] else [])
  }

  /** The conditions the arguments ask for, in the source's order. */
  function PrescriptionConditions(args: map<string, Json>): seq<Condition> {
    PrescriptionHeadConditions(args) + PrescriptionTailConditions(args)
  }

  /** The user step: the user condition with its id when that is truthy. */
  function PrescriptionUserStep(args: map<string, Json>): (f: Filter)
    ensures f.conditions == if Truthy(Arg(args, "user_id")) then [PrescriptionUserCondition] else []
    ensures Aligned(Holes(f.conditions), f.params)
  {
    var uid := Arg(args, "user_id");
    if Truthy(uid) then
      AddKeepsAligned(NoFilter, PrescriptionUserCondition, [uid]);
      Add(NoFilter, PrescriptionUserCondition, [uid])
    else NoFilter
  }

  /** The filter before the limit, or `None` when the medication name is unknown. */
  function PrescriptionFilter(cat: Catalog, args: map<string, Json>): Outcome<Option<Filter>> {
    match PrescriptionMedStep(cat, args, PrescriptionUserStep(args))
    case Raised(m) => Raised(m)
    case Returned(None) => Returned(None)
    case Returned(Some(f1)) => Returned(Some(PrescriptionTail(args, f1)))
  }

  /**
   * `query_prescriptions_flexible`: the filters given must all hold (`1=1` without any), the
   * limit, 50 by default, fills the last placeholder; a medication name that is not found
   * ends the query with `MEDICATION_NOT_FOUND`.
   */
  function QueryPrescriptionsFlexible(cat: Catalog, prescriptions: map<string, Prescription>, args: map<string, Json>): (r: Outcome<ToolOutput>)
    ensures r.Raised? <==> !Truthy(Arg(args, "med_id")) && NotLikeable(Arg(args, "med_name"))
    ensures r.Returned? && r.value.MedicationNotFound? <==>
      !Truthy(Arg(args, "med_id")) && Truthy(Arg(args, "med_name"))
      && GetMedicationByName(cat, Arg(args, "med_name")).Returned? && !GetMedicationByName(cat, Arg(args, "med_name")).value.Found?
    ensures r.Returned? ==> r.value.MedicationNotFound? || r.value.PrescriptionList?
  {
    match PrescriptionFilter(cat, args)
    case Raised(m) => Raised(m)
    case Returned(None) => Returned(MedicationNotFound(Arg(args, "med_name")))
    case Returned(Some(f)) =>
      Returned(PrescriptionList(cat.prescriptions(prescriptions, Statement(f, " AND ", ArgOr(args, "limit", JNum(50))))))
  }

  /** The tail keeps a filter aligned and adds the expiry and refill conditions asked for. */
  lemma PrescriptionTailShape(args: map<string, Json>, f: Filter)
    requires Aligned(Holes(f.conditions), f.params)
    ensures var t := PrescriptionTail(args, f);
      var refills := Arg(args, "has_refills");
      && t.conditions == f.conditions
           + ((if Arg(args, "expiring_soon_days") != JNull then [ExpiringCondition, NotExpiredCondition] else [])
              + (if refills != JNull then [if Truthy(refills) then HasRefillsCondition else NoRefillsCondition] else []))
      && Aligned(Holes(t.conditions), t.params)
  {
    var days := Arg(args, "expiring_soon_days");
    var refills := Arg(args, "has_refills");
    var f1 := f;
    if days != JNull {
      AddKeepsAligned(f, ExpiringCondition, [days]);
      AddKeepsAligned(Add(f, ExpiringCondition, [days]), NotExpiredCondition, []);
      f1 := Add(Add(f, ExpiringCondition, [days]), NotExpiredCondition, []);
    }
    if refills != JNull {
      AddKeepsAligned(f1, if Truthy(refills) then HasRefillsCondition else NoRefillsCondition, []);
    }
  }

  /** A medication step that lets the query run adds the medication condition when an id or a name is given, and keeps alignment. */
  lemma PrescriptionMedStepShape(cat: Catalog, args: map<string, Json>, f: Filter)
    requires Aligned(Holes(f.conditions), f.params)
    requires PrescriptionMedStep(cat, args, f).Returned? && PrescriptionMedStep(cat, args, f).value.Some?
    ensures var g := PrescriptionMedStep(cat, args, f).value.value;
      && g.conditions == f.conditions + (if Truthy(Arg(args, "med_id")) || Truthy(Arg(args, "med_name")) then [PrescriptionMedCondition] else [])
      && Aligned(Holes(g.conditions), g.params)
  {
    if Truthy(Arg(args, "med_id")) {
      AddKeepsAligned(f, PrescriptionMedCondition, [Arg(args, "med_id")]);
    } else if Truthy(Arg(args, "med_name")) {
      var lookup := GetMedicationByName(cat, Arg(args, "med_name")).value;
      AddKeepsAligned(f, PrescriptionMedCondition, [JStr(lookup.med.medId)]);
    }
  }

  /**
   * When the query runs, its conditions are exactly those the arguments ask for, in order, and
   * every placeholder, the limit's included, receives the value collected for it.
   */
  lemma PrescriptionStatementShape(cat: Catalog, args: map<string, Json>)
    requires PrescriptionFilter(cat, args).Returned? && PrescriptionFilter(cat, args).value.Some?
    ensures var f := PrescriptionFilter(cat, args).value.value;
      && f.conditions == PrescriptionConditions(args)
      && Aligned(Holes(f.conditions) + ["limit"], f.params + [Param("limit", ArgOr(args, "limit", JNum(50)))])
  {
    var f0 := PrescriptionUserStep(args);
    PrescriptionMedStepShape(cat, args, f0);
    var f1 := PrescriptionMedStep(cat, args, f0).value.value;
    assert f1.conditions == PrescriptionHeadConditions(args);
    PrescriptionTailShape(args, f1);
    var f := PrescriptionFilter(cat, args).value.value;
    assert f == PrescriptionTail(args, f1);
    AlignedAppend(Holes(f.conditions), f.params, "limit", ArgOr(args, "limit", JNum(50)));
  }

  /**
   * When `query_prescriptions_flexible` lists prescriptions, they are the rows of one statement:
   * the conditions asked for joined by AND (`1=1` without any), each placeholder bound to the
   * value collected for it, and the limit, 50 by default, last.
   */
  lemma PrescriptionsQuery(cat: Catalog, prescriptions: map<string, Prescription>, args: map<string, Json>)
    requires QueryPrescriptionsFlexible(cat, prescriptions, args).Returned?
    requires QueryPrescriptionsFlexible(cat, prescriptions, args).value.PrescriptionList?
    ensures PrescriptionFilter(cat, args).Returned? && PrescriptionFilter(cat, args).value.Some?
    ensures var f := PrescriptionFilter(cat, args).value.value;
      var limit := Param("limit", ArgOr(args, "limit", JNum(50)));
      && f.conditions == PrescriptionConditions(args)
      && QueryPrescriptionsFlexible(cat, prescriptions, args)
           == Returned(PrescriptionList(cat.prescriptions(prescriptions, Select(Where(PrescriptionConditions(args), " AND "), Values(f.params + [limit])))))
      && Aligned(Holes(f.conditions) + ["limit"], f.params + [limit])
  {
    PrescriptionStatementShape(cat, args);
  }

  /** No filter of `query_prescriptions_flexible` is given. */
  predicate NoPrescriptionFilter(args: map<string, Json>) {
    && !Truthy(Arg(args, "user_id")) && !Truthy(Arg(args, "med_id")) && !Truthy(Arg(args, "med_name"))
    && Arg(args, "expiring_soon_days") == JNull && Arg(args, "has_refills") == JNull
  }

  /** Every condition text is longer than the `1=1` fallback. */
  predicate LongerThanFallback(conds: seq<Condition>) {
    forall i :: 0 <= i < |conds| ==> |conds[i].sql| > 3
  }

  lemma LongerThanFallbackConcat(a: seq<Condition>, b: seq<Condition>)
    requires LongerThanFallback(a) && LongerThanFallback(b)
    ensures LongerThanFallback(a + b)
  {
    forall i | 0 <= i < |a + b| ensures |(a + b)[i].sql| > 3 {
      if i >= |a| {
        assert (a + b)[i] == b[i - |a|];
      }
    }
  }

  /** Conditions longer than `1=1` are not `1=1`. */
  lemma LongerThanFallbackDiffers(conds: seq<Condition>)
    requires LongerThanFallback(conds)
    ensures forall i :: 0 <= i < |conds| ==> conds[i].sql != "1=1"
  {
  }

  /** The prescription query's WHERE clause is `1=1` exactly when no filter is given. */
  lemma PrescriptionWhereFallback(cat: Catalog, args: map<string, Json>)
    requires PrescriptionFilter(cat, args).Returned? && PrescriptionFilter(cat, args).value.Some?
    ensures Where(PrescriptionFilter(cat, args).value.value.conditions, " AND ") == "1=1" <==> NoPrescriptionFilter(args)
  {
    PrescriptionStatementShape(cat, args);
    PrescriptionConditionsFallback(args);
  }

  /** The conditions the arguments ask for join to `1=1` exactly when none is asked for. */
  lemma PrescriptionConditionsFallback(args: map<string, Json>)
    ensures Where(PrescriptionConditions(args), " AND ") == "1=1" <==> NoPrescriptionFilter(args)
  {
    var head := PrescriptionHeadConditions(args);
    var tail := PrescriptionTailConditions(args);
    assert LongerThanFallback(head) by {
      LongerThanFallbackConcat(if Truthy(Arg(args, "user_id")) then [PrescriptionUserCondition] else [],
        if Truthy(Arg(args, "med_id")) || Truthy(Arg(args, "med_name")) then [PrescriptionMedCondition] else []);
    }
    assert LongerThanFallback(tail) by {
      var refills := Arg(args, "has_refills");
      LongerThanFallbackConcat(if Arg(args, "expiring_soon_days") != JNull then [ExpiringCondition, NotExpiredCondition] else [],
        if refills != JNull then [if Truthy(refills) then HasRefillsCondition else NoRefillsCondition] else []);
    }
    assert |head + tail| == 0 <==> NoPrescriptionFilter(args);
    LongerThanFallbackConcat(head, tail);
    LongerThanFallbackDiffers(head + tail);
    WhereFallback(head + tail, " AND ");
  }
}
