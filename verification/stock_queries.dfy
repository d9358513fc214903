/**
 * The stock tools of backend/app/tools.py: `query_medications_with_stock` (its statement,
 * where the parameters are appended in an order that does not match the statement text, and
 * the grouping of its rows by medication) and `query_stock_multiple_stores`.
 */
module StockQueries {
  import opened Wrappers
  import opened Json
  import opened Sql
  import opened AgentCore
  import opened Tools
  import opened Queries
  import Text

  // ---------------------------------------------------------------------------
  // Store id lists
  // ---------------------------------------------------------------------------

  /**
   * The values `params.extend(store_ids)` appends, one per `%s` of the `IN` list: the items of a
   * list, the characters of a string; `len()` of a number or boolean raises.
   */
  function StoreIdValues(ids: Json): (r: Outcome<seq<Json>>)
    ensures ids.JArr? ==> r == Returned(ids.items)
    ensures ids.JStr? ==> r.Returned? && |r.value| == |ids.s| && forall k :: 0 <= k < |ids.s| ==> r.value[k] == JStr([ids.s[k]])
    ensures r.Returned? <==> ids.JArr? || ids.JStr?
  {
    match ids
    case JArr(items) => Returned(items)
    case JStr(s) => Returned(seq(|s|, k requires 0 <= k < |s| => JStr([s[k]])))
    case JObj(_) => Raised("store_ids as a mapping is not modelled")
    case _ => Raised("object of type '" + TypeName(ids) + "' has no len()")
  }

  /** A truthy `store_ids` yields at least one value, so its `IN` list is never empty. */
  lemma StoreIdValuesNonEmpty(ids: Json)
    requires Truthy(ids) && StoreIdValues(ids).Returned?
    ensures |StoreIdValues(ids).value| > 0
  {
  }

  // ---------------------------------------------------------------------------
  // `query_medications_with_stock`: the statement
  // ---------------------------------------------------------------------------

  const SearchTermCondition: Condition :=
    Condition("(brand_name ILIKE %s OR generic_name ILIKE %s OR active_ingredients ILIKE %s)",
              ["brand_name", "generic_name", "active_ingredients"])

  /** The `_like` filters of `query_medications_with_stock`; the search term fills three placeholders. */
  const StockLikes: seq<LikeSelector> := [
    LikeSelector("search_term", SearchTermCondition),
    LikeSelector("active_ingredient", Condition("m.active_ingredients ILIKE %s", ["active_ingredients"])),
    LikeSelector("form", Condition("m.form ILIKE %s", ["form"]))
  ]

  const StockRxCondition: Condition := Condition("m.rx_required = %s", ["rx_required"])

  /** The medication conditions of the WHERE clause. */
  function StockMedFilter(args: map<string, Json>): Outcome<Filter> {
    var rx := Arg(args, "rx_required");
    AddWhen(AddLikes(Returned(NoFilter), args, StockLikes), rx != JNull, StockRxCondition, [RxFlag(rx)])
  }

  /** The store ids of the join filter; none when `store_ids` is falsy. */
  function StockStoreIds(args: map<string, Json>): Outcome<seq<Json>> {
    var ids := Arg(args, "store_ids");
    if Truthy(ids) then StoreIdValues(ids) else Returned([])
  }

  /** A statement: its variable text, its placeholders in text order, and the parameters as appended. */
  datatype Statement = Statement(text: StockSelect, holes: seq<string>, params: seq<Param>)

  /**
   * The text of the statement: the `IN` list joins inventory rows (` AND i.store_id IN (...)`),
   * the medication conditions form the WHERE clause, and `in_stock_only` only counts when store
   * ids are given.
   */
  function StockText(args: map<string, Json>, f: Filter, ids: seq<Json>): StockSelect {
    var stores := Truthy(Arg(args, "store_ids"));
    StockSelect(
      if stores then " AND i.store_id IN (" + Placeholders(|ids|) + ")" else "",
      Where(f.conditions, " AND "),
      if stores && Truthy(ArgOr(args, "in_stock_only", JBool(false))) then " AND i.quantity > 0" else "")
  }

  /** The placeholders in text order: the `IN` list (in the join), the medication conditions (in WHERE), the limit. */
  function StockHoles(f: Filter, ids: seq<Json>): seq<string> {
    ListHoles("store_id", |ids|) + Holes(f.conditions) + ["limit"]
  }

  function StockLimit(args: map<string, Json>): Param {
    Param("limit", ArgOr(args, "limit", JNum(20)))
  }

  /**
   * The statement as the source builds it: medication parameters, then store ids, then the
   * limit. It raises exactly on a bad text filter or store list, and otherwise supplies one
   * parameter per placeholder, so the driver accepts it whatever the binding.
   */
  function StockStatementAsWritten(args: map<string, Json>): (r: Outcome<Statement>)
    ensures r.Raised? <==>
      SomeNotLikeable(args, StockLikes) || (Truthy(Arg(args, "store_ids")) && !Arg(args, "store_ids").JArr? && !Arg(args, "store_ids").JStr?)
    ensures r.Returned? ==> |r.value.params| == |r.value.holes|
  {
    StockMedFilterShape(args);
    match StockMedFilter(args)
    case Raised(m) => Raised(m)
    case Returned(f) =>
      match StockStoreIds(args)
      case Raised(m) => Raised(m)
      case Returned(ids) =>
        Returned(Statement(StockText(args, f, ids), StockHoles(f, ids), f.params + ListParams("store_id", ids) + [StockLimit(args)]))
  }

  /** The statement with the parameters in text order: store ids, then medication parameters, then the limit. */
  function StockStatement(args: map<string, Json>): (r: Outcome<Statement>)
    ensures r.Raised? <==> StockStatementAsWritten(args).Raised?
    ensures r.Returned? ==>
      && r.value.text == StockStatementAsWritten(args).value.text
      && r.value.holes == StockStatementAsWritten(args).value.holes
      && multiset(r.value.params) == multiset(StockStatementAsWritten(args).value.params)
  {
    match StockMedFilter(args)
    case Raised(m) => Raised(m)
    case Returned(f) =>
      match StockStoreIds(args)
      case Raised(m) => Raised(m)
      case Returned(ids) =>
        var stores := ListParams("store_id", ids);
        assert multiset(stores + f.params + [StockLimit(args)]) == multiset(f.params + stores + [StockLimit(args)]);
        Returned(Statement(StockText(args, f, ids), StockHoles(f, ids), stores + f.params + [StockLimit(args)]))
  }

  /** The medication filter raises exactly on a truthy non-string search term, ingredient or form, and is aligned otherwise. */
  lemma StockMedFilterShape(args: map<string, Json>)
    ensures StockMedFilter(args).Raised? <==> SomeNotLikeable(args, StockLikes)
    ensures StockMedFilter(args).Returned? ==> Aligned(Holes(StockMedFilter(args).value.conditions), StockMedFilter(args).value.params)
  {
    var rx := Arg(args, "rx_required");
    AddLikesShape(Returned(NoFilter), args, StockLikes);
    AddWhenAligned(AddLikes(Returned(NoFilter), args, StockLikes), rx != JNull, StockRxCondition, [RxFlag(rx)]);
  }

  /** In the corrected statement every placeholder receives the value collected for it. */
  lemma StockStatementAligned(args: map<string, Json>)
    ensures StockStatement(args).Returned? ==> Aligned(StockStatement(args).value.holes, StockStatement(args).value.params)
  {
    if StockStatement(args).Returned? {
      StockMedFilterShape(args);
      var f := StockMedFilter(args).value;
      var ids := StockStoreIds(args).value;
      ListAligned("store_id", ids);
      AlignedConcat(ListHoles("store_id", |ids|), ListParams("store_id", ids), Holes(f.conditions), f.params);
      AlignedConcat(ListHoles("store_id", |ids|) + Holes(f.conditions), ListParams("store_id", ids) + f.params, ["limit"], [StockLimit(args)]);
    }
  }

  /** As written, the parameters still line up when there are no store ids or no medication conditions. */
  lemma StockStatementAsWrittenAlignedWithoutBoth(args: map<string, Json>)
    requires StockStatementAsWritten(args).Returned?
    requires StockStoreIds(args).value == [] || StockMedFilter(args).value.params == []
    ensures StockStatementAsWritten(args).value == StockStatement(args).value
    ensures Aligned(StockStatementAsWritten(args).value.holes, StockStatementAsWritten(args).value.params)
  {
    var f := StockMedFilter(args).value;
    var ids := StockStoreIds(args).value;
    var stores := ListParams("store_id", ids);
    var limit := [StockLimit(args)];
    var w := StockStatementAsWritten(args).value;
    var s := StockStatement(args).value;
    assert w.params == f.params + stores + limit;
    assert s.params == stores + f.params + limit;
    assert w.params == s.params by {
      if ids == [] {
        assert stores == [];
        assert f.params + stores == f.params == stores + f.params;
      } else {
        assert f.params + stores == stores == stores + f.params;
      }
    }
    assert w == s;
    assert Aligned(s.holes, s.params) by { StockStatementAligned(args); }
  }

  /** A search term with one store id: the arguments that show the binding error. */
  const MisboundArgs: map<string, Json> := map["search_term" := JStr("ibu"), "store_ids" := JArr([JStr("S1")])]

  /** The filter the misbinding arguments build: the search term's condition alone, its pattern in all three placeholders. */
  function SearchTermFilter(): Filter {
    var p := JStr("%ibu%");
    Filter([SearchTermCondition], [Param("brand_name", p), Param("generic_name", p), Param("active_ingredients", p)])
  }

  lemma LikeIbu()
    ensures Like(JStr("ibu")) == Returned("%ibu%")
  {
    var s := "ibu";
    assert s[0] == 'i' && s[|s| - 1] == 'u';
    assert !Text.IsSpace('i') && !Text.IsSpace('u');
    assert Text.StripLeft(s) == s;
    assert Text.StripRight(s) == s;
    assert Text.Strip(s) == s;
    assert "%" + s + "%" == "%ibu%";
  }

  lemma SearchTermStep()
    ensures LikeStep(NoFilter, SearchTermCondition, JStr("ibu")) == SearchTermFilter()
  {
    LikeIbu();
    var f := LikeStep(NoFilter, SearchTermCondition, JStr("ibu"));
    var p := JStr("%ibu%");
    var expected := [Param("brand_name", p), Param("generic_name", p), Param("active_ingredients", p)];
    assert f.conditions == [SearchTermCondition];
    assert |f.params| == 3;
    assert f.params[0] == expected[0];
    assert f.params[1] == expected[1];
    assert f.params[2] == expected[2];
    SameThree(f.params, expected);
  }

  lemma SameThree<T>(a: seq<T>, b: seq<T>)
    requires |a| == |b| == 3 && a[0] == b[0] && a[1] == b[1] && a[2] == b[2]
    ensures a == b
  {
  }

  lemma MisboundSearchStep()
    ensures LikeSelect(NoFilter, MisboundArgs, StockLikes[0]) == Returned(SearchTermFilter())
  {
    assert Arg(MisboundArgs, "search_term") == JStr("ibu");
    SearchTermStep();
  }

  /** The misbinding arguments give no ingredient, form or prescription flag. */
  lemma MisboundAbsent()
    ensures Arg(MisboundArgs, "active_ingredient") == JNull && Arg(MisboundArgs, "form") == JNull
    ensures Arg(MisboundArgs, "rx_required") == JNull
  {
    assert "rx_required"[0] != "search_term"[0];
  }

  lemma MisboundLikes()
    ensures AddLikes(Returned(NoFilter), MisboundArgs, StockLikes) == Returned(SearchTermFilter())
  {
    var f := SearchTermFilter();
    MisboundSearchStep();
    AddLikesFirst(NoFilter, MisboundArgs, StockLikes);
    MisboundRestSkipped();
    AddLikesSkip(Returned(f), MisboundArgs, StockLikes[1..]);
  }

  lemma MisboundRestSkipped()
    ensures forall i :: 0 <= i < |StockLikes[1..]| ==> !Truthy(Arg(MisboundArgs, StockLikes[1..][i].key))
  {
    MisboundAbsent();
    var rest := StockLikes[1..];
    assert rest[0].key == "active_ingredient" && rest[1].key == "form" && |rest| == 2;
  }

  lemma MisboundMedFilter()
    ensures StockMedFilter(MisboundArgs) == Returned(SearchTermFilter())
  {
    MisboundLikes();
    MisboundAbsent();
  }

  /** The placeholders of the misbinding statement, in text order. */
  const MisboundHoles: seq<string> := ["store_id", "brand_name", "generic_name", "active_ingredients", "limit"]

  lemma MisboundStores()
    ensures StockStoreIds(MisboundArgs) == Returned([JStr("S1")])
    ensures StockLimit(MisboundArgs) == Param("limit", JNum(20))
  {
    assert Arg(MisboundArgs, "store_ids") == JArr([JStr("S1")]);
    assert "limit" !in MisboundArgs;
  }

  lemma MisboundStockHoles()
    ensures StockHoles(SearchTermFilter(), [JStr("S1")]) == MisboundHoles
  {
    var f := SearchTermFilter();
    assert f.conditions[..0] == [];
    assert Holes(f.conditions) == SearchTermCondition.holes;
  }

  lemma MisboundParts()
    ensures StockMedFilter(MisboundArgs) == Returned(SearchTermFilter())
    ensures StockStoreIds(MisboundArgs) == Returned([JStr("S1")])
    ensures StockLimit(MisboundArgs) == Param("limit", JNum(20))
    ensures StockHoles(SearchTermFilter(), [JStr("S1")]) == MisboundHoles
  {
    MisboundMedFilter();
    MisboundStores();
    MisboundStockHoles();
  }

  /**
   * As written, searching for "ibu" in store S1 binds the search pattern to the store filter
   * and the store id to the ingredient filter: the join looks for store `%ibu%`, and the
   * statement is not aligned. The corrected statement binds `S1` to the store filter.
   */
  lemma StockStatementAsWrittenMisbinds()
    ensures StockStatementAsWritten(MisboundArgs).Returned?
    ensures var st := StockStatementAsWritten(MisboundArgs).value;
      && st.holes == MisboundHoles && |st.params| == 5
      && Values(st.params)[0] == JStr("%ibu%") && Values(st.params)[3] == JStr("S1")
      && !Aligned(st.holes, st.params)
    ensures StockStatement(MisboundArgs).Returned?
    ensures var st := StockStatement(MisboundArgs).value;
      st.holes == MisboundHoles && Values(st.params)[0] == JStr("S1") && Values(st.params)[3] == JStr("%ibu%")
  {
    MisboundAsWritten();
    MisboundCorrected();
  }

  /** Both statements' parameters, from the medication filter, the store ids and the limit. */
  lemma StatementParams(args: map<string, Json>, f: Filter, ids: seq<Json>)
    requires StockMedFilter(args) == Returned(f) && StockStoreIds(args) == Returned(ids)
    ensures StockStatementAsWritten(args).Returned? && StockStatement(args).Returned?
    ensures StockStatementAsWritten(args).value.holes == StockHoles(f, ids)
    ensures StockStatementAsWritten(args).value.params == f.params + ListParams("store_id", ids) + [StockLimit(args)]
    ensures StockStatement(args).value.holes == StockHoles(f, ids)
    ensures StockStatement(args).value.params == ListParams("store_id", ids) + f.params + [StockLimit(args)]
  {
  }

  /** As the source appends them, the search pattern comes first and the store id fourth. */
  lemma MisboundAsWritten()
    ensures StockStatementAsWritten(MisboundArgs).Returned?
    ensures var st := StockStatementAsWritten(MisboundArgs).value;
      && st.holes == MisboundHoles && |st.params| == 5
      && st.params[0] == Param("brand_name", JStr("%ibu%")) && st.params[3] == Param("store_id", JStr("S1"))
      && !Aligned(st.holes, st.params)
  {
    MisboundParts();
    var search := SearchTermFilter().params;
    var stores := ListParams("store_id", [JStr("S1")]);
    StatementParams(MisboundArgs, SearchTermFilter(), [JStr("S1")]);
    assert stores[0] == Param("store_id", JStr("S1"));
    var params := search + stores + [Param("limit", JNum(20))];
    assert params[3] == (search + stores)[3] == stores[0];
  }

  /** In the corrected statement the store id comes first and the search pattern fourth. */
  lemma MisboundCorrected()
    ensures StockStatement(MisboundArgs).Returned?
    ensures var st := StockStatement(MisboundArgs).value;
      && st.holes == MisboundHoles && |st.params| == 5
      && st.params[0] == Param("store_id", JStr("S1")) && st.params[3] == Param("active_ingredients", JStr("%ibu%"))
  {
    MisboundParts();
    var search := SearchTermFilter().params;
    var stores := ListParams("store_id", [JStr("S1")]);
    StatementParams(MisboundArgs, SearchTermFilter(), [JStr("S1")]);
    assert stores[0] == Param("store_id", JStr("S1"));
    var params := stores + search + [Param("limit", JNum(20))];
    assert params[3] == (stores + search)[3] == search[2];
  }

  // ---------------------------------------------------------------------------
  // `query_medications_with_stock`: grouping the rows
  // ---------------------------------------------------------------------------

  /** The stock entry of a joined row. */
  function Entry(r: StockRow): StockEntry {
    StockEntry(r.storeId, r.quantity, r.stockStatus)
  }

  /** A row's stock entry, unless the medication had no inventory row (`store_id` is `"N/A"`). */
  function EntryOf(r: StockRow): seq<StockEntry> {
    if r.storeId != "N/A" then [Entry(r)] else []
  }

  /** The medication ids of a list of groups. */
  function Keys(groups: seq<MedWithStock>): (r: seq<string>)
    ensures |r| == |groups| && forall i :: 0 <= i < |groups| ==> r[i] == groups[i].summary.medId
  {
    seq(|groups|, i requires 0 <= i < |groups| => groups[i].summary.medId)
  }

  /** The position of the group for `id`, or the number of groups when there is none. */
  function GroupIndex(groups: seq<MedWithStock>, id: string): (i: nat)
    ensures i <= |groups|
    ensures i < |groups| ==> groups[i].summary.medId == id
    ensures forall j :: 0 <= j < i ==> groups[j].summary.medId != id
  {
    if |groups| == 0 then 0
    else if groups[0].summary.medId == id then 0
    else 1 + GroupIndex(groups[1..], id)
  }

  /** One step of the grouping loop: a new medication opens a group, a known one gains the row's entry. */
  function Place(groups: seq<MedWithStock>, r: StockRow): seq<MedWithStock> {
    var i := GroupIndex(groups, r.med.medId);
    if i == |groups| then groups + [MedWithStock(Summarize(r.med), EntryOf(r))]
    else groups[i := groups[i].(stock := groups[i].stock + EntryOf(r))]
  }

  /** The grouping loop over the rows, in order (`meds` keeps insertion order). */
  function Group(rows: seq<StockRow>): seq<MedWithStock> {
    if |rows| == 0 then [] else Place(Group(rows[..|rows| - 1]), rows[|rows| - 1])
  }

  // The reference reading of the grouping.

  function MedIds(rows: seq<StockRow>): (r: seq<string>)
    ensures |r| == |rows| && forall i :: 0 <= i < |rows| ==> r[i] == rows[i].med.medId
  {
    seq(|rows|, i requires 0 <= i < |rows| => rows[i].med.medId)
  }

  /** The distinct ids in order of first appearance. */
  function FirstSeen(ids: seq<string>): seq<string> {
    if |ids| == 0 then []
    else
      var prior := FirstSeen(ids[..|ids| - 1]);
      if ids[|ids| - 1] in prior then prior else prior + [ids[|ids| - 1]]
  }

  /** The stock entries of the rows for `id`, in row order. */
  function StockOf(rows: seq<StockRow>, id: string): seq<StockEntry> {
    if |rows| == 0 then []
    else StockOf(rows[..|rows| - 1], id) + (if rows[|rows| - 1].med.medId == id then EntryOf(rows[|rows| - 1]) else [])
  }

  /** The index of the first row for `id`, or the number of rows when there is none. */
  function FirstRow(rows: seq<StockRow>, id: string): (i: nat)
    ensures i <= |rows|
    ensures i < |rows| ==> rows[i].med.medId == id
    ensures forall j :: 0 <= j < i ==> rows[j].med.medId != id
  {
    if |rows| == 0 then 0
    else if rows[0].med.medId == id then 0
    else 1 + FirstRow(rows[1..], id)
  }

  predicate Distinct(xs: seq<string>) {
    forall i, j :: 0 <= i < j < |xs| ==> xs[i] != xs[j]
  }

  /** The first-seen list holds each id once, and exactly the ids that occur. */
  lemma {:induction false} FirstSeenFacts(ids: seq<string>)
    ensures Distinct(FirstSeen(ids))
    ensures forall x :: x in FirstSeen(ids) <==> x in ids
    decreases |ids|
  {
    if |ids| > 0 {
      var prefix := ids[..|ids| - 1];
      FirstSeenFacts(prefix);
      assert ids == prefix + [ids[|ids| - 1]];
    }
  }

  /** A medication that has no row has no stock. */
  lemma {:induction false} StockOfAbsent(rows: seq<StockRow>, id: string)
    requires id !in MedIds(rows)
    ensures StockOf(rows, id) == []
    decreases |rows|
  {
    if |rows| > 0 {
      var prefix := rows[..|rows| - 1];
      assert MedIds(prefix) == MedIds(rows)[..|rows| - 1];
      StockOfAbsent(prefix, id);
    }
  }

  /** The group keys are the distinct medication ids in order of first appearance. */
  lemma {:induction false} GroupKeys(rows: seq<StockRow>)
    ensures Keys(Group(rows)) == FirstSeen(MedIds(rows))
    decreases |rows|
  {
    if |rows| > 0 {
      var prefix := rows[..|rows| - 1];
      var last := rows[|rows| - 1];
      var g := Group(prefix);
      var ids := MedIds(rows);
      assert Group(rows) == Place(g, last);
      assert Keys(g) == FirstSeen(MedIds(prefix)) by {
        GroupKeys(prefix);
      }
      assert ids[..|ids| - 1] == MedIds(prefix) && ids[|ids| - 1] == last.med.medId;
      assert Keys(Place(g, last)) == if last.med.medId in Keys(g) then Keys(g) else Keys(g) + [last.med.medId] by {
        PlaceKeys(g, last);
      }
    }
  }

  /** Placing a row adds its id to the keys exactly when no group has it yet. */
  lemma PlaceKeys(g: seq<MedWithStock>, r: StockRow)
    ensures Keys(Place(g, r)) == if r.med.medId in Keys(g) then Keys(g) else Keys(g) + [r.med.medId]
  {
    var i := GroupIndex(g, r.med.medId);
    if i == |g| {
      assert r.med.medId !in Keys(g);
      assert Keys(Place(g, r)) == Keys(g) + [r.med.medId];
    } else {
      assert Keys(g)[i] == r.med.medId;
      assert Keys(Place(g, r)) == Keys(g);
    }
  }

  /** Each group holds the stock entries of its medication's rows, in row order. */
  lemma {:induction false} GroupStock(rows: seq<StockRow>)
    ensures forall i :: 0 <= i < |Group(rows)| ==> Group(rows)[i].stock == StockOf(rows, Group(rows)[i].summary.medId)
    decreases |rows|
  {
    if |rows| > 0 {
      var prefix := rows[..|rows| - 1];
      var last := rows[|rows| - 1];
      var g := Group(prefix);
      GroupStock(prefix);
      GroupKeys(prefix);
      FirstSeenFacts(MedIds(prefix));
      var id := last.med.medId;
      var idx := GroupIndex(g, id);
      var g' := Group(rows);
      assert g' == Place(g, last);
      if idx == |g| {
        assert id !in Keys(g);
        StockOfAbsent(prefix, id);
        forall i | 0 <= i < |g'| ensures g'[i].stock == StockOf(rows, g'[i].summary.medId) {
          if i < |g| {
            assert g'[i] == g[i];
          }
        }
      } else {
        forall i | 0 <= i < |g'| ensures g'[i].stock == StockOf(rows, g'[i].summary.medId) {
          if i != idx {
            assert Keys(g)[i] != Keys(g)[idx];
            assert g'[i] == g[i];
          }
        }
      }
    }
  }

  /** Each group's fields are those of the first row of its medication. */
  predicate FromFirstRows(groups: seq<MedWithStock>, rows: seq<StockRow>) {
    forall i :: 0 <= i < |groups| ==>
      FirstRow(rows, groups[i].summary.medId) < |rows| && groups[i].summary == Summarize(rows[FirstRow(rows, groups[i].summary.medId)].med)
  }

  /** Placing one more row keeps every group's fields those of its medication's first row. */
  lemma PlaceFromFirstRows(prefix: seq<StockRow>, last: StockRow)
    requires FromFirstRows(Group(prefix), prefix)
    ensures FromFirstRows(Group(prefix + [last]), prefix + [last])
  {
    var rows := prefix + [last];
    assert rows[..|rows| - 1] == prefix;
    var g := Group(prefix);
    var id := last.med.medId;
    var idx := GroupIndex(g, id);
    var g' := Group(rows);
    assert g' == Place(g, last);
    forall i | 0 <= i < |g'|
      ensures FirstRow(rows, g'[i].summary.medId) < |rows| && g'[i].summary == Summarize(rows[FirstRow(rows, g'[i].summary.medId)].med)
    {
      if i < |g| {
        assert g'[i].summary == g[i].summary;
        FirstRowExtends(prefix, last, g[i].summary.medId);
        assert rows[FirstRow(prefix, g[i].summary.medId)] == prefix[FirstRow(prefix, g[i].summary.medId)];
      } else {
        assert g'[i].summary == Summarize(last.med);
        GroupKeys(prefix);
        FirstSeenFacts(MedIds(prefix));
        FirstRowAbsent(prefix, last, id);
      }
    }
  }

  /** Each group's fields come from the first row of its medication. */
  lemma {:induction false} GroupSummary(rows: seq<StockRow>)
    ensures FromFirstRows(Group(rows), rows)
    decreases |rows|
  {
    if |rows| > 0 {
      var prefix := rows[..|rows| - 1];
      GroupSummary(prefix);
      PlaceFromFirstRows(prefix, rows[|rows| - 1]);
      assert prefix + [rows[|rows| - 1]] == rows;
    }
  }

  /** Appending a row does not move the first row of a medication that already has one. */
  lemma FirstRowExtends(prefix: seq<StockRow>, last: StockRow, id: string)
    requires FirstRow(prefix, id) < |prefix|
    ensures FirstRow(prefix + [last], id) == FirstRow(prefix, id)
  {
    var rows := prefix + [last];
    var k := FirstRow(prefix, id);
    assert rows[k] == prefix[k];
    forall j | 0 <= j < k ensures rows[j].med.medId != id {
      assert rows[j] == prefix[j];
    }
  }

  /** A medication first seen in the appended row has that row as its first. */
  lemma FirstRowAbsent(prefix: seq<StockRow>, last: StockRow, id: string)
    requires id !in MedIds(prefix) && last.med.medId == id
    ensures FirstRow(prefix + [last], id) == |prefix|
  {
    var rows := prefix + [last];
    forall j | 0 <= j < |prefix| ensures rows[j].med.medId != id {
      assert rows[j] == prefix[j];
      assert MedIds(prefix)[j] == prefix[j].med.medId;
    }
    assert rows[|prefix|] == last;
  }

  /**
   * `query_medications_with_stock`: one entry per distinct medication in order of first
   * appearance (so the count is the number of distinct medications), each with the fields of
   * its first row and the stock of all its rows that name a store.
   */
  function QueryMedicationsWithStock(cat: Catalog, args: map<string, Json>): (r: Outcome<ToolOutput>)
    ensures r.Raised? <==> StockStatement(args).Raised?
    ensures r.Returned? ==>
      var st := StockStatement(args).value;
      var rows := cat.medicationsWithStock(st.text, Values(st.params));
      && r.value.MedicationsWithStock?
      && Keys(r.value.grouped) == FirstSeen(MedIds(rows))
      && (forall i :: 0 <= i < |r.value.grouped| ==> r.value.grouped[i].stock == StockOf(rows, r.value.grouped[i].summary.medId))
  {
    match StockStatement(args)
    case Raised(m) => Raised(m)
    case Returned(st) =>
      var rows := cat.medicationsWithStock(st.text, Values(st.params));
      GroupKeys(rows);
      GroupStock(rows);
      Returned(MedicationsWithStock(Group(rows)))
  }

  // ---------------------------------------------------------------------------
  // `query_stock_multiple_stores`
  // ---------------------------------------------------------------------------

  const MedIdCondition: Condition := Condition("i.med_id = %s", ["med_id"])
  const InStockCondition: Condition := Condition("i.quantity > 0", [])

  function InStoresCondition(n: nat): Condition {
    Condition("i.store_id IN (" + Placeholders(n) + ")", ListHoles("store_id", n))
  }

  /** The store list step: nothing for a falsy `store_ids`, otherwise its `IN` condition with one value per placeholder. */
  function StoreListStep(f: Filter, ids: Json): (r: Outcome<Filter>)
    ensures r.Raised? <==> Truthy(ids) && StoreIdValues(ids).Raised?
  {
    if !Truthy(ids) then Returned(f)
    else match StoreIdValues(ids)
      case Raised(m) => Raised(m)
      case Returned(vs) => Returned(Add(f, InStoresCondition(|vs|), vs))
  }

  /** The conditions for one medication: its id, then the store list when given, then `in_stock_only`. */
  function StoresFilter(args: map<string, Json>, medId: Json): Outcome<Filter> {
    var f0 := Add(NoFilter, MedIdCondition, [medId]);
    AddWhen(StoreListStep(f0, Arg(args, "store_ids")), Truthy(ArgOr(args, "in_stock_only", JBool(false))), InStockCondition, [])
  }

  /** Appending a condition keeps the first condition and the first parameter. */
  lemma AddKeepsHead(f: Filter, c: Condition, values: seq<Json>)
    requires |values| == |c.holes| && |f.conditions| > 0 && |f.params| > 0
    ensures var r := Add(f, c, values);
      |r.conditions| > 0 && r.conditions[0] == f.conditions[0] && |r.params| > 0 && r.params[0] == f.params[0]
  {
    var r := Add(f, c, values);
    assert r.params[0] == r.params[..|f.params|][0];
  }

  /** The store list step keeps the filter aligned and its first condition and parameter in place. */
  lemma StoreListStepShape(f: Filter, ids: Json)
    requires Aligned(Holes(f.conditions), f.params) && |f.conditions| > 0 && |f.params| > 0
    ensures var r := StoreListStep(f, ids);
      r.Returned? ==>
        && Aligned(Holes(r.value.conditions), r.value.params)
        && |r.value.conditions| > 0 && r.value.conditions[0] == f.conditions[0]
        && |r.value.params| > 0 && r.value.params[0] == f.params[0]
  {
    if Truthy(ids) && StoreIdValues(ids).Returned? {
      var vs := StoreIdValues(ids).value;
      AddKeepsAligned(f, InStoresCondition(|vs|), vs);
      AddKeepsHead(f, InStoresCondition(|vs|), vs);
    }
  }

  /** The store filter starts with the medication id and binds every placeholder to the value collected for it. */
  lemma StoresFilterAligned(args: map<string, Json>, medId: Json)
    ensures StoresFilter(args, medId).Returned? ==>
      var f := StoresFilter(args, medId).value;
      && |f.conditions| > 0 && f.conditions[0] == MedIdCondition && f.params[0] == Param("med_id", medId)
      && Aligned(Holes(f.conditions), f.params)
  {
    var f0 := Add(NoFilter, MedIdCondition, [medId]);
    AddKeepsAligned(NoFilter, MedIdCondition, [medId]);
    assert f0.conditions == [MedIdCondition];
    assert f0.params[0] == Param("med_id", medId);
    var f1 := StoreListStep(f0, Arg(args, "store_ids"));
    StoreListStepShape(f0, Arg(args, "store_ids"));
    var present := Truthy(ArgOr(args, "in_stock_only", JBool(false)));
    AddWhenAligned(f1, present, InStockCondition, []);
    if f1.Returned? && present {
      AddKeepsHead(f1.value, InStockCondition, []);
    }
  }

  /** The store-list condition asked for: an `IN` list with one placeholder per store id, when store ids are given. */
  function StoreListConditions(ids: Json): seq<Condition> {
    if Truthy(ids) && StoreIdValues(ids).Returned? then [InStoresCondition(|StoreIdValues(ids).value|)] else []
  }

  /** The conditions for one medication, in the source's order: its id, the store list, then `in_stock_only`. */
  function StoresConditions(args: map<string, Json>): seq<Condition> {
    [MedIdCondition] + StoreListConditions(Arg(args, "store_ids")) + When(Truthy(ArgOr(args, "in_stock_only", JBool(false))), InStockCondition)
  }

  /** The store filter's conditions are the ones the arguments ask for. */
  lemma StoresFilterConditions(args: map<string, Json>, medId: Json)
    requires StoresFilter(args, medId).Returned?
    ensures StoresFilter(args, medId).value.conditions == StoresConditions(args)
  {
    var ids := Arg(args, "store_ids");
    var f0 := Add(NoFilter, MedIdCondition, [medId]);
    assert f0.conditions == [MedIdCondition];
    var f1 := StoreListStep(f0, ids);
    assert f1.Returned?;
    assert f1.value.conditions == [MedIdCondition] + StoreListConditions(ids);
  }

  /**
   * The stock of one medication is the rows of one statement: the medication id first, then
   * the store list and `in_stock_only` when asked for, joined by AND, each placeholder bound to
   * the value collected for it. The name comes from those rows or, failing that, the catalogue.
   */
  lemma StockForMedQuery(cat: Catalog, args: map<string, Json>, medId: Json)
    requires Truthy(medId) && StockForMed(cat, args, medId).Returned?
    ensures StoresFilter(args, medId).Returned?
    ensures var f := StoresFilter(args, medId).value;
      var r := StockForMed(cat, args, medId).value;
      && f.conditions == StoresConditions(args)
      && f.params[0] == Param("med_id", medId)
      && Aligned(Holes(f.conditions), f.params)
      && r.StoreStock?
      && r.stock == cat.storeStock(Select(Text.Join(Sqls(StoresConditions(args)), " AND "), Values(f.params)))
      && r.medName == StockMedName(cat, r.stock, medId)
  {
    StoresFilterConditions(args, medId);
    StoresFilterAligned(args, medId);
  }

  /** The name reported: from the first stock row when it has both names, else looked up by id. */
  function StockMedName(cat: Catalog, rows: seq<StoreStockRow>, medId: Json): (r: Option<string>)
    ensures |rows| > 0 && rows[0].brandName != "" && rows[0].genericName != "" ==>
      r == Some(MedLabel(rows[0].brandName, rows[0].genericName))
    ensures !(|rows| > 0 && rows[0].brandName != "" && rows[0].genericName != "") && cat.medicationName(medId).Some? ==>
      r == Some(MedLabel(cat.medicationName(medId).value.0, cat.medicationName(medId).value.1))
    ensures r.None? ==> cat.medicationName(medId).None?
  {
    if |rows| > 0 && rows[0].brandName != "" && rows[0].genericName != "" then Some(MedLabel(rows[0].brandName, rows[0].genericName))
    else match cat.medicationName(medId)
      case Some((brand, generic)) => Some(MedLabel(brand, generic))
      case None => None
  }

  /** The stock of a resolved medication id; a falsy id is a missing parameter and runs no query. */
  function StockForMed(cat: Catalog, args: map<string, Json>, medId: Json): (r: Outcome<ToolOutput>)
    ensures !Truthy(medId) ==> r == Returned(MissingParameter)
    ensures Truthy(medId) && r.Returned? ==> r.value.StoreStock? && r.value.medId == medId
  {
    if !Truthy(medId) then Returned(MissingParameter)
    else match StoresFilter(args, medId)
      case Raised(m) => Raised(m)
      case Returned(f) =>
        var rows := cat.storeStock(Select(Text.Join(Sqls(f.conditions), " AND "), Values(f.params)));
        Returned(StoreStock(medId, StockMedName(cat, rows, medId), rows))
  }

  /**
   * `query_stock_multiple_stores`: a name is resolved only when no id is given, and a name
   * that does not identify one medication is reported as not found; without either the
   * answer is a missing parameter.
   */
  function QueryStockMultipleStores(cat: Catalog, args: map<string, Json>): (r: Outcome<ToolOutput>)
    ensures var medId := Arg(args, "med_id");
      var medName := Arg(args, "med_name");
      && (!Truthy(medId) && !Truthy(medName) ==> r == Returned(MissingParameter))
      && (Truthy(medId) ==> r == StockForMed(cat, args, medId))
      && (r.Returned? && r.value.MedicationNotFound? <==>
            !Truthy(medId) && Truthy(medName) && GetMedicationByName(cat, medName).Returned?
            && !GetMedicationByName(cat, medName).value.Found?)
      && (!Truthy(medId) && Truthy(medName) && GetMedicationByName(cat, medName).Returned?
            && GetMedicationByName(cat, medName).value.Found? ==>
            r == StockForMed(cat, args, JStr(GetMedicationByName(cat, medName).value.med.medId)))
  {
    var medId := Arg(args, "med_id");
    var medName := Arg(args, "med_name");
    if Truthy(medName) && !Truthy(medId) then
      match GetMedicationByName(cat, medName)
      case Raised(m) => Raised(m)
      case Returned(lookup) =>
        if !lookup.Found? then Returned(MedicationNotFound(medName))
        else StockForMed(cat, args, JStr(lookup.med.medId))
    else StockForMed(cat, args, medId)
  }

  /** Without an id or a name the answer is the same whatever the database holds. */
  lemma MultipleStoresGuardRunsNoQuery(cat1: Catalog, cat2: Catalog, args: map<string, Json>)
    requires !Truthy(Arg(args, "med_id")) && !Truthy(Arg(args, "med_name"))
    ensures QueryStockMultipleStores(cat1, args) == QueryStockMultipleStores(cat2, args) == Returned(MissingParameter)
  {
  }
}
