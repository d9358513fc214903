/**
 * The pharmacy tools of backend/app/tools.py. The database is split in two: the read-only
 * catalogue (medications, inventory, users, stores) is a record of query results, and the
 * state the tools change (prescriptions, refill requests, tool statistics) is a `Store`.
 * Tool arguments are JSON values, exactly what a model sends.
 */
module Tools {
  import opened Wrappers
  import opened Json
  import opened Sql
  import opened AgentCore
  import Text

  // ---------------------------------------------------------------------------
  // Rows and the database
  // ---------------------------------------------------------------------------

  /** A `medications` row; the optional columns are read with `r.get(...)`. */
  datatype MedRow = MedRow(
    medId: string, brandName: string, genericName: string, activeIngredients: Option<string>,
    form: string, strength: string, rxRequired: int,
    standardDirections: Option<string>, warnings: Option<string>, contraindications: Option<string>)

  /** An `inventory` row for one medication in one store. */
  datatype InventoryRow = InventoryRow(quantity: int, lastUpdated: string)

  /** A `users` row as `search_users` selects it. */
  datatype UserRow = UserRow(userId: string, fullName: string, phone: string, email: string, preferredLanguage: string)

  /** A `stores` row. */
  datatype StoreRow = StoreRow(storeId: string, name: string, city: string)

  /** A row of the medication/inventory left join; `storeId` is `"N/A"` when the medication has no matching inventory. */
  datatype StockRow = StockRow(med: MedRow, storeId: string, quantity: int, stockStatus: string)

  /** A row of the per-store stock query; the store columns come from a left join and may be missing. */
  datatype StoreStockRow = StoreStockRow(
    storeId: string, storeName: Option<string>, city: Option<string>,
    brandName: string, genericName: string, quantity: int, status: string, lastUpdated: string)

  /** A prescription as stored. */
  datatype Prescription = Prescription(userId: string, medId: string, directions: string, refillsRemaining: int, expiresAt: string)

  /** A prescription joined with its medication, as the prescription queries return it. */
  datatype PrescriptionRow = PrescriptionRow(
    prescriptionId: string, userId: string, medId: string, brandName: string, genericName: string,
    rxRequired: int, directions: string, refillsRemaining: int, expiresAt: string, status: string)

  /** A row of `refill_requests`. */
  datatype RefillRequest = RefillRequest(id: string, prescriptionId: string, userId: string, status: string, createdAt: string)

  /** The state the tools change. */
  datatype Store = Store(prescriptions: map<string, Prescription>, refillRequests: seq<RefillRequest>, toolStats: map<string, nat>)

  /**
   * The results of the read queries, one per statement of the source; how the database
   * evaluates the SQL (ILIKE, trigram similarity, ordering, limits) is left to these functions.
   * Queries over prescriptions also receive the current prescriptions.
   */
  datatype Catalog = Catalog(
    medsMatching: string -> seq<MedRow>,
    fuzzyCandidates: string -> seq<Candidate>,
    medsWithIngredient: string -> seq<MedRow>,
    listMedications: (Option<string>, Json) -> seq<MedRow>,
    users: Select -> seq<UserRow>,
    inventory: (Json, Json) -> Option<InventoryRow>,
    userPrescriptions: (map<string, Prescription>, Json) -> seq<PrescriptionRow>,
    medications: Select -> seq<MedRow>,
    medicationsWithStock: (StockSelect, seq<Json>) -> seq<StockRow>,
    storeStock: Select -> seq<StoreStockRow>,
    medicationName: Json -> Option<(string, string)>,
    stores: Option<string> -> seq<StoreRow>,
    prescriptions: (map<string, Prescription>, Select) -> seq<PrescriptionRow>)

  /** The variable parts of the medication/stock statement, in text order: join filter, WHERE clause, stock filter. */
  datatype StockSelect = StockSelect(storeFilter: string, medWhere: string, stockFilter: string)

  // ---------------------------------------------------------------------------
  // Results
  // ---------------------------------------------------------------------------

  /** A medication offered for disambiguation. */
  datatype Candidate = Candidate(medId: string, brand: string, generic: string)

  /** The full record of a uniquely identified medication. */
  datatype MedInfo = MedInfo(
    medId: string, brandName: string, genericName: string, activeIngredients: seq<string>,
    form: string, strength: string, rxRequired: bool, standardDirections: string,
    warnings: seq<string>, contraindications: seq<string>, source: string)

  /** The four answers of `get_medication_by_name`; only `Found` has `found: true`. */
  datatype MedLookup =
    | Found(med: MedInfo)
    | Ambiguous(candidates: seq<Candidate>)
    | FuzzyMatches(inputName: string, candidates: seq<Candidate>)
    | NoMatch(labels: seq<string>, inputName: string)

  /** A catalogue entry as the list and query tools report it (`active_ingredients` unsplit). */
  datatype MedSummary = MedSummary(
    medId: string, brandName: string, genericName: string, activeIngredients: Option<string>,
    form: string, strength: string, rxRequired: bool)

  datatype StockStatus = InStock | OutOfStock

  /** `check_stock_availability`: no inventory row, or the quantity and its status. */
  datatype StockCheck =
    | StockNotFound(medId: Json, storeId: Json)
    | StockLevel(medId: Json, storeId: Json, quantity: int, status: StockStatus, lastUpdated: string)

  /** One store's stock of a grouped medication. */
  datatype StockEntry = StockEntry(storeId: string, quantity: int, status: string)

  /** A medication of `query_medications_with_stock`, with the stock rows grouped under it. */
  datatype MedWithStock = MedWithStock(summary: MedSummary, stock: seq<StockEntry>)

  datatype RefillError = NotFound | Unauthorized | NoRefills | Expired

  /** `request_prescription_refill`: a rejection with its reason, or the submitted request (status `submitted`, ETA 4 hours). */
  datatype RefillOutcome = Rejected(error: RefillError) | Accepted(refillRequestId: string)

  /** A prescription as `list_user_prescriptions` reports it. */
  datatype UserPrescription = UserPrescription(
    prescriptionId: string, medId: string, medName: string, directions: string,
    refillsRemaining: int, expiresAt: string, rxRequired: bool)

  /**
   * What a tool returns. Lists stand for the source's `{"count": len(xs), ...: xs}` objects,
   * so every count is the length of its list.
   */
  datatype ToolOutput =
    | UnknownTool(tool: string)
    | MissingRequiredArgument(message: string, tool: string)
    | MedicationLookup(lookup: MedLookup)
    | Medications(medications: seq<MedSummary>)
    | SearchError(message: string)
    | Users(users: seq<UserRow>)
    | Stock(check: StockCheck)
    | UserPrescriptions(userId: Json, prescriptions: seq<UserPrescription>)
    | Refill(outcome: RefillOutcome)
    | MedicationsWithStock(grouped: seq<MedWithStock>)
    | MedicationNotFound(requested: Json)
    | MissingParameter
    | StoreStock(medId: Json, medName: Option<string>, stock: seq<StoreStockRow>)
    | Stores(stores: seq<StoreRow>)
    | PrescriptionList(rows: seq<PrescriptionRow>)

  // ---------------------------------------------------------------------------
  // `_like`
  // ---------------------------------------------------------------------------

  /** Python's type name of a JSON value, as exception messages quote it. */
  function TypeName(j: Json): string {
    match j
    case JNull => "NoneType"
    case JBool(_) => "bool"
    case JNum(_) => "int"
    case JStr(_) => "str"
    case JArr(_) => "list"
    case JObj(_) => "dict"
  }

  /** `_like(q)`: the trimmed text between `%` wildcards; a value that is not a string has no `strip` and raises. */
  function Like(q: Json): (r: Outcome<string>)
    ensures r.Returned? <==> q.JStr?
    ensures r.Returned? ==> |r.value| >= 2 && r.value[0] == '%' && r.value[|r.value| - 1] == '%'
  {
    match q
    case JStr(s) => Returned("%" + Text.Strip(s) + "%")
    case _ => Raised("'" + TypeName(q) + "' object has no attribute 'strip'")
  }

  /** The pattern keeps the query's text, less the whitespace around it, between two wildcards. */
  lemma LikeWrapsTrimmedText(s: string)
    ensures var p := Like(JStr(s)).value;
      exists lead, trail :: Text.AllSpace(lead) && Text.AllSpace(trail) && s == lead + p[1..|p| - 1] + trail
    ensures var p := Like(JStr(s)).value;
      |p| == 2 || (!Text.IsSpace(p[1]) && !Text.IsSpace(p[|p| - 2]))
  {
    var p := Like(JStr(s)).value;
    var t := Text.Strip(s);
    assert p == "%" + t + "%";
    assert p[1..|p| - 1] == t;
    assert |p| == |t| + 2;
    if |t| > 0 {
      assert p[1] == t[0] && p[|p| - 2] == t[|t| - 1];
    }
    var lead, trail :| Text.AllSpace(lead) && Text.AllSpace(trail) && s == lead + t + trail;
    assert Text.AllSpace(lead) && Text.AllSpace(trail) && s == lead + p[1..|p| - 1] + trail;
  }

  // ---------------------------------------------------------------------------
  // `get_medication_by_name`
  // ---------------------------------------------------------------------------

  /** `active_ingredients.split(", ") if active_ingredients else []`, on the column read with `or ""`. */
  function Ingredients(column: Option<string>): (r: seq<string>)
    ensures r == [] <==> column.GetOr("") == ""
  {
    var text := column.GetOr("");
    if text != "" then Text.Split(text, ", ") else []
  }

  /** Splitting the ingredients loses nothing: joining them back gives the column's text. */
  lemma IngredientsRoundTrip(column: Option<string>)
    ensures Text.Join(Ingredients(column), ", ") == column.GetOr("")
  {
    if column.GetOr("") != "" {
      Text.JoinSplit(column.GetOr(""), ", ");
    }
  }

  /** An optional text column as a list: one element when it holds text, none otherwise. */
  function Listed(column: Option<string>): (r: seq<string>)
    ensures |r| <= 1
    ensures r == [] <==> column.GetOr("") == ""
    ensures column.Some? && column.value != "" ==> r == [column.value]
  {
    if column.Some? && column.value != "" then [column.value] else []
  }

  /** Where every medication record says it comes from. */
  const CatalogSource: string := "Synthetic internal pharmacy catalog"

  /** The record of a uniquely identified medication. */
  function Describe(r: MedRow): (m: MedInfo)
    ensures m.medId == r.medId && m.brandName == r.brandName && m.genericName == r.genericName
    ensures m.activeIngredients == Ingredients(r.activeIngredients)
    ensures m.rxRequired <==> r.rxRequired != 0
    ensures m.standardDirections == r.standardDirections.GetOr("")
    ensures m.form == r.form && m.strength == r.strength
    ensures m.warnings == Listed(r.warnings) && m.contraindications == Listed(r.contraindications)
    ensures m.source == CatalogSource
  {
    MedInfo(r.medId, r.brandName, r.genericName, Ingredients(r.activeIngredients), r.form, r.strength,
            r.rxRequired != 0, r.standardDirections.GetOr(""), Listed(r.warnings), Listed(r.contraindications),
            CatalogSource)
  }

  function CandidateOf(r: MedRow): Candidate {
    Candidate(r.medId, r.brandName, r.genericName)
  }

  /** `f"{brand} ({generic})"`. */
  function MedLabel(brand: string, generic: string): string {
    brand + " (" + generic + ")"
  }

  function Min(a: nat, b: nat): nat {
    if a < b then a else b
  }

  /**
   * The classification `get_medication_by_name` applies to the rows matching `pattern`: one row
   * identifies the medication; several make the answer ambiguous with the first five offered;
   * none falls back to the trigram candidates for `query`, and failing those, to the labels of
   * medications sharing the ingredient text.
   */
  function Classify(cat: Catalog, query: string, pattern: string): (r: MedLookup)
    ensures var rows := cat.medsMatching(pattern);
      && (r.Found? <==> |rows| == 1)
      && (r.Ambiguous? <==> |rows| > 1)
      && (r.Found? ==> r.med == Describe(rows[0]))
      && (r.Ambiguous? ==>
            |r.candidates| == Min(5, |rows|)
            && forall i :: 0 <= i < |r.candidates| ==> r.candidates[i] == CandidateOf(rows[i]))
      && (r.FuzzyMatches? <==> |rows| == 0 && |cat.fuzzyCandidates(query)| > 0)
      && (r.FuzzyMatches? ==> r.candidates == cat.fuzzyCandidates(query) && r.inputName == query)
      && (r.NoMatch? <==> |rows| == 0 && |cat.fuzzyCandidates(query)| == 0)
      && (r.NoMatch? ==>
            && r.inputName == query
            && |r.labels| == |cat.medsWithIngredient(pattern)|
            && forall i :: 0 <= i < |r.labels| ==>
                 r.labels[i] == MedLabel(cat.medsWithIngredient(pattern)[i].brandName, cat.medsWithIngredient(pattern)[i].genericName))
  {
    var rows := cat.medsMatching(pattern);
    if |rows| == 0 then
      var fuzzy := cat.fuzzyCandidates(query);
      if |fuzzy| > 0 then FuzzyMatches(query, fuzzy)
      else
        var cand := cat.medsWithIngredient(pattern);
        NoMatch(seq(|cand|, i requires 0 <= i < |cand| => MedLabel(cand[i].brandName, cand[i].genericName)), query)
    else if |rows| > 1 then
      Ambiguous(seq(Min(5, |rows|), i requires 0 <= i < Min(5, |rows|) => CandidateOf(rows[i])))
    else
      Found(Describe(rows[0]))
  }

  /** `get_medication_by_name`: the name, turned into a pattern by `_like`, classified as above. */
  function GetMedicationByName(cat: Catalog, name: Json): (r: Outcome<MedLookup>)
    ensures r.Returned? <==> name.JStr?
    ensures r.Returned? ==> r.value == Classify(cat, name.s, Like(name).value)
  {
    match Like(name)
    case Raised(m) => Raised(m)
    case Returned(pattern) => Returned(Classify(cat, name.s, pattern))
  }

  // ---------------------------------------------------------------------------
  // `check_stock_availability`
  // ---------------------------------------------------------------------------

  /** `check_stock_availability`: `NOT_FOUND` without an inventory row; otherwise the quantity, `in_stock` exactly when it is positive. */
  function CheckStockAvailability(cat: Catalog, medId: Json, storeId: Json): (r: StockCheck)
    ensures r.StockNotFound? <==> cat.inventory(medId, storeId).None?
    ensures r.medId == medId && r.storeId == storeId
    ensures r.StockLevel? ==>
      && r.quantity == cat.inventory(medId, storeId).value.quantity
      && (r.status == InStock <==> r.quantity > 0)
  {
    match cat.inventory(medId, storeId)
    case None => StockNotFound(medId, storeId)
    case Some(row) => StockLevel(medId, storeId, row.quantity, if row.quantity > 0 then InStock else OutOfStock, row.lastUpdated)
  }


  // ---------------------------------------------------------------------------
  // The listing tools
  // ---------------------------------------------------------------------------

  /** A catalogue entry as the listing tools report it, `rx_required` read as a truth value. */
  function Summarize(r: MedRow): MedSummary {
    MedSummary(r.medId, r.brandName, r.genericName, r.activeIngredients, r.form, r.strength, r.rxRequired != 0)
  }

  function Summaries(rows: seq<MedRow>): (r: seq<MedSummary>)
    ensures |r| == |rows| && forall i :: 0 <= i < |rows| ==> r[i] == Summarize(rows[i])
  {
    seq(|rows|, i requires 0 <= i < |rows| => Summarize(rows[i]))
  }

  /**
   * `list_medications`: a truthy search term is turned into a `_like` pattern (raising when it
   * is not a string); without one every medication is listed. The limit defaults to 20.
   */
  function ListMedications(cat: Catalog, args: map<string, Json>): (r: Outcome<ToolOutput>)
    ensures r.Raised? <==> NotLikeable(Arg(args, "search_term"))
    ensures r.Returned? ==> r.value.Medications?
    ensures r.Returned? ==>
      var pattern := if Truthy(Arg(args, "search_term")) then Some(Like(Arg(args, "search_term")).value) else None;
      var rows := cat.listMedications(pattern, ArgOr(args, "limit", JNum(20)));
      && r.value.medications == Summaries(rows)
      && |r.value.medications| == |rows| && forall i :: 0 <= i < |rows| ==> r.value.medications[i].medId == rows[i].medId
  {
    var term := Arg(args, "search_term");
    var limit := ArgOr(args, "limit", JNum(20));
    if Truthy(term) then
      match Like(term)
      case Raised(m) => Raised(m)
      case Returned(p) => Returned(Medications(Summaries(cat.listMedications(Some(p), limit))))
    else
      Returned(Medications(Summaries(cat.listMedications(None, limit))))
  }

  /** A truthy value that `_like` cannot take. */
  predicate NotLikeable(j: Json) {
    Truthy(j) && !j.JStr?
  }

  /** A prescription as listed to its user, named `"brand (generic)"`. */
  function ListedPrescription(r: PrescriptionRow): UserPrescription {
    UserPrescription(r.prescriptionId, r.medId, MedLabel(r.brandName, r.genericName), r.directions,
                     r.refillsRemaining, r.expiresAt, r.rxRequired != 0)
  }

  /** `list_user_prescriptions`: the user's prescriptions in the order the query returns them, with the user id echoed. */
  function ListUserPrescriptions(cat: Catalog, prescriptions: map<string, Prescription>, args: map<string, Json>): (r: ToolOutput)
    ensures r.UserPrescriptions? && r.userId == Arg(args, "user_id")
    ensures var rows := cat.userPrescriptions(prescriptions, Arg(args, "user_id"));
      |r.prescriptions| == |rows|
      && forall i :: 0 <= i < |rows| ==>
           r.prescriptions[i].prescriptionId == rows[i].prescriptionId
           && r.prescriptions[i].medName == MedLabel(rows[i].brandName, rows[i].genericName)
           && (r.prescriptions[i].rxRequired <==> rows[i].rxRequired != 0)
  {
    var userId := Arg(args, "user_id");
    var rows := cat.userPrescriptions(prescriptions, userId);
    UserPrescriptions(userId, seq(|rows|, i requires 0 <= i < |rows| => ListedPrescription(rows[i])))
  }

  /** `list_stores`: a truthy city narrows the list by a `_like` pattern (raising when it is not a string). */
  function ListStores(cat: Catalog, args: map<string, Json>): (r: Outcome<ToolOutput>)
    ensures r.Raised? <==> NotLikeable(Arg(args, "city"))
    ensures r.Returned? ==> r.value.Stores?
    ensures r.Returned? && !Truthy(Arg(args, "city")) ==> r.value.stores == cat.stores(None)
    ensures r.Returned? && Truthy(Arg(args, "city")) ==> r.value.stores == cat.stores(Some(Like(Arg(args, "city")).value))
  {
    var city := Arg(args, "city");
    if Truthy(city) then
      match Like(city)
      case Raised(m) => Raised(m)
      case Returned(p) => Returned(Stores(cat.stores(Some(p))))
    else
      Returned(Stores(cat.stores(None)))
  }

  // ---------------------------------------------------------------------------
  // `request_prescription_refill`
  // ---------------------------------------------------------------------------

  /**
   * The clock as the refill tool reads it: today's ISO date, the `%Y%m%d%H%M%S` + milliseconds
   * stamp of the request id, and the ISO timestamp of the request row.
   */
  datatype Clock = Clock(today: string, timestamp: string, now: string)

  /** `f"RR-{timestamp}-{prescription_id}"`. */
  function RefillRequestId(clock: Clock, prescriptionId: string): string {
    "RR-" + clock.timestamp + "-" + prescriptionId
  }

  /** The first check a refill fails, in the source's order: unknown, another user's, no refills left, expired. */
  function RefillCheck(store: Store, today: string, userId: Json, prescriptionId: Json): Option<RefillError> {
    if !prescriptionId.JStr? || prescriptionId.s !in store.prescriptions then Some(NotFound)
    else
      var rx := store.prescriptions[prescriptionId.s];
      if JStr(rx.userId) != userId then Some(Unauthorized)
      else if rx.refillsRemaining <= 0 then Some(NoRefills)
      else if Text.LexLess(rx.expiresAt, today) then Some(Expired)
      else None
  }

  /**
   * `request_prescription_refill`: a refused request changes nothing; an accepted one records
   * a `submitted` request under a fresh id and uses up one refill of that prescription only.
   */
  function RequestPrescriptionRefill(store: Store, clock: Clock, args: map<string, Json>): (r: (Store, RefillOutcome))
    ensures var check := RefillCheck(store, clock.today, Arg(args, "user_id"), Arg(args, "prescription_id"));
      && (r.1.Rejected? <==> check.Some?)
      && (r.1.Rejected? ==> r.1.error == check.value && r.0 == store)
    ensures r.1.Accepted? ==>
      var pid := Arg(args, "prescription_id").s;
      var rx := store.prescriptions[pid];
      && r.1.refillRequestId == RefillRequestId(clock, pid)
      && r.0.refillRequests == store.refillRequests + [RefillRequest(r.1.refillRequestId, pid, rx.userId, "submitted", clock.now + "Z")]
      && r.0.prescriptions == store.prescriptions[pid := rx.(refillsRemaining := rx.refillsRemaining - 1)]
      && r.0.toolStats == store.toolStats
  {
    var userId := Arg(args, "user_id");
    var pidArg := Arg(args, "prescription_id");
    match RefillCheck(store, clock.today, userId, pidArg)
    case Some(e) => (store, Rejected(e))
    case None =>
      var pid := pidArg.s;
      var rx := store.prescriptions[pid];
      var rrid := RefillRequestId(clock, pid);
      var request := RefillRequest(rrid, pid, rx.userId, "submitted", clock.now + "Z");
      (store.(refillRequests := store.refillRequests + [request],
              prescriptions := store.prescriptions[pid := rx.(refillsRemaining := rx.refillsRemaining - 1)]),
       Accepted(rrid))
  }

  /** A refill is accepted exactly for the owner of a known, unexpired prescription with refills left. */
  lemma RefillAcceptedIff(store: Store, clock: Clock, userId: string, pid: string)
    ensures var args := map["user_id" := JStr(userId), "prescription_id" := JStr(pid)];
      RequestPrescriptionRefill(store, clock, args).1.Accepted? <==>
        && pid in store.prescriptions
        && store.prescriptions[pid].userId == userId
        && store.prescriptions[pid].refillsRemaining > 0
        && !Text.LexLess(store.prescriptions[pid].expiresAt, clock.today)
  {
    var args := map["user_id" := JStr(userId), "prescription_id" := JStr(pid)];
    assert Arg(args, "user_id") == JStr(userId) && Arg(args, "prescription_id") == JStr(pid);
  }

  /** Refills never go negative: a prescription that starts with none or more keeps none or more. */
  lemma RefillKeepsCountsNonNegative(store: Store, clock: Clock, args: map<string, Json>)
    requires forall p :: p in store.prescriptions ==> store.prescriptions[p].refillsRemaining >= 0
    ensures var s' := RequestPrescriptionRefill(store, clock, args).0;
      forall p :: p in s'.prescriptions ==> s'.prescriptions[p].refillsRemaining >= 0
  {
  }

  /** A request id names its prescription: stamps of one width never give two prescriptions the same id. */
  lemma RefillIdNamesPrescription(c1: Clock, c2: Clock, p1: string, p2: string)
    requires |c1.timestamp| == |c2.timestamp|
    requires RefillRequestId(c1, p1) == RefillRequestId(c2, p2)
    ensures p1 == p2 && c1.timestamp == c2.timestamp
  {
    var n := |c1.timestamp| + 4;
    assert RefillRequestId(c1, p1)[n..] == p1;
    assert RefillRequestId(c2, p2)[n..] == p2;
    assert RefillRequestId(c1, p1)[3..n - 1] == c1.timestamp;
    assert RefillRequestId(c2, p2)[3..n - 1] == c2.timestamp;
  }
}
