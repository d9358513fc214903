/**
 * How the tools assemble a parameterised SQL filter (backend/app/tools.py): a list of
 * condition texts joined into a WHERE clause, and a parallel list of values for the `%s`
 * placeholders. psycopg2 binds parameters by position, so the k-th value fills the k-th
 * placeholder of the statement text.
 */
module Sql {
  import opened Json
  import Text

  /** A condition's SQL text and, in text order, the column each of its `%s` placeholders stands for. */
  datatype Condition = Condition(sql: string, holes: seq<string>)

  /** A bound value, labelled with the column of the placeholder the builder appended it for. */
  datatype Param = Param(column: string, value: Json)

  /** The conditions collected so far and the parameters appended with them. */
  datatype Filter = Filter(conditions: seq<Condition>, params: seq<Param>)

  const NoFilter: Filter := Filter([], [])

  /** What a query receives: the variable SQL text and the parameter tuple. */
  datatype Select = Select(where: string, params: seq<Json>)

  /** The placeholders of a list of conditions, in text order. */
  function Holes(conds: seq<Condition>): seq<string> {
    if |conds| == 0 then [] else Holes(conds[..|conds| - 1]) + conds[|conds| - 1].holes
  }

  /** The values of the parameters, in order: the tuple handed to the driver. */
  function Values(params: seq<Param>): (vs: seq<Json>)
    ensures |vs| == |params|
    ensures forall k :: 0 <= k < |params| ==> vs[k] == params[k].value
  {
    seq(|params|, k requires 0 <= k < |params| => params[k].value)
  }

  /** Each placeholder gets a value, and the value appended for it: counts agree and columns line up position by position. */
  predicate Aligned(holes: seq<string>, params: seq<Param>) {
    |holes| == |params| && forall k :: 0 <= k < |holes| ==> params[k].column == holes[k]
  }

  /** Appends a condition together with the values for its placeholders, the source's paired `append` calls. */
  function Add(f: Filter, c: Condition, values: seq<Json>): (r: Filter)
    requires |values| == |c.holes|
    ensures r.conditions == f.conditions + [c]
    ensures |r.params| == |f.params| + |values|
    ensures r.params[..|f.params|] == f.params
    ensures forall k :: 0 <= k < |values| ==> r.params[|f.params| + k] == Param(c.holes[k], values[k])
  {
    Filter(f.conditions + [c], f.params + seq(|values|, k requires 0 <= k < |values| => Param(c.holes[k], values[k])))
  }

  /** Appending a condition with one value per placeholder keeps the filter aligned. */
  lemma AddKeepsAligned(f: Filter, c: Condition, values: seq<Json>)
    requires |values| == |c.holes|
    requires Aligned(Holes(f.conditions), f.params)
    ensures Aligned(Holes(Add(f, c, values).conditions), Add(f, c, values).params)
  {
    var r := Add(f, c, values);
    assert r.conditions[..|r.conditions| - 1] == f.conditions;
    assert Holes(r.conditions) == Holes(f.conditions) + c.holes;
    forall k | 0 <= k < |Holes(r.conditions)|
      ensures r.params[k].column == Holes(r.conditions)[k]
    {
      if k < |f.params| {
        assert r.params[k] == f.params[k];
      } else {
        assert r.params[k] == Param(c.holes[k - |f.params|], values[k - |f.params|]);
      }
    }
  }

  /** The SQL texts of the conditions, in order. */
  function Sqls(conds: seq<Condition>): (r: seq<string>)
    ensures |r| == |conds| && forall i :: 0 <= i < |conds| ==> r[i] == conds[i].sql
  {
    seq(|conds|, i requires 0 <= i < |conds| => conds[i].sql)
  }

  /** `sep.join(conditions) if conditions else "1=1"`. */
  function Where(conds: seq<Condition>, sep: string): string {
    if |conds| == 0 then "1=1" else Text.Join(Sqls(conds), sep)
  }

  /** Two or more joined parts are at least as long as the separator between them. */
  lemma JoinLength(parts: seq<string>, sep: string)
    requires |parts| >= 2
    ensures |Text.Join(parts, sep)| >= |sep|
  {
  }

  /**
   * The `1=1` fallback is used exactly when there is no condition, provided no condition is
   * itself `1=1` and the separator is longer than it.
   */
  lemma WhereFallback(conds: seq<Condition>, sep: string)
    requires |sep| > 3
    requires forall i :: 0 <= i < |conds| ==> conds[i].sql != "1=1"
    ensures Where(conds, sep) == "1=1" <==> |conds| == 0
  {
    if |conds| >= 2 {
      JoinLength(Sqls(conds), sep);
    }
  }

  /** Two aligned statements side by side make one aligned statement. */
  lemma AlignedConcat(h1: seq<string>, p1: seq<Param>, h2: seq<string>, p2: seq<Param>)
    requires Aligned(h1, p1) && Aligned(h2, p2)
    ensures Aligned(h1 + h2, p1 + p2)
  {
    forall k | 0 <= k < |h1 + h2| ensures (p1 + p2)[k].column == (h1 + h2)[k] {
      if k >= |h1| {
        assert (p1 + p2)[k] == p2[k - |h1|] && (h1 + h2)[k] == h2[k - |h1|];
      }
    }
  }

  /** `",".join(["%s"] * n)`. */
  function Placeholders(n: nat): string {
    Text.Join(seq(n, _ => "%s"), ",")
  }

  /** The placeholders of an `IN (...)` list over `column`, and the values filling them. */
  function ListHoles(column: string, n: nat): (r: seq<string>)
    ensures |r| == n && forall k :: 0 <= k < n ==> r[k] == column
  {
    seq(n, _ => column)
  }

  function ListParams(column: string, values: seq<Json>): (r: seq<Param>)
    ensures |r| == |values| && forall k :: 0 <= k < |values| ==> r[k] == Param(column, values[k])
  {
    seq(|values|, k requires 0 <= k < |values| => Param(column, values[k]))
  }

  lemma ListAligned(column: string, values: seq<Json>)
    ensures Aligned(ListHoles(column, |values|), ListParams(column, values))
  {
  }
}
