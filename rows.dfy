/**
 * What the two listing controllers share: the values a database row holds,
 * the SELECT list a query names its columns with, reading a row by column
 * name, the choice between the two query variants, and the response envelope
 * built from the rows the database returns.
 */
module Rows {

  datatype Option<T> = None | Some(value: T)

  /**
   * A value as JavaScript sees it: a column value from the driver, or a field
   * of the request body. `Undefined` is also what indexing past the end of a
   * row yields. `Text` and `Number` also stand in for any other value the
   * driver returns (dates, for one), which the controllers only pass through.
   */
  datatype Value = Undefined | Null | Text(text: string) | Number(number: real)

  /** A result row in the driver's default array format: one value per SELECT item. */
  type Row = seq<Value>

  /** `row[i]` in JavaScript. */
  function At(row: Row, i: nat): (v: Value)
    ensures i < |row| ==> v == row[i]
    ensures |row| <= i ==> v == Undefined
  {
    if i < |row| then row[i] else Undefined
  }

  /**
   * One item of a SELECT list: a plain column, returned under its own name,
   * or an SQL expression returned under an alias. `C` enumerates the column
   * names a query can return.
   */
  datatype SelectItem<C> = Plain(name: C) | Computed(expr: string, name: C)

  /** The position of the first SELECT item returned under `name`. */
  function IndexOf<C(==)>(select: seq<SelectItem<C>>, name: C): (r: Option<nat>)
    ensures r.Some? ==> r.value < |select| && select[r.value].name == name
    ensures r.Some? ==> forall j :: 0 <= j < r.value ==> select[j].name != name
    ensures r.None? ==> forall j :: 0 <= j < |select| ==> select[j].name != name
  {
    if select == [] then None
    else if select[0].name == name then Some(0)
    else match IndexOf(select[1..], name)
      case None => None
      case Some(i) => Some(i + 1)
  }

  /** `name` is first returned at position `i`. */
  predicate FirstAt<C(==)>(select: seq<SelectItem<C>>, name: C, i: nat)
  {
    i < |select| && select[i].name == name &&
    forall j :: 0 <= j < i ==> select[j].name != name
  }

  /** The lookup finds the first item returned under `name`, and only that one. */
  lemma IndexOfFindsFirst<C>(select: seq<SelectItem<C>>, name: C, i: nat)
    ensures IndexOf(select, name) == Some(i) <==> FirstAt(select, name, i)
  {
  }

  /** The names a SELECT list returns its columns under, in order. */
  function Names<C>(select: seq<SelectItem<C>>): (ns: seq<C>)
    ensures |ns| == |select|
    ensures forall i :: 0 <= i < |select| ==> ns[i] == select[i].name
  {
    if select == [] then [] else [select[0].name] + Names(select[1..])
  }

  /** The lookup sees only the names: two SELECT lists with the same names agree on every position. */
  lemma IndexOfDependsOnlyOnNames<C>(a: seq<SelectItem<C>>, b: seq<SelectItem<C>>, name: C)
    requires Names(a) == Names(b)
    ensures IndexOf(a, name) == IndexOf(b, name)
  {
  }

  /**
   * The value a reader that addresses columns by name would get from `row`:
   * the reference against which the controllers' positional reads are proved.
   */
  function Column<C(==)>(select: seq<SelectItem<C>>, row: Row, name: C): (v: Value)
  {
    match IndexOf(select, name)
    case Some(i) => At(row, i)
    case None => Undefined
  }

  /** The fields of the request body that pick and parameterise the query. */
  datatype ListingRequest = ListingRequest(intermediaryCode: Value, clientCode: Value)

  /** The named bind values handed to the driver with either query variant. */
  datatype Binds = Binds(intermediaryCode: Value, clientCode: Value, orgCode: string)

  const OrgCode: string := "50"

  /** The three intermediary codes for which the controllers filter on the agent columns. */
  const AgentCodes: set<string> := {"15", "70", "25"}

  /**
   * The controllers' test `code === "15" || code === "70" || code === "25"`:
   * strict equality, so only those three strings pass, not the numbers.
   */
  function SelectsAgentFilter(code: Value): (selected: bool)
    ensures selected <==> code.Text? && code.text in AgentCodes
  {
    code == Text("15") || code == Text("70") || code == Text("25")
  }

  /** Numbers, null and an absent code never choose the agent variant, even the number 15. */
  lemma AgentFilterExactlyForAgentCodes(code: Value)
    ensures !SelectsAgentFilter(Number(15.0)) && !SelectsAgentFilter(Number(70.0)) && !SelectsAgentFilter(Number(25.0))
    ensures code.Number? || code.Null? || code.Undefined? ==> !SelectsAgentFilter(code)
  {
  }

  /** The binds both query variants pass: the request codes unchanged, and the organisation. */
  function BindsFor(req: ListingRequest): (b: Binds)
    ensures b.intermediaryCode == req.intermediaryCode && b.clientCode == req.clientCode
    ensures b.orgCode == "50"
  {
    Binds(req.intermediaryCode, req.clientCode, OrgCode)
  }

  /** The JSON envelope: a success flag and the projected records. */
  datatype Listing<T> = Listing(success: bool, results: seq<T>)

  /** `rows.map(project)`: one record per row, in the same order. */
  function MapRows<T>(rows: seq<Row>, project: Row -> T): (r: seq<T>)
    ensures |r| == |rows|
    ensures forall i :: 0 <= i < |rows| ==> r[i] == project(rows[i])
  {
    if rows == [] then [] else [project(rows[0])] + MapRows(rows[1..], project)
  }

  /**
   * The envelope both controllers build: when `rows` is present and
   * non-empty, success with one projected record per row; otherwise failure
   * with an empty list.
   */
  function Envelope<T>(rows: Option<seq<Row>>, project: Row -> T): (r: Listing<T>)
    ensures r.success <==> rows.Some? && |rows.value| > 0
    ensures !r.success ==> r.results == []
    ensures r.success ==> |r.results| == |rows.value|
    ensures r.success ==> forall i :: 0 <= i < |rows.value| ==> r.results[i] == project(rows.value[i])
  {
    if rows.Some? && |rows.value| > 0 then Listing(true, MapRows(rows.value, project))
    else Listing(false, [])
  }

  /** Mapping rows commutes with concatenation: the projection keeps the database's order. */
  lemma MapRowsAppend<T>(a: seq<Row>, b: seq<Row>, project: Row -> T)
    ensures MapRows(a + b, project) == MapRows(a, project) + MapRows(b, project)
  {
  }
}
