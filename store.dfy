/**
 * The hosted relational store, reduced to what the modelled code observes:
 * rows as column maps, the `eq` filter, `.single()`, and the two ways a
 * query can fail (an error object in the reply, or a thrown exception).
 */
module Store {
  import opened Js
  import Strings

  type Row = map<string, Json>

  /** The `error` object a query returns. */
  datatype StoreError = StoreError(code: string, details: string, message: string)

  /** How a query goes, decided by the store and the network, not by the code. */
  datatype Fault = Healthy | Fails(error: StoreError) | Throws(thrown: Thrown)

  /**
   * `.eq(column, value)`: the filter value travels as text (`${value}`), so a
   * row matches when the column holds exactly that text. Columns of other
   * types are compared only as text columns here.
   */
  predicate MatchesEq(row: Row, column: string, text: string) {
    column in row && row[column] == JStr(text)
  }

  function Where(rows: seq<Row>, column: string, text: string): (r: seq<Row>)
    ensures |r| <= |rows|
    ensures forall x :: x in r <==> x in rows && MatchesEq(x, column, text)
    ensures forall i :: 0 <= i < |r| ==> MatchesEq(r[i], column, text)
  {
    if rows == [] then []
    else if MatchesEq(rows[0], column, text) then [rows[0]] + Where(rows[1..], column, text)
    else Where(rows[1..], column, text)
  }

  function CountWhere(rows: seq<Row>, column: string, text: string): nat {
    |Where(rows, column, text)|
  }

  /**
   * What `.single()` answers when the result is not exactly one row. The code
   * PGRST116 is what callers can rely on; the wording of the message and the
   * details follows one version of the store client and may differ in others.
   */
  function NotSingleRow(n: nat): StoreError {
    StoreError("PGRST116", "The result contains " + Strings.NatToString(n) + " rows",
               "JSON object requested, multiple (or no) rows returned")
  }

  datatype SingleResult = Found(row: Row) | NotSingle(error: StoreError)

  /** `.single()`: exactly one row, otherwise an error. */
  function Single(rows: seq<Row>): (r: SingleResult)
    ensures r.Found? <==> |rows| == 1
    ensures r.Found? ==> r.row == rows[0]
    ensures r.NotSingle? ==> r.error.code == "PGRST116"
  {
    if |rows| == 1 then Found(rows[0]) else NotSingle(NotSingleRow(|rows|))
  }
}
