/**
 * The document list endpoint. `GET` lists the federal documents with a fixed
 * set of fields, defaulting a missing relevance flag to false; `PUT` sets the
 * relevance flag of the rows with a given `docId` and answers with the first
 * updated row.
 */
module DetailsRoute {
  import opened Wrappers
  import opened Js
  import Store

  /** The columns `GET` selects and copies unchanged, besides `relevant`. */
  const CopiedFields: set<string> := {
    "doc_id", "title", "agencyId", "documentType", "postedDate", "modifyDate",
    "receiveDate", "withdrawn", "docketId", "openForComment", "commentStartDate",
    "commentEndDate", "frDocNum", "objectId", "topics", "files", "summary", "keywords"
  }

  const InternalError := ErrorResponse(500, "Internal server error")

  /** `doc.relevant ?? false`: the stored flag unless it is null or absent. */
  function RelevantOrFalse(row: Store.Row): (v: Json)
    ensures "relevant" in row && !row["relevant"].JNull? ==> v == row["relevant"]
    ensures !("relevant" in row && !row["relevant"].JNull?) ==> v == JBool(false)
    ensures !v.JNull?
  {
    if "relevant" in row && !row["relevant"].JNull? then row["relevant"] else JBool(false)
  }

  /**
   * One entry of the `GET` answer: the listed fields copied as they are (an
   * absent one stays absent when serialised), and `relevant` always present.
   */
  function Project(row: Store.Row): (entry: map<string, Json>)
    ensures entry.Keys == (row.Keys * CopiedFields) + {"relevant"}
    ensures forall f :: f in CopiedFields && f in row ==> entry[f] == row[f]
    ensures entry["relevant"] == RelevantOrFalse(row)
  {
    (map f | f in row.Keys * CopiedFields :: row[f])["relevant" := RelevantOrFalse(row)]
  }

  /** Projecting an entry again changes nothing. */
  lemma ProjectIdempotent(row: Store.Row)
    ensures Project(Project(row)) == Project(row)
  {
    var once := Project(row);
    var twice := Project(once);
    assert twice.Keys == once.Keys;
    forall f | f in once.Keys
      ensures twice[f] == once[f]
    {
    }
  }

  /**
   * `GET /api/details`. `data` is what the query returns when it does not
   * fail: `None` for `null`, otherwise the rows in the order the store sorts
   * them (newest posting first).
   */
  function Get(fault: Store.Fault, data: Option<seq<Store.Row>>): (response: Response)
    ensures fault.Fails? ==> response == ErrorResponse(500, "Failed to fetch data from Supabase")
    ensures fault.Throws? ==> response == InternalError
    ensures fault.Healthy? && data.None? ==> response == ErrorResponse(404, "No data found")
    ensures response.status == 200 <==> fault.Healthy? && data.Some?
    ensures response.status == 200 ==>
      response.body.JArr? && |response.body.items| == |data.value| &&
      forall i :: 0 <= i < |data.value| ==> response.body.items[i] == JObj(Project(data.value[i]))
  {
    match fault
    case Fails(_) => ErrorResponse(500, "Failed to fetch data from Supabase")
    case Throws(_) => InternalError
    case Healthy =>
      if data.None? then ErrorResponse(404, "No data found")
      else
        var rows := data.value;
        Response(200, JArr(seq(|rows|, i requires 0 <= i < |rows| => JObj(Project(rows[i])))))
  }

  /** `typeof relevant === "boolean" && doc_id` is truthy. */
  predicate ValidUpdate(body: Json) {
    var relevant := Prop(body, "relevant");
    relevant.Some? && relevant.value.JBool? && Truthy(Prop(body, "doc_id"))
  }

  /** `.update({ relevant }).eq("docId", key)`: the matching rows get the new flag, nothing else changes. */
  function SetRelevant(rows: seq<Store.Row>, key: string, relevant: bool): (r: seq<Store.Row>)
    ensures |r| == |rows|
    ensures forall i :: 0 <= i < |rows| && Store.MatchesEq(rows[i], "docId", key) ==>
      r[i] == rows[i]["relevant" := JBool(relevant)]
    ensures forall i :: 0 <= i < |rows| && !Store.MatchesEq(rows[i], "docId", key) ==> r[i] == rows[i]
  {
    seq(|rows|, i requires 0 <= i < |rows| =>
      if Store.MatchesEq(rows[i], "docId", key) then rows[i]["relevant" := JBool(relevant)] else rows[i])
  }

  /** The update does not change which rows match, and repeating it changes nothing more. */
  lemma SetRelevantIdempotent(rows: seq<Store.Row>, key: string, relevant: bool)
    ensures SetRelevant(SetRelevant(rows, key, relevant), key, relevant) == SetRelevant(rows, key, relevant)
  {
    var once := SetRelevant(rows, key, relevant);
    var twice := SetRelevant(once, key, relevant);
    forall i | 0 <= i < |rows|
      ensures twice[i] == once[i]
    {
      if Store.MatchesEq(rows[i], "docId", key) {
        assert once[i]["relevant" := JBool(relevant)] == once[i];
      }
    }
  }

  /** After the update, listing the documents shows the new flag on every updated row. */
  lemma UpdateVisibleInList(rows: seq<Store.Row>, key: string, relevant: bool, i: nat)
    requires i < |rows| && Store.MatchesEq(rows[i], "docId", key)
    ensures Project(SetRelevant(rows, key, relevant)[i])["relevant"] == JBool(relevant)
  {
  }

  /** `{ doc_id: row.docId, ...row }`: the row's own fields, plus `doc_id` when the row has none. */
  function WithDocId(row: Store.Row): (fields: map<string, Json>)
    requires "docId" in row
    ensures fields.Keys == row.Keys + {"doc_id"}
    ensures forall k :: k in row ==> fields[k] == row[k]
    ensures "doc_id" !in row ==> fields["doc_id"] == row["docId"]
  {
    map["doc_id" := row["docId"]] + row
  }

  /** The `federal_documents` table. */
  class FederalDocuments {
    var rows: seq<Store.Row>

    constructor (initial: seq<Store.Row>)
      ensures rows == initial
    {
      rows := initial;
    }

    /**
     * `PUT /api/details`. A body that does not parse, or `null`, answers 500;
     * a body without a boolean `relevant` and a truthy `doc_id` answers 400;
     * a failing update answers 500; all three leave the table unchanged.
     * Otherwise the rows whose `docId` is the text of `doc_id` get the new
     * flag, and the answer is the first of them with `doc_id` added, or
     * `null` when no row matched.
     */
    method Put(body: Option<Json>, fault: Store.Fault) returns (response: Response)
      modifies this
      ensures (body.None? || body.value.JNull?) ==> response == InternalError && rows == old(rows)
      ensures body.Some? && !body.value.JNull? && !ValidUpdate(body.value) ==>
        response == ErrorResponse(400, "Invalid request body. Required: doc_id and relevant status") && rows == old(rows)
      ensures fault.Fails? && body.Some? && !body.value.JNull? && ValidUpdate(body.value) ==>
        response == ErrorResponse(500, "Failed to update relevant status") && rows == old(rows)
      ensures fault.Throws? ==> rows == old(rows) && response.status != 200
      ensures fault.Throws? && body.Some? && !body.value.JNull? && ValidUpdate(body.value) ==>
        response == InternalError
      ensures response.status == 200 <==> fault.Healthy? && body.Some? && !body.value.JNull? && ValidUpdate(body.value)
      ensures response.status == 200 ==>
        var key := Interpolate(Prop(body.value, "doc_id"));
        var updated := Store.Where(rows, "docId", key);
        rows == SetRelevant(old(rows), key, Prop(body.value, "relevant").value.b) &&
        (updated == [] ==> response.body == JNull) &&
        (updated != [] ==> response.body == JObj(WithDocId(updated[0])))
    {
      if body.None? || body.value.JNull? {
        return InternalError;
      }
      var request := body.value;
      if !ValidUpdate(request) {
        return ErrorResponse(400, "Invalid request body. Required: doc_id and relevant status");
      }
      var relevant := Prop(request, "relevant").value.b;
      var key := Interpolate(Prop(request, "doc_id"));
      match fault {
        case Throws(_) =>
          return InternalError;
        case Fails(_) =>
          return ErrorResponse(500, "Failed to update relevant status");
        case Healthy =>
          rows := SetRelevant(rows, key, relevant);
          var data := Store.Where(rows, "docId", key);
          if data == [] {
            response := Response(200, JNull);
          } else {
            response := Response(200, JObj(WithDocId(data[0])));
          }
      }
    }
  }

  /** The rows a successful update hands back are exactly the matching rows, now carrying the new flag. */
  lemma UpdatedRowsCarryFlag(rows: seq<Store.Row>, key: string, relevant: bool)
    ensures forall r :: r in Store.Where(SetRelevant(rows, key, relevant), "docId", key) ==>
      "relevant" in r && r["relevant"] == JBool(relevant)
    ensures |Store.Where(SetRelevant(rows, key, relevant), "docId", key)| == |Store.Where(rows, "docId", key)|
  {
    SameMatches(rows, key, relevant);
  }

  lemma {:induction false} SameMatches(rows: seq<Store.Row>, key: string, relevant: bool)
    ensures |Store.Where(SetRelevant(rows, key, relevant), "docId", key)| == |Store.Where(rows, "docId", key)|
  {
    if rows != [] {
      SameMatches(rows[1..], key, relevant);
      assert SetRelevant(rows, key, relevant)[1..] == SetRelevant(rows[1..], key, relevant);
    }
  }
}
