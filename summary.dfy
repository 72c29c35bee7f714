/**
 * The enforcement-action summary: records are counted per `year-month`
 * (month zero-padded to two characters) and each count becomes one bar of
 * the chart; the heading shows the number of records.
 */
module EnforcementSummary {
  import opened Wrappers
  import Strings

  datatype SummaryRecord = SummaryRecord(
    agency: string, date: string, url: string, title: string, actionType: string,
    entity: string, sum: string, year: string, month: string)

  /** `String(month).padStart(2, "0")`: the month, with zeros in front up to two characters. */
  function PadMonth(month: string): (m: string)
    ensures |m| == if |month| >= 2 then |month| else 2
    ensures m[|m| - |month|..] == month
    ensures forall i :: 0 <= i < |m| - |month| ==> m[i] == '0'
  {
    Strings.PadStart(month, 2, '0')
  }

  /** `${year}-${...}`: the year, a dash, and the padded month. */
  function YearMonth(r: SummaryRecord): (key: string)
    ensures |key| == |r.year| + 1 + |PadMonth(r.month)|
    ensures key[..|r.year| + 1] == r.year + "-"
    ensures key[|r.year| + 1..] == PadMonth(r.month)
  {
    var key := r.year + "-" + PadMonth(r.month);
    assert key[..|r.year| + 1] == r.year + "-";
    assert key[|r.year| + 1..] == PadMonth(r.month);
    key
  }

  /** A one-digit month and its zero-padded spelling fall into the same bar. */
  lemma PaddedMonthsShareKey(r: SummaryRecord, d: char)
    requires r.month == [d]
    ensures YearMonth(r) == YearMonth(r.(month := ['0', d]))
  {
  }

  // ---------------------------------------------------------------------------
  // What the aggregation computes
  // ---------------------------------------------------------------------------

  /** The number of records whose key is `k`. */
  function Count(data: seq<SummaryRecord>, k: string): nat {
    if data == [] then 0
    else Count(data[..|data| - 1], k) + (if YearMonth(data[|data| - 1]) == k then 1 else 0)
  }

  /** The distinct keys in order of first appearance (the key order of the accumulator object). */
  function KeysInOrder(data: seq<SummaryRecord>): seq<string> {
    if data == [] then []
    else
      var keys := KeysInOrder(data[..|data| - 1]);
      var k := YearMonth(data[|data| - 1]);
      if k in keys then keys else keys + [k]
  }

  predicate Distinct(keys: seq<string>) {
    forall i, j :: 0 <= i < j < |keys| ==> keys[i] != keys[j]
  }

  /** The keys are distinct, and a key is listed exactly when some record has it. */
  lemma {:induction false} KeysInOrderSpec(data: seq<SummaryRecord>)
    ensures Distinct(KeysInOrder(data))
    ensures forall k :: k in KeysInOrder(data) <==> Count(data, k) > 0
  {
    if data != [] {
      KeysInOrderSpec(data[..|data| - 1]);
    }
  }

  /** Every record is counted under its own key. */
  lemma {:induction false} CountsOwnKey(data: seq<SummaryRecord>, i: nat)
    requires i < |data|
    ensures Count(data, YearMonth(data[i])) > 0
  {
    if i < |data| - 1 {
      assert data[..|data| - 1][i] == data[i];
      CountsOwnKey(data[..|data| - 1], i);
    }
  }

  /** The counts of the given keys, added up. */
  function SumCounts(keys: seq<string>, data: seq<SummaryRecord>): nat {
    if keys == [] then 0 else Count(data, keys[0]) + SumCounts(keys[1..], data)
  }

  /** How often `k` occurs in `keys`. */
  function Occurrences(keys: seq<string>, k: string): nat {
    if keys == [] then 0 else (if keys[0] == k then 1 else 0) + Occurrences(keys[1..], k)
  }

  lemma {:induction false} OccurrencesDistinct(keys: seq<string>, k: string)
    requires Distinct(keys)
    ensures Occurrences(keys, k) == if k in keys then 1 else 0
  {
    if keys != [] {
      OccurrencesDistinct(keys[1..], k);
      if keys[0] == k {
        assert k !in keys[1..];
      }
    }
  }

  /** Adding one record adds one to the sum, once for every time its key is listed. */
  lemma {:induction false} SumCountsStep(keys: seq<string>, data: seq<SummaryRecord>)
    requires data != []
    ensures SumCounts(keys, data) ==
      SumCounts(keys, data[..|data| - 1]) + Occurrences(keys, YearMonth(data[|data| - 1]))
  {
    if keys != [] {
      SumCountsStep(keys[1..], data);
    }
  }

  lemma {:induction false} SumCountsAppend(keys: seq<string>, k: string, data: seq<SummaryRecord>)
    ensures SumCounts(keys + [k], data) == SumCounts(keys, data) + Count(data, k)
  {
    if keys != [] {
      assert (keys + [k])[1..] == keys[1..] + [k];
      SumCountsAppend(keys[1..], k, data);
    }
  }

  /** The counts of the distinct keys add up to the number of records. */
  lemma {:induction false} CountsSumToTotal(data: seq<SummaryRecord>)
    ensures SumCounts(KeysInOrder(data), data) == |data|
  {
    if data != [] {
      var init := data[..|data| - 1];
      var k := YearMonth(data[|data| - 1]);
      var keys := KeysInOrder(init);
      CountsSumToTotal(init);
      KeysInOrderSpec(init);
      if k in keys {
        SumCountsStep(keys, data);
        OccurrencesDistinct(keys, k);
      } else {
        SumCountsAppend(keys, k, data);
        SumCountsStep(keys, data);
        OccurrencesDistinct(keys, k);
      }
    }
  }

  // ---------------------------------------------------------------------------
  // The reduce and the bar entries
  // ---------------------------------------------------------------------------

  /** The accumulator object: its keys in insertion order and the count stored under each. */
  datatype Tally = Tally(keys: seq<string>, counts: map<string, nat>)

  /** `acc` is the accumulator after reading `prefix`: its keys in order, each with its count. */
  ghost predicate TallyOf(acc: Tally, prefix: seq<SummaryRecord>) {
    acc.keys == KeysInOrder(prefix) &&
    (forall k :: k in acc.counts <==> k in acc.keys) &&
    (forall k :: k in acc.counts ==> acc.counts[k] == Count(prefix, k))
  }

  /** `acc[yearMonth] = (acc[yearMonth] || 0) + 1`; a new key goes after the existing ones. */
  function Bump(acc: Tally, yearMonth: string): Tally {
    var previous := if yearMonth in acc.counts then acc.counts[yearMonth] else 0;
    var keys := if yearMonth in acc.counts then acc.keys else acc.keys + [yearMonth];
    Tally(keys, acc.counts[yearMonth := previous + 1])
  }

  lemma BumpStep(acc: Tally, data: seq<SummaryRecord>, i: nat)
    requires i < |data| && TallyOf(acc, data[..i])
    ensures TallyOf(Bump(acc, YearMonth(data[i])), data[..i + 1])
  {
    var prefix, next := data[..i], data[..i + 1];
    var k := YearMonth(data[i]);
    assert next[..|next| - 1] == prefix && next[|next| - 1] == data[i];
    KeysInOrderSpec(prefix);
    assert KeysInOrder(next) == if k in KeysInOrder(prefix) then KeysInOrder(prefix) else KeysInOrder(prefix) + [k];
    assert forall j :: Count(next, j) == Count(prefix, j) + (if k == j then 1 else 0);
  }

  /** `data.reduce(...)`: one pass that bumps the count of each record's key. */
  method Aggregate(data: seq<SummaryRecord>) returns (acc: Tally)
    ensures acc.keys == KeysInOrder(data)
    ensures forall k :: k in acc.counts <==> k in acc.keys
    ensures forall k :: k in acc.counts ==> acc.counts[k] == Count(data, k)
  {
    acc := Tally([], map[]);
    var i := 0;
    while i < |data|
      invariant 0 <= i <= |data|
      invariant TallyOf(acc, data[..i])
    {
      BumpStep(acc, data, i);
      acc := Bump(acc, YearMonth(data[i]));
      i := i + 1;
    }
    assert data[..|data|] == data;
  }

  datatype Bar = Bar(yearMonth: string, count: nat)

  /** `Object.keys(aggregatedData).map(...)`: one bar per key, in key order. */
  function BarChartData(acc: Tally): (bars: seq<Bar>)
    requires forall k :: k in acc.keys ==> k in acc.counts
    ensures |bars| == |acc.keys|
    ensures forall i :: 0 <= i < |bars| ==> bars[i] == Bar(acc.keys[i], acc.counts[acc.keys[i]])
  {
    seq(|acc.keys|, i requires 0 <= i < |acc.keys| => Bar(acc.keys[i], acc.counts[acc.keys[i]]))
  }

  function SumBars(bars: seq<Bar>): nat {
    if bars == [] then 0 else bars[0].count + SumBars(bars[1..])
  }

  lemma {:induction false} SumBarsIsSumCounts(bars: seq<Bar>, keys: seq<string>, data: seq<SummaryRecord>)
    requires |bars| == |keys|
    requires forall i :: 0 <= i < |bars| ==> bars[i] == Bar(keys[i], Count(data, keys[i]))
    ensures SumBars(bars) == SumCounts(keys, data)
  {
    if bars != [] {
      SumBarsIsSumCounts(bars[1..], keys[1..], data);
    }
  }

  // ---------------------------------------------------------------------------
  // The component
  // ---------------------------------------------------------------------------

  datatype SummaryView =
    | Loading
    | ErrorView(message: string)
    | NoData
    | Chart(total: nat, bars: seq<Bar>)

  /** Every record's key is among the bars' keys. */
  lemma BarsCoverRecords(data: seq<SummaryRecord>, bars: seq<Bar>)
    requires |bars| == |KeysInOrder(data)|
    requires forall i :: 0 <= i < |bars| ==> bars[i].yearMonth == KeysInOrder(data)[i]
    ensures forall i :: 0 <= i < |data| ==>
      exists j :: 0 <= j < |bars| && bars[j].yearMonth == YearMonth(data[i])
  {
    KeysInOrderSpec(data);
    forall i | 0 <= i < |data|
      ensures exists j :: 0 <= j < |bars| && bars[j].yearMonth == YearMonth(data[i])
    {
      var k := YearMonth(data[i]);
      CountsOwnKey(data, i);
      var j :| 0 <= j < |KeysInOrder(data)| && KeysInOrder(data)[j] == k;
      assert bars[j].yearMonth == k;
    }
  }

  /** The reduce and the map together: one bar per distinct key, adding up to the record count. */
  method ChartBars(data: seq<SummaryRecord>) returns (bars: seq<Bar>)
    ensures |bars| == |KeysInOrder(data)|
    ensures forall i :: 0 <= i < |bars| ==>
      bars[i].yearMonth == KeysInOrder(data)[i] && bars[i].count == Count(data, bars[i].yearMonth)
    ensures SumBars(bars) == |data|
  {
    var acc := Aggregate(data);
    bars := BarChartData(acc);
    SumBarsIsSumCounts(bars, acc.keys, data);
    CountsSumToTotal(data);
  }

  /**
   * What the summary renders: loading first, then a non-empty error, then
   * "No data available." for no records; only then are the records counted.
   * The chart has one bar per distinct key with that key's count, and the
   * bars add up to the total shown in the heading.
   */
  method Render(loading: bool, error: Option<string>, data: seq<SummaryRecord>) returns (view: SummaryView)
    ensures loading ==> view == Loading
    ensures !loading && error.Some? && error.value != "" ==> view == ErrorView(error.value)
    ensures !loading && (error.None? || error.value == "") && data == [] ==> view == NoData
    ensures view.Chart? ==> data != [] && view.total == |data| && SumBars(view.bars) == |data|
    ensures view.Chart? ==> |view.bars| == |KeysInOrder(data)|
    ensures view.Chart? ==> forall i :: 0 <= i < |view.bars| ==>
      view.bars[i].yearMonth == KeysInOrder(data)[i] && view.bars[i].count == Count(data, view.bars[i].yearMonth)
    ensures view.Chart? ==> forall i :: 0 <= i < |data| ==>
      exists j :: 0 <= j < |view.bars| && view.bars[j].yearMonth == YearMonth(data[i])
    ensures !loading && (error.None? || error.value == "") && data != [] ==> view.Chart?
  {
    if loading {
      return Loading;
    }
    if error.Some? && error.value != "" {
      return ErrorView(error.value);
    }
    if data == [] {
      return NoData;
    }
    var bars := ChartBars(data);
    BarsCoverRecords(data, bars);
    view := Chart(|data|, bars);
  }

  /** How the request for the records ended. */
  datatype FetchOutcome =
    | Received(records: seq<SummaryRecord>)   // ok response whose body parsed
    | NotOk                                    // a response with a failing status
    | Threw(message: string)                   // the request or the body parse threw

  /** The fetch on mount: the records on success, the thrown message otherwise; loading ends either way. */
  class SummaryClient {
    var data: seq<SummaryRecord>
    var error: Option<string>
    var loading: bool

    constructor ()
      ensures data == [] && error == None && loading
    {
      data := [];
      error := None;
      loading := true;
    }

    method Load(outcome: FetchOutcome)
      modifies this
      ensures !loading
      ensures outcome.Received? ==> data == outcome.records && error == old(error)
      ensures outcome.NotOk? ==> data == old(data) && error == Some("Failed to fetch data")
      ensures outcome.Threw? ==> data == old(data) && error == Some(outcome.message)
    {
      match outcome {
        case Received(records) => data := records;
        case NotOk => error := Some("Failed to fetch data");
        case Threw(message) => error := Some(message);
      }
      loading := false;
    }
  }
}
