/** The listing endpoints over the content table: `/api/data` (filters and
    a page of the stored rows) and `/api/top/content` (the rows ranked by
    one metric). The rows are what the table read returned. */
module Analytics {
  import opened Wrappers
  import opened Seqs
  import opened Text
  import opened Records
  import opened Ordering

  /** A filter parameter takes effect only when it is given and not empty. */
  predicate Given(filter: Option<string>) {
    filter.Some? && filter.value != ""
  }

  function SourceIs(name: string): Row -> bool {
    (r: Row) => FieldsOf(r).source == Some(name)
  }

  function SentimentIs(name: string): Row -> bool {
    (r: Row) => FieldsOf(r).sentiment == Some(name)
  }

  /** The row has the requested source and sentiment, where requested. */
  predicate Passes(r: Row, source: Option<string>, sentiment: Option<string>) {
    && (Given(source) ==> FieldsOf(r).source == source)
    && (Given(sentiment) ==> FieldsOf(r).sentiment == sentiment)
  }

  function Passing(source: Option<string>, sentiment: Option<string>): Row -> bool {
    (r: Row) => Passes(r, source, sentiment)
  }

  /** The rows a request selects: first by source, then by sentiment. */
  function Matching(rows: seq<Row>, source: Option<string>, sentiment: Option<string>): seq<Row> {
    var bySource := if Given(source) then Filter(rows, SourceIs(source.value)) else rows;
    if Given(sentiment) then Filter(bySource, SentimentIs(sentiment.value)) else bySource
  }

  /** The two filters in a row select, in table order, exactly the rows
      that pass both. */
  lemma MatchingSpec(rows: seq<Row>, source: Option<string>, sentiment: Option<string>)
    ensures Matching(rows, source, sentiment) == Filter(rows, Passing(source, sentiment))
    ensures IsSubsequence(Matching(rows, source, sentiment), rows)
    ensures |Matching(rows, source, sentiment)| == Count(rows, Passing(source, sentiment))
  {
    var pass := Passing(source, sentiment);
    if Given(source) && Given(sentiment) {
      FilterFilter(rows, SourceIs(source.value), SentimentIs(sentiment.value), pass);
    } else if Given(source) {
      FilterSame(rows, SourceIs(source.value), pass);
    } else if Given(sentiment) {
      FilterSame(rows, SentimentIs(sentiment.value), pass);
    } else {
      FilterAll(rows, pass);
    }
    FilterIsSubsequence(rows, pass);
    FilterCount(rows, pass);
  }

  /** An item of `/api/data`: an id made of the source (`unknown` when
      absent) and the position in the filtered list, the row's columns, the
      length of its text and whether it has a summary. */
  datatype Entry = Entry(id: string, fields: Fields, textLength: nat, hasSummary: bool)

  function EntryOf(r: Row, position: int): Entry {
    var f := FieldsOf(r);
    Entry(f.source.GetOr("unknown") + "_" + IntToString(position), f, |f.text.GetOr("")|,
          f.summary.Some? && f.summary.value != "")
  }

  /** The items of a page that starts at `offset` of the filtered list. */
  function Entries(page: seq<Row>, offset: int): (entries: seq<Entry>)
    ensures |entries| == |page|
  {
    seq(|page|, k requires 0 <= k < |page| => EntryOf(page[k], k + offset))
  }

  /** The answer of `/api/data`: the number of selected rows and one page
      of them. */
  datatype DataPage = DataPage(total: nat, entries: seq<Entry>)

  /** `get_all_data`: Python's `filtered[offset:offset + limit]`, so a
      negative offset or limit counts from the end. */
  function Data(rows: seq<Row>, limit: int, offset: int, source: Option<string>, sentiment: Option<string>)
    : (page: DataPage)
    ensures page.total == Count(rows, Passing(source, sentiment))
    ensures page.total <= |rows|
  {
    MatchingSpec(rows, source, sentiment);
    var matching := Matching(rows, source, sentiment);
    DataPage(|matching|, Entries(PySlice(matching, offset, offset + limit), offset))
  }

  /** With a non-negative offset and limit, the page holds the selected
      rows from `offset` on, at most `limit` of them, each identified by its
      position among the selected rows. */
  lemma DataWindow(rows: seq<Row>, limit: nat, offset: nat, source: Option<string>, sentiment: Option<string>)
    ensures var page := Data(rows, limit, offset, source, sentiment);
            var m := Matching(rows, source, sentiment);
            && |page.entries| == (if offset >= |m| then 0 else if offset + limit <= |m| then limit else |m| - offset)
            && forall k :: 0 <= k < |page.entries| ==>
                 page.entries[k] == EntryOf(m[offset + k], offset + k) && Passes(m[offset + k], source, sentiment)
  {
    var m := Matching(rows, source, sentiment);
    MatchingSpec(rows, source, sentiment);
    PySliceWindow(m, offset, limit);
    forall k | 0 <= k < |m|
      ensures Passes(m[k], source, sentiment)
    {
      assert Passing(source, sentiment)(m[k]);
    }
  }

  /** Without filters, the first page large enough holds every row in
      table order. */
  lemma DataUnfiltered(rows: seq<Row>, limit: nat)
    requires limit >= |rows|
    ensures var page := Data(rows, limit, 0, None, None);
            && page.total == |rows| && |page.entries| == |rows|
            && forall k :: 0 <= k < |rows| ==> page.entries[k].fields == FieldsOf(rows[k])
  {
    DataWindow(rows, limit, 0, None, None);
  }

  /** Two adjacent pages together are the page that spans both. */
  lemma PagesTile(rows: seq<Row>, offset: nat, a: nat, b: nat, source: Option<string>, sentiment: Option<string>)
    ensures Data(rows, a, offset, source, sentiment).entries + Data(rows, b, offset + a, source, sentiment).entries
            == Data(rows, a + b, offset, source, sentiment).entries
  {
    var m := Matching(rows, source, sentiment);
    var first, second := PySlice(m, offset, offset + a), PySlice(m, offset + a, offset + a + b);
    PySliceAdjacent(m, offset, a, b);
    EntriesAppend(first, second, offset);
  }

  /** The items of two adjacent runs of rows are those of the joined run. */
  lemma EntriesAppend(first: seq<Row>, second: seq<Row>, offset: int)
    ensures Entries(first, offset) + Entries(second, offset + |first|) == Entries(first + second, offset)
  {
    var joined := first + second;
    forall k | |first| <= k < |joined|
      ensures Entries(joined, offset)[k] == Entries(second, offset + |first|)[k - |first|]
    {
      assert joined[k] == second[k - |first|];
    }
  }

  /** An item of `/api/top/content`; absent columns take the endpoint's
      defaults. */
  datatype TopEntry = TopEntry(
    rank: nat,
    title: string,
    source: string,
    value: int,
    sentiment: string,
    date: string,
    link: string,
    summary: string)

  function TopEntryOf(rank: nat, r: Row, m: Metric): TopEntry {
    var f := FieldsOf(r);
    TopEntry(rank, f.title.GetOr("Без названия"), f.source.GetOr("Unknown"), MetricValue(f, m),
             f.sentiment.GetOr("Neutral"), f.date.GetOr(""), f.link.GetOr(""), f.summary.GetOr(""))
  }

  /** The answer of `/api/top/content`: a 400 for an unknown metric, or
      the ranked rows. */
  datatype Top = UnknownMetric | Top(metric: Metric, entries: seq<TopEntry>)

  /** The value of the metric in each row, 0 when absent. */
  function MetricKeys(data: seq<Row>, m: Metric): (keys: seq<int>)
    ensures |keys| == |data|
  {
    seq(|data|, i requires 0 <= i < |data| => MetricValue(FieldsOf(data[i]), m))
  }

  /** `get_top_content`: the metric is checked first; the rows of the
      source are sorted by the metric, largest first and stably, and cut
      with Python's `[:limit]`. */
  function TopContent(rows: seq<Row>, metric: string, limit: int, source: Option<string>): (top: Top)
    ensures top.UnknownMetric? <==> forall m: Metric :: MetricName(m) != metric
    ensures top.Top? ==> MetricName(top.metric) == metric
  {
    match MetricNamed(metric)
    case None => UnknownMetric
    case Some(m) =>
      var data := Matching(rows, source, None);
      var order := Ranking(MetricKeys(data, m));
      var chosen := order[..SliceBound(limit, |order|)];
      Top(m, seq(|chosen|, k requires 0 <= k < |chosen| => TopEntryOf(k + 1, data[chosen[k]], m)))
  }

  /** The ranked rows are distinct rows of the source, as many as the
      slice keeps, numbered from 1, by non-increasing metric value with
      ties in table order; every row of the source left out ranks after
      every row shown. */
  lemma TopContentSpec(rows: seq<Row>, metric: string, limit: int, source: Option<string>)
    returns (chosen: seq<nat>)
    requires MetricNamed(metric).Some?
    ensures var top := TopContent(rows, metric, limit, source);
            var data := Matching(rows, source, None);
            var keys := MetricKeys(data, top.metric);
            && |top.entries| == |chosen| == SliceBound(limit, |data|)
            && (forall k :: 0 <= k < |chosen| ==>
                  chosen[k] < |data| && top.entries[k] == TopEntryOf(k + 1, data[chosen[k]], top.metric))
            && (forall a, b :: 0 <= a < b < |chosen| ==> Before(keys, chosen[a], chosen[b]))
            && (forall i, k :: 0 <= i < |data| && i !in chosen && 0 <= k < |chosen| ==> Before(keys, chosen[k], i))
  {
    var m := MetricNamed(metric).value;
    var data := Matching(rows, source, None);
    var keys := MetricKeys(data, m);
    var order := Ranking(keys);
    var n := SliceBound(limit, |order|);
    chosen := order[..n];
    forall i, k | 0 <= i < |data| && i !in chosen && 0 <= k < |chosen|
      ensures Before(keys, chosen[k], i)
    {
      assert i in order;
      var p :| 0 <= p < |order| && order[p] == i;
      assert p >= n;
    }
  }

  /** Along the ranking the metric values do not increase, and the ranks
      count up from 1. */
  lemma TopContentDescending(rows: seq<Row>, metric: string, limit: int, source: Option<string>)
    requires MetricNamed(metric).Some?
    ensures var entries := TopContent(rows, metric, limit, source).entries;
            && (forall a, b :: 0 <= a < b < |entries| ==> entries[a].value >= entries[b].value)
            && (forall k :: 0 <= k < |entries| ==> entries[k].rank == k + 1)
  {
    var chosen := TopContentSpec(rows, metric, limit, source);
  }
}
