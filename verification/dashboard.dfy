/** The dashboard (`App`): the records loaded from `/api/data` and shaped
    for the table, the notice after a refresh, the filters, the sentiment
    column's ordering, the chart of totals per day and the export button.
    Browser requests and rendering are left out; a load is the answer of
    `/api/data` or a failure. */
module Dashboard {
  import opened Wrappers
  import opened Seqs
  import opened Text
  import opened Records
  import Analytics

  /** A record of the table. `kind` is the lower-cased source (the `type`
      column). */
  datatype Item = Item(
    id: string,
    title: string,
    kind: string,
    date: string,
    views: int,
    likes: int,
    reposts: int,
    sentiment: string)

  /** `value || fallback` for a string column: a missing or empty value
      gives the fallback. */
  function OrElse(value: Option<string>, fallback: string): string {
    if value.Some? && value.value != "" then value.value else fallback
  }

  /** The `i`-th piece of a split, as array destructuring gives it: a
      missing piece prints as `undefined`. */
  function Piece(parts: seq<string>, i: nat): string {
    if i < |parts| then parts[i] else "undefined"
  }

  /** A date with a `-` is read as year-month-day and written day-month-year;
      one without is kept. */
  function DayFirst(date: string): string {
    if '-' in date then
      var parts := Split(date, "-");
      Piece(parts, 2) + "-" + Piece(parts, 1) + "-" + Piece(parts, 0)
    else date
  }

  /** `split('-').reverse().join('-')`, how the date filter and the date
      column read a shown date back before parsing it. */
  function Reverted(date: string): string {
    var parts := Split(date, "-");
    Join(seq(|parts|, k requires 0 <= k < |parts| => parts[|parts| - 1 - k]), "-")
  }

  /** A year, a month and a day are shown day first. */
  lemma DayFirstDate(year: string, month: string, day: string)
    requires '-' !in year && '-' !in month && '-' !in day
    ensures DayFirst(year + "-" + month + "-" + day) == day + "-" + month + "-" + year
  {
    var stored := year + "-" + month + "-" + day;
    assert stored == year + ['-'] + month + ['-'] + day;
    SplitThree(year, month, day, '-');
    assert stored[|year|] == '-';
    var parts := Split(stored, "-");
    assert Piece(parts, 2) == day && Piece(parts, 1) == month && Piece(parts, 0) == year;
  }

  /** Reading a shown date back gives the stored one. */
  lemma RevertedDate(year: string, month: string, day: string)
    requires '-' !in year && '-' !in month && '-' !in day
    ensures Reverted(day + "-" + month + "-" + year) == year + "-" + month + "-" + day
  {
    var shown := day + "-" + month + "-" + year;
    assert shown == day + ['-'] + month + ['-'] + year;
    SplitThree(day, month, year, '-');
    var parts := Split(shown, "-");
    var reversed := seq(|parts|, k requires 0 <= k < |parts| => parts[|parts| - 1 - k]);
    assert reversed == [year, month, day];
    assert Join([year, month, day], "-") == year + "-" + Join([month, day], "-");
    assert Join([month, day], "-") == month + "-" + Join([day], "-");
  }

  /** The shown date of a stored year-month-day reads back as it. */
  lemma DayFirstReverts(year: string, month: string, day: string)
    requires '-' !in year && '-' !in month && '-' !in day
    ensures Reverted(DayFirst(year + "-" + month + "-" + day)) == year + "-" + month + "-" + day
  {
    DayFirstDate(year, month, day);
    RevertedDate(year, month, day);
  }

  /** A date with fewer than three pieces shows `undefined` for each
      missing one. */
  lemma DayFirstShort(year: string, month: string)
    requires '-' !in year && '-' !in month
    ensures DayFirst(year + "-" + month) == "undefined-" + month + "-" + year
  {
    SplitSingleChar(year, '-', month);
    assert year + "-" + month == year + ['-'] + month;
    assert '-' in year + "-" + month by {
      assert (year + "-" + month)[|year|] == '-';
    }
  }

  /** The date a record without one is given, `2024-01-01`. */
  const DefaultDate := "2024" + "-" + "01" + "-" + "01"

  /** A record without a date shows `01-01-2024`. */
  lemma DefaultDateShown()
    ensures DayFirst(DefaultDate) == "01" + "-" + "01" + "-" + "2024"
  {
    DayFirstDate("2024", "01", "01");
  }

  /** The mapping of an `/api/data` item in `fetchData`. A date stored as a
      millisecond timestamp is not modelled: every date here is text. */
  function ItemOf(e: Analytics.Entry): (item: Item)
    ensures item.title != "" && item.kind != "" && item.date != "" && item.sentiment != ""
  {
    var f := e.fields;
    var date := DayFirst(OrElse(f.date, DefaultDate));
    Item(e.id, OrElse(f.title, "Без названия"),
         if f.source.Some? && f.source.value != "" then Lower(f.source.value) else "unknown",
         date,
         f.views.GetOr(0), f.likes.GetOr(0), f.reposts.GetOr(0), OrElse(f.sentiment, "Neutral"))
  }

  function Items(entries: seq<Analytics.Entry>): (items: seq<Item>)
    ensures |items| == |entries|
  {
    seq(|entries|, k requires 0 <= k < |entries| => ItemOf(entries[k]))
  }

  /** The fields a record keeps and the defaults it takes. */
  lemma ItemOfSpec(e: Analytics.Entry)
    ensures var item := ItemOf(e);
            && item.id == e.id
            && (item.title == "Без названия" <==> e.fields.title.None? || e.fields.title.value in {"", "Без названия"})
            && (e.fields.source.None? || e.fields.source.value == "" ==> item.kind == "unknown")
            && (e.fields.source.Some? && e.fields.source.value != "" ==> item.kind == Lower(e.fields.source.value))
            && item.views == e.fields.views.GetOr(0) && item.likes == e.fields.likes.GetOr(0)
            && item.reposts == e.fields.reposts.GetOr(0)
            && (e.fields.date.None? || e.fields.date.value == "" ==> item.date == "01" + "-" + "01" + "-" + "2024")
            && (item.sentiment == "Neutral" <==> e.fields.sentiment.None? || e.fields.sentiment.value in {"", "Neutral"})
  {
    DefaultDateShown();
  }

  /** The page `fetchData` asks for: `/api/data` with its defaults, so the
      dashboard holds the first 100 rows of the table at most. */
  function Load(rows: seq<Row>): (items: seq<Item>)
    ensures |items| == if |rows| < 100 then |rows| else 100
  {
    Analytics.DataWindow(rows, 100, 0, None, None);
    Items(Analytics.Data(rows, 100, 0, None, None).entries)
  }

  /** The loaded records are the first rows of the table, in table order. */
  lemma LoadSpec(rows: seq<Row>)
    ensures var items := Load(rows);
            forall k :: 0 <= k < |items| ==> items[k] == ItemOf(Analytics.EntryOf(rows[k], k))
  {
    Analytics.DataWindow(rows, 100, 0, None, None);
    assert Analytics.Matching(rows, None, None) == rows;
  }

  /** The message after a refresh. */
  datatype Notice = Added(count: nat) | NoNews | Loaded(count: nat) | Quiet | LoadError

  /** The branches in `fetchData` after a successful load, in their order. */
  function Notify(previous: nat, current: nat): Notice {
    if current > previous then Added(current - previous)
    else if current == previous && previous > 0 then NoNews
    else if previous == 0 && current > 0 then Loaded(current)
    else Quiet
  }

  /** New records are announced with their number exactly when there are
      more than before; "no new data" exactly when the number is unchanged
      and not zero; the first-load message never appears, because its case
      is taken by the first branch; otherwise nothing is said. */
  lemma NotifySpec(previous: nat, current: nat)
    ensures Notify(previous, current).Added? <==> current > previous
    ensures Notify(previous, current).Added? ==> Notify(previous, current).count == current - previous
    ensures Notify(previous, current) == NoNews <==> current == previous > 0
    ensures !Notify(previous, current).Loaded?
    ensures Notify(previous, current) == Quiet <==> current < previous || current == previous == 0
  {
  }

  /** A refresh: the loaded records with the notice, or no records and an
      error notice when the request fails. */
  function Refresh(data: seq<Item>, answer: Option<seq<Row>>): (next: (seq<Item>, Notice))
    ensures answer.None? ==> next.0 == [] && next.1 == LoadError
  {
    match answer
    case None => ([], LoadError)
    case Some(rows) =>
      var items := Load(rows);
      (items, Notify(|data|, |items|))
  }

  /** A successful refresh holds the first rows of the table, at most 100,
      announces added records exactly when there are more than before and
      says there is no news exactly when their number is unchanged and not
      zero. */
  lemma RefreshSpec(data: seq<Item>, rows: seq<Row>)
    ensures var (items, notice) := Refresh(data, Some(rows));
            && |items| == (if |rows| < 100 then |rows| else 100)
            && (forall k :: 0 <= k < |items| ==> items[k] == ItemOf(Analytics.EntryOf(rows[k], k)))
            && (notice.Added? <==> |items| > |data|)
            && (notice.Added? ==> notice.count == |items| - |data|)
            && (notice == NoNews <==> |items| == |data| > 0)
            && notice != LoadError
  {
    LoadSpec(rows);
    NotifySpec(|data|, |Load(rows)|);
  }

  /** The date range picker: not set, set with an end missing, or set to a
      range; whether a record's date lies in it is left to the browser's
      date parsing. */
  datatype Range = NoRange | Incomplete | Between(within: Item -> bool)

  datatype Filters = Filters(search: string, contentType: string, range: Range)

  function TitleMatches(search: string): Item -> bool {
    (item: Item) => Contains(Lower(item.title), Lower(search))
  }

  function OfKind(kind: string): Item -> bool {
    (item: Item) => item.kind == kind
  }

  /** A record passes the filters that are active. */
  predicate Passes(filters: Filters, item: Item) {
    && (filters.search != "" ==> Contains(Lower(item.title), Lower(filters.search)))
    && (filters.contentType != "all" ==> item.kind == filters.contentType)
    && (filters.range.Between? ==> filters.range.within(item))
  }

  function Passing(filters: Filters): Item -> bool {
    (item: Item) => Passes(filters, item)
  }

  /** The filter effect: search, then source, then date range. */
  function Visible(data: seq<Item>, filters: Filters): seq<Item> {
    var bySearch := if filters.search != "" then Filter(data, TitleMatches(filters.search)) else data;
    var byKind := if filters.contentType != "all" then Filter(bySearch, OfKind(filters.contentType)) else bySearch;
    if filters.range.Between? then Filter(byKind, filters.range.within) else byKind
  }

  /** The three filters in a row keep, in order, exactly the records that
      pass every active filter. */
  lemma {:induction false} VisibleSpec(data: seq<Item>, filters: Filters)
    ensures Visible(data, filters) == Filter(data, Passing(filters))
    ensures IsSubsequence(Visible(data, filters), data)
  {
    var search, kind := filters.search != "", filters.contentType != "all";
    var bySearch := if search then Filter(data, TitleMatches(filters.search)) else data;
    var byKind := if kind then Filter(bySearch, OfKind(filters.contentType)) else bySearch;
    var searchKind := (item: Item) => (search ==> TitleMatches(filters.search)(item))
                                      && (kind ==> OfKind(filters.contentType)(item));
    if search && kind {
      FilterFilter(data, TitleMatches(filters.search), OfKind(filters.contentType), searchKind);
    } else if search {
      FilterSame(data, TitleMatches(filters.search), searchKind);
    } else if kind {
      FilterSame(data, OfKind(filters.contentType), searchKind);
    } else {
      FilterAll(data, searchKind);
    }
    assert byKind == Filter(data, searchKind);
    if filters.range.Between? {
      FilterFilter(data, searchKind, filters.range.within, Passing(filters));
    } else {
      FilterSame(data, searchKind, Passing(filters));
    }
    FilterIsSubsequence(data, Passing(filters));
  }

  /** With no search, all sources and no complete range, every record is
      shown. */
  lemma VisibleUnfiltered(data: seq<Item>, filters: Filters)
    requires filters.search == "" && filters.contentType == "all" && !filters.range.Between?
    ensures Visible(data, filters) == data
  {
  }

  /** The export button (`Экспорт CSV`) is offered only for all sources and
      no date range at all, not even an incomplete one. */
  predicate ExportShown(filters: Filters) {
    filters.contentType == "all" && filters.range.NoRange?
  }

  /** When the button is offered, only the title search can narrow the
      table, although the export itself always takes the whole table. */
  lemma ExportShownSpec(data: seq<Item>, filters: Filters)
    requires ExportShown(filters)
    ensures filters.search != "" ==> Visible(data, filters) == Filter(data, TitleMatches(filters.search))
    ensures filters.search == "" ==> Visible(data, filters) == data
  {
  }

  /** The key of the sentiment column's sorter: Positive, Neutral,
      Negative, then anything else. */
  function SentimentRank(sentiment: string): (rank: int)
    ensures 1 <= rank <= 4
    ensures rank == 1 <==> sentiment == "Positive"
    ensures rank == 2 <==> sentiment == "Neutral"
    ensures rank == 3 <==> sentiment == "Negative"
  {
    if sentiment == "Positive" then 1
    else if sentiment == "Neutral" then 2
    else if sentiment == "Negative" then 3
    else 4
  }

  /** The sorter: negative when `a` goes first. */
  function CompareSentiment(a: Item, b: Item): int {
    SentimentRank(a.sentiment) - SentimentRank(b.sentiment)
  }

  /** The sorter is a total preorder: it agrees with itself reversed, every
      pair is ordered one way or both, and the order is transitive. */
  lemma CompareSentimentPreorder(a: Item, b: Item, c: Item)
    ensures CompareSentiment(a, a) == 0
    ensures CompareSentiment(a, b) == -CompareSentiment(b, a)
    ensures CompareSentiment(a, b) <= 0 || CompareSentiment(b, a) <= 0
    ensures CompareSentiment(a, b) <= 0 && CompareSentiment(b, c) <= 0 ==> CompareSentiment(a, c) <= 0
    ensures CompareSentiment(a, b) == 0 <==>
              (a.sentiment == b.sentiment || (SentimentRank(a.sentiment) == 4 && SentimentRank(b.sentiment) == 4))
  {
  }

  /** The records the chart draws: the visible ones, through the date range
      once more. */
  function ChartInput(filtered: seq<Item>, filters: Filters): seq<Item> {
    if filters.range.Between? then Filter(filtered, filters.range.within) else filtered
  }

  /** The second pass of the date range removes nothing. */
  lemma ChartInputVisible(data: seq<Item>, filters: Filters)
    ensures ChartInput(Visible(data, filters), filters) == Visible(data, filters)
  {
    VisibleSpec(data, filters);
    if filters.range.Between? {
      var shown := Visible(data, filters);
      forall x | x in shown
        ensures filters.range.within(x)
      {
        var k :| 0 <= k < |shown| && shown[k] == x;
        assert Passing(filters)(shown[k]);
      }
      FilterAll(shown, filters.range.within);
    }
  }

  /** A point of the chart for all sources: one day's records. */
  datatype Bin = Bin(date: string, views: int, likes: int, reposts: int, count: nat)

  /** The position of the day's bin, or the number of bins when it has none. */
  function BinSlot(bins: seq<Bin>, date: string): (i: nat)
    decreases |bins|
    ensures i <= |bins|
    ensures i < |bins| ==> bins[i].date == date
    ensures forall j :: 0 <= j < i ==> bins[j].date != date
  {
    if |bins| == 0 then 0
    else if bins[0].date == date then 0
    else 1 + BinSlot(bins[1..], date)
  }

  /** One step of the `reduce`: the record joins its day's bin, opened when
      the day is new. */
  function AddItem(bins: seq<Bin>, item: Item): (next: seq<Bin>)
    ensures |bins| <= |next| <= |bins| + 1
  {
    var i := BinSlot(bins, item.date);
    if i < |bins| then
      bins[i := Bin(item.date, bins[i].views + item.views, bins[i].likes + item.likes,
                    bins[i].reposts + item.reposts, bins[i].count + 1)]
    else
      bins + [Bin(item.date, item.views, item.likes, item.reposts, 1)]
  }

  /** The bins of the records, in the order their days first appear; the
      chart then sorts them by parsed date. */
  function Bins(items: seq<Item>): (bins: seq<Bin>)
    decreases |items|
    ensures |bins| <= |items|
  {
    if |items| == 0 then [] else AddItem(Bins(items[..|items| - 1]), items[|items| - 1])
  }

  /** The chart: per-day bins for all sources, otherwise one point per
      record (whose engagement percentage is left out). */
  datatype Chart = Aggregated(bins: seq<Bin>) | Points(items: seq<Item>)

  function ChartOf(filtered: seq<Item>, filters: Filters): Chart {
    var input := ChartInput(filtered, filters);
    if filters.contentType == "all" then Aggregated(Bins(input)) else Points(input)
  }

  function OnDate(date: string): Item -> bool {
    (item: Item) => item.date == date
  }

  function ViewsOn(date: string): Item -> int {
    (item: Item) => if item.date == date then item.views else 0
  }

  function LikesOn(date: string): Item -> int {
    (item: Item) => if item.date == date then item.likes else 0
  }

  function RepostsOn(date: string): Item -> int {
    (item: Item) => if item.date == date then item.reposts else 0
  }

  function ItemViews(item: Item): int {
    item.views
  }

  function ItemLikes(item: Item): int {
    item.likes
  }

  function ItemReposts(item: Item): int {
    item.reposts
  }

  function BinViews(b: Bin): int {
    b.views
  }

  function BinLikes(b: Bin): int {
    b.likes
  }

  function BinReposts(b: Bin): int {
    b.reposts
  }

  function BinCount(b: Bin): int {
    b.count
  }

  function DateSet(items: seq<Item>): set<string> {
    set k | 0 <= k < |items| :: items[k].date
  }

  function BinDates(bins: seq<Bin>): set<string> {
    set k | 0 <= k < |bins| :: bins[k].date
  }

  /** The bins as the chart promises them: one per distinct day of the
      records and no other, each holding the number of that day's records
      and the sums of their views, likes and reposts. */
  predicate Binned(items: seq<Item>, bins: seq<Bin>) {
    && (forall i, j :: 0 <= i < j < |bins| ==> bins[i].date != bins[j].date)
    && BinDates(bins) == DateSet(items)
    && forall k :: 0 <= k < |bins| ==>
         && bins[k].count == Count(items, OnDate(bins[k].date))
         && bins[k].views == Sum(items, ViewsOn(bins[k].date))
         && bins[k].likes == Sum(items, LikesOn(bins[k].date))
         && bins[k].reposts == Sum(items, RepostsOn(bins[k].date))
  }

  /** The day's tallies after one more record. */
  lemma DayGrows(items: seq<Item>, x: Item, date: string)
    ensures Count(items + [x], OnDate(date)) == Count(items, OnDate(date)) + (if x.date == date then 1 else 0)
    ensures Sum(items + [x], ViewsOn(date)) == Sum(items, ViewsOn(date)) + (if x.date == date then x.views else 0)
    ensures Sum(items + [x], LikesOn(date)) == Sum(items, LikesOn(date)) + (if x.date == date then x.likes else 0)
    ensures Sum(items + [x], RepostsOn(date)) == Sum(items, RepostsOn(date)) + (if x.date == date then x.reposts else 0)
  {
    assert (items + [x])[..|items|] == items;
  }

  /** A day no record has tallies nothing. */
  lemma NewDay(items: seq<Item>, date: string)
    requires date !in DateSet(items)
    ensures Count(items, OnDate(date)) == 0
    ensures Sum(items, ViewsOn(date)) == 0 && Sum(items, LikesOn(date)) == 0 && Sum(items, RepostsOn(date)) == 0
  {
    assert forall k :: 0 <= k < |items| ==> items[k].date in DateSet(items);
    CountNone(items, OnDate(date));
    SumNone(items, ViewsOn(date));
    SumNone(items, LikesOn(date));
    SumNone(items, RepostsOn(date));
  }

  /** After one step every bin holds its day's tallies over the records so
      far. */
  lemma AddItemTallies(items: seq<Item>, bins: seq<Bin>, x: Item, k: int)
    requires Binned(items, bins)
    requires 0 <= k < |AddItem(bins, x)|
    ensures var next, all := AddItem(bins, x), items + [x];
            && next[k].count == Count(all, OnDate(next[k].date))
            && next[k].views == Sum(all, ViewsOn(next[k].date))
            && next[k].likes == Sum(all, LikesOn(next[k].date))
            && next[k].reposts == Sum(all, RepostsOn(next[k].date))
  {
    var next := AddItem(bins, x);
    var i := BinSlot(bins, x.date);
    DayGrows(items, x, next[k].date);
    if k == |bins| {
      assert x.date !in BinDates(bins);
      NewDay(items, x.date);
    } else if k != i {
      assert next[k] == bins[k];
    }
  }

  /** After one step the bins still have distinct days, which are the
      records' days. */
  lemma AddItemDates(items: seq<Item>, bins: seq<Bin>, x: Item)
    requires Binned(items, bins)
    ensures var next := AddItem(bins, x);
            && (forall i, j :: 0 <= i < j < |next| ==> next[i].date != next[j].date)
            && BinDates(next) == DateSet(items + [x])
  {
    var all, next := items + [x], AddItem(bins, x);
    var i := BinSlot(bins, x.date);
    if i < |bins| {
      assert forall k :: 0 <= k < |bins| ==> next[k].date == bins[k].date;
      assert BinDates(next) == BinDates(bins);
      assert x.date in BinDates(bins);
    } else {
      assert forall k :: 0 <= k < |bins| ==> next[k] == bins[k];
      assert next[|bins|].date == x.date;
      assert BinDates(next) == BinDates(bins) + {x.date};
    }
    assert DateSet(all) == DateSet(items) + {x.date} by {
      assert forall k :: 0 <= k < |items| ==> all[k] == items[k];
      assert all[|items|] == x;
    }
  }

  /** One step of the `reduce` keeps the bins as promised. */
  lemma AddItemBinned(items: seq<Item>, bins: seq<Bin>, x: Item)
    requires Binned(items, bins)
    ensures Binned(items + [x], AddItem(bins, x))
  {
    var all, next := items + [x], AddItem(bins, x);
    forall k | 0 <= k < |next|
      ensures && next[k].count == Count(all, OnDate(next[k].date))
              && next[k].views == Sum(all, ViewsOn(next[k].date))
              && next[k].likes == Sum(all, LikesOn(next[k].date))
              && next[k].reposts == Sum(all, RepostsOn(next[k].date))
    {
      AddItemTallies(items, bins, x, k);
    }
    AddItemDates(items, bins, x);
  }

  /** The `reduce` over the records builds the promised bins. */
  lemma {:induction false} BinsSpec(items: seq<Item>)
    ensures Binned(items, Bins(items))
    decreases |items|
  {
    if |items| > 0 {
      var prefix, x := items[..|items| - 1], items[|items| - 1];
      assert items == prefix + [x];
      BinsSpec(prefix);
      AddItemBinned(prefix, Bins(prefix), x);
    }
  }

  /** One step adds one record to the bins' count and its views, likes
      and reposts to theirs. */
  lemma AddItemSums(bins: seq<Bin>, x: Item)
    ensures Sum(AddItem(bins, x), BinCount) == Sum(bins, BinCount) + 1
    ensures Sum(AddItem(bins, x), BinViews) == Sum(bins, BinViews) + x.views
    ensures Sum(AddItem(bins, x), BinLikes) == Sum(bins, BinLikes) + x.likes
    ensures Sum(AddItem(bins, x), BinReposts) == Sum(bins, BinReposts) + x.reposts
  {
    var i := BinSlot(bins, x.date);
    if i < |bins| {
      var b := Bin(x.date, bins[i].views + x.views, bins[i].likes + x.likes,
                   bins[i].reposts + x.reposts, bins[i].count + 1);
      assert AddItem(bins, x) == bins[i := b];
      SumUpdate(bins, i, b, BinCount);
      SumUpdate(bins, i, b, BinViews);
      SumUpdate(bins, i, b, BinLikes);
      SumUpdate(bins, i, b, BinReposts);
    } else {
      var next := bins + [Bin(x.date, x.views, x.likes, x.reposts, 1)];
      assert AddItem(bins, x) == next;
      assert next[..|bins|] == bins;
    }
  }

  /** Binning loses and invents nothing: the bins' counts add up to the
      number of records, and their views to the records' views. */
  lemma {:induction false} BinsConserve(items: seq<Item>)
    ensures Sum(Bins(items), BinCount) == |items|
    ensures Sum(Bins(items), BinViews) == Sum(items, ItemViews)
    decreases |items|
  {
    if |items| > 0 {
      var prefix, x := items[..|items| - 1], items[|items| - 1];
      BinsConserve(prefix);
      assert Bins(items) == AddItem(Bins(prefix), x);
      AddItemSums(Bins(prefix), x);
      assert Sum(items, ItemViews) == Sum(prefix, ItemViews) + x.views;
    }
  }

  /** Likewise the bins' likes and reposts add up to the records'. */
  lemma {:induction false} BinsConserveReactions(items: seq<Item>)
    ensures Sum(Bins(items), BinLikes) == Sum(items, ItemLikes)
    ensures Sum(Bins(items), BinReposts) == Sum(items, ItemReposts)
    decreases |items|
  {
    if |items| > 0 {
      var prefix, x := items[..|items| - 1], items[|items| - 1];
      BinsConserveReactions(prefix);
      assert Bins(items) == AddItem(Bins(prefix), x);
      AddItemSums(Bins(prefix), x);
      assert Sum(items, ItemLikes) == Sum(prefix, ItemLikes) + x.likes;
      assert Sum(items, ItemReposts) == Sum(prefix, ItemReposts) + x.reposts;
    }
  }

  /** With all sources selected, the chart has one bin per day of the
      visible records, holding that day's count and sums. */
  lemma ChartSpec(data: seq<Item>, filters: Filters)
    requires filters.contentType == "all"
    ensures var shown := Visible(data, filters);
            && ChartOf(shown, filters) == Aggregated(Bins(shown))
            && Binned(shown, ChartOf(shown, filters).bins)
            && Sum(ChartOf(shown, filters).bins, BinCount) == |shown|
            && Sum(ChartOf(shown, filters).bins, BinViews) == Sum(shown, ItemViews)
            && Sum(ChartOf(shown, filters).bins, BinLikes) == Sum(shown, ItemLikes)
            && Sum(ChartOf(shown, filters).bins, BinReposts) == Sum(shown, ItemReposts)
  {
    var shown := Visible(data, filters);
    ChartInputVisible(data, filters);
    BinsSpec(shown);
    BinsConserve(shown);
    BinsConserveReactions(shown);
  }
}
