/** The aggregate endpoints over the content table: `/api/stats/overview`,
    `/api/analytics/sentiment` and `/api/sources/performance`. Each walks the
    rows once, keeps totals, and groups the rows by source in the order the
    sources first appear (a Python dict keeps insertion order, which decides
    the ties of `max`). The three endpoints keep overlapping tallies, so one
    tally `Stats` serves all of them. */
module Breakdown {
  import opened Wrappers
  import opened Seqs
  import opened Records

  /** `fields.get('Источник', 'Unknown')`. */
  function SourceKey(r: Row): string {
    FieldsOf(r).source.GetOr("Unknown")
  }

  /** `fields.get('Тональность', 'Neutral')`. */
  function Tone(r: Row): string {
    FieldsOf(r).sentiment.GetOr("Neutral")
  }

  function ViewsOf(r: Row): int {
    FieldsOf(r).views.GetOr(0)
  }

  function LikesOf(r: Row): int {
    FieldsOf(r).likes.GetOr(0)
  }

  function CommentsOf(r: Row): int {
    FieldsOf(r).comments.GetOr(0)
  }

  function ToneIs(name: string): Row -> bool {
    (r: Row) => Tone(r) == name
  }

  /** Views plus likes of the rows with the given sentiment, 0 for the others. */
  function EngagementIn(name: string): Row -> int {
    (r: Row) => if Tone(r) == name then ViewsOf(r) + LikesOf(r) else 0
  }

  function FromSource(key: string): Row -> bool {
    (r: Row) => SourceKey(r) == key
  }

  /** The three sentiments the endpoints count, in the order of their dicts. */
  const Tones := ["Positive", "Negative", "Neutral"]

  /** The tallies of a run of rows: how many, the sums of the three counted
      metrics, how many rows carry each sentiment, the per-source `total`
      of the sentiment breakdown, and views plus likes per sentiment. */
  datatype Stats = Stats(
    count: int,
    views: int,
    likes: int,
    comments: int,
    positive: int,
    negative: int,
    neutral: int,
    judged: int,
    positiveEngagement: int,
    negativeEngagement: int,
    neutralEngagement: int)

  const Zero := Stats(0, 0, 0, 0, 0, 0, 0, 0, 0, 0, 0)

  function Plus(a: Stats, b: Stats): Stats {
    Stats(a.count + b.count, a.views + b.views, a.likes + b.likes, a.comments + b.comments,
          a.positive + b.positive, a.negative + b.negative, a.neutral + b.neutral,
          a.judged + b.judged, a.positiveEngagement + b.positiveEngagement,
          a.negativeEngagement + b.negativeEngagement, a.neutralEngagement + b.neutralEngagement)
  }

  function Indicator(b: bool): int {
    if b then 1 else 0
  }

  /** What one row adds. The per-source sentiment dict has the keys of the
      three sentiments and `total`; a row whose sentiment is a key adds 1
      under it and 1 under `total`, so a row with the sentiment `total`
      adds 2 to `total`. */
  function Contribution(r: Row): Stats {
    var tone, engagement := Tone(r), ViewsOf(r) + LikesOf(r);
    Stats(1, ViewsOf(r), LikesOf(r), CommentsOf(r),
          Indicator(tone == "Positive"), Indicator(tone == "Negative"), Indicator(tone == "Neutral"),
          if tone in Tones then 1 else if tone == "total" then 2 else 0,
          if tone == "Positive" then engagement else 0,
          if tone == "Negative" then engagement else 0,
          if tone == "Neutral" then engagement else 0)
  }

  /** The tallies of a run of rows, accumulated in row order. */
  function Fold(rows: seq<Row>): Stats
    decreases |rows|
  {
    if |rows| == 0 then Zero else Plus(Fold(rows[..|rows| - 1]), Contribution(rows[|rows| - 1]))
  }

  /** The tallies of two runs add up. */
  lemma {:induction false} FoldAppend(a: seq<Row>, b: seq<Row>)
    ensures Fold(a + b) == Plus(Fold(a), Fold(b))
    decreases |b|
  {
    if |b| == 0 {
      assert a + b == a;
    } else {
      FoldAppend(a, b[..|b| - 1]);
      assert (a + b)[..|a + b| - 1] == a + b[..|b| - 1];
    }
  }

  /** Each tally is a count or a sum over the rows: the rows, their
      metrics, the rows of each sentiment, and views plus likes per
      sentiment; the per-source `total` counts the rows with one of the
      three sentiments, and twice those with the sentiment `total`. */
  lemma {:induction false} FoldSums(rows: seq<Row>)
    ensures var s := Fold(rows);
            && s.count == |rows|
            && s.views == Sum(rows, ViewsOf) && s.likes == Sum(rows, LikesOf) && s.comments == Sum(rows, CommentsOf)
            && s.positive == Count(rows, ToneIs("Positive"))
            && s.negative == Count(rows, ToneIs("Negative"))
            && s.neutral == Count(rows, ToneIs("Neutral"))
            && s.judged == s.positive + s.negative + s.neutral + 2 * Count(rows, ToneIs("total"))
            && s.positiveEngagement == Sum(rows, EngagementIn("Positive"))
            && s.negativeEngagement == Sum(rows, EngagementIn("Negative"))
            && s.neutralEngagement == Sum(rows, EngagementIn("Neutral"))
    decreases |rows|
  {
    if |rows| > 0 {
      FoldSums(rows[..|rows| - 1]);
    }
  }

  /** An entry of a source's `posts` list in `/api/sources/performance`. */
  datatype Line = Line(title: string, views: int, likes: int, sentiment: string, date: string)

  function LineOf(r: Row): Line {
    var f := FieldsOf(r);
    Line(f.title.GetOr(""), ViewsOf(r), LikesOf(r), Tone(r), f.date.GetOr(""))
  }

  function Lines(rows: seq<Row>): (lines: seq<Line>)
    ensures |lines| == |rows|
  {
    seq(|rows|, k requires 0 <= k < |rows| => LineOf(rows[k]))
  }

  /** The tallies and the post lines of one source. */
  datatype Group = Group(source: string, stats: Stats, lines: seq<Line>)

  /** The position of the source's group, or the number of groups when it
      has none yet. */
  function Slot(groups: seq<Group>, key: string): (i: nat)
    decreases |groups|
    ensures i <= |groups|
    ensures i < |groups| ==> groups[i].source == key
    ensures forall j :: 0 <= j < i ==> groups[j].source != key
  {
    if |groups| == 0 then 0
    else if groups[0].source == key then 0
    else 1 + Slot(groups[1..], key)
  }

  /** One step of the loop: the row's source group takes the row, and a
      source met for the first time opens a group at the end. */
  function AddRow(groups: seq<Group>, r: Row): (next: seq<Group>)
    ensures |groups| <= |next| <= |groups| + 1
  {
    var key := SourceKey(r);
    var i := Slot(groups, key);
    if i < |groups| then
      groups[i := Group(key, Plus(groups[i].stats, Contribution(r)), groups[i].lines + [LineOf(r)])]
    else
      groups + [Group(key, Contribution(r), [LineOf(r)])]
  }

  /** The groups after the loop over all rows. */
  function Tally(rows: seq<Row>): (groups: seq<Group>)
    decreases |rows|
    ensures |groups| <= |rows|
    ensures |rows| > 0 ==> |groups| > 0
  {
    if |rows| == 0 then [] else AddRow(Tally(rows[..|rows| - 1]), rows[|rows| - 1])
  }

  predicate DistinctSources(groups: seq<Group>) {
    forall i, j :: 0 <= i < j < |groups| ==> groups[i].source != groups[j].source
  }

  function SourceSet(groups: seq<Group>): set<string> {
    set k | 0 <= k < |groups| :: groups[k].source
  }

  /** The sources the rows name, `Unknown` standing for a missing one. */
  function KeySet(rows: seq<Row>): set<string> {
    set i | 0 <= i < |rows| :: SourceKey(rows[i])
  }

  /** The position of the first row of the source, or the number of rows
      when there is none. */
  function FirstRow(rows: seq<Row>, key: string): (i: nat)
    decreases |rows|
    ensures i <= |rows|
    ensures i < |rows| ==> SourceKey(rows[i]) == key
    ensures forall j :: 0 <= j < i ==> SourceKey(rows[j]) != key
  {
    if |rows| == 0 then 0
    else if SourceKey(rows[0]) == key then 0
    else 1 + FirstRow(rows[1..], key)
  }

  /** The groups come in the order of their sources' first rows. */
  predicate FirstSeenOrder(rows: seq<Row>, groups: seq<Group>) {
    forall k, l :: 0 <= k < l < |groups| ==> FirstRow(rows, groups[k].source) < FirstRow(rows, groups[l].source)
  }

  /** Each group holds the tallies and the lines of exactly its source's
      rows, in row order. */
  predicate RunsHeld(rows: seq<Row>, groups: seq<Group>) {
    forall k :: 0 <= k < |groups| ==>
      && groups[k].stats == Fold(Filter(rows, FromSource(groups[k].source)))
      && groups[k].lines == Lines(Filter(rows, FromSource(groups[k].source)))
  }

  /** The groups as the endpoints promise them: one per source named by a
      row and none else, in the order the sources first appear, each
      holding exactly its source's rows. */
  predicate Grouped(rows: seq<Row>, groups: seq<Group>) {
    && DistinctSources(groups)
    && SourceSet(groups) == KeySet(rows)
    && FirstSeenOrder(rows, groups)
    && RunsHeld(rows, groups)
  }

  /** Appending a row to a run extends its tallies and lines by the row. */
  lemma RunGrows(run: seq<Row>, r: Row)
    ensures Fold(run + [r]) == Plus(Fold(run), Contribution(r))
    ensures Lines(run + [r]) == Lines(run) + [LineOf(r)]
  {
    assert (run + [r])[..|run|] == run;
  }

  /** A source no row names has no rows. */
  lemma NoRowsOf(rows: seq<Row>, key: string)
    requires key !in KeySet(rows)
    ensures Filter(rows, FromSource(key)) == []
  {
  }

  /** A source's first row stays first when a row is appended; a source
      named only by the appended row has it as its first. */
  lemma {:induction false} FirstRowExtend(rows: seq<Row>, r: Row, key: string)
    ensures FirstRow(rows + [r], key)
            == if FirstRow(rows, key) < |rows| then FirstRow(rows, key)
               else if SourceKey(r) == key then |rows| else |rows| + 1
    decreases |rows|
  {
    if |rows| > 0 {
      assert (rows + [r])[1..] == rows[1..] + [r];
      FirstRowExtend(rows[1..], r, key);
    }
  }

  /** A source has a first row exactly when some row names it. */
  lemma FirstRowFound(rows: seq<Row>, key: string)
    ensures FirstRow(rows, key) < |rows| <==> key in KeySet(rows)
  {
    if key in KeySet(rows) {
      var i :| 0 <= i < |rows| && SourceKey(rows[i]) == key;
    }
  }

  lemma AddRowDistinct(groups: seq<Group>, r: Row)
    requires DistinctSources(groups)
    ensures DistinctSources(AddRow(groups, r))
  {
  }

  lemma AddRowSources(rows: seq<Row>, groups: seq<Group>, r: Row)
    requires SourceSet(groups) == KeySet(rows)
    ensures SourceSet(AddRow(groups, r)) == KeySet(rows + [r])
  {
    var all, next, key := rows + [r], AddRow(groups, r), SourceKey(r);
    assert SourceSet(next) == SourceSet(groups) + {key} by {
      if Slot(groups, key) < |groups| {
        assert forall k :: 0 <= k < |groups| ==> next[k].source == groups[k].source;
      } else {
        assert forall k :: 0 <= k < |groups| ==> next[k] == groups[k];
        assert next[|groups|].source == key;
      }
    }
    assert KeySet(all) == KeySet(rows) + {key} by {
      assert forall i :: 0 <= i < |rows| ==> all[i] == rows[i];
      assert all[|rows|] == r;
    }
  }

  lemma AddRowOrder(rows: seq<Row>, groups: seq<Group>, r: Row)
    requires SourceSet(groups) == KeySet(rows) && FirstSeenOrder(rows, groups)
    ensures FirstSeenOrder(rows + [r], AddRow(groups, r))
  {
    var next, key := AddRow(groups, r), SourceKey(r);
    forall k | 0 <= k < |groups|
      ensures FirstRow(rows + [r], groups[k].source) == FirstRow(rows, groups[k].source) < |rows|
    {
      assert groups[k].source in SourceSet(groups);
      FirstRowFound(rows, groups[k].source);
      FirstRowExtend(rows, r, groups[k].source);
    }
    if Slot(groups, key) < |groups| {
      assert forall k :: 0 <= k < |groups| ==> next[k].source == groups[k].source;
    } else {
      assert forall k :: 0 <= k < |groups| ==> next[k] == groups[k];
      assert key !in SourceSet(groups);
      FirstRowFound(rows, key);
      FirstRowExtend(rows, r, key);
    }
  }

  /** The rows of the appended row's source gain it at the end. */
  lemma RunWith(rows: seq<Row>, r: Row)
    ensures Filter(rows + [r], FromSource(SourceKey(r))) == Filter(rows, FromSource(SourceKey(r))) + [r]
  {
    FilterAppend(rows, [r], FromSource(SourceKey(r)));
    assert Filter([r], FromSource(SourceKey(r))) == [r];
  }

  /** The rows of any other source are unchanged. */
  lemma RunWithout(rows: seq<Row>, r: Row, key: string)
    requires SourceKey(r) != key
    ensures Filter(rows + [r], FromSource(key)) == Filter(rows, FromSource(key))
  {
    FilterAppend(rows, [r], FromSource(key));
    assert Filter([r], FromSource(key)) == [];
    assert Filter(rows, FromSource(key)) + [] == Filter(rows, FromSource(key));
  }

  /** A source met for the first time has the appended row alone. */
  lemma NewRun(rows: seq<Row>, r: Row)
    requires SourceKey(r) !in KeySet(rows)
    ensures Fold(Filter(rows + [r], FromSource(SourceKey(r)))) == Contribution(r)
    ensures Lines(Filter(rows + [r], FromSource(SourceKey(r)))) == [LineOf(r)]
  {
    RunWith(rows, r);
    NoRowsOf(rows, SourceKey(r));
    RunGrows([], r);
    assert [] + [r] == [r];
  }

  /** A group of the appended row's source grows by the row. */
  lemma GrownRun(rows: seq<Row>, r: Row, g: Group)
    requires g.stats == Fold(Filter(rows, FromSource(SourceKey(r))))
    requires g.lines == Lines(Filter(rows, FromSource(SourceKey(r))))
    ensures Plus(g.stats, Contribution(r)) == Fold(Filter(rows + [r], FromSource(SourceKey(r))))
    ensures g.lines + [LineOf(r)] == Lines(Filter(rows + [r], FromSource(SourceKey(r))))
  {
    RunWith(rows, r);
    RunGrows(Filter(rows, FromSource(SourceKey(r))), r);
  }

  /** One group after a step holds its source's rows, the appended row
      included when it names the source. */
  lemma AddRowRun(rows: seq<Row>, groups: seq<Group>, r: Row, k: int)
    requires DistinctSources(groups) && SourceSet(groups) == KeySet(rows) && RunsHeld(rows, groups)
    requires 0 <= k < |AddRow(groups, r)|
    ensures var g := AddRow(groups, r)[k];
            && g.stats == Fold(Filter(rows + [r], FromSource(g.source)))
            && g.lines == Lines(Filter(rows + [r], FromSource(g.source)))
  {
    var key, next := SourceKey(r), AddRow(groups, r);
    var i := Slot(groups, key);
    if k == i && i == |groups| {
      assert key !in SourceSet(groups);
      NewRun(rows, r);
    } else if k == i {
      GrownRun(rows, r, groups[i]);
    } else {
      assert next[k] == groups[k];
      RunWithout(rows, r, groups[k].source);
    }
  }

  lemma AddRowRuns(rows: seq<Row>, groups: seq<Group>, r: Row)
    requires DistinctSources(groups) && SourceSet(groups) == KeySet(rows) && RunsHeld(rows, groups)
    ensures RunsHeld(rows + [r], AddRow(groups, r))
  {
    forall k | 0 <= k < |AddRow(groups, r)|
      ensures var g := AddRow(groups, r)[k];
              && g.stats == Fold(Filter(rows + [r], FromSource(g.source)))
              && g.lines == Lines(Filter(rows + [r], FromSource(g.source)))
    {
      AddRowRun(rows, groups, r, k);
    }
  }

  /** The loop over the rows builds the promised groups. */
  lemma {:induction false} TallyGrouped(rows: seq<Row>)
    ensures Grouped(rows, Tally(rows))
    decreases |rows|
  {
    if |rows| > 0 {
      var prefix, r := rows[..|rows| - 1], rows[|rows| - 1];
      assert rows == prefix + [r];
      TallyGrouped(prefix);
      var groups := Tally(prefix);
      AddRowDistinct(groups, r);
      AddRowSources(prefix, groups, r);
      AddRowOrder(prefix, groups, r);
      AddRowRuns(prefix, groups, r);
    }
  }

  /** The tallies of all groups together. */
  function GroupsTotal(groups: seq<Group>): Stats
    decreases |groups|
  {
    if |groups| == 0 then Zero else Plus(GroupsTotal(groups[..|groups| - 1]), groups[|groups| - 1].stats)
  }

  /** Adding to one group adds to the total. */
  lemma {:induction false} GroupsTotalUpdate(groups: seq<Group>, i: nat, g: Group, c: Stats)
    requires i < |groups| && g.stats == Plus(groups[i].stats, c)
    ensures GroupsTotal(groups[i := g]) == Plus(GroupsTotal(groups), c)
    decreases |groups|
  {
    var n := |groups| - 1;
    var updated := groups[i := g];
    if i < n {
      GroupsTotalUpdate(groups[..n], i, g, c);
      assert updated[..n] == groups[..n][i := g];
    } else {
      assert updated[..n] == groups[..n];
    }
  }

  /** Grouping by source loses and invents nothing: the groups' tallies add
      up to those of the whole table. */
  lemma {:induction false} TallyConserves(rows: seq<Row>)
    ensures GroupsTotal(Tally(rows)) == Fold(rows)
    decreases |rows|
  {
    if |rows| > 0 {
      var prefix, r := rows[..|rows| - 1], rows[|rows| - 1];
      TallyConserves(prefix);
      var groups := Tally(prefix);
      var i := Slot(groups, SourceKey(r));
      if i < |groups| {
        GroupsTotalUpdate(groups, i, Group(SourceKey(r), Plus(groups[i].stats, Contribution(r)),
                                           groups[i].lines + [LineOf(r)]), Contribution(r));
      } else {
        var next := groups + [Group(SourceKey(r), Contribution(r), [LineOf(r)])];
        assert next[..|groups|] == groups;
      }
    }
  }

  /** A group's tallies are the counts and sums over its source's rows. */
  lemma GroupFigures(rows: seq<Row>, groups: seq<Group>, k: int)
    requires RunsHeld(rows, groups) && 0 <= k < |groups|
    ensures var run, s := Filter(rows, FromSource(groups[k].source)), groups[k].stats;
            && s.count == |run|
            && s.views == Sum(run, ViewsOf) && s.likes == Sum(run, LikesOf) && s.comments == Sum(run, CommentsOf)
            && s.positive == Count(run, ToneIs("Positive"))
            && s.judged == Count(run, ToneIs("Positive")) + Count(run, ToneIs("Negative"))
                           + Count(run, ToneIs("Neutral")) + 2 * Count(run, ToneIs("total"))
  {
    FoldSums(Filter(rows, FromSource(groups[k].source)));
  }

  /** A table with rows has at least one group. */
  lemma TallyNonEmpty(rows: seq<Row>)
    requires rows != []
    ensures |Tally(rows)| > 0
  {
    TallyGrouped(rows);
    assert SourceKey(rows[0]) in KeySet(rows);
  }

  /** The source Python's `max(sources.items(), key=...)` names: the first
      group with the largest key, or `N/A` without groups. */
  function Leader(groups: seq<Group>, key: Group -> int): string {
    if |groups| == 0 then "N/A" else groups[ArgMax(groups, key)].source
  }

  /** Without groups the leader is `N/A`; otherwise it is the source of a
      group whose key no group exceeds and which every earlier group falls
      short of. */
  lemma LeaderSpec(groups: seq<Group>, key: Group -> int)
    ensures |groups| == 0 ==> Leader(groups, key) == "N/A"
    ensures |groups| > 0 ==>
              exists k :: 0 <= k < |groups| && Leader(groups, key) == groups[k].source
                          && (forall j :: 0 <= j < |groups| ==> key(groups[j]) <= key(groups[k]))
                          && (forall j :: 0 <= j < k ==> key(groups[j]) < key(groups[k]))
  {
    if |groups| > 0 {
      var k := ArgMax(groups, key);
      assert Leader(groups, key) == groups[k].source;
    }
  }

  function GroupLikes(g: Group): int {
    g.stats.likes
  }

  function GroupPositive(g: Group): int {
    g.stats.positive
  }

  function GroupCount(g: Group): int {
    g.stats.count
  }

  /** `/api/stats/overview`: a message for an empty table; otherwise the
      totals, the groups, the source with the most likes and the larger of
      the two headline metrics. */
  datatype Overview = NoData | Overview(totals: Stats, sources: seq<Group>, mostEngaging: string, topMetric: string)

  function OverviewOf(rows: seq<Row>): (o: Overview)
    ensures o.NoData? <==> rows == []
  {
    if rows == [] then NoData
    else
      var totals := Fold(rows);
      Overview(totals, Tally(rows), Leader(Tally(rows), GroupLikes),
               if totals.views > totals.likes then "Просмотры" else "Лайки")
  }

  /** For a non-empty table the overview counts every row, sums the
      metrics over the rows, groups them by source as promised, names a
      source with the most likes, and names views the top metric exactly
      when the views exceed the likes. */
  lemma OverviewSpec(rows: seq<Row>)
    requires rows != []
    ensures var o := OverviewOf(rows);
            && o.totals.count == |rows|
            && o.totals.views == Sum(rows, ViewsOf) && o.totals.likes == Sum(rows, LikesOf)
            && o.totals.comments == Sum(rows, CommentsOf)
            && o.totals.positive == Count(rows, ToneIs("Positive"))
            && Grouped(rows, o.sources) && GroupsTotal(o.sources) == o.totals
            && (exists k :: 0 <= k < |o.sources| && o.mostEngaging == o.sources[k].source
                  && forall j :: 0 <= j < |o.sources| ==> o.sources[j].stats.likes <= o.sources[k].stats.likes)
            && (o.topMetric == "Просмотры" <==> Sum(rows, ViewsOf) > Sum(rows, LikesOf))
  {
    FoldSums(rows);
    TallyGrouped(rows);
    TallyConserves(rows);
    LeaderSpec(Tally(rows), GroupLikes);
  }

  function ToneCount(s: Stats, name: string): int {
    if name == "Positive" then s.positive else if name == "Negative" then s.negative else s.neutral
  }

  /** `dominant_sentiment`: the first of the three sentiments with the
      largest count. */
  function Dominant(s: Stats): (name: string)
    ensures name in Tones
    ensures forall t :: t in Tones ==> ToneCount(s, t) <= ToneCount(s, name)
  {
    Tones[ArgMax(Tones, (t: string) => ToneCount(s, t))]
  }

  /** A tie goes to the sentiment listed first. */
  lemma DominantTies(s: Stats)
    ensures Dominant(s) == "Negative" ==> s.positive < s.negative
    ensures Dominant(s) == "Neutral" ==> s.positive < s.neutral && s.negative < s.neutral
  {
    var i := ArgMax(Tones, (t: string) => ToneCount(s, t));
    assert Tones[0] == "Positive" && Tones[1] == "Negative" && Tones[2] == "Neutral";
  }

  /** `/api/analytics/sentiment`. */
  datatype SentimentReport = SentimentReport(
    totals: Stats,
    bySource: seq<Group>,
    dominant: string,
    mostPositive: string,
    trend: string)

  function SentimentReportOf(rows: seq<Row>): (report: SentimentReport)
    ensures report.dominant in Tones
    ensures report.trend == "Positive" <==> report.totals.positiveEngagement > report.totals.negativeEngagement
    ensures report.trend != "Positive" ==> report.trend == "Neutral"
  {
    var totals := Fold(rows);
    SentimentReport(totals, Tally(rows), Dominant(totals), Leader(Tally(rows), GroupPositive),
                    if totals.positiveEngagement > totals.negativeEngagement then "Positive" else "Neutral")
  }

  /** The sentiment counts and engagement are those of the rows; a source's
      `total` is the number of its rows with one of the three sentiments
      (a row with the sentiment `total` counting twice). */
  lemma SentimentReportSpec(rows: seq<Row>)
    ensures var report := SentimentReportOf(rows);
            && report.totals.positive == Count(rows, ToneIs("Positive"))
            && report.totals.negative == Count(rows, ToneIs("Negative"))
            && report.totals.neutral == Count(rows, ToneIs("Neutral"))
            && report.totals.positiveEngagement == Sum(rows, EngagementIn("Positive"))
            && report.totals.negativeEngagement == Sum(rows, EngagementIn("Negative"))
            && Grouped(rows, report.bySource)
            && (forall k :: 0 <= k < |report.bySource| ==>
                  var g := report.bySource[k];
                  var run := Filter(rows, FromSource(g.source));
                  g.stats.judged == Count(run, ToneIs("Positive")) + Count(run, ToneIs("Negative"))
                                    + Count(run, ToneIs("Neutral")) + 2 * Count(run, ToneIs("total")))
  {
    FoldSums(rows);
    var groups := Tally(rows);
    TallyGrouped(rows);
    forall k | 0 <= k < |groups|
      ensures var run := Filter(rows, FromSource(groups[k].source));
              groups[k].stats.judged == Count(run, ToneIs("Positive")) + Count(run, ToneIs("Negative"))
                                        + Count(run, ToneIs("Neutral")) + 2 * Count(run, ToneIs("total"))
    {
      GroupFigures(rows, groups, k);
    }
  }

  /** The source named most positive is `N/A` without rows and otherwise
      one with no fewer positive rows than any other. */
  lemma SentimentLeader(rows: seq<Row>)
    ensures var report := SentimentReportOf(rows);
            && (rows == [] ==> report.mostPositive == "N/A")
            && (rows != [] ==>
                  exists k :: 0 <= k < |report.bySource| && report.mostPositive == report.bySource[k].source
                              && forall j :: 0 <= j < |report.bySource| ==>
                                   report.bySource[j].stats.positive <= report.bySource[k].stats.positive)
  {
    if rows != [] {
      var groups := Tally(rows);
      TallyNonEmpty(rows);
      var k := ArgMax(groups, GroupPositive);
      var report := SentimentReportOf(rows);
      assert report.bySource == groups;
      assert report.mostPositive == Leader(groups, GroupPositive) == groups[k].source;
      forall j | 0 <= j < |groups|
        ensures groups[j].stats.positive <= groups[k].stats.positive
      {
        assert GroupPositive(groups[j]) <= GroupPositive(groups[k]);
      }
    }
  }

  /** `/api/sources/performance`: the groups and the most active source;
      the rates and the leaders by rate are left to floating point. */
  datatype Performance = Performance(bySource: seq<Group>, mostActive: string)

  function PerformanceOf(rows: seq<Row>): (p: Performance)
    ensures |p.bySource| <= |rows|
  {
    Performance(Tally(rows), Leader(Tally(rows), GroupCount))
  }

  /** Every source's post count, sums, sentiment counts and post lines are
      those of its rows; the post counts add up to the number of rows. */
  lemma PerformanceSpec(rows: seq<Row>)
    ensures var p := PerformanceOf(rows);
            && Grouped(rows, p.bySource)
            && (forall k :: 0 <= k < |p.bySource| ==>
                  var run := Filter(rows, FromSource(p.bySource[k].source));
                  && p.bySource[k].stats.count == |run|
                  && p.bySource[k].stats.views == Sum(run, ViewsOf)
                  && p.bySource[k].stats.likes == Sum(run, LikesOf)
                  && p.bySource[k].stats.comments == Sum(run, CommentsOf)
                  && p.bySource[k].stats.positive == Count(run, ToneIs("Positive")))
            && GroupsTotal(p.bySource).count == |rows|
  {
    var groups := Tally(rows);
    TallyGrouped(rows);
    TallyConserves(rows);
    FoldSums(rows);
    forall k | 0 <= k < |groups|
      ensures var run := Filter(rows, FromSource(groups[k].source));
              && groups[k].stats.count == |run|
              && groups[k].stats.views == Sum(run, ViewsOf)
              && groups[k].stats.likes == Sum(run, LikesOf)
              && groups[k].stats.comments == Sum(run, CommentsOf)
              && groups[k].stats.positive == Count(run, ToneIs("Positive"))
    {
      GroupFigures(rows, groups, k);
    }
  }

  /** The most active source is `N/A` without rows and otherwise one with
      no fewer rows than any other. */
  lemma PerformanceLeader(rows: seq<Row>)
    ensures var p := PerformanceOf(rows);
            && (rows == [] ==> p.mostActive == "N/A")
            && (rows != [] ==>
                  exists k :: 0 <= k < |p.bySource| && p.mostActive == p.bySource[k].source
                              && forall j :: 0 <= j < |p.bySource| ==> p.bySource[j].stats.count <= p.bySource[k].stats.count)
  {
    if rows != [] {
      var groups := Tally(rows);
      TallyNonEmpty(rows);
      var k := ArgMax(groups, GroupCount);
      var p := PerformanceOf(rows);
      assert p.bySource == groups;
      assert p.mostActive == Leader(groups, GroupCount) == groups[k].source;
      forall j | 0 <= j < |groups|
        ensures groups[j].stats.count <= groups[k].stats.count
      {
        assert GroupCount(groups[j]) <= GroupCount(groups[k]);
      }
    }
  }
}
