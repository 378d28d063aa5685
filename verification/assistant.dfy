/** The question answering behind `/chat` and the bot (`get_smart_answer`):
    the exact figures are computed over the table first, so the language
    model only phrases them, and the model is then asked with those figures,
    the last twenty posts and the question. The request is a parameter: what
    the service answers to a brief and a question. */
module Assistant {
  import opened Wrappers
  import opened Seqs
  import opened Records
  import opened Breakdown
  import Enrichment

  /** A line of the recent-posts context: the source, likes and sentiment
      as stored (a missing one is printed as `None`), and the title cut to
      50 characters. */
  datatype Recent = Recent(source: Option<string>, title: string, likes: Option<int>, sentiment: Option<string>)

  /** The figures the prompt carries. */
  datatype Brief = Brief(
    posts: nat,
    totalViews: int,
    topLikeTitle: string,
    maxLikes: int,
    topViewTitle: string,
    maxViews: int,
    recent: seq<Recent>)

  /** The reply: a fixed text for an empty table, the model's content,
      Python's `None` when that content is `null`, the fallback naming the
      most liked title when the service answers other than 200, or the
      error text when anything raises. */
  datatype Answer = NoRecords | Said(text: string) | SaidNothing | Unavailable(topTitle: string) | Failed

  function RecentOf(r: Row): Recent {
    var f := FieldsOf(r);
    Recent(f.source, Take(f.title.GetOr("Без названия"), 50), f.likes, f.sentiment)
  }

  /** `records[-20:]`. */
  function LastRows(rows: seq<Row>): seq<Row> {
    PySlice(rows, -20, |rows|)
  }

  function TitleOf(r: Row): string
    requires r.fields.Some?
  {
    r.fields.value.title.GetOr("Без названия")
  }

  /** The figures of a non-empty table, or `None` when the first row with
      the most likes or the first with the most views has no `fields`: the
      lookup `top['fields']` raises. */
  function BriefOf(rows: seq<Row>): Option<Brief>
    requires rows != []
  {
    var likeTop := rows[ArgMax(rows, LikesOf)];
    var viewTop := rows[ArgMax(rows, ViewsOf)];
    if likeTop.fields.None? || viewTop.fields.None? then None
    else
      var recent := LastRows(rows);
      Some(Brief(|rows|, Sum(rows, ViewsOf), TitleOf(likeTop), LikesOf(likeTop), TitleOf(viewTop), ViewsOf(viewTop),
                 seq(|recent|, k requires 0 <= k < |recent| => RecentOf(recent[k]))))
  }

  /** `get_smart_answer`. */
  function SmartAnswer(rows: seq<Row>, question: string, ask: (Brief, string) -> Enrichment.Reply): (a: Answer)
    ensures a.NoRecords? <==> rows == []
    ensures a.Unavailable? ==> rows != [] && BriefOf(rows).Some? && a.topTitle == BriefOf(rows).value.topLikeTitle
  {
    if rows == [] then NoRecords
    else
      match BriefOf(rows)
      case None => Failed
      case Some(b) =>
        match ask(b, question)
        case Unreachable => Failed
        case Http(status, content) =>
          if status != 200 then Unavailable(b.topLikeTitle)
          else
            match content
            case Text(text) => Said(text)
            case Null => SaidNothing
            case Missing => Failed
  }

  /** Row `i` is the one Python's `max(records, key=f)` returns: no row has
      a larger key and every earlier row a smaller one. */
  predicate FirstLargest(rows: seq<Row>, f: Row -> int, i: int) {
    && 0 <= i < |rows|
    && (forall j :: 0 <= j < |rows| ==> f(rows[j]) <= f(rows[i]))
    && (forall j :: 0 <= j < i ==> f(rows[j]) < f(rows[i]))
  }

  /** Only one row is the first with the largest key. */
  lemma FirstLargestUnique(rows: seq<Row>, f: Row -> int, i: int, j: int)
    requires FirstLargest(rows, f, i) && FirstLargest(rows, f, j)
    ensures i == j
  {
    assert f(rows[i]) == f(rows[j]);
  }

  /** The brief is missing exactly when one of the two top rows, most liked
      or most viewed, has no `fields`. */
  lemma BriefMissing(rows: seq<Row>)
    requires rows != []
    ensures BriefOf(rows).None? <==>
            exists i :: 0 <= i < |rows| && rows[i].fields.None? && (FirstLargest(rows, LikesOf, i) || FirstLargest(rows, ViewsOf, i))
  {
    var l, v := ArgMax(rows, LikesOf), ArgMax(rows, ViewsOf);
    assert FirstLargest(rows, LikesOf, l) && FirstLargest(rows, ViewsOf, v);
    if exists i :: 0 <= i < |rows| && rows[i].fields.None? && (FirstLargest(rows, LikesOf, i) || FirstLargest(rows, ViewsOf, i)) {
      var i :| 0 <= i < |rows| && rows[i].fields.None? && (FirstLargest(rows, LikesOf, i) || FirstLargest(rows, ViewsOf, i));
      if FirstLargest(rows, LikesOf, i) {
        FirstLargestUnique(rows, LikesOf, i, l);
      } else {
        FirstLargestUnique(rows, ViewsOf, i, v);
      }
    }
  }

  /** The brief names the first most liked and the first most viewed row
      with their titles and counts. */
  lemma BriefLeaders(rows: seq<Row>)
    requires rows != [] && BriefOf(rows).Some?
    ensures var b := BriefOf(rows).value;
            && (exists i :: FirstLargest(rows, LikesOf, i) && rows[i].fields.Some?
                            && b.topLikeTitle == TitleOf(rows[i]) && b.maxLikes == LikesOf(rows[i]))
            && (exists i :: FirstLargest(rows, ViewsOf, i) && rows[i].fields.Some?
                            && b.topViewTitle == TitleOf(rows[i]) && b.maxViews == ViewsOf(rows[i]))
  {
    var l, v := ArgMax(rows, LikesOf), ArgMax(rows, ViewsOf);
    assert FirstLargest(rows, LikesOf, l) && FirstLargest(rows, ViewsOf, v);
  }

  /** The brief counts every post and carries the same total of views as
      `/api/stats/overview`. */
  lemma BriefTotals(rows: seq<Row>)
    requires rows != [] && BriefOf(rows).Some?
    ensures BriefOf(rows).value.posts == OverviewOf(rows).totals.count
    ensures BriefOf(rows).value.totalViews == OverviewOf(rows).totals.views
  {
    FoldSums(rows);
  }

  /** The brief lists the last twenty rows, all of them when there are
      fewer, in table order. */
  lemma BriefRecent(rows: seq<Row>)
    requires rows != [] && BriefOf(rows).Some?
    ensures var recent := BriefOf(rows).value.recent;
            && |recent| == (if |rows| < 20 then |rows| else 20)
            && forall k :: 0 <= k < |recent| ==> recent[k] == RecentOf(rows[|rows| - |recent| + k])
  {
  }

  /** Once the brief exists, the answer is the model's content exactly when
      the service answers 200 with a string content; `None` exactly when
      that content is `null`; the fallback naming the most liked title
      exactly when it answers another status; and the error text exactly
      when it cannot be reached or its 200 body has no content key. */
  lemma AnswerSpec(rows: seq<Row>, question: string, ask: (Brief, string) -> Enrichment.Reply)
    requires rows != [] && BriefOf(rows).Some?
    ensures var b := BriefOf(rows).value;
            var reply := ask(b, question);
            var a := SmartAnswer(rows, question, ask);
            && (forall text :: a == Said(text) <==> reply == Enrichment.Http(200, Text(text)))
            && (a == SaidNothing <==> reply == Enrichment.Http(200, Null))
            && (a.Unavailable? <==> reply.Http? && reply.status != 200)
            && (a.Failed? <==> reply.Unreachable? || reply == Enrichment.Http(200, Missing))
  {
  }

  /** Without rows, or when a top row lacks `fields`, the service is not
      asked: the answer does not depend on it. */
  lemma ServiceUnused(rows: seq<Row>, question: string, ask1: (Brief, string) -> Enrichment.Reply,
                      ask2: (Brief, string) -> Enrichment.Reply)
    requires rows == [] || BriefOf(rows).None?
    ensures SmartAnswer(rows, question, ask1) == SmartAnswer(rows, question, ask2)
    ensures SmartAnswer(rows, question, ask1) == if rows == [] then NoRecords else Failed
  {
  }
}
