/** The content table as the collector sees it (`MWSTablesAPI`): the set of
    permalinks already stored, read before every run, and the rows a run
    appends. The HTTP exchange is a parameter: the answer to a read. */
module Store {
  import opened Wrappers
  import opened Records
  import opened Harvest
  import opened Seqs

  /** The answer to a read of the table: the request raised, or a status
      with the rows of the body's `data.records` (none when absent). */
  datatype Answer = Raised | Answered(status: int, rows: seq<Row>)

  /** Every row carries a `fields` object. */
  predicate AllHaveFields(rows: seq<Row>) {
    forall i :: 0 <= i < |rows| ==> rows[i].fields.Some?
  }

  /** The `Ссылка` column of a row that has one with a non-empty value. */
  function LinkOf(r: Row): Option<string> {
    if r.fields.Some? && r.fields.value.link.Some? && r.fields.value.link.value != ""
    then r.fields.value.link else None
  }

  /** `get_existing_links`: the non-empty permalinks of a 200 answer. A row
      without `fields` makes the projection raise, which like a raised
      request or any other status gives the empty set. */
  function ExistingLinks(answer: Answer): (links: set<string>)
    ensures "" !in links
    ensures forall l :: l in links ==> answer.Answered? && answer.status == 200
  {
    if answer.Answered? && answer.status == 200 && AllHaveFields(answer.rows)
    then set r | r in answer.rows && LinkOf(r).Some? :: LinkOf(r).value
    else {}
  }

  /** `get_mws_data`: the rows of a 200 answer, and none when the request
      raised or answered with another status. */
  function TableRows(answer: Answer): (rows: seq<Row>)
    ensures answer.Answered? && answer.status == 200 ==> rows == answer.rows
    ensures !(answer.Answered? && answer.status == 200) ==> rows == []
  {
    if answer.Answered? && answer.status == 200 then answer.rows else []
  }

  /** Over one answer of the table read, a permalink is known exactly when
      every row read has `fields` and one of them holds it. */
  lemma ExistingLinksOfRows(answer: Answer, l: string)
    ensures l in ExistingLinks(answer) <==>
            AllHaveFields(TableRows(answer)) && exists r :: r in TableRows(answer) && LinkOf(r) == Some(l)
  {
    if l in ExistingLinks(answer) {
      var r :| r in answer.rows && LinkOf(r).Some? && LinkOf(r).value == l;
    }
    if AllHaveFields(TableRows(answer)) && exists r :: r in TableRows(answer) && LinkOf(r) == Some(l) {
      var r :| r in TableRows(answer) && LinkOf(r) == Some(l);
      assert answer.Answered? && answer.status == 200;
    }
  }

  /** A row that lacks `fields` hides every stored permalink, whatever the
      other rows hold. */
  lemma FieldlessRowHidesAll(rows: seq<Row>, i: int)
    requires 0 <= i < |rows| && rows[i].fields.None?
    ensures ExistingLinks(Answered(200, rows)) == {}
  {
  }

  /** The rows that storing posts adds, one per post, in order. */
  function Appended(posts: seq<Post>): (rows: seq<Row>)
    ensures |rows| == |posts|
    ensures AllHaveFields(rows)
  {
    seq(|posts|, i requires 0 <= i < |posts| => Row(Some(Stored(posts[i]))))
  }

  /** `add_records`: the rows one request sends, or `None` when there are no
      posts and no request is made. */
  function Payload(posts: seq<Post>): (payload: Option<seq<Row>>)
    ensures payload.None? <==> posts == []
  {
    if posts == [] then None else Some(Appended(posts))
  }

  /** Every sent row reads back as the post it was made from. */
  lemma PayloadRecovers(posts: seq<Post>)
    requires posts != []
    ensures var rows := Payload(posts).value;
            |rows| == |posts| && forall i :: 0 <= i < |rows| ==> Recover(FieldsOf(rows[i])) == Some(posts[i])
  {
    forall i | 0 <= i < |posts|
      ensures Recover(FieldsOf(Appended(posts)[i])) == Some(posts[i])
    {
      RecoverStored(posts[i]);
    }
  }

  /** The rows one read of `get_existing_links` sees. The request sends no
      page size and follows no further pages, so of a view holding `rows`
      it sees the first page: the first `page` rows, `page` being the
      service's page size. */
  function FirstPage(rows: seq<Row>, page: nat): (seen: seq<Row>)
    ensures |seen| <= page && seen <= rows
    ensures |rows| <= page ==> seen == rows
  {
    Take(rows, page)
  }

  /** While the table fits in one page, appending the rows of some posts
      with non-empty permalinks to a table whose rows all have `fields`
      makes the next read find the stored permalinks and exactly those
      posts' permalinks. */
  lemma AppendedLinksSeen(rows: seq<Row>, posts: seq<Post>, page: nat)
    requires AllHaveFields(rows)
    requires forall p :: p in posts ==> p.link != ""
    requires |rows| + |posts| <= page
    ensures ExistingLinks(Answered(200, FirstPage(rows + Appended(posts), page)))
            == ExistingLinks(Answered(200, FirstPage(rows, page))) + Links(posts)
  {
    AppendedLinksAll(rows, posts);
  }

  /** Once the table fills a page, appended rows fall outside the read: the
      next read finds the same permalinks as before the append, none of the
      new posts' among them unless already stored. */
  lemma AppendedBeyondPage(rows: seq<Row>, posts: seq<Post>, page: nat)
    requires |rows| >= page
    ensures ExistingLinks(Answered(200, FirstPage(rows + Appended(posts), page)))
            == ExistingLinks(Answered(200, FirstPage(rows, page)))
  {
    assert (rows + Appended(posts))[..page] == rows[..page];
  }

  /** Reading the whole table after an append finds the stored permalinks
      and exactly the appended posts' ones. */
  lemma AppendedLinksAll(rows: seq<Row>, posts: seq<Post>)
    requires AllHaveFields(rows)
    requires forall p :: p in posts ==> p.link != ""
    ensures ExistingLinks(Answered(200, rows + Appended(posts)))
            == ExistingLinks(Answered(200, rows)) + Links(posts)
  {
    var added := Appended(posts);
    var all := rows + added;
    assert AllHaveFields(all) by {
      forall i | 0 <= i < |all|
        ensures all[i].fields.Some?
      {
        if i >= |rows| {
          assert all[i] == added[i - |rows|];
        }
      }
    }
    forall l | l in Links(posts)
      ensures l in ExistingLinks(Answered(200, all))
    {
      var p :| p in posts && p.link == l;
      var i :| 0 <= i < |posts| && posts[i] == p;
      assert all[|rows| + i] == added[i];
      assert LinkOf(all[|rows| + i]) == Some(l);
    }
    forall l | l in ExistingLinks(Answered(200, all))
      ensures l in ExistingLinks(Answered(200, rows)) + Links(posts)
    {
      var r :| r in all && LinkOf(r) == Some(l);
      if r !in rows {
        var i :| 0 <= i < |added| && added[i] == r;
        assert posts[i].link == l;
      }
    }
  }
}
