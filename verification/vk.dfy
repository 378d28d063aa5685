/** The VK connector (`fetch_vk`): for each community the five latest wall
    posts are read; a post whose permalink is stored is skipped, one without
    text is dropped, and a post whose timestamp cannot be converted raises,
    which abandons the rest of that community. */
module VkConnector {
  import opened Wrappers
  import opened Text
  import opened Seqs
  import opened Records
  import opened Harvest
  import Enrichment

  /** A wall post as `wall.get` returns it: `text` is empty when absent,
      `date` is the converted day or `None` when the timestamp cannot be
      converted, and the counters are absent when not reported. */
  datatype WallPost = WallPost(
    owner: int,
    id: int,
    text: string,
    date: Option<string>,
    views: Option<int>,
    likes: Option<int>,
    reposts: Option<int>)

  /** Where every VK permalink starts. */
  const Site := "https://vk.com/wall"

  /** `https://vk.com/wall<owner id>_<post id>`. */
  function Permalink(w: WallPost): string {
    Site + IntToString(w.owner) + "_" + IntToString(w.id)
  }

  /** The post built from a wall post with a converted date. */
  function WallPostOf(w: WallPost, analyze: string -> Enrichment.Analysis): Post
    requires w.date.Some?
  {
    var a := analyze(w.text);
    Post(Headline(w.text), w.text, w.date.value, w.views.GetOr(0), w.likes.GetOr(0),
         w.reposts.GetOr(0), None, VK, Permalink(w), a.sentiment, a.summary)
  }

  /** One wall post: the permalink is formed first, then the text test,
      then the date conversion. */
  function Item(w: WallPost, analyze: string -> Enrichment.Analysis): Candidate {
    Linked(Permalink(w),
           if w.text == "" then Drop
           else if w.date.None? then Fail
           else Build(WallPostOf(w, analyze)))
  }

  function Targets(targets: seq<string>, fetched: string -> seq<WallPost>,
                   analyze: string -> Enrichment.Analysis): seq<seq<Candidate>>
  {
    Batches(targets, fetched, (domain, w) => Item(w, analyze))
  }

  /** `fetch_vk`: nothing without an access token or communities. A
      community whose wall cannot be read is given as no posts. */
  function Fetch(configured: bool, existing: set<string>, targets: seq<string>,
                 fetched: string -> seq<WallPost>, analyze: string -> Enrichment.Analysis): (out: seq<Post>)
    ensures |out| <= PerTarget * |targets|
    ensures !configured || |targets| == 0 ==> out == []
  {
    if !configured || |targets| == 0 then []
    else Collect(Targets(targets, fetched, analyze), existing)
  }

  /** A wall post that yields a post when it is reached: one of the first
      five of its community, with text, a converted date and a permalink not
      yet stored. */
  predicate Kept(targets: seq<string>, fetched: string -> seq<WallPost>, existing: set<string>,
                 t: int, i: int)
  {
    && 0 <= t < |targets| && 0 <= i < |fetched(targets[t])| && i < PerTarget
    && fetched(targets[t])[i].text != "" && fetched(targets[t])[i].date.Some?
    && Permalink(fetched(targets[t])[i]) !in existing
  }

  /** No earlier wall post of the community raised: each had a stored
      permalink, no text, or a converted date. */
  predicate Unblocked(w: seq<WallPost>, existing: set<string>, i: int) {
    forall j :: 0 <= j < i && j < |w| ==> Permalink(w[j]) in existing || w[j].text == "" || w[j].date.Some?
  }

  /** Every post is that of a kept wall post. */
  lemma FetchOrigin(existing: set<string>, targets: seq<string>, fetched: string -> seq<WallPost>,
                    analyze: string -> Enrichment.Analysis, p: Post)
    requires p in Fetch(true, existing, targets, fetched, analyze)
    ensures exists t, i :: Kept(targets, fetched, existing, t, i)
                           && p == WallPostOf(fetched(targets[t])[i], analyze)
  {
    var batches := Targets(targets, fetched, analyze);
    var t, i := CollectWitness(batches, existing, p);
    assert batches[t][i] == Item(fetched(targets[t])[i], analyze);
    assert Kept(targets, fetched, existing, t, i);
  }

  /** A kept wall post that is reached yields its post. */
  lemma FetchComplete(existing: set<string>, targets: seq<string>, fetched: string -> seq<WallPost>,
                      analyze: string -> Enrichment.Analysis, t: int, i: int)
    requires Kept(targets, fetched, existing, t, i)
    requires Unblocked(fetched(targets[t]), existing, i)
    ensures WallPostOf(fetched(targets[t])[i], analyze) in Fetch(true, existing, targets, fetched, analyze)
  {
    var batches := Targets(targets, fetched, analyze);
    assert batches[t][i] == Item(fetched(targets[t])[i], analyze);
    assert ClearBefore(batches[t], existing, i) by {
      forall j | 0 <= j < i && j < |batches[t]|
        ensures !(Raises(batches[t][j]) && batches[t][j].link !in existing)
      {
        assert batches[t][j] == Item(fetched(targets[t])[j], analyze);
      }
    }
    CollectReaches(batches, existing, t, i);
  }

  /** No post duplicates a stored permalink, every post is a VK post under
      the VK site, and none has an empty text. */
  lemma FetchFresh(configured: bool, existing: set<string>, targets: seq<string>,
                   fetched: string -> seq<WallPost>, analyze: string -> Enrichment.Analysis)
    ensures forall p :: p in Fetch(configured, existing, targets, fetched, analyze) ==>
              p.link !in existing && StartsWith(p.link, Site) && p.source == VK && p.text != ""
  {
    if configured && |targets| > 0 {
      var batches := Targets(targets, fetched, analyze);
      CollectFresh(batches, existing);
      CollectBuildsOnly(batches, existing, (p: Post) => StartsWith(p.link, Site) && p.source == VK && p.text != "");
    }
  }

  /** Wall posts sharing a permalink are the same post. */
  predicate Identified(targets: seq<string>, fetched: string -> seq<WallPost>) {
    forall t, u, i, j ::
      0 <= t < |targets| && 0 <= u < |targets| && 0 <= i < |fetched(targets[t])| && 0 <= j < |fetched(targets[u])|
      && Permalink(fetched(targets[t])[i]) == Permalink(fetched(targets[u])[j])
      ==> fetched(targets[t])[i] == fetched(targets[u])[j]
  }

  /** When a permalink identifies its wall post, a second run against the
      stored links plus the first run's posts yields nothing, whatever else
      has been stored meanwhile outside the VK site. */
  lemma FetchIdempotent(configured: bool, existing: set<string>, targets: seq<string>,
                        fetched: string -> seq<WallPost>, analyze: string -> Enrichment.Analysis,
                        others: set<string>)
    requires Identified(targets, fetched)
    requires forall l :: l in others ==> !StartsWith(l, Site)
    ensures var first := Fetch(configured, existing, targets, fetched, analyze);
            Fetch(configured, existing + Links(first) + others, targets, fetched, analyze) == []
  {
    if configured && |targets| > 0 {
      var batches := Targets(targets, fetched, analyze);
      assert Consistent(batches) by {
        forall t, u, i, j |
          0 <= t < |batches| && 0 <= u < |batches| && 0 <= i < |batches[t]| && 0 <= j < |batches[u]|
          && batches[t][i].Linked? && batches[u][j].Linked? && batches[t][i].link == batches[u][j].link
          ensures batches[t][i].outcome == batches[u][j].outcome
        {
          assert batches[t][i] == Item(fetched(targets[t])[i], analyze);
          assert batches[u][j] == Item(fetched(targets[u])[j], analyze);
        }
      }
      assert Unlisted(batches, others) by {
        forall t, i | 0 <= t < |batches| && 0 <= i < |batches[t]|
          ensures StartsWith(batches[t][i].link, Site)
        {
          assert batches[t][i] == Item(fetched(targets[t])[i], analyze);
        }
      }
      CollectIdempotent(batches, existing, others);
    }
  }
}
