/** The YouTube connector (`fetch_youtube` with `get_real_channel_id`): a
    configured handle is turned into a channel id, the five latest videos
    of the channel are searched, a video whose permalink is stored is
    skipped, and the statistics of every other video are requested; a
    failed statistics request raises, which abandons the rest of that
    channel. */
module YouTubeConnector {
  import opened Wrappers
  import opened Text
  import opened Seqs
  import opened Records
  import opened Harvest
  import Enrichment

  /** The statistics of a video; a counter the API omits is `None`. */
  datatype Statistics = Statistics(views: Option<int>, likes: Option<int>, comments: Option<int>)

  /** A search result with the statistics request's answer, `None` when
      that request raised. */
  datatype Video = Video(
    id: string,
    title: string,
    description: string,
    published: string,
    stats: Option<Statistics>)

  /** The handle a channel is looked up by: an `@` is put in front unless
      the input already starts with one. */
  function Handle(input: string): (h: string)
    ensures StartsWith(h, "@")
    ensures StartsWith(input, "@") ==> h == input
    ensures !StartsWith(input, "@") ==> h == "@" + input
  {
    if StartsWith(input, "@") then input else "@" + input
  }

  /** Putting the `@` in front is done once: a handle is its own handle. */
  lemma HandleIdempotent(input: string)
    ensures Handle(Handle(input)) == Handle(input)
  {
  }

  /** `get_real_channel_id`: an input starting with `UC` is already a
      channel id; any other input is looked up by its handle, `lookup`
      answering `None` when nothing is found or the request raised. */
  function ChannelId(input: string, lookup: string -> Option<string>): (id: Option<string>)
    ensures StartsWith(input, "UC") ==> id == Some(input)
    ensures !StartsWith(input, "UC") ==> id == lookup(Handle(input))
  {
    if StartsWith(input, "UC") then Some(input) else lookup(Handle(input))
  }

  /** A channel id is never looked up: any two lookups give the same id. */
  lemma ChannelIdIgnoresLookup(input: string, l1: string -> Option<string>, l2: string -> Option<string>)
    requires StartsWith(input, "UC")
    ensures ChannelId(input, l1) == ChannelId(input, l2) == Some(input)
  {
  }

  /** Two inputs that differ only by the leading `@` resolve alike. */
  lemma ChannelIdAt(name: string, lookup: string -> Option<string>)
    requires !StartsWith(name, "@") && !StartsWith(name, "UC")
    ensures ChannelId("@" + name, lookup) == ChannelId(name, lookup)
  {
    var s := "@" + name;
    assert s[..1] == "@";
    assert !StartsWith(s, "UC") by {
      if |s| >= 2 {
        assert s[..2][0] == '@';
      }
    }
  }

  /** The search results of a configured handle: none when no channel id
      (or an empty one) is found, and none when the search raised. */
  function Videos(input: string, lookup: string -> Option<string>, search: string -> seq<Video>): seq<Video> {
    match ChannelId(input, lookup)
    case None => []
    case Some(id) => if id == "" then [] else search(id)
  }

  /** Where every YouTube permalink starts. */
  const Site := "https://www.youtube.com/watch?v="

  /** `https://www.youtube.com/watch?v=<video id>`. */
  function Permalink(v: Video): string {
    Site + v.id
  }

  /** The post built from a video with statistics: the title is analysed,
      and the comment count is written to the reposts column. */
  function VideoPost(v: Video, analyze: string -> Enrichment.Analysis): Post
    requires v.stats.Some?
  {
    var a := analyze(v.title);
    var s := v.stats.value;
    Post(v.title, v.description, Take(v.published, 10), s.views.GetOr(0), s.likes.GetOr(0),
         s.comments.GetOr(0), None, YouTube, Permalink(v), a.sentiment, a.summary)
  }

  function Item(v: Video, analyze: string -> Enrichment.Analysis): Candidate {
    Linked(Permalink(v), if v.stats.None? then Fail else Build(VideoPost(v, analyze)))
  }

  function Targets(targets: seq<string>, lookup: string -> Option<string>, search: string -> seq<Video>,
                   analyze: string -> Enrichment.Analysis): seq<seq<Candidate>>
  {
    Batches(targets, (input: string) => Videos(input, lookup, search), (input, v) => Item(v, analyze))
  }

  /** `fetch_youtube`: nothing without an API key or handles. */
  function Fetch(configured: bool, existing: set<string>, targets: seq<string>,
                 lookup: string -> Option<string>, search: string -> seq<Video>,
                 analyze: string -> Enrichment.Analysis): (out: seq<Post>)
    ensures |out| <= PerTarget * |targets|
    ensures !configured || |targets| == 0 ==> out == []
  {
    if !configured || |targets| == 0 then []
    else Collect(Targets(targets, lookup, search, analyze), existing)
  }

  /** Past the guard, the API client is built outside any `try`: when that
      fails the exception leaves the connector and ends the run that called
      it. `builds` says whether it succeeds. */
  predicate Aborts(configured: bool, builds: bool, targets: seq<string>) {
    configured && |targets| > 0 && !builds
  }

  /** A video that yields a post when it is reached: one of the first five
      found for its handle, with statistics and a permalink not yet stored. */
  predicate Kept(targets: seq<string>, lookup: string -> Option<string>, search: string -> seq<Video>,
                 existing: set<string>, t: int, i: int)
  {
    && 0 <= t < |targets| && 0 <= i < |Videos(targets[t], lookup, search)| && i < PerTarget
    && Videos(targets[t], lookup, search)[i].stats.Some?
    && Permalink(Videos(targets[t], lookup, search)[i]) !in existing
  }

  /** Every post is that of a kept video. */
  lemma FetchOrigin(existing: set<string>, targets: seq<string>, lookup: string -> Option<string>,
                    search: string -> seq<Video>, analyze: string -> Enrichment.Analysis, p: Post)
    requires p in Fetch(true, existing, targets, lookup, search, analyze)
    ensures exists t, i :: Kept(targets, lookup, search, existing, t, i)
                           && p == VideoPost(Videos(targets[t], lookup, search)[i], analyze)
  {
    var batches := Targets(targets, lookup, search, analyze);
    var t, i := CollectWitness(batches, existing, p);
    assert batches[t][i] == Item(Videos(targets[t], lookup, search)[i], analyze);
    assert Kept(targets, lookup, search, existing, t, i);
  }

  /** No earlier video of the handle raised: each had a stored permalink
      or statistics. */
  predicate Unblocked(v: seq<Video>, existing: set<string>, i: int) {
    forall j :: 0 <= j < i && j < |v| ==> Permalink(v[j]) in existing || v[j].stats.Some?
  }

  /** A kept video that is reached yields its post. */
  lemma FetchComplete(existing: set<string>, targets: seq<string>, lookup: string -> Option<string>,
                      search: string -> seq<Video>, analyze: string -> Enrichment.Analysis, t: int, i: int)
    requires Kept(targets, lookup, search, existing, t, i)
    requires Unblocked(Videos(targets[t], lookup, search), existing, i)
    ensures VideoPost(Videos(targets[t], lookup, search)[i], analyze)
            in Fetch(true, existing, targets, lookup, search, analyze)
  {
    var batches := Targets(targets, lookup, search, analyze);
    var videos := Videos(targets[t], lookup, search);
    assert batches[t][i] == Item(videos[i], analyze);
    assert ClearBefore(batches[t], existing, i) by {
      forall j | 0 <= j < i && j < |batches[t]|
        ensures !(Raises(batches[t][j]) && batches[t][j].link !in existing)
      {
        assert batches[t][j] == Item(videos[j], analyze);
      }
    }
    CollectReaches(batches, existing, t, i);
  }

  /** No post duplicates a stored permalink, and every post is a YouTube
      post under the YouTube site. */
  lemma FetchFresh(configured: bool, existing: set<string>, targets: seq<string>,
                   lookup: string -> Option<string>, search: string -> seq<Video>,
                   analyze: string -> Enrichment.Analysis)
    ensures forall p :: p in Fetch(configured, existing, targets, lookup, search, analyze) ==>
              p.link !in existing && StartsWith(p.link, Site) && p.source == YouTube
  {
    if configured && |targets| > 0 {
      var batches := Targets(targets, lookup, search, analyze);
      CollectFresh(batches, existing);
      CollectBuildsOnly(batches, existing, (p: Post) => StartsWith(p.link, Site) && p.source == YouTube);
    }
  }

  /** A handle without a channel id contributes nothing. */
  lemma UnresolvedHandle(existing: set<string>, targets: seq<string>, lookup: string -> Option<string>,
                         search: string -> seq<Video>, analyze: string -> Enrichment.Analysis, t: int)
    requires 0 <= t < |targets|
    requires !StartsWith(targets[t], "UC") && lookup(Handle(targets[t])).None?
    ensures forall p :: p in Fetch(true, existing, targets, lookup, search, analyze) ==>
              exists u, i :: u != t && Kept(targets, lookup, search, existing, u, i)
                             && p == VideoPost(Videos(targets[u], lookup, search)[i], analyze)
  {
    forall p | p in Fetch(true, existing, targets, lookup, search, analyze)
      ensures exists u, i :: u != t && Kept(targets, lookup, search, existing, u, i)
                             && p == VideoPost(Videos(targets[u], lookup, search)[i], analyze)
    {
      FetchOrigin(existing, targets, lookup, search, analyze, p);
    }
  }

  /** Videos sharing a permalink are the same video. */
  predicate Identified(targets: seq<string>, lookup: string -> Option<string>, search: string -> seq<Video>) {
    forall t, u, i, j ::
      0 <= t < |targets| && 0 <= u < |targets|
      && 0 <= i < |Videos(targets[t], lookup, search)| && 0 <= j < |Videos(targets[u], lookup, search)|
      && Permalink(Videos(targets[t], lookup, search)[i]) == Permalink(Videos(targets[u], lookup, search)[j])
      ==> Videos(targets[t], lookup, search)[i] == Videos(targets[u], lookup, search)[j]
  }

  /** When a permalink identifies its video, a second run against the
      stored links plus the first run's posts yields nothing, whatever else
      has been stored meanwhile outside the YouTube site. */
  lemma FetchIdempotent(configured: bool, existing: set<string>, targets: seq<string>,
                        lookup: string -> Option<string>, search: string -> seq<Video>,
                        analyze: string -> Enrichment.Analysis, others: set<string>)
    requires Identified(targets, lookup, search)
    requires forall l :: l in others ==> !StartsWith(l, Site)
    ensures var first := Fetch(configured, existing, targets, lookup, search, analyze);
            Fetch(configured, existing + Links(first) + others, targets, lookup, search, analyze) == []
  {
    if configured && |targets| > 0 {
      var batches := Targets(targets, lookup, search, analyze);
      assert Consistent(batches) by {
        forall t, u, i, j |
          0 <= t < |batches| && 0 <= u < |batches| && 0 <= i < |batches[t]| && 0 <= j < |batches[u]|
          && batches[t][i].Linked? && batches[u][j].Linked? && batches[t][i].link == batches[u][j].link
          ensures batches[t][i].outcome == batches[u][j].outcome
        {
          assert batches[t][i] == Item(Videos(targets[t], lookup, search)[i], analyze);
          assert batches[u][j] == Item(Videos(targets[u], lookup, search)[j], analyze);
        }
      }
      assert Unlisted(batches, others) by {
        forall t, i | 0 <= t < |batches| && 0 <= i < |batches[t]|
          ensures StartsWith(batches[t][i].link, Site)
        {
          assert batches[t][i] == Item(Videos(targets[t], lookup, search)[i], analyze);
        }
      }
      CollectIdempotent(batches, existing, others);
    }
  }
}
