/** The Rutube connector (`fetch_rutube_data`): a configured channel,
    given as an id or as a link, is reduced to the id in the link's
    `/channel/` or `/u/` segment; the channel's video list is requested,
    and of its first five videos every one whose permalink is not stored
    becomes a post. */
module RutubeConnector {
  import opened Wrappers
  import opened Text
  import opened Seqs
  import opened Records
  import opened Harvest
  import Enrichment

  /** The path segment after the first `marker`, up to the next `/`
      (`s.split(marker)[1].split("/")[0]`). */
  function Segment(s: string, marker: string): string
    requires |marker| > 0 && Contains(s, marker)
  {
    FirstPiece(SecondPiece(s, marker), "/")
  }

  /** The segment is the slash-free run of characters that starts right
      after the first `marker` and ends at the next `/` or at the end. */
  lemma SegmentSpec(s: string, marker: string)
    requires |marker| > 0 && marker[0] == '/' && Contains(s, marker)
    ensures var at := Find(s, marker).value + |marker|;
            var seg := Segment(s, marker);
            && at + |seg| <= |s| && s[at..at + |seg|] == seg && '/' !in seg
            && (at + |seg| == |s| || s[at + |seg|] == '/')
  {
    var at := Find(s, marker).value + |marker|;
    var rest := s[at..];
    SecondPieceSpec(s, marker);
    var x := FirstPiece(rest, marker);
    FirstPieceSpec(rest, marker);
    var seg := FirstPiece(x, "/");
    FirstPieceSpec(x, "/");
    assert seg == Segment(s, marker);
    forall j | 0 <= j < |seg|
      ensures seg[j] != '/'
    {
      if seg[j] == '/' {
        assert x[j..j + 1] == "/";
        assert OccursAt(x, "/", j);
      }
    }
    match Find(x, "/")
    case Some(f) =>
      assert OccursAt(x, "/", f);
      assert x[f] == s[at + f];
    case None =>
      match Find(rest, marker)
      case Some(k) =>
        assert OccursAt(rest, marker, k);
        assert rest[k..k + |marker|][0] == rest[k];
      case None =>
  }

  /** The cleaning of a configured channel: only a string mentioning
      `rutube.ru` is cut, at `/channel/` in preference to `/u/`; the result
      is stripped of surrounding white space. */
  function Identifier(raw: string): string {
    var cut :=
      if !Contains(raw, "rutube.ru") then raw
      else if Contains(raw, "/channel/") then Segment(raw, "/channel/")
      else if Contains(raw, "/u/") then Segment(raw, "/u/")
      else raw;
    Strip(cut)
  }

  lemma HostInLink()
    ensures OccursAt("https://rutube.ru", "rutube.ru", 8)
  {
    var scheme, host := "https://", "rutube.ru";
    assert scheme + host == "https://rutube.ru";
    assert (scheme + host)[8..17] == host;
  }

  lemma ChannelPrefix()
    ensures "https://rutube.ru" + "/channel/" == "https://rutube.ru/channel/"
  {
  }

  /** In a channel link, what follows the first `/channel/` is the id with
      the trailing `/`. */
  lemma ChannelLinkTail(id: string)
    requires '/' !in id
    ensures var link := "https://rutube.ru/channel/" + id + "/";
            && Contains(link, "rutube.ru") && Contains(link, "/channel/")
            && SecondPiece(link, "/channel/") == id + "/"
  {
    var host := "https://rutube.ru";
    var marker := "/channel/";
    var link := host + marker + (id + "/");
    ChannelPrefix();
    Regroup(host + marker, id, "/");
    HostInLink();
    OccursInPrefix(host, marker + (id + "/"), "rutube.ru", 8);
    Regroup(host, marker, id + "/");
    ContainsIff(link, "rutube.ru");
    assert 'c' !in host + marker[..1];
    FirstOccurrence(host, marker, id + "/", 1);
    NoOccurrenceNearEnd(id, "/", marker);
    SplitAbsent(id + "/", marker);
  }

  /** A channel link cleans to the channel id between `/channel/` and the
      trailing `/`. */
  lemma IdentifierOfChannelLink(id: string)
    requires '/' !in id
    ensures Identifier("https://rutube.ru/channel/" + id + "/") == Strip(id)
  {
    ChannelLinkTail(id);
    SplitSingleChar(id, '/', "");
    assert id + ['/'] + "" == id + "/";
  }

  /** `https://rutube.ru/channel/12345/` cleans to `12345`. */
  lemma IdentifierExample()
    ensures Identifier("https://rutube.ru/channel/" + "12345" + "/") == "12345"
  {
    IdentifierOfChannelLink("12345");
    StripTrimmed("12345");
  }

  /** A video of the channel list; a missing or `null` id reads as `None`,
      as do missing view counts. */
  datatype Video = Video(
    id: Option<string>,
    title: Field,
    description: Field,
    created: Field,
    hits: Option<int>)

  /** Where every Rutube permalink starts. */
  const Site := "https://rutube.ru/video/"

  /** `https://rutube.ru/video/<id>/`, with Python's `None` spelled out
      when the id is missing. */
  function Permalink(v: Video): string {
    Site + v.id.GetOr("None") + "/"
  }

  /** `video.get(key, default)` for a field that is not `null`. */
  function Read(f: Field, default: string): string
    requires !f.Null?
  {
    if f.Text? then f.value else default
  }

  /** A `null` title makes `[:50]` raise, a `null` creation time makes
      `.split` raise. */
  predicate BuildRaises(v: Video) {
    v.title.Null? || v.created.Null?
  }

  /** The description, or the title when the description is empty, missing
      or `null`. */
  function Body(v: Video): string
    requires !BuildRaises(v)
  {
    if v.description.Text? && v.description.value != "" then v.description.value else Read(v.title, "")
  }

  /** The post built from a video: the body is analysed, likes and reposts
      are not reported by the listing. */
  function VideoPost(v: Video, analyze: string -> Enrichment.Analysis): Post
    requires !BuildRaises(v)
  {
    var a := analyze(Body(v));
    Post(Take(Read(v.title, "Без названия"), 50) + "...", Body(v), FirstPiece(Read(v.created, ""), "T"),
         v.hits.GetOr(0), 0, 0, None, Rutube, Permalink(v), a.sentiment, a.summary)
  }

  /** One video: the permalink is formed and checked first, then the post is
      built, which raises on a `null` title or creation time. */
  function Item(v: Video, analyze: string -> Enrichment.Analysis): Candidate {
    Linked(Permalink(v), if BuildRaises(v) then Fail else Build(VideoPost(v, analyze)))
  }

  /** The videos of a configured channel: none for a blank id, and none
      when the list request fails or answers other than 200. */
  function Videos(raw: string, listed: string -> seq<Video>): seq<Video> {
    var id := Identifier(raw);
    if id == "" then [] else listed(id)
  }

  function Targets(targets: seq<string>, listed: string -> seq<Video>,
                   analyze: string -> Enrichment.Analysis): seq<seq<Candidate>>
  {
    Batches(targets, (raw: string) => Videos(raw, listed), (raw, v) => Item(v, analyze))
  }

  /** `fetch_rutube_data`: nothing without channels. */
  function Fetch(existing: set<string>, targets: seq<string>, listed: string -> seq<Video>,
                 analyze: string -> Enrichment.Analysis): (out: seq<Post>)
    ensures |out| <= PerTarget * |targets|
    ensures |targets| == 0 ==> out == []
  {
    if |targets| == 0 then [] else Collect(Targets(targets, listed, analyze), existing)
  }

  /** A video that yields a post when it is reached: one of the first five
      of its channel, with a title and a creation time that are not `null`
      and a permalink not yet stored. */
  predicate Kept(targets: seq<string>, listed: string -> seq<Video>, existing: set<string>, t: int, i: int) {
    && 0 <= t < |targets| && 0 <= i < |Videos(targets[t], listed)| && i < PerTarget
    && !BuildRaises(Videos(targets[t], listed)[i])
    && Permalink(Videos(targets[t], listed)[i]) !in existing
  }

  /** No earlier video of the channel raised: each had a stored permalink
      or neither a `null` title nor a `null` creation time. */
  predicate Unblocked(v: seq<Video>, existing: set<string>, i: int) {
    forall j :: 0 <= j < i && j < |v| ==> Permalink(v[j]) in existing || !BuildRaises(v[j])
  }

  /** Every post is that of a kept video. */
  lemma FetchOrigin(existing: set<string>, targets: seq<string>, listed: string -> seq<Video>,
                    analyze: string -> Enrichment.Analysis, p: Post)
    requires p in Fetch(existing, targets, listed, analyze)
    ensures exists t, i :: Kept(targets, listed, existing, t, i)
                           && p == VideoPost(Videos(targets[t], listed)[i], analyze)
  {
    var batches := Targets(targets, listed, analyze);
    var t, i := CollectWitness(batches, existing, p);
    assert batches[t][i] == Item(Videos(targets[t], listed)[i], analyze);
    assert Kept(targets, listed, existing, t, i);
  }

  /** A kept video that is reached yields its post. */
  lemma FetchComplete(existing: set<string>, targets: seq<string>, listed: string -> seq<Video>,
                      analyze: string -> Enrichment.Analysis, t: int, i: int)
    requires Kept(targets, listed, existing, t, i)
    requires Unblocked(Videos(targets[t], listed), existing, i)
    ensures VideoPost(Videos(targets[t], listed)[i], analyze) in Fetch(existing, targets, listed, analyze)
  {
    var batches := Targets(targets, listed, analyze);
    assert batches[t][i] == Item(Videos(targets[t], listed)[i], analyze);
    assert ClearBefore(batches[t], existing, i) by {
      forall j | 0 <= j < i && j < |batches[t]|
        ensures !(Raises(batches[t][j]) && batches[t][j].link !in existing)
      {
        assert batches[t][j] == Item(Videos(targets[t], listed)[j], analyze);
      }
    }
    CollectReaches(batches, existing, t, i);
  }

  /** No post duplicates a stored permalink, and every post is a Rutube post
      under the Rutube site, without likes or reposts. */
  lemma FetchFresh(existing: set<string>, targets: seq<string>, listed: string -> seq<Video>,
                   analyze: string -> Enrichment.Analysis)
    ensures forall p :: p in Fetch(existing, targets, listed, analyze) ==>
              p.link !in existing && StartsWith(p.link, Site) && p.source == Rutube && p.likes == 0 && p.reposts == 0
  {
    if |targets| > 0 {
      var batches := Targets(targets, listed, analyze);
      CollectFresh(batches, existing);
      CollectBuildsOnly(batches, existing, (p: Post) => StartsWith(p.link, Site) && p.source == Rutube && p.likes == 0 && p.reposts == 0);
    }
  }

  /** Videos sharing a permalink are the same video. Videos without an id
      all share `https://rutube.ru/video/None/`. */
  predicate Identified(targets: seq<string>, listed: string -> seq<Video>) {
    forall t, u, i, j ::
      0 <= t < |targets| && 0 <= u < |targets|
      && 0 <= i < |Videos(targets[t], listed)| && 0 <= j < |Videos(targets[u], listed)|
      && Permalink(Videos(targets[t], listed)[i]) == Permalink(Videos(targets[u], listed)[j])
      ==> Videos(targets[t], listed)[i] == Videos(targets[u], listed)[j]
  }

  /** When a permalink identifies its video, a second run against the
      stored links plus the first run's posts yields nothing, whatever else
      has been stored meanwhile outside the Rutube site. */
  lemma FetchIdempotent(existing: set<string>, targets: seq<string>, listed: string -> seq<Video>,
                        analyze: string -> Enrichment.Analysis, others: set<string>)
    requires Identified(targets, listed)
    requires forall l :: l in others ==> !StartsWith(l, Site)
    ensures var first := Fetch(existing, targets, listed, analyze);
            Fetch(existing + Links(first) + others, targets, listed, analyze) == []
  {
    if |targets| > 0 {
      var batches := Targets(targets, listed, analyze);
      assert Consistent(batches) by {
        forall t, u, i, j |
          0 <= t < |batches| && 0 <= u < |batches| && 0 <= i < |batches[t]| && 0 <= j < |batches[u]|
          && batches[t][i].Linked? && batches[u][j].Linked? && batches[t][i].link == batches[u][j].link
          ensures batches[t][i].outcome == batches[u][j].outcome
        {
          assert batches[t][i] == Item(Videos(targets[t], listed)[i], analyze);
          assert batches[u][j] == Item(Videos(targets[u], listed)[j], analyze);
        }
      }
      assert Unlisted(batches, others) by {
        forall t, i | 0 <= t < |batches| && 0 <= i < |batches[t]|
          ensures StartsWith(batches[t][i].link, Site)
        {
          assert batches[t][i] == Item(Videos(targets[t], listed)[i], analyze);
        }
      }
      CollectIdempotent(batches, existing, others);
    }
  }
}
