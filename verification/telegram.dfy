/** The Telegram connector (`fetch_telegram`): for each channel the five
    latest messages are read; a message without text is passed over, one
    whose permalink is stored is skipped, one with fewer than five
    characters is dropped, and every other one becomes a post. */
module TelegramConnector {
  import opened Wrappers
  import opened Text
  import opened Seqs
  import opened Records
  import opened Harvest
  import Enrichment

  /** A channel message as the client library yields it: `text` is empty
      when the message has none, `reactions` holds the count of each
      reaction, `views` and `forwards` are absent when not reported. */
  datatype Message = Message(
    id: int,
    text: string,
    date: string,
    views: Option<int>,
    reactions: seq<int>,
    forwards: Option<int>)

  /** Where every Telegram permalink starts. */
  const Site := "https://t.me/"

  /** `https://t.me/<channel>/<message id>`. */
  function Permalink(channel: string, id: int): string {
    Site + channel + "/" + IntToString(id)
  }

  /** The post built from a message; the whole text is analysed. */
  function MessagePost(channel: string, m: Message, analyze: string -> Enrichment.Analysis): Post {
    var a := analyze(m.text);
    Post(Headline(m.text), m.text, m.date, m.views.GetOr(0), Sum(m.reactions, (n: int) => n),
         m.forwards.GetOr(0), None, Telegram, Permalink(channel, m.id), a.sentiment, a.summary)
  }

  /** One message: the text test comes before the permalink is formed, the
      length test after the stored-link test. */
  function Item(channel: string, m: Message, analyze: string -> Enrichment.Analysis): Candidate {
    if m.text == "" then Skipped
    else
      Linked(Permalink(channel, m.id),
             if |m.text| < 5 then Drop else Build(MessagePost(channel, m, analyze)))
  }

  function Targets(targets: seq<string>, fetched: string -> seq<Message>,
                   analyze: string -> Enrichment.Analysis): seq<seq<Candidate>>
  {
    Batches(targets, fetched, (channel, m) => Item(channel, m, analyze))
  }

  /** `fetch_telegram`: nothing without API credentials or channels. */
  function Fetch(configured: bool, existing: set<string>, targets: seq<string>,
                 fetched: string -> seq<Message>, analyze: string -> Enrichment.Analysis): (out: seq<Post>)
    ensures |out| <= PerTarget * |targets|
    ensures !configured || |targets| == 0 ==> out == []
  {
    if !configured || |targets| == 0 then []
    else Collect(Targets(targets, fetched, analyze), existing)
  }

  /** Past the guard, the client is built with `int(TG_API_ID)` and started
      outside any `try`: when that fails the exception leaves the connector
      and ends the run that called it. `starts` says whether it succeeds. */
  predicate Aborts(configured: bool, starts: bool, targets: seq<string>) {
    configured && |targets| > 0 && !starts
  }

  /** A message that yields a post: one of the first five of its channel,
      with at least five characters and a permalink not yet stored. */
  predicate Kept(targets: seq<string>, fetched: string -> seq<Message>, existing: set<string>,
                 t: int, i: int)
  {
    && 0 <= t < |targets| && 0 <= i < |fetched(targets[t])| && i < PerTarget
    && |fetched(targets[t])[i].text| >= 5
    && Permalink(targets[t], fetched(targets[t])[i].id) !in existing
  }

  /** Every post is that of a kept message. */
  lemma FetchOrigin(existing: set<string>, targets: seq<string>, fetched: string -> seq<Message>,
                    analyze: string -> Enrichment.Analysis, p: Post)
    requires p in Fetch(true, existing, targets, fetched, analyze)
    ensures exists t, i :: Kept(targets, fetched, existing, t, i)
                           && p == MessagePost(targets[t], fetched(targets[t])[i], analyze)
  {
    var batches := Targets(targets, fetched, analyze);
    var t, i := CollectWitness(batches, existing, p);
    assert batches[t][i] == Item(targets[t], fetched(targets[t])[i], analyze);
    assert Kept(targets, fetched, existing, t, i);
  }

  /** Every kept message yields its post. */
  lemma FetchComplete(existing: set<string>, targets: seq<string>, fetched: string -> seq<Message>,
                      analyze: string -> Enrichment.Analysis, t: int, i: int)
    requires Kept(targets, fetched, existing, t, i)
    ensures MessagePost(targets[t], fetched(targets[t])[i], analyze)
            in Fetch(true, existing, targets, fetched, analyze)
  {
    var batches := Targets(targets, fetched, analyze);
    assert batches[t][i] == Item(targets[t], fetched(targets[t])[i], analyze);
    CollectReaches(batches, existing, t, i);
  }

  /** The posts are exactly those of the kept messages. */
  lemma FetchExact(existing: set<string>, targets: seq<string>, fetched: string -> seq<Message>,
                   analyze: string -> Enrichment.Analysis, p: Post)
    ensures p in Fetch(true, existing, targets, fetched, analyze) <==>
            exists t, i :: Kept(targets, fetched, existing, t, i)
                           && p == MessagePost(targets[t], fetched(targets[t])[i], analyze)
  {
    if p in Fetch(true, existing, targets, fetched, analyze) {
      FetchOrigin(existing, targets, fetched, analyze, p);
    }
    if exists t, i :: Kept(targets, fetched, existing, t, i)
                      && p == MessagePost(targets[t], fetched(targets[t])[i], analyze) {
      var t, i :| Kept(targets, fetched, existing, t, i)
                  && p == MessagePost(targets[t], fetched(targets[t])[i], analyze);
      FetchComplete(existing, targets, fetched, analyze, t, i);
    }
  }

  /** No post duplicates a stored permalink, every post is a Telegram post
      under the Telegram site, and none has fewer than five characters of
      text. */
  lemma FetchFresh(configured: bool, existing: set<string>, targets: seq<string>,
                   fetched: string -> seq<Message>, analyze: string -> Enrichment.Analysis)
    ensures forall p :: p in Fetch(configured, existing, targets, fetched, analyze) ==>
              p.link !in existing && StartsWith(p.link, Site) && p.source == Telegram && |p.text| >= 5
  {
    if configured && |targets| > 0 {
      var batches := Targets(targets, fetched, analyze);
      CollectFresh(batches, existing);
      CollectBuildsOnly(batches, existing, (p: Post) => StartsWith(p.link, Site) && p.source == Telegram && |p.text| >= 5);
    }
  }

  /** A second run against the stored links plus the first run's posts
      yields nothing, whatever else has been stored meanwhile. */
  lemma FetchIdempotent(configured: bool, existing: set<string>, targets: seq<string>,
                        fetched: string -> seq<Message>, analyze: string -> Enrichment.Analysis,
                        others: set<string>)
    ensures var first := Fetch(configured, existing, targets, fetched, analyze);
            Fetch(configured, existing + Links(first) + others, targets, fetched, analyze) == []
  {
    if configured && |targets| > 0 {
      CollectIdempotentWithoutFailures(Targets(targets, fetched, analyze), existing, others);
    }
  }
}
