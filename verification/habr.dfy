/** The Habr connector (`fetch_habr_data` with `parse_habr_post`): a
    configured company, given as a name or as a link, is reduced to the
    company name; of the first five entries of the company's article list,
    an entry without a title heading or without a link in it is passed
    over, one whose permalink is stored is skipped, one whose article page
    cannot be read is dropped, and every other one becomes a post built
    from its article page. */
module HabrConnector {
  import opened Wrappers
  import opened Text
  import opened Seqs
  import opened Records
  import opened Harvest
  import HabrMetric
  import Enrichment

  /** The cleaning of a configured company: a string mentioning `habr.com`
      keeps what follows the last `/companies/`, without `/articles/` and
      without any `/`. */
  function Company(raw: string): string {
    var c := Strip(raw);
    if Contains(c, "habr.com") then
      ReplaceAll(ReplaceAll(LastPiece(c, "/companies/"), "/articles/", ""), "/", "")
    else c
  }

  /** A cleaned link has no `/` left. */
  lemma CompanySlashFree(raw: string)
    requires Contains(Strip(raw), "habr.com")
    ensures '/' !in Company(raw)
  {
    RemoveCharAll(ReplaceAll(LastPiece(Strip(raw), "/companies/"), "/articles/", ""), '/');
  }

  /** A name without `habr.com` is only stripped. */
  lemma CompanyName(raw: string)
    requires !Contains(Strip(raw), "habr.com")
    ensures Company(raw) == Strip(raw)
  {
  }

  lemma HostInLink()
    ensures OccursAt("https://habr.com/ru", "habr.com", 8)
  {
    var scheme, host, rest := "https://", "habr.com", "/ru";
    assert scheme + host + rest == "https://habr.com/ru";
    assert (scheme + host + rest)[8..16] == host;
  }

  lemma CompaniesPrefix()
    ensures "https://habr.com/ru" + "/companies/" == "https://habr.com/ru/companies/"
  {
  }

  /** Of the article list link, the part after `/companies/` is the
      company name with the `/articles/` path. */
  lemma LinkTail(name: string)
    requires '/' !in name
    ensures var link := "https://habr.com/ru/companies/" + name + "/articles/";
            && Strip(link) == link && Contains(link, "habr.com")
            && LastPiece(link, "/companies/") == name + "/articles/"
  {
    var host := "https://habr.com/ru";
    var marker := "/companies/";
    var tail := "/articles/";
    var link := host + marker + (name + tail);
    CompaniesPrefix();
    Regroup(host + marker, name, tail);
    assert link[0] == 'h' && link[|link| - 1] == '/';
    StripTrimmed(link);
    HostInLink();
    OccursInPrefix(host, marker + (name + tail), "habr.com", 8);
    Regroup(host, marker, name + tail);
    ContainsIff(link, "habr.com");
    assert 'n' !in host + marker[..6];
    FirstOccurrence(host, marker, name + tail, 6);
    NoOccurrenceNearEnd(name, tail, marker);
    SplitAbsent(name + tail, marker);
  }

  /** Removing the `/articles/` path and every `/` leaves the name. */
  lemma NameFromTail(name: string)
    requires '/' !in name
    ensures ReplaceAll(ReplaceAll(name + "/articles/", "/articles/", ""), "/", "") == name
  {
    var tail := "/articles/";
    FirstOccurrence(name, tail, "", 0);
    assert name + tail + "" == name + tail;
    assert Split(name + tail, tail) == [name, ""];
    assert Join([name, ""], "") == name + "" + "";
    NotContainsWithoutFirstChar(name, "/");
    ReplaceAllAbsent(name, "/", "");
  }

  /** The article list link of a company cleans to the company name. */
  lemma CompanyOfLink(name: string)
    requires '/' !in name
    ensures Company("https://habr.com/ru/companies/" + name + "/articles/") == name
  {
    LinkTail(name);
    NameFromTail(name);
  }

  /** `https://habr.com/ru/companies/mts_ai/articles/` cleans to `mts_ai`. */
  lemma CompanyExample()
    ensures Company("https://habr.com/ru/companies/" + "mts_ai" + "/articles/") == "mts_ai"
  {
    CompanyOfLink("mts_ai");
  }

  /** What `parse_habr_post` selects on an article page: the title (already
      defaulted), the body text, the day, the text of the rating counter and
      of the comment counter when the page has them, and the texts of the
      icon counters. */
  datatype Page = Page(
    title: string,
    content: string,
    date: string,
    rating: Option<string>,
    counters: seq<string>,
    comments: Option<string>)

  /** An entry of the article list: no title heading, no link in the
      heading, or the link's `href` (empty when absent) with the article
      page, `None` when it could not be read. */
  datatype Entry = NoTitle | NoLink | Listed(href: string, page: Option<Page>)

  /** The value of an optional counter, 0 when the page has none. */
  function CounterValue(text: Option<string>): int {
    match text
    case None => 0
    case Some(t) => HabrMetric.ParseMetric(t)
  }

  /** Where every Habr permalink starts. */
  const Site := "https://habr.com"

  /** `https://habr.com` followed by the relative link. */
  function Permalink(href: string): string {
    Site + href
  }

  /** The post built from an article page: the first 1500 characters are
      analysed, the title is cut to 100 and the body to 2000 characters. */
  function ArticlePost(href: string, page: Page, analyze: string -> Enrichment.Analysis): Post {
    var a := analyze(Take(page.content, 1500));
    Post(Take(page.title, 100), Take(page.content, 2000) + "...", page.date,
         HabrMetric.ArticleViews(page.counters), CounterValue(page.rating), 0,
         Some(CounterValue(page.comments)), Habr, Permalink(href), a.sentiment, a.summary)
  }

  /** The post of an entry with a readable article page. */
  function EntryPost(e: Entry, analyze: string -> Enrichment.Analysis): Post
    requires e.Listed? && e.page.Some?
  {
    ArticlePost(e.href, e.page.value, analyze)
  }

  function Item(e: Entry, analyze: string -> Enrichment.Analysis): Candidate {
    match e
    case NoTitle => Skipped
    case NoLink => Skipped
    case Listed(href, page) =>
      Linked(Permalink(href), if page.None? then Drop else Build(EntryPost(e, analyze)))
  }

  /** The article list of a configured company, requested under its cleaned
      name; none when the request answers other than 200. */
  function Entries(raw: string, listed: string -> seq<Entry>): seq<Entry> {
    listed(Company(raw))
  }

  function Targets(targets: seq<string>, listed: string -> seq<Entry>,
                   analyze: string -> Enrichment.Analysis): seq<seq<Candidate>>
  {
    Batches(targets, (raw: string) => Entries(raw, listed), (raw, e) => Item(e, analyze))
  }

  /** `fetch_habr_data`: nothing without companies. */
  function Fetch(existing: set<string>, targets: seq<string>, listed: string -> seq<Entry>,
                 analyze: string -> Enrichment.Analysis): (out: seq<Post>)
    ensures |out| <= PerTarget * |targets|
    ensures |targets| == 0 ==> out == []
  {
    if |targets| == 0 then [] else Collect(Targets(targets, listed, analyze), existing)
  }

  /** An entry that yields a post: one of the first five of its company,
      with a link, a readable article page and a permalink not yet stored. */
  predicate Kept(targets: seq<string>, listed: string -> seq<Entry>, existing: set<string>, t: int, i: int) {
    && 0 <= t < |targets| && 0 <= i < |Entries(targets[t], listed)| && i < PerTarget
    && Entries(targets[t], listed)[i].Listed? && Entries(targets[t], listed)[i].page.Some?
    && Permalink(Entries(targets[t], listed)[i].href) !in existing
  }

  /** Every post is that of a kept entry. */
  lemma FetchOrigin(existing: set<string>, targets: seq<string>, listed: string -> seq<Entry>,
                    analyze: string -> Enrichment.Analysis, p: Post)
    requires p in Fetch(existing, targets, listed, analyze)
    ensures exists t, i :: Kept(targets, listed, existing, t, i)
                           && p == EntryPost(Entries(targets[t], listed)[i], analyze)
  {
    var batches := Targets(targets, listed, analyze);
    var t, i := CollectWitness(batches, existing, p);
    var e := Entries(targets[t], listed)[i];
    assert batches[t][i] == Item(e, analyze);
    assert e.Listed? && e.page.Some? && Permalink(e.href) !in existing;
    assert Kept(targets, listed, existing, t, i);
  }

  /** Every kept entry yields its post. */
  lemma FetchComplete(existing: set<string>, targets: seq<string>, listed: string -> seq<Entry>,
                      analyze: string -> Enrichment.Analysis, t: int, i: int)
    requires Kept(targets, listed, existing, t, i)
    ensures EntryPost(Entries(targets[t], listed)[i], analyze) in Fetch(existing, targets, listed, analyze)
  {
    var batches := Targets(targets, listed, analyze);
    assert batches[t][i] == Item(Entries(targets[t], listed)[i], analyze);
    CollectReaches(batches, existing, t, i);
  }

  /** No post duplicates a stored permalink; every post is a Habr post
      under the Habr site with a title of at most 100 characters, no
      shares, a comment count and a view count of at least 0. */
  lemma FetchFresh(existing: set<string>, targets: seq<string>, listed: string -> seq<Entry>,
                   analyze: string -> Enrichment.Analysis)
    ensures forall p :: p in Fetch(existing, targets, listed, analyze) ==>
              && p.link !in existing && StartsWith(p.link, Site) && p.source == Habr && |p.title| <= 100
              && p.reposts == 0 && p.comments.Some? && p.views >= 0
  {
    if |targets| > 0 {
      var batches := Targets(targets, listed, analyze);
      CollectFresh(batches, existing);
      forall t, i | 0 <= t < |batches| && 0 <= i < |batches[t]|
        ensures BuildsOnly(batches[t][i], (p: Post) => StartsWith(p.link, Site) && p.source == Habr && |p.title| <= 100
                             && p.reposts == 0 && p.comments.Some? && p.views >= 0)
      {
        var e := Entries(targets[t], listed)[i];
        if e.Listed? && e.page.Some? {
          HabrMetric.ArticleViewsBounds(e.page.value.counters);
        }
      }
      CollectBuildsOnly(batches, existing, (p: Post) => StartsWith(p.link, Site) && p.source == Habr && |p.title| <= 100
                          && p.reposts == 0 && p.comments.Some? && p.views >= 0);
    }
  }

  /** A second run against the stored links plus the first run's posts
      yields nothing, whatever else has been stored meanwhile. */
  lemma FetchIdempotent(existing: set<string>, targets: seq<string>, listed: string -> seq<Entry>,
                        analyze: string -> Enrichment.Analysis, others: set<string>)
    ensures var first := Fetch(existing, targets, listed, analyze);
            Fetch(existing + Links(first) + others, targets, listed, analyze) == []
  {
    if |targets| > 0 {
      CollectIdempotentWithoutFailures(Targets(targets, listed, analyze), existing, others);
    }
  }
}
