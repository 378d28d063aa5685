/** One collection run (`update_data_logic`): the stored permalinks are read,
    the channel mapping is resolved, and when it is not empty the five
    connectors run in the fixed order Telegram, YouTube, Rutube, VK, Habr;
    their posts are appended to the table in that order when there are any.

    What the platforms answer is a parameter (`Platforms`), as is the
    enrichment service. */
module Ingestion {
  import opened Wrappers
  import opened Seqs
  import opened Text
  import opened Records
  import opened Harvest
  import opened Store
  import ChannelConfig
  import TelegramConnector
  import YouTubeConnector
  import RutubeConnector
  import VkConnector
  import HabrConnector
  import Enrichment

  /** The platforms' side of a run: which connectors have credentials,
      whether the Telegram client starts and the YouTube client is built,
      and what each platform answers for a target. */
  datatype Platforms = Platforms(
    telegram: bool,
    telegramStarts: bool,
    messages: string -> seq<TelegramConnector.Message>,
    youtube: bool,
    youtubeBuilds: bool,
    lookup: string -> Option<string>,
    search: string -> seq<YouTubeConnector.Video>,
    videos: string -> seq<RutubeConnector.Video>,
    vk: bool,
    wall: string -> seq<VkConnector.WallPost>,
    articles: string -> seq<HabrConnector.Entry>,
    analyze: string -> Enrichment.Analysis)

  /** `channels.get(source, [])`. */
  function TargetsOf(channels: ChannelConfig.Channels, src: Source): seq<string> {
    if src in channels then channels[src] else []
  }

  /** The number of configured targets over the five platforms. */
  function TargetCount(channels: ChannelConfig.Channels): nat {
    |TargetsOf(channels, Telegram)| + |TargetsOf(channels, YouTube)| + |TargetsOf(channels, Rutube)|
    + |TargetsOf(channels, VK)| + |TargetsOf(channels, Habr)|
  }

  function FromTelegram(existing: set<string>, channels: ChannelConfig.Channels, env: Platforms): seq<Post> {
    TelegramConnector.Fetch(env.telegram, existing, TargetsOf(channels, Telegram), env.messages, env.analyze)
  }

  function FromYouTube(existing: set<string>, channels: ChannelConfig.Channels, env: Platforms): seq<Post> {
    YouTubeConnector.Fetch(env.youtube, existing, TargetsOf(channels, YouTube), env.lookup, env.search, env.analyze)
  }

  function FromRutube(existing: set<string>, channels: ChannelConfig.Channels, env: Platforms): seq<Post> {
    RutubeConnector.Fetch(existing, TargetsOf(channels, Rutube), env.videos, env.analyze)
  }

  function FromVk(existing: set<string>, channels: ChannelConfig.Channels, env: Platforms): seq<Post> {
    VkConnector.Fetch(env.vk, existing, TargetsOf(channels, VK), env.wall, env.analyze)
  }

  function FromHabr(existing: set<string>, channels: ChannelConfig.Channels, env: Platforms): seq<Post> {
    HabrConnector.Fetch(existing, TargetsOf(channels, Habr), env.articles, env.analyze)
  }

  /** The connectors' posts, concatenated in the order they run. */
  function Gathered(existing: set<string>, channels: ChannelConfig.Channels, env: Platforms): seq<Post> {
    FromTelegram(existing, channels, env) + FromYouTube(existing, channels, env)
    + FromRutube(existing, channels, env) + FromVk(existing, channels, env)
    + FromHabr(existing, channels, env)
  }

  /** How a run ends: it stopped before any connector ran, a connector's
      client failed and the exception ended it with nothing stored, it found
      nothing new, or it appended these posts. */
  datatype Update = NoChannels | Aborted | NothingNew | Append(posts: seq<Post>)

  /** The Telegram or the YouTube connector fails outside its `try`. */
  predicate Aborts(channels: ChannelConfig.Channels, env: Platforms) {
    || TelegramConnector.Aborts(env.telegram, env.telegramStarts, TargetsOf(channels, Telegram))
    || YouTubeConnector.Aborts(env.youtube, env.youtubeBuilds, TargetsOf(channels, YouTube))
  }

  /** `update_data_logic` after its two reads. */
  function UpdateData(existing: set<string>, channels: ChannelConfig.Channels, env: Platforms): (u: Update)
    ensures u == NoChannels <==> channels == map[]
    ensures u.Append? ==> u.posts != [] && |u.posts| <= PerTarget * TargetCount(channels)
  {
    if channels == map[] then NoChannels
    else if Aborts(channels, env) then Aborted
    else
      var all := Gathered(existing, channels, env);
      if all == [] then NothingNew else Append(all)
  }

  /** A run with channels ends with nothing stored exactly when the
      Telegram client cannot start for configured Telegram channels or the
      YouTube client cannot be built for configured handles, whatever the
      other connectors would have found; otherwise it appends exactly what
      the connectors found, when they found anything. */
  lemma RunAborts(existing: set<string>, channels: ChannelConfig.Channels, env: Platforms)
    requires channels != map[]
    ensures UpdateData(existing, channels, env) == Aborted <==>
            (env.telegram && |TargetsOf(channels, Telegram)| > 0 && !env.telegramStarts)
            || (env.youtube && |TargetsOf(channels, YouTube)| > 0 && !env.youtubeBuilds)
    ensures UpdateData(existing, channels, env) != Aborted ==>
            (UpdateData(existing, channels, env).Append? <==> Gathered(existing, channels, env) != [])
            && (UpdateData(existing, channels, env).Append? ==>
                  UpdateData(existing, channels, env).posts == Gathered(existing, channels, env))
  {
  }

  /** A whole run: the stored permalinks come from the table read, the
      mapping from the channel table's answer and the Habr setting. */
  function Run(table: Answer, config: ChannelConfig.Response, companies: string, env: Platforms): Update {
    UpdateData(ExistingLinks(table), ChannelConfig.Resolved(config, companies), env)
  }

  /** A run stops before any connector exactly when the channel table
      answers with a status other than 200; a raised request still leaves
      the Habr setting to collect from. */
  lemma RunStops(table: Answer, config: ChannelConfig.Response, companies: string, env: Platforms)
    ensures Run(table, config, companies, env) == NoChannels <==> config.Answered? && config.status != 200
  {
    var m := ChannelConfig.Resolved(config, companies);
    match config
    case Raised =>
      assert Habr in m;
    case Answered(status, rows) =>
      if status == 200 {
        ChannelConfig.ResolvedNonEmpty(rows, companies);
        assert Habr in m;
      }
  }

  /** The position of a platform in the run order. */
  function Turn(s: Source): nat {
    match s
    case Telegram => 0
    case YouTube => 1
    case Rutube => 2
    case VK => 3
    case Habr => 4
  }

  /** Every post of the block belongs to the platform and has a permalink
      under the platform's site. */
  predicate AllFrom(posts: seq<Post>, s: Source, site: string) {
    forall i :: 0 <= i < |posts| ==> posts[i].source == s && StartsWith(posts[i].link, site)
  }

  lemma Blocks(existing: set<string>, channels: ChannelConfig.Channels, env: Platforms)
    ensures AllFrom(FromTelegram(existing, channels, env), Telegram, TelegramConnector.Site)
    ensures AllFrom(FromYouTube(existing, channels, env), YouTube, YouTubeConnector.Site)
    ensures AllFrom(FromRutube(existing, channels, env), Rutube, RutubeConnector.Site)
    ensures AllFrom(FromVk(existing, channels, env), VK, VkConnector.Site)
    ensures AllFrom(FromHabr(existing, channels, env), Habr, HabrConnector.Site)
  {
    TelegramConnector.FetchFresh(env.telegram, existing, TargetsOf(channels, Telegram), env.messages, env.analyze);
    YouTubeConnector.FetchFresh(env.youtube, existing, TargetsOf(channels, YouTube), env.lookup, env.search, env.analyze);
    RutubeConnector.FetchFresh(existing, TargetsOf(channels, Rutube), env.videos, env.analyze);
    VkConnector.FetchFresh(env.vk, existing, TargetsOf(channels, VK), env.wall, env.analyze);
    HabrConnector.FetchFresh(existing, TargetsOf(channels, Habr), env.articles, env.analyze);
  }

  /** Five blocks of posts, each of one platform, concatenated in the run
      order come platform by platform. */
  lemma ConcatOrdered(tg: seq<Post>, yt: seq<Post>, ru: seq<Post>, vk: seq<Post>, hb: seq<Post>)
    requires forall i :: 0 <= i < |tg| ==> tg[i].source == Telegram
    requires forall i :: 0 <= i < |yt| ==> yt[i].source == YouTube
    requires forall i :: 0 <= i < |ru| ==> ru[i].source == Rutube
    requires forall i :: 0 <= i < |vk| ==> vk[i].source == VK
    requires forall i :: 0 <= i < |hb| ==> hb[i].source == Habr
    ensures var all := tg + yt + ru + vk + hb;
            forall i, j :: 0 <= i < j < |all| ==> Turn(all[i].source) <= Turn(all[j].source)
  {
    var all := tg + yt + ru + vk + hb;
    var a, b, c, d := |tg|, |tg| + |yt|, |tg| + |yt| + |ru|, |tg| + |yt| + |ru| + |vk|;
    forall i | 0 <= i < |all|
      ensures Turn(all[i].source) == if i < a then 0 else if i < b then 1 else if i < c then 2 else if i < d then 3 else 4
    {
      if i < a {
        assert all[i] == tg[i];
      } else if i < b {
        assert all[i] == yt[i - a];
      } else if i < c {
        assert all[i] == ru[i - b];
      } else if i < d {
        assert all[i] == vk[i - c];
      } else {
        assert all[i] == hb[i - d];
      }
    }
  }

  /** The appended posts come platform by platform in the run order: no
      post precedes one of a platform that runs earlier. */
  lemma AppendOrder(existing: set<string>, channels: ChannelConfig.Channels, env: Platforms)
    requires UpdateData(existing, channels, env).Append?
    ensures var posts := UpdateData(existing, channels, env).posts;
            forall i, j :: 0 <= i < j < |posts| ==> Turn(posts[i].source) <= Turn(posts[j].source)
  {
    Blocks(existing, channels, env);
    ConcatOrdered(FromTelegram(existing, channels, env), FromYouTube(existing, channels, env),
                  FromRutube(existing, channels, env), FromVk(existing, channels, env),
                  FromHabr(existing, channels, env));
  }

  /** No appended post repeats a permalink that was stored, and none has
      an empty one. */
  lemma AppendFresh(existing: set<string>, channels: ChannelConfig.Channels, env: Platforms)
    requires UpdateData(existing, channels, env).Append?
    ensures forall p :: p in UpdateData(existing, channels, env).posts ==> p.link !in existing && p.link != ""
  {
    TelegramConnector.FetchFresh(env.telegram, existing, TargetsOf(channels, Telegram), env.messages, env.analyze);
    YouTubeConnector.FetchFresh(env.youtube, existing, TargetsOf(channels, YouTube), env.lookup, env.search, env.analyze);
    RutubeConnector.FetchFresh(existing, TargetsOf(channels, Rutube), env.videos, env.analyze);
    VkConnector.FetchFresh(env.vk, existing, TargetsOf(channels, VK), env.wall, env.analyze);
    HabrConnector.FetchFresh(existing, TargetsOf(channels, Habr), env.articles, env.analyze);
  }

  lemma LinksAppend(a: seq<Post>, b: seq<Post>)
    ensures Links(a + b) == Links(a) + Links(b)
  {
    forall l | l in Links(a + b)
      ensures l in Links(a) + Links(b)
    {
      var p :| p in a + b && p.link == l;
    }
    forall l | l in Links(a) + Links(b)
      ensures l in Links(a + b)
    {
      if l in Links(a) {
        var p :| p in a && p.link == l;
        assert p in a + b;
      } else {
        var p :| p in b && p.link == l;
        assert p in a + b;
      }
    }
  }

  /** The sites differ in the first letter of the host, so a permalink is
      under at most one of them. */
  lemma OutsideSite(posts: seq<Post>, site: string, other: string)
    requires forall i :: 0 <= i < |posts| ==> StartsWith(posts[i].link, site)
    requires |site| > 8 && |other| > 8 && site[8] != other[8]
    ensures forall l :: l in Links(posts) ==> !StartsWith(l, other)
  {
    forall l | l in Links(posts)
      ensures !StartsWith(l, other)
    {
      var p :| p in posts && p.link == l;
      var i :| 0 <= i < |posts| && posts[i] == p;
      assert l[..|site|][8] == site[8];
    }
  }

  /** The five link prefixes differ in their ninth character, the first
      after `https://`. */
  lemma SiteLetters()
    ensures |TelegramConnector.Site| > 8 && TelegramConnector.Site[8] == 't'
    ensures |YouTubeConnector.Site| > 8 && YouTubeConnector.Site[8] == 'w'
    ensures |RutubeConnector.Site| > 8 && RutubeConnector.Site[8] == 'r'
    ensures |VkConnector.Site| > 8 && VkConnector.Site[8] == 'v'
    ensures |HabrConnector.Site| > 8 && HabrConnector.Site[8] == 'h'
  {
  }

  /** The permalinks known to a second run: those stored before the first
      run and those it appended. */
  function Seen(existing: set<string>, channels: ChannelConfig.Channels, env: Platforms): set<string> {
    existing + Links(Gathered(existing, channels, env))
  }

  lemma SeenParts(existing: set<string>, channels: ChannelConfig.Channels, env: Platforms)
    ensures Seen(existing, channels, env)
            == existing + Links(FromTelegram(existing, channels, env)) + Links(FromYouTube(existing, channels, env))
               + Links(FromRutube(existing, channels, env)) + Links(FromVk(existing, channels, env))
               + Links(FromHabr(existing, channels, env))
  {
    var tg, yt, ru := FromTelegram(existing, channels, env), FromYouTube(existing, channels, env), FromRutube(existing, channels, env);
    var vk, hb := FromVk(existing, channels, env), FromHabr(existing, channels, env);
    assert Gathered(existing, channels, env) == tg + yt + ru + vk + hb;
    LinksAppend(tg, yt);
    LinksAppend(tg + yt, ru);
    LinksAppend(tg + yt + ru, vk);
    LinksAppend(tg + yt + ru + vk, hb);
    UnionRegroup(existing, Links(tg), Links(yt), Links(ru), Links(vk), Links(hb));
  }

  lemma UnionRegroup(e: set<string>, a: set<string>, b: set<string>, c: set<string>, d: set<string>, f: set<string>)
    ensures e + (a + b + c + d + f) == e + a + b + c + d + f
  {
  }

  /** Set union is associative and commutative: any one block's links can
      be singled out. */
  lemma Regroup5(e: set<string>, a: set<string>, b: set<string>, c: set<string>, d: set<string>, f: set<string>)
    ensures e + a + b + c + d + f == e + a + (b + c + d + f)
    ensures e + a + b + c + d + f == e + b + (a + c + d + f)
    ensures e + a + b + c + d + f == e + c + (a + b + d + f)
    ensures e + a + b + c + d + f == e + d + (a + b + c + f)
    ensures e + a + b + c + d + f == e + f + (a + b + c + d)
  {
  }

  lemma TelegramRerun(existing: set<string>, channels: ChannelConfig.Channels, env: Platforms)
    ensures FromTelegram(Seen(existing, channels, env), channels, env) == []
  {
    var tg, yt, ru := FromTelegram(existing, channels, env), FromYouTube(existing, channels, env), FromRutube(existing, channels, env);
    var vk, hb := FromVk(existing, channels, env), FromHabr(existing, channels, env);
    SeenParts(existing, channels, env);
    var others := Links(yt) + Links(ru) + Links(vk) + Links(hb);
    TelegramConnector.FetchIdempotent(env.telegram, existing, TargetsOf(channels, Telegram), env.messages, env.analyze, others);
    Regroup5(existing, Links(tg), Links(yt), Links(ru), Links(vk), Links(hb));
  }

  lemma YouTubeRerun(existing: set<string>, channels: ChannelConfig.Channels, env: Platforms)
    requires YouTubeConnector.Identified(TargetsOf(channels, YouTube), env.lookup, env.search)
    ensures FromYouTube(Seen(existing, channels, env), channels, env) == []
  {
    var tg, yt, ru := FromTelegram(existing, channels, env), FromYouTube(existing, channels, env), FromRutube(existing, channels, env);
    var vk, hb := FromVk(existing, channels, env), FromHabr(existing, channels, env);
    SeenParts(existing, channels, env);
    Blocks(existing, channels, env);
    var site := YouTubeConnector.Site;
    SiteLetters();
    OutsideSite(tg, TelegramConnector.Site, site);
    OutsideSite(ru, RutubeConnector.Site, site);
    OutsideSite(vk, VkConnector.Site, site);
    OutsideSite(hb, HabrConnector.Site, site);
    var others := Links(tg) + Links(ru) + Links(vk) + Links(hb);
    YouTubeConnector.FetchIdempotent(env.youtube, existing, TargetsOf(channels, YouTube), env.lookup, env.search, env.analyze, others);
    Regroup5(existing, Links(tg), Links(yt), Links(ru), Links(vk), Links(hb));
  }

  lemma RutubeRerun(existing: set<string>, channels: ChannelConfig.Channels, env: Platforms)
    requires RutubeConnector.Identified(TargetsOf(channels, Rutube), env.videos)
    ensures FromRutube(Seen(existing, channels, env), channels, env) == []
  {
    var tg, yt, ru := FromTelegram(existing, channels, env), FromYouTube(existing, channels, env), FromRutube(existing, channels, env);
    var vk, hb := FromVk(existing, channels, env), FromHabr(existing, channels, env);
    SeenParts(existing, channels, env);
    Blocks(existing, channels, env);
    var site := RutubeConnector.Site;
    SiteLetters();
    OutsideSite(tg, TelegramConnector.Site, site);
    OutsideSite(yt, YouTubeConnector.Site, site);
    OutsideSite(vk, VkConnector.Site, site);
    OutsideSite(hb, HabrConnector.Site, site);
    var others := Links(tg) + Links(yt) + Links(vk) + Links(hb);
    RutubeConnector.FetchIdempotent(existing, TargetsOf(channels, Rutube), env.videos, env.analyze, others);
    Regroup5(existing, Links(tg), Links(yt), Links(ru), Links(vk), Links(hb));
  }

  lemma VkRerun(existing: set<string>, channels: ChannelConfig.Channels, env: Platforms)
    requires VkConnector.Identified(TargetsOf(channels, VK), env.wall)
    ensures FromVk(Seen(existing, channels, env), channels, env) == []
  {
    var tg, yt, ru := FromTelegram(existing, channels, env), FromYouTube(existing, channels, env), FromRutube(existing, channels, env);
    var vk, hb := FromVk(existing, channels, env), FromHabr(existing, channels, env);
    SeenParts(existing, channels, env);
    Blocks(existing, channels, env);
    var site := VkConnector.Site;
    SiteLetters();
    OutsideSite(tg, TelegramConnector.Site, site);
    OutsideSite(yt, YouTubeConnector.Site, site);
    OutsideSite(ru, RutubeConnector.Site, site);
    OutsideSite(hb, HabrConnector.Site, site);
    var others := Links(tg) + Links(yt) + Links(ru) + Links(hb);
    VkConnector.FetchIdempotent(env.vk, existing, TargetsOf(channels, VK), env.wall, env.analyze, others);
    Regroup5(existing, Links(tg), Links(yt), Links(ru), Links(vk), Links(hb));
  }

  lemma HabrRerun(existing: set<string>, channels: ChannelConfig.Channels, env: Platforms)
    ensures FromHabr(Seen(existing, channels, env), channels, env) == []
  {
    var tg, yt, ru := FromTelegram(existing, channels, env), FromYouTube(existing, channels, env), FromRutube(existing, channels, env);
    var vk, hb := FromVk(existing, channels, env), FromHabr(existing, channels, env);
    SeenParts(existing, channels, env);
    var others := Links(tg) + Links(yt) + Links(ru) + Links(vk);
    HabrConnector.FetchIdempotent(existing, TargetsOf(channels, Habr), env.articles, env.analyze, others);
    Regroup5(existing, Links(tg), Links(yt), Links(ru), Links(vk), Links(hb));
  }

  /** Where a VK, a YouTube and a Rutube permalink identify their item, a
      run against the stored permalinks plus those a first run appended finds
      nothing new. */
  lemma RerunFindsNothing(existing: set<string>, channels: ChannelConfig.Channels, env: Platforms)
    requires VkConnector.Identified(TargetsOf(channels, VK), env.wall)
    requires YouTubeConnector.Identified(TargetsOf(channels, YouTube), env.lookup, env.search)
    requires RutubeConnector.Identified(TargetsOf(channels, Rutube), env.videos)
    requires UpdateData(existing, channels, env).Append?
    ensures UpdateData(existing + Links(UpdateData(existing, channels, env).posts), channels, env) == NothingNew
  {
    TelegramRerun(existing, channels, env);
    YouTubeRerun(existing, channels, env);
    RutubeRerun(existing, channels, env);
    VkRerun(existing, channels, env);
    HabrRerun(existing, channels, env);
    assert Gathered(Seen(existing, channels, env), channels, env) == [];
  }

  /** Two runs in a row against the same platforms and channel table: when
      every stored row has `fields`, the first run's posts were stored and
      the table still fits in the one page the duplicate check reads, the
      second run appends nothing. */
  lemma SecondRunAppendsNothing(rows: seq<Row>, page: nat, config: ChannelConfig.Response, companies: string,
                                env: Platforms)
    requires AllHaveFields(rows)
    requires VkConnector.Identified(TargetsOf(ChannelConfig.Resolved(config, companies), VK), env.wall)
    requires YouTubeConnector.Identified(TargetsOf(ChannelConfig.Resolved(config, companies), YouTube),
                                         env.lookup, env.search)
    requires RutubeConnector.Identified(TargetsOf(ChannelConfig.Resolved(config, companies), Rutube), env.videos)
    requires Run(Answered(200, FirstPage(rows, page)), config, companies, env).Append?
    requires |rows| + |Run(Answered(200, FirstPage(rows, page)), config, companies, env).posts| <= page
    ensures var first := Run(Answered(200, FirstPage(rows, page)), config, companies, env);
            Run(Answered(200, FirstPage(rows + Appended(first.posts), page)), config, companies, env) == NothingNew
  {
    var existing := ExistingLinks(Answered(200, FirstPage(rows, page)));
    var channels := ChannelConfig.Resolved(config, companies);
    var posts := UpdateData(existing, channels, env).posts;
    AppendFresh(existing, channels, env);
    AppendedLinksSeen(rows, posts, page);
    RerunFindsNothing(existing, channels, env);
  }

  /** A table that already fills the page hides a run's rows from the next
      duplicate check, so against unchanged platforms the next run appends
      the same posts again. */
  lemma FullPageRunRepeats(rows: seq<Row>, page: nat, config: ChannelConfig.Response, companies: string,
                           env: Platforms)
    requires |rows| >= page
    requires Run(Answered(200, FirstPage(rows, page)), config, companies, env).Append?
    ensures var first := Run(Answered(200, FirstPage(rows, page)), config, companies, env);
            Run(Answered(200, FirstPage(rows + Appended(first.posts), page)), config, companies, env) == first
  {
    var first := Run(Answered(200, FirstPage(rows, page)), config, companies, env);
    AppendedBeyondPage(rows, first.posts, page);
  }
}
