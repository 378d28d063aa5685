/** The channel-configuration resolver (`get_monitored_channels`): it reads
    the rows of the channel table, keeps the watched ones, reduces each
    channel link to the identifier its connector expects, and groups the
    identifiers by platform in row order. When no Habr row survives, the
    companies of the `HABR_TARGET_COMPANIES` setting are used instead. */
module ChannelConfig {
  import opened Wrappers
  import opened Text
  import opened Records
  import opened Seqs

  /** The three columns of a channel row the resolver reads; a column the
      row lacks (or a row without a `fields` object) reads as `None`. */
  datatype ChannelRow = ChannelRow(activity: Option<string>, source: Option<string>, name: Option<string>)

  /** The outcome of the channel-table request: it raised, or it came back
      with a status and the rows of the body. */
  datatype Response = Raised | Answered(status: int, rows: seq<ChannelRow>)

  /** The identifiers to monitor, per platform. The resolver's non-200 answer
      is the empty mapping. */
  type Channels = map<Source, seq<string>>

  /** The `Тип активности` value of a watched channel. */
  const Watch := "Смотреть"

  /** The default of the `HABR_TARGET_COMPANIES` setting. */
  const DefaultCompanies := "mts_ai,telegram,vk"

  /** `fields.get('Имя канала', '').strip()`. */
  function RawLink(row: ChannelRow): string {
    Strip(row.name.GetOr(""))
  }

  /** A rule reducing a platform's channel link to an identifier. */
  type Cleaner = (Source, string) -> string

  /** The per-platform link cleaning, with its quirks: Telegram loses every
      `@`, Rutube every `/`, and the Habr rule looks for `/company/` where
      the platform writes `/companies/`. */
  function CleanId(src: Source, raw: string): string {
    match src
    case Telegram => ReplaceAll(ReplaceAll(raw, "https://t.me/", ""), "@", "")
    case VK => ReplaceAll(ReplaceAll(raw, "https://vk.com/", ""), "https://m.vk.com/", "")
    case YouTube => ReplaceAll(ReplaceAll(raw, "https://www.youtube.com/", ""), "https://youtube.com/", "")
    case Rutube => ReplaceAll(ReplaceAll(raw, "https://rutube.ru/channel/", ""), "/", "")
    case Habr =>
      if Contains(raw, "habr.com") then ReplaceAll(ReplaceAll(raw, "https://habr.com/ru/company/", ""), "/", "")
      else raw
  }

  /** What one row adds to the mapping, in the order the resolver tests
      it: nothing unless it is watched, has a source and a non-blank name,
      the source is one of the five platforms and the name does not clean
      to "". */
  function Contribution(row: ChannelRow, clean: Cleaner): Option<(Source, string)> {
    if row.activity != Some(Watch) || row.source.None? || row.source.value == "" || RawLink(row) == "" then None
    else match SourceNamed(row.source.value)
      case None => None
      case Some(src) =>
        var id := clean(src, RawLink(row));
        if id == "" then None else Some((src, id))
  }

  /** A row contributes to `src`: it is watched, names `src` as its source,
      has a non-blank channel name, and that name does not clean to "". */
  predicate Admits(row: ChannelRow, src: Source, clean: Cleaner) {
    && row.activity == Some(Watch)
    && row.source == Some(SourceName(src))
    && RawLink(row) != ""
    && clean(src, RawLink(row)) != ""
  }

  /** A row adds an identifier to `src` exactly when it passes every filter
      for `src`, and the identifier is its cleaned name. */
  lemma ContributionAdmits(row: ChannelRow, src: Source, clean: Cleaner)
    ensures Contribution(row, clean).Some? && Contribution(row, clean).value.0 == src <==> Admits(row, src, clean)
    ensures Admits(row, src, clean) ==> Contribution(row, clean).value.1 == clean(src, RawLink(row))
  {
    if row.source.Some? {
      SourceNameInjective(src, SourceNamed(row.source.value).GetOr(src));
    }
  }

  /** The identifiers the rows contribute to `src`, in row order. */
  function Watched(rows: seq<ChannelRow>, src: Source, clean: Cleaner): seq<string>
    decreases |rows|
  {
    if |rows| == 0 then []
    else
      var add := Contribution(rows[|rows| - 1], clean);
      Watched(rows[..|rows| - 1], src, clean) + (if add.Some? && add.value.0 == src then [add.value.1] else [])
  }

  /** The companies of the setting, stripped, blank ones dropped. */
  function Companies(parts: seq<string>): (r: seq<string>)
    decreases |parts|
    ensures forall k :: 0 <= k < |r| ==> r[k] != ""
  {
    if |parts| == 0 then []
    else
      (if Strip(parts[0]) != "" then [Strip(parts[0])] else [])
      + Companies(parts[1..])
  }

  /** The mapping the resolver returns, given the table's answer and the
      `HABR_TARGET_COMPANIES` setting. */
  function Resolved(response: Response, companies: string): Channels {
    match response
    case Raised => Listing([], [], [], [], Split(companies, ","))
    case Answered(status, rows) =>
      if status != 200 then map[]
      else
        var habr := Watched(rows, Habr, CleanId);
        Listing(Watched(rows, Telegram, CleanId), Watched(rows, VK, CleanId), Watched(rows, YouTube, CleanId), Watched(rows, Rutube, CleanId),
                if habr == [] then Companies(Split(companies, ",")) else habr)
  }

  /** A mapping with an entry for each of the five platforms. */
  function Listing(telegram: seq<string>, vk: seq<string>, youtube: seq<string>, rutube: seq<string>,
                   habr: seq<string>): Channels {
    map[Telegram := telegram, VK := vk, YouTube := youtube, Rutube := rutube, Habr := habr]
  }

  const Platforms: set<Source> := {Telegram, VK, YouTube, Rutube, Habr}

  lemma PlatformsComplete(src: Source)
    ensures src in Platforms
  {
  }

  /** The loop of the resolver: one pass over the rows, each admitted
      identifier appended to its platform's list. */
  method Collect(rows: seq<ChannelRow>) returns (channels: Channels)
    ensures channels.Keys == Platforms
    ensures forall src :: src in channels ==> channels[src] == Watched(rows, src, CleanId)
  {
    channels := map[Telegram := [], VK := [], YouTube := [], Rutube := [], Habr := []];
    var i := 0;
    while i < |rows|
      invariant i <= |rows|
      invariant channels.Keys == Platforms
      invariant forall src :: src in channels ==> channels[src] == Watched(rows[..i], src, CleanId)
    {
      assert rows[..i + 1][..i] == rows[..i];
      var add := Contribution(rows[i], CleanId);
      if add.Some? {
        var (src, id) := add.value;
        PlatformsComplete(src);
        channels := channels[src := channels[src] + [id]];
      }
      i := i + 1;
    }
    assert rows[..i] == rows;
  }

  /** `get_monitored_channels` as the source writes it. */
  method ResolveChannels(response: Response, companies: string) returns (channels: Channels)
    ensures channels == Resolved(response, companies)
  {
    if response.Raised? {
      return Listing([], [], [], [], Split(companies, ","));
    }
    if response.status != 200 {
      return map[];
    }
    var found := Collect(response.rows);
    var habr := if found[Habr] == [] then Companies(Split(companies, ",")) else found[Habr];
    channels := Listing(found[Telegram], found[VK], found[YouTube], found[Rutube], habr);
  }

  // ---------------------------------------------------------------------
  // What a resolved mapping holds
  // ---------------------------------------------------------------------

  /** An identifier is listed for `src` exactly when some admitted row
      cleans to it. */
  lemma {:induction false} WatchedMembers(rows: seq<ChannelRow>, src: Source, clean: Cleaner, id: string)
    ensures id in Watched(rows, src, clean)
        <==> exists i :: 0 <= i < |rows| && Admits(rows[i], src, clean) && clean(src, RawLink(rows[i])) == id
    decreases |rows|
  {
    if |rows| > 0 {
      var init := rows[..|rows| - 1];
      WatchedMembers(init, src, clean, id);
      assert forall i :: 0 <= i < |init| ==> init[i] == rows[i];
      ContributionAdmits(rows[|rows| - 1], src, clean);
    }
  }

  /** Identifiers keep row order: the rows of a later stretch of the table
      contribute after those of an earlier one. */
  lemma {:induction false} WatchedAppend(a: seq<ChannelRow>, b: seq<ChannelRow>, src: Source, clean: Cleaner)
    ensures Watched(a + b, src, clean) == Watched(a, src, clean) + Watched(b, src, clean)
    decreases |b|
  {
    if |b| == 0 {
      assert a + b == a;
    } else {
      WatchedAppend(a, b[..|b| - 1], src, clean);
      assert (a + b)[..|a + b| - 1] == a + b[..|b| - 1];
    }
  }

  /** A successful answer lists all five platforms, and no listed
      identifier is empty. */
  lemma ResolvedNonEmpty(rows: seq<ChannelRow>, companies: string)
    ensures var m := Resolved(Answered(200, rows), companies);
            && (forall src: Source :: src in m)
            && forall src: Source, k :: src in m && 0 <= k < |m[src]| ==> m[src][k] != ""
  {
    var m := Resolved(Answered(200, rows), companies);
    forall src: Source, k | 0 <= k < |Watched(rows, src, CleanId)|
      ensures Watched(rows, src, CleanId)[k] != ""
    {
      var id := Watched(rows, src, CleanId)[k];
      WatchedMembers(rows, src, CleanId, id);
      var i :| 0 <= i < |rows| && Admits(rows[i], src, CleanId) && CleanId(src, RawLink(rows[i])) == id;
    }
    forall src: Source
      ensures src in m
    {
      PlatformsComplete(src);
    }
  }

  /** A non-200 answer yields no mapping at all, and a raised request every
      platform with no identifiers except Habr, which gets the unstripped
      setting. */
  lemma ResolvedFailures(status: int, rows: seq<ChannelRow>, companies: string)
    ensures status != 200 ==> Resolved(Answered(status, rows), companies) == map[]
    ensures var m := Resolved(Raised, companies);
            && m[Habr] == Split(companies, ",")
            && forall src: Source :: src != Habr ==> src in m && m[src] == []
  {
  }

  /** A setting of comma-separated company names, as the default
      `mts_ai,telegram,vk` is, lists those names in order. */
  lemma CompaniesSetting(a: string, b: string, c: string)
    requires ',' !in a && ',' !in b && ',' !in c
    requires Strip(a) == a && Strip(b) == b && Strip(c) == c
    requires a != "" && b != "" && c != ""
    ensures Companies(Split(a + "," + b + "," + c, ",")) == [a, b, c]
  {
    SplitThree(a, b, c);
    CompaniesKeep([a, b, c]);
  }

  lemma SplitThree(a: string, b: string, c: string)
    requires ',' !in a && ',' !in b && ',' !in c
    ensures Split(a + "," + b + "," + c, ",") == [a, b, c]
  {
    var s := a + "," + b + "," + c;
    var rest := b + "," + c;
    assert s == a + [','] + rest;
    SplitSingleChar(b, ',', c);
    assert s[0..|a|] == a;
    FindFromSkipChars(s, ",", 0, |a|);
    assert MatchesFrom(s, ",", |a| + 1, 1);
    assert MatchesFrom(s, ",", |a|, 0);
    SplitHead(s, ",", |a|);
    assert s[..|a|] == a && s[|a| + 1..] == rest;
  }

  /** Each part of the setting, stripped. */
  function Stripped(parts: seq<string>): seq<string> {
    seq(|parts|, k requires 0 <= k < |parts| => Strip(parts[k]))
  }

  predicate NonBlank(s: string) {
    s != ""
  }

  /** The companies are `[c.strip() for c in parts if c.strip()]`: the
      stripped parts, in order, with the empty ones left out; so a name is
      listed exactly when it is non-empty and some part strips to it. */
  lemma {:induction false} CompaniesSpec(parts: seq<string>)
    ensures Companies(parts) == Filter(Stripped(parts), NonBlank)
    ensures forall name :: name in Companies(parts) <==>
              name != "" && exists k :: 0 <= k < |parts| && Strip(parts[k]) == name
    decreases |parts|
  {
    if |parts| > 0 {
      CompaniesSpec(parts[1..]);
      assert Stripped(parts)[1..] == Stripped(parts[1..]);
    }
    var r := Filter(Stripped(parts), NonBlank);
    forall name | name != "" && exists k :: 0 <= k < |parts| && Strip(parts[k]) == name
      ensures name in r
    {
      var k :| 0 <= k < |parts| && Strip(parts[k]) == name;
      assert Stripped(parts)[k] == name;
    }
    forall name | name in r
      ensures exists k :: 0 <= k < |parts| && Strip(parts[k]) == name
    {
      var i :| 0 <= i < |r| && r[i] == name;
      var k :| 0 <= k < |parts| && Stripped(parts)[k] == name;
    }
  }

  /** Companies already stripped and non-blank are kept as they are. */
  lemma {:induction false} CompaniesKeep(parts: seq<string>)
    requires forall k :: 0 <= k < |parts| ==> parts[k] != "" && Strip(parts[k]) == parts[k]
    ensures Companies(parts) == parts
    decreases |parts|
  {
    if |parts| > 0 {
      CompaniesKeep(parts[1..]);
    }
  }

  // ---------------------------------------------------------------------
  // Cleaning, platform by platform
  // ---------------------------------------------------------------------

  /** Telegram identifiers never keep an `@`. */
  lemma TelegramNoAt(raw: string)
    ensures '@' !in CleanId(Telegram, raw)
  {
    RemoveCharAll(ReplaceAll(raw, "https://t.me/", ""), '@');
  }

  /** Rutube identifiers never keep a `/`. */
  lemma RutubeNoSlash(raw: string)
    ensures '/' !in CleanId(Rutube, raw)
  {
    RemoveCharAll(ReplaceAll(raw, "https://rutube.ru/channel/", ""), '/');
  }

  /** A Telegram link and an `@handle` both clean to the bare handle. */
  lemma TelegramHandle(handle: string)
    requires '/' !in handle && '@' !in handle
    ensures CleanId(Telegram, "https://t.me/" + handle) == handle
    ensures CleanId(Telegram, "@" + handle) == handle
  {
    ReplaceLeadingOnce("https://t.me/", handle, "", 12);
    assert "" + handle == handle;
    NotContainsWithoutFirstChar(handle, "@");
    ReplaceAllAbsent(handle, "@", "");
    NotContainsWithoutChar("@" + handle, "https://t.me/", 12);
    ReplaceAllAbsent("@" + handle, "https://t.me/", "");
    ReplaceSingleChar([], '@', handle, "");
    assert [] + ['@'] + handle == "@" + handle;
    assert [] + "" + handle == handle;
  }

  /** A VK profile link cleans to the profile name (`https://vk.com/mts`
      to `mts`). */
  lemma VkProfile(name: string)
    requires '/' !in name
    ensures CleanId(VK, "https://vk.com/" + name) == name
  {
    ReplaceLeadingOnce("https://vk.com/", name, "", 14);
    assert "" + name == name;
    NotContainsWithoutChar(name, "https://m.vk.com/", 16);
    ReplaceAllAbsent(name, "https://m.vk.com/", "");
  }

  /** A YouTube channel link cleans to what follows the host. */
  lemma YouTubePath(handle: string)
    requires '/' !in handle
    ensures CleanId(YouTube, "https://www.youtube.com/" + handle) == handle
  {
    ReplaceLeadingOnce("https://www.youtube.com/", handle, "", 23);
    assert "" + handle == handle;
    NotContainsWithoutChar(handle, "https://youtube.com/", 19);
    ReplaceAllAbsent(handle, "https://youtube.com/", "");
  }

  /** A Rutube channel link cleans to the channel number, the trailing `/`
      going with the rule that removes every slash. */
  lemma RutubeChannel(id: string)
    requires '/' !in id && ':' !in id
    ensures CleanId(Rutube, "https://rutube.ru/channel/" + id + "/") == id
  {
    var prefix := "https://rutube.ru/channel/";
    assert prefix + id + "/" == prefix + (id + "/");
    assert prefix[5] == ':';
    assert ':' !in id + "/";
    ReplaceLeadingOnce(prefix, id + "/", "", 5);
    assert "" + (id + "/") == id + ['/'] + [];
    ReplaceSingleChar(id, '/', [], "");
    assert id + "" + [] == id;
  }

  /** The example of the channel table: `https://rutube.ru/channel/12345/`. */
  lemma RutubeChannelExample()
    ensures CleanId(Rutube, "https://rutube.ru/channel/" + "12345" + "/") == "12345"
  {
    RutubeChannel("12345");
  }

  /** A link on the `/company/` path the Habr rule was written for cleans
      to the company name. */
  lemma HabrCompanyLink(name: string)
    requires '/' !in name
    ensures CleanId(Habr, "https://habr.com/ru/company/" + name) == name
  {
    var rule := "https://habr.com/ru/company/";
    OccursInPrefix(rule, name, "habr.com", 8);
    ContainsIff(rule + name, "habr.com");
    ReplaceLeadingOnce(rule, name, "", 27);
    assert "" + name == name;
    NotContainsWithoutFirstChar(name, "/");
    ReplaceAllAbsent(name, "/", "");
  }

  /** The host sits right after the scheme in the `/companies/` path. */
  lemma HostInPath()
    ensures OccursAt("https://habr.com/ru/companies/", "habr.com", 8)
  {
    var scheme, host, rest := "https://", "habr.com", "/ru/companies/";
    assert scheme + host + rest == "https://habr.com/ru/companies/";
    assert (scheme + host + rest)[8..16] == host;
  }

  /** A pattern of 28 characters with an `h` first, a `:` at 5 and a `y`
      at 26 cannot start inside a 30-character prefix without a `y`, whose
      only `:` can be at 5 and whose last five characters hold no `h`. So
      it occurs after such a prefix only where it occurs in what follows. */
  lemma NoStraddle(path: string, rule: string, name: string)
    requires |path| == 30 && |rule| == 28
    requires rule[0] == 'h' && rule[5] == ':' && rule[26] == 'y'
    requires 'y' !in path && ':' !in path[6..] && 'h' !in path[25..]
    requires !Contains(name, rule)
    ensures !Contains(path + name, rule)
  {
    var link := path + name;
    ContainsIff(link, rule);
    ContainsIff(name, rule);
    if Contains(link, rule) {
      var j :| OccursAt(link, rule, j);
      assert link[j..j + 28] == rule;
      assert link[j] == 'h' && link[j + 5] == ':' && link[j + 26] == 'y';
      if j >= 30 {
        assert name[j - 30..j - 2] == link[j..j + 28];
        assert OccursAt(name, rule, j - 30);
      }
    }
  }

  lemma CompaniesPathNoY()
    ensures |"https://habr.com/ru/companies/"| == 30 && 'y' !in "https://habr.com/ru/companies/"
  {
  }

  lemma CompaniesPathColon()
    ensures ':' !in "https://habr.com/ru/companies/"[6..]
  {
    assert "https://habr.com/ru/companies/"[6..] == "//habr.com/ru/companies/";
  }

  lemma CompaniesPathTail()
    ensures 'h' !in "https://habr.com/ru/companies/"[25..]
  {
    assert "https://habr.com/ru/companies/"[25..] == "nies/";
  }

  lemma CompanyRuleLetters()
    ensures var rule := "https://habr.com/ru/company/";
            |rule| == 28 && rule[0] == 'h' && rule[5] == ':' && rule[26] == 'y'
  {
  }

  /** The Habr rule cannot start inside the `/companies/` path, so it
      occurs in such a link only where it occurs in the name. */
  lemma RuleOnlyInName(name: string)
    requires !Contains(name, "https://habr.com/ru/company/")
    ensures !Contains("https://habr.com/ru/companies/" + name, "https://habr.com/ru/company/")
  {
    CompaniesPathNoY();
    CompaniesPathColon();
    CompaniesPathTail();
    CompanyRuleLetters();
    NoStraddle("https://habr.com/ru/companies/", "https://habr.com/ru/company/", name);
  }

  /** The Habr rule misses the platform's `/companies/` path: such a link,
      `https://habr.com/ru/companies/mts_ai/` for one, only loses its
      slashes, host and path included. */
  lemma HabrCompaniesLink(name: string)
    requires !Contains(name, "https://habr.com/ru/company/")
    ensures var link := "https://habr.com/ru/companies/" + name;
            CleanId(Habr, link) == ReplaceAll(link, "/", "") && '/' !in CleanId(Habr, link)
  {
    var link := "https://habr.com/ru/companies/" + name;
    var path := "https://habr.com/ru/companies/";
    HostInPath();
    OccursInPrefix(path, name, "habr.com", 8);
    ContainsIff(link, "habr.com");
    RuleOnlyInName(name);
    ReplaceAllAbsent(link, "https://habr.com/ru/company/", "");
    RemoveCharAll(link, '/');
  }
}
