/** The records that flow through the pipeline: the platforms, a post as a
    connector builds it, and a row of the content table as the analytics
    endpoints read it back. */
module Records {
  import opened Wrappers

  /** The five platforms the pipeline collects from. */
  datatype Source = Telegram | VK | YouTube | Rutube | Habr

  /** The platform name as it is written into the `Источник` column and used
      as a key of the channel mapping. */
  function SourceName(s: Source): string {
    match s
    case Telegram => "Telegram"
    case VK => "VK"
    case YouTube => "YouTube"
    case Rutube => "Rutube"
    case Habr => "Habr"
  }

  /** The platform with the given name, if any. */
  function SourceNamed(name: string): (r: Option<Source>)
    ensures r.Some? ==> SourceName(r.value) == name
    ensures r.None? ==> forall s: Source :: SourceName(s) != name
  {
    if name == "Telegram" then Some(Telegram)
    else if name == "VK" then Some(VK)
    else if name == "YouTube" then Some(YouTube)
    else if name == "Rutube" then Some(Rutube)
    else if name == "Habr" then Some(Habr)
    else None
  }

  /** Distinct platforms have distinct names. */
  lemma SourceNameInjective(a: Source, b: Source)
    ensures SourceName(a) == SourceName(b) <==> a == b
  {
    assert SourceNamed(SourceName(a)) == Some(a);
    assert SourceNamed(SourceName(b)) == Some(b);
  }

  /** A post as a connector hands it to the table: every column is filled,
      except `Комментарии`, which only the Habr connector writes. */
  datatype Post = Post(
    title: string,
    text: string,
    date: string,
    views: int,
    likes: int,
    reposts: int,
    comments: Option<int>,
    source: Source,
    link: string,
    sentiment: string,
    summary: string)

  /** The columns of a stored row; a column the row does not carry is `None`. */
  datatype Fields = Fields(
    title: Option<string>,
    text: Option<string>,
    date: Option<string>,
    views: Option<int>,
    likes: Option<int>,
    reposts: Option<int>,
    comments: Option<int>,
    source: Option<string>,
    link: Option<string>,
    sentiment: Option<string>,
    summary: Option<string>)

  /** A row as the table API returns it; `fields` is `None` when the row has
      no `fields` object at all. */
  datatype Row = Row(fields: Option<Fields>)

  const NoFields := Fields(None, None, None, None, None, None, None, None, None, None, None)

  /** `record.get('fields', {})`. */
  function FieldsOf(r: Row): Fields {
    r.fields.GetOr(NoFields)
  }

  /** The columns written for a post. */
  function Stored(p: Post): Fields {
    Fields(Some(p.title), Some(p.text), Some(p.date), Some(p.views), Some(p.likes),
           Some(p.reposts), p.comments, Some(SourceName(p.source)), Some(p.link),
           Some(p.sentiment), Some(p.summary))
  }

  /** Reads a post back from a row's columns, when every column a post needs
      is present and the source is a known platform. */
  function Recover(f: Fields): Option<Post> {
    if f.title.Some? && f.text.Some? && f.date.Some? && f.views.Some? && f.likes.Some?
       && f.reposts.Some? && f.source.Some? && SourceNamed(f.source.value).Some?
       && f.link.Some? && f.sentiment.Some? && f.summary.Some?
    then Some(Post(f.title.value, f.text.value, f.date.value, f.views.value, f.likes.value,
                   f.reposts.value, f.comments, SourceNamed(f.source.value).value,
                   f.link.value, f.sentiment.value, f.summary.value))
    else None
  }

  /** Storing a post loses nothing: it can be read back unchanged. */
  lemma RecoverStored(p: Post)
    ensures Recover(Stored(p)) == Some(p)
  {
    assert SourceNamed(SourceName(p.source)) == Some(p.source);
  }

  /** The four numeric columns that `/api/top/content` may rank by. */
  datatype Metric = Views | Likes | Reposts | Comments

  function MetricName(m: Metric): string {
    match m
    case Views => "Просмотры"
    case Likes => "Лайки"
    case Reposts => "Репосты"
    case Comments => "Комментарии"
  }

  /** The metric with the given column name, if it is one of the four. */
  function MetricNamed(name: string): (r: Option<Metric>)
    ensures r.Some? ==> MetricName(r.value) == name
    ensures r.None? ==> forall m: Metric :: MetricName(m) != name
  {
    if name == "Просмотры" then Some(Views)
    else if name == "Лайки" then Some(Likes)
    else if name == "Репосты" then Some(Reposts)
    else if name == "Комментарии" then Some(Comments)
    else None
  }

  /** `fields.get(<metric column>, 0)`. */
  function MetricValue(f: Fields, m: Metric): int {
    match m
    case Views => f.views.GetOr(0)
    case Likes => f.likes.GetOr(0)
    case Reposts => f.reposts.GetOr(0)
    case Comments => f.comments.GetOr(0)
  }
}
