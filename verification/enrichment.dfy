/** The enrichment adapter (`analyze_text_with_llm`): every post's text is
    sent to a chat-completion service that is asked for a sentiment and a
    one-sentence summary as JSON.

    The HTTP exchange and the JSON parser are parameters: `complete` is what
    the service answers to an excerpt (an unreachable service, or a status
    and the message content), and `parse` is what
    `json.loads` makes of a candidate span. */
module Enrichment {
  import opened Wrappers
  import opened Text
  import opened Seqs

  /** The outcome of the request: a raised exception (timeout, connection
      error), or a status with the reply's `choices[0].message.content`:
      missing (the lookup raises), `null`, or a string. */
  datatype Reply = Unreachable | Http(status: int, content: Field)

  /** What `json.loads` made of the candidate span: it raised, it is not an
      object, or an object with the two keys the prompt asks for, each
      missing or a string. */
  datatype Json = Unparsable | NotAnObject | Object(sentiment: Option<string>, summary: Option<string>)

  /** A sentiment label and a summary. */
  datatype Analysis = Analysis(sentiment: string, summary: string)

  /** The answer when no request is made. */
  const Skipped := Analysis("Neutral", "Авто-саммари")

  /** The answer on every failure path. */
  const Failed := Analysis("Neutral", "Ошибка анализа")

  /** No key is configured, or the text is shorter than 5 characters. */
  predicate Guarded(configured: bool, text: string) {
    !configured || |text| < 5
  }

  /** The part of the text the prompt carries, or `None` when no request is
      made at all. */
  function Excerpt(configured: bool, text: string): (r: Option<string>)
    ensures r.None? <==> Guarded(configured, text)
    ensures r.Some? ==> r.value <= text && |r.value| == if |text| < 800 then |text| else 800
  {
    if Guarded(configured, text) then None else Some(Take(text, 800))
  }

  /** A `{` occurs somewhere before a `}`: the condition under which the
      pattern `\{.*\}` (with `.` matching newlines) finds a match. */
  ghost predicate HasBraces(content: string) {
    exists i, j :: 0 <= i < j < |content| && content[i] == '{' && content[j] == '}'
  }

  /** The text the pattern `\{.*\}` matches: it starts at the leftmost `{`
      and, `.*` being greedy, ends at the rightmost `}`. */
  function JsonSpan(content: string): (r: Option<string>)
    ensures r.Some? ==> |r.value| >= 2 && r.value[0] == '{' && r.value[|r.value| - 1] == '}'
  {
    match (IndexOf(content, '{'), LastIndexOf(content, '}'))
    case (Some(a), Some(b)) =>
      if a < b then Some(content[a..b + 1]) else None
    case _ => None
  }

  /** The span exists exactly when some `{` precedes some `}`. */
  lemma JsonSpanExists(content: string)
    ensures JsonSpan(content).Some? <==> HasBraces(content)
  {
    var first := IndexOf(content, '{');
    var last := LastIndexOf(content, '}');
    if HasBraces(content) {
      var i, j :| 0 <= i < j < |content| && content[i] == '{' && content[j] == '}';
      assert first.Some? && last.Some?;
    }
  }

  /** The span is the stretch from the first `{` to the last `}`: nothing
      before it is a `{` and nothing after it is a `}`. */
  lemma JsonSpanBounds(content: string)
    requires JsonSpan(content).Some?
    ensures exists a :: 0 <= a && a + |JsonSpan(content).value| <= |content|
              && JsonSpan(content).value == content[a..a + |JsonSpan(content).value|]
              && '{' !in content[..a]
              && '}' !in content[a + |JsonSpan(content).value|..]
  {
    var a := IndexOf(content, '{').value;
    var b := LastIndexOf(content, '}').value;
    assert JsonSpan(content).value == content[a..b + 1];
  }

  /** The request succeeded and its reply held an object. */
  predicate Answered(reply: Reply, parse: string -> Json) {
    && reply.Http? && reply.status == 200 && reply.content.Text?
    && JsonSpan(reply.content.value).Some?
    && parse(JsonSpan(reply.content.value).value).Object?
  }

  /** `analyze_text_with_llm`. */
  function Analyze(configured: bool, text: string, complete: string -> Reply, parse: string -> Json): (a: Analysis)
    ensures Guarded(configured, text) ==> a == Skipped
    ensures !Guarded(configured, text) && !Answered(complete(Take(text, 800)), parse) ==> a == Failed
  {
    match Excerpt(configured, text)
    case None => Skipped
    case Some(excerpt) =>
      match complete(excerpt)
      case Http(200, Text(content)) =>
        (match JsonSpan(content)
         case Some(span) =>
           (match parse(span)
            case Object(sentiment, summary) => Analysis(sentiment.GetOr("Neutral"), summary.GetOr(""))
            case _ => Failed)
         case None => Failed)
      case _ => Failed
  }

  /** A successful reply is read key by key, a missing sentiment counting as
      `Neutral` and a missing summary as empty. */
  lemma AnalyzeAnswered(configured: bool, text: string, complete: string -> Reply, parse: string -> Json)
    requires !Guarded(configured, text)
    requires Answered(complete(Take(text, 800)), parse)
    ensures var json := parse(JsonSpan(complete(Take(text, 800)).content.value).value);
            Analyze(configured, text, complete, parse)
            == Analysis(json.sentiment.GetOr("Neutral"), json.summary.GetOr(""))
  {
  }

  /** Without a key or with a short text the service is never consulted:
      any two services give the same answer. */
  lemma GuardedIgnoresService(configured: bool, text: string, c1: string -> Reply, c2: string -> Reply,
                              parse: string -> Json)
    requires Guarded(configured, text)
    ensures Analyze(configured, text, c1, parse) == Analyze(configured, text, c2, parse)
  {
  }

  /** Only the first 800 characters reach the service: texts that agree on
      them and both pass the guard are analysed alike. */
  lemma AnalyzeSeesExcerpt(configured: bool, t1: string, t2: string, complete: string -> Reply,
                           parse: string -> Json)
    requires !Guarded(configured, t1) && !Guarded(configured, t2)
    requires Take(t1, 800) == Take(t2, 800)
    ensures Analyze(configured, t1, complete, parse) == Analyze(configured, t2, complete, parse)
  {
  }
}
