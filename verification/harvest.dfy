/** The loop every connector shares: for each configured target take the
    first five items the platform returns, skip an item whose permalink is
    already stored, and otherwise build a post from it. An error raised
    while an item is processed abandons the rest of that target but keeps
    what was collected so far.

    A connector reduces each item to a `Candidate` (its permalink and what
    processing it gives); `Collect` is then the common control flow. */
module Harvest {
  import opened Seqs
  import opened Text
  import opened Records

  /** What processing an item gives once its permalink is known to be new:
      a check drops it, a post is built, or an exception is raised. */
  datatype Outcome = Drop | Build(post: Post) | Fail

  /** An item skipped before its permalink is formed, or an item with its
      permalink and outcome. */
  datatype Candidate = Skipped | Linked(link: string, outcome: Outcome)

  /** The request limit every connector passes (`limit`, `count`,
      `maxResults`) or the slice it applies (`[:5]`). */
  const PerTarget := 5

  /** The title the Telegram and VK connectors give a post: the first 50
      characters of its text on one line, marked as cut. */
  function Headline(text: string): string {
    ReplaceAll(Take(text, 50), "\n", " ") + "..."
  }

  /** A headline is the first 50 characters of the text, each line break
      turned into a space, followed by the ellipsis: a single line of at
      most 53 characters. */
  lemma HeadlineOneLine(text: string)
    ensures var n := if |text| < 50 then |text| else 50;
            && |Headline(text)| == n + 3 <= 53
            && (forall k :: 0 <= k < n ==> Headline(text)[k] == if text[k] == '\n' then ' ' else text[k])
            && Headline(text)[n..] == "..."
            && '\n' !in Headline(text)
  {
    ReplaceCharByChar(Take(text, 50), '\n', ' ');
  }

  /** One target's items, in the order the platform returned them. */
  function Scan(items: seq<Candidate>, existing: set<string>): (out: seq<Post>)
    decreases |items|
    ensures |out| <= |items|
  {
    if |items| == 0 then []
    else
      var rest := Scan(items[1..], existing);
      match items[0]
      case Skipped => rest
      case Linked(link, outcome) =>
        if link in existing then rest
        else
          match outcome
          case Drop => rest
          case Fail => []
          case Build(p) => [p] + rest
  }

  /** All targets in order, each cut to its first five items. */
  function Collect(targets: seq<seq<Candidate>>, existing: set<string>): (out: seq<Post>)
    decreases |targets|
    ensures |out| <= PerTarget * |targets|
  {
    if |targets| == 0 then []
    else
      var last := |targets| - 1;
      Collect(targets[..last], existing) + Scan(Take(targets[last], PerTarget), existing)
  }

  /** A post built from an item carries the permalink the item was checked
      under. */
  predicate LinkedRight(c: Candidate) {
    c.Linked? && c.outcome.Build? ==> c.outcome.post.link == c.link
  }

  /** Processing the item raises. */
  predicate Raises(c: Candidate) {
    c.Linked? && c.outcome.Fail?
  }

  /** A post built from the item, if any, satisfies `good`. */
  predicate BuildsOnly(c: Candidate, good: Post -> bool) {
    c.Linked? && c.outcome.Build? ==> good(c.outcome.post)
  }

  predicate WellLinked(items: seq<Candidate>) {
    forall i :: 0 <= i < |items| ==> LinkedRight(items[i])
  }

  /** The candidate lists of the targets: `fetched` is what the platform
      returned for a target and `item` is the connector's processing of one
      returned item. */
  function Batches<T>(targets: seq<string>, fetched: string -> seq<T>, item: (string, T) -> Candidate)
    : (batches: seq<seq<Candidate>>)
    ensures |batches| == |targets|
    ensures forall t :: 0 <= t < |targets| ==> |batches[t]| == |fetched(targets[t])|
    ensures forall t, i :: 0 <= t < |targets| && 0 <= i < |fetched(targets[t])| ==>
              batches[t][i] == item(targets[t], fetched(targets[t])[i])
  {
    seq(|targets|, t requires 0 <= t < |targets| =>
      seq(|fetched(targets[t])|, i requires 0 <= i < |fetched(targets[t])| =>
        item(targets[t], fetched(targets[t])[i])))
  }

  predicate AllWellLinked(targets: seq<seq<Candidate>>) {
    forall t :: 0 <= t < |targets| ==> WellLinked(targets[t])
  }

  /** `p` is built by one of the items under a permalink not yet stored. */
  ghost predicate Emits(items: seq<Candidate>, existing: set<string>, p: Post) {
    exists i :: 0 <= i < |items| && items[i].Linked? && items[i].link !in existing
                && items[i].outcome == Build(p)
  }

  /** The permalinks of a batch of posts. */
  function Links(posts: seq<Post>): set<string> {
    set p | p in posts :: p.link
  }

  /** An item of the first five of a target that is built under a new
      permalink. */
  ghost predicate Reached(targets: seq<seq<Candidate>>, existing: set<string>, p: Post) {
    exists t :: 0 <= t < |targets| && Emits(Take(targets[t], PerTarget), existing, p)
  }

  /** Two items with the same permalink are the same item, so they are
      processed alike — wherever they appear. */
  predicate Consistent(targets: seq<seq<Candidate>>) {
    forall t, u, i, j ::
      0 <= t < |targets| && 0 <= u < |targets| && 0 <= i < |targets[t]| && 0 <= j < |targets[u]|
      && targets[t][i].Linked? && targets[u][j].Linked? && targets[t][i].link == targets[u][j].link
      ==> targets[t][i].outcome == targets[u][j].outcome
  }

  /** Every post of a target comes from one of its items, under a permalink
      that was not stored. */
  lemma {:induction false} ScanOrigin(items: seq<Candidate>, existing: set<string>)
    ensures forall p :: p in Scan(items, existing) ==> Emits(items, existing, p)
    decreases |items|
  {
    if |items| > 0 {
      ScanOrigin(items[1..], existing);
      forall p | p in Scan(items[1..], existing)
        ensures Emits(items, existing, p)
      {
        var i :| 0 <= i < |items[1..]| && items[1..][i].Linked? && items[1..][i].link !in existing
                 && items[1..][i].outcome == Build(p);
        assert items[i + 1] == items[1..][i];
      }
    }
  }

  /** Every collected post comes from one of the first five items of some
      target, under a permalink that was not stored. */
  lemma {:induction false} CollectOrigin(targets: seq<seq<Candidate>>, existing: set<string>)
    ensures forall p :: p in Collect(targets, existing) ==> Reached(targets, existing, p)
    decreases |targets|
  {
    if |targets| > 0 {
      var last := |targets| - 1;
      CollectOrigin(targets[..last], existing);
      ScanOrigin(Take(targets[last], PerTarget), existing);
      forall p | p in Collect(targets, existing)
        ensures Reached(targets, existing, p)
      {
        if p in Collect(targets[..last], existing) {
          var t :| 0 <= t < last && Emits(Take(targets[..last][t], PerTarget), existing, p);
          assert targets[..last][t] == targets[t];
        } else {
          assert Emits(Take(targets[last], PerTarget), existing, p);
        }
      }
    }
  }

  /** The item a collected post comes from. */
  lemma CollectWitness(targets: seq<seq<Candidate>>, existing: set<string>, p: Post) returns (t: int, i: int)
    requires p in Collect(targets, existing)
    ensures 0 <= t < |targets| && 0 <= i < |targets[t]| && i < PerTarget
    ensures targets[t][i].Linked? && targets[t][i].link !in existing && targets[t][i].outcome == Build(p)
  {
    CollectOrigin(targets, existing);
    t :| 0 <= t < |targets| && Emits(Take(targets[t], PerTarget), existing, p);
    var items := Take(targets[t], PerTarget);
    TakeKeeps(targets[t], PerTarget);
    i :| 0 <= i < |items| && items[i].Linked? && items[i].link !in existing && items[i].outcome == Build(p);
  }

  /** A post is only ever built under its own permalink, so no collected
      post duplicates a stored one. */
  lemma CollectFresh(targets: seq<seq<Candidate>>, existing: set<string>)
    requires AllWellLinked(targets)
    ensures forall p :: p in Collect(targets, existing) ==> p.link !in existing
  {
    CollectOrigin(targets, existing);
    forall p | p in Collect(targets, existing)
      ensures p.link !in existing
    {
      var t :| 0 <= t < |targets| && Emits(Take(targets[t], PerTarget), existing, p);
      var items := Take(targets[t], PerTarget);
      var i :| 0 <= i < |items| && items[i].Linked? && items[i].link !in existing
               && items[i].outcome == Build(p);
      assert items[i] == targets[t][i];
    }
  }

  /** Rerunning a target with a larger set of stored permalinks, one holding
      everything the first run built, builds nothing — provided no item
      that raised is newly counted as stored. */
  lemma {:induction false} ScanRerun(items: seq<Candidate>, existing: set<string>, later: set<string>)
    requires existing <= later
    requires WellLinked(items)
    requires Links(Scan(items, existing)) <= later
    requires forall i :: (0 <= i < |items| && items[i].Linked? && items[i].outcome.Fail?
                          && items[i].link in later) ==> items[i].link in existing
    ensures Scan(items, later) == []
    decreases |items|
  {
    if |items| > 0 {
      var rest := items[1..];
      assert WellLinked(rest) by {
        forall i | 0 <= i < |rest| ensures rest[i] == items[i + 1] { }
      }
      assert forall i :: 0 <= i < |rest| ==> rest[i] == items[i + 1];
      match items[0]
      case Skipped =>
        ScanRerun(rest, existing, later);
      case Linked(link, outcome) =>
        if link in existing {
          ScanRerun(rest, existing, later);
        } else {
          match outcome
          case Drop =>
            ScanRerun(rest, existing, later);
          case Fail =>
          case Build(p) =>
            assert p in Scan(items, existing);
            assert Links(Scan(rest, existing)) <= Links(Scan(items, existing));
            ScanRerun(rest, existing, later);
        }
    }
  }

  /** The links of a prefix of a target's items obey what the whole target
      obeys. */
  lemma TakeKeeps(items: seq<Candidate>, n: nat)
    ensures WellLinked(items) ==> WellLinked(Take(items, n))
    ensures forall i :: 0 <= i < |Take(items, n)| ==> Take(items, n)[i] == items[i]
  {
  }

  /** Rerunning the whole collection with everything it built stored builds
      nothing, when no item that raised shares a permalink with a stored or
      collected post it was not already checked against. */
  lemma {:induction false} CollectRerun(targets: seq<seq<Candidate>>, existing: set<string>, later: set<string>)
    requires existing <= later
    requires AllWellLinked(targets)
    requires Links(Collect(targets, existing)) <= later
    requires forall t, i :: (0 <= t < |targets| && 0 <= i < |targets[t]| && targets[t][i].Linked?
                             && targets[t][i].outcome.Fail? && targets[t][i].link in later)
                            ==> targets[t][i].link in existing
    ensures Collect(targets, later) == []
    decreases |targets|
  {
    if |targets| > 0 {
      var last := |targets| - 1;
      var init := targets[..last];
      assert forall t :: 0 <= t < last ==> init[t] == targets[t];
      assert Links(Collect(init, existing)) <= Links(Collect(targets, existing));
      CollectRerun(init, existing, later);
      var items := Take(targets[last], PerTarget);
      TakeKeeps(targets[last], PerTarget);
      assert Links(Scan(items, existing)) <= Links(Collect(targets, existing));
      ScanRerun(items, existing, later);
    }
  }

  /** No item is checked under a permalink of `others`. */
  predicate Unlisted(targets: seq<seq<Candidate>>, others: set<string>) {
    forall t, i :: 0 <= t < |targets| && 0 <= i < |targets[t]| && targets[t][i].Linked?
                   ==> targets[t][i].link !in others
  }

  /** The idempotence of a connector: when a permalink identifies its item,
      a second run against the stored links plus everything the first run
      built builds nothing, whatever else is stored that no item is checked
      under. */
  lemma CollectIdempotent(targets: seq<seq<Candidate>>, existing: set<string>, others: set<string>)
    requires AllWellLinked(targets)
    requires Consistent(targets)
    requires Unlisted(targets, others)
    ensures Collect(targets, existing + Links(Collect(targets, existing)) + others) == []
  {
    var built := Collect(targets, existing);
    var later := existing + Links(built) + others;
    CollectOrigin(targets, existing);
    forall t, i | 0 <= t < |targets| && 0 <= i < |targets[t]| && targets[t][i].Linked?
                  && targets[t][i].outcome.Fail? && targets[t][i].link in later
      ensures targets[t][i].link in existing
    {
    }
    CollectRerun(targets, existing, later);
  }

  /** No item before position `i` raises under a permalink that is not
      stored, so processing reaches position `i`. */
  predicate ClearBefore(items: seq<Candidate>, existing: set<string>, i: int) {
    forall j :: 0 <= j < i && j < |items| ==> !(Raises(items[j]) && items[j].link !in existing)
  }

  /** An item built under a new permalink is collected when processing
      reaches it. */
  lemma {:induction false} ScanReaches(items: seq<Candidate>, existing: set<string>, i: int)
    requires 0 <= i < |items| && items[i].Linked? && items[i].link !in existing
    requires items[i].outcome.Build?
    requires ClearBefore(items, existing, i)
    ensures items[i].outcome.post in Scan(items, existing)
    decreases i
  {
    if i > 0 {
      var rest := items[1..];
      assert rest[i - 1] == items[i];
      assert ClearBefore(rest, existing, i - 1) by {
        forall j | 0 <= j < i - 1 && j < |rest| ensures rest[j] == items[j + 1] { }
      }
      ScanReaches(rest, existing, i - 1);
    }
  }

  /** An item among the first five of a target that is built under a new
      permalink is collected when processing reaches it. */
  lemma {:induction false} CollectReaches(targets: seq<seq<Candidate>>, existing: set<string>, t: int, i: int)
    requires 0 <= t < |targets| && 0 <= i < |targets[t]| && i < PerTarget
    requires targets[t][i].Linked? && targets[t][i].link !in existing && targets[t][i].outcome.Build?
    requires ClearBefore(targets[t], existing, i)
    ensures targets[t][i].outcome.post in Collect(targets, existing)
    decreases |targets|
  {
    var last := |targets| - 1;
    if t < last {
      assert targets[..last][t] == targets[t];
      CollectReaches(targets[..last], existing, t, i);
    } else {
      var items := Take(targets[t], PerTarget);
      TakeKeeps(targets[t], PerTarget);
      ScanReaches(items, existing, i);
    }
  }

  /** Whatever every item builds, every collected post is. */
  lemma CollectBuildsOnly(targets: seq<seq<Candidate>>, existing: set<string>, good: Post -> bool)
    requires forall t, i :: 0 <= t < |targets| && 0 <= i < |targets[t]| ==> BuildsOnly(targets[t][i], good)
    ensures forall p :: p in Collect(targets, existing) ==> good(p)
  {
    CollectOrigin(targets, existing);
    forall p | p in Collect(targets, existing)
      ensures good(p)
    {
      var t :| 0 <= t < |targets| && Emits(Take(targets[t], PerTarget), existing, p);
      var items := Take(targets[t], PerTarget);
      var i :| 0 <= i < |items| && items[i].Linked? && items[i].link !in existing
               && items[i].outcome == Build(p);
      assert items[i] == targets[t][i];
    }
  }

  /** Without an item that raises, a second run against the stored links
      plus everything the first run built builds nothing, whatever else is
      stored. */
  lemma CollectIdempotentWithoutFailures(targets: seq<seq<Candidate>>, existing: set<string>, others: set<string>)
    requires AllWellLinked(targets)
    requires forall t, i :: 0 <= t < |targets| && 0 <= i < |targets[t]| ==> !Raises(targets[t][i])
    ensures Collect(targets, existing + Links(Collect(targets, existing)) + others) == []
  {
    CollectRerun(targets, existing, existing + Links(Collect(targets, existing)) + others);
  }
}
