/** The string operations of Python's `str` (and JavaScript's `String`) that
    the pipeline is built from: `find` / `in`, `split`, `join`, `replace`,
    `strip`, `lower`, and `str(int)`. Strings are sequences of characters;
    only the ASCII white space and the ASCII and basic Cyrillic case pairs
    are modelled. */
module Text {
  import opened Wrappers

  // ---------------------------------------------------------------------
  // Searching
  // ---------------------------------------------------------------------

  /** `sub` occurs in `s` starting at position `i`. */
  predicate OccursAt(s: string, sub: string, i: int) {
    0 <= i && i + |sub| <= |s| && s[i..i + |sub|] == sub
  }

  /** `sub[k..]` lines up with `s` from position `i`; written character by
      character so that it unfolds on literal strings. */
  predicate MatchesFrom(s: string, sub: string, i: nat, k: nat)
    requires k <= |sub|
    decreases |sub| - k
  {
    k == |sub| || (i < |s| && s[i] == sub[k] && MatchesFrom(s, sub, i + 1, k + 1))
  }

  lemma {:induction false} MatchesFromSlice(s: string, sub: string, i: nat, k: nat)
    requires k <= |sub| && i <= |s|
    ensures MatchesFrom(s, sub, i, k) <==> (i + (|sub| - k) <= |s| && s[i..i + (|sub| - k)] == sub[k..])
    decreases |sub| - k
  {
    if k < |sub| && i < |s| {
      MatchesFromSlice(s, sub, i + 1, k + 1);
      if i + (|sub| - k) <= |s| {
        assert s[i..i + (|sub| - k)] == [s[i]] + s[i + 1..i + (|sub| - k)];
        assert sub[k..] == [sub[k]] + sub[k + 1..];
      }
    }
  }

  /** Regrouping a concatenation; stated once so that proofs about the
      string functions need not re-derive it element by element. */
  lemma Regroup(a: string, b: string, c: string)
    ensures a + b + c == a + (b + c)
  {
  }

  /** Python's `s.find(sub, from)`: the first occurrence at or after `from`. */
  function FindFrom(s: string, sub: string, from: nat): (r: Option<nat>)
    decreases |s| - from
    ensures r.Some? ==> from <= r.value && OccursAt(s, sub, r.value)
    ensures r.Some? ==> forall j :: from <= j < r.value ==> !OccursAt(s, sub, j)
    ensures r.None? ==> forall j :: from <= j ==> !OccursAt(s, sub, j)
  {
    if from + |sub| > |s| then None
    else
      MatchesFromSlice(s, sub, from, 0);
      if MatchesFrom(s, sub, from, 0) then Some(from)
      else FindFrom(s, sub, from + 1)
  }

  function Find(s: string, sub: string): Option<nat> {
    FindFrom(s, sub, 0)
  }

  /** Python's `sub in s`. */
  predicate Contains(s: string, sub: string) {
    Find(s, sub).Some?
  }

  lemma ContainsIff(s: string, sub: string)
    ensures Contains(s, sub) <==> exists i :: OccursAt(s, sub, i)
  {
  }

  lemma OccursBetween(a: string, sub: string, b: string)
    ensures OccursAt(a + sub + b, sub, |a|)
  {
    assert (a + sub + b)[|a|..|a| + |sub|] == sub;
  }

  /** The position of the first `c` in `s`, if any. */
  function IndexOf(s: string, c: char): (r: Option<nat>)
    decreases |s|
    ensures r.Some? ==> r.value < |s| && s[r.value] == c && c !in s[..r.value]
    ensures r.None? ==> c !in s
  {
    if |s| == 0 then None
    else if s[0] == c then Some(0)
    else match IndexOf(s[1..], c)
      case None => None
      case Some(i) => assert s[1..][..i] == s[1..i + 1]; Some(i + 1)
  }

  /** The position of the last `c` in `s`, if any. */
  function LastIndexOf(s: string, c: char): (r: Option<nat>)
    decreases |s|
    ensures r.Some? ==> r.value < |s| && s[r.value] == c && c !in s[r.value + 1..]
    ensures r.None? ==> c !in s
  {
    if |s| == 0 then None
    else if s[|s| - 1] == c then Some(|s| - 1)
    else match LastIndexOf(s[..|s| - 1], c)
      case None => None
      case Some(i) => assert s[i + 1..] == s[..|s| - 1][i + 1..] + [s[|s| - 1]]; Some(i)
  }

  /** Positions without an occurrence can be skipped by a search. */
  lemma {:induction false} FindFromSkip(s: string, sub: string, from: nat, to: nat)
    requires from <= to
    requires forall j :: from <= j < to ==> !OccursAt(s, sub, j)
    ensures FindFrom(s, sub, from) == FindFrom(s, sub, to)
    decreases (to as int) - (from as int)
  {
    if from < to {
      FindFromSkip(s, sub, from + 1, to);
      if from + |sub| <= |s| {
        MatchesFromSlice(s, sub, from, 0);
      }
    }
  }

  lemma OccurrenceStartsWithFirstChar(s: string, sub: string, j: int)
    requires |sub| > 0
    ensures OccursAt(s, sub, j) ==> 0 <= j < |s| && s[j] == sub[0]
  {
    if OccursAt(s, sub, j) {
      assert s[j..j + |sub|][0] == s[j];
    }
  }

  /** No occurrence of `sub` can start where its first character is missing. */
  lemma NoOccurrenceWithoutFirstChar(s: string, sub: string, from: nat, to: nat)
    requires |sub| > 0 && from <= to <= |s|
    requires sub[0] !in s[from..to]
    ensures forall j :: from <= j < to ==> !OccursAt(s, sub, j)
  {
    forall j | from <= j < to
      ensures !OccursAt(s, sub, j)
    {
      OccurrenceStartsWithFirstChar(s, sub, j);
      assert s[from..to][j - from] == s[j];
    }
  }

  /** Search past a stretch that lacks the first character of `sub`. */
  lemma FindFromSkipChars(s: string, sub: string, from: nat, to: nat)
    requires |sub| > 0 && from <= to <= |s|
    requires sub[0] !in s[from..to]
    ensures FindFrom(s, sub, from) == FindFrom(s, sub, to)
  {
    NoOccurrenceWithoutFirstChar(s, sub, from, to);
    FindFromSkip(s, sub, from, to);
  }

  /** A string without the first character of `sub` does not contain it. */
  lemma NotContainsWithoutFirstChar(s: string, sub: string)
    requires |sub| > 0 && sub[0] !in s
    ensures !Contains(s, sub)
  {
    assert s[0..|s|] == s;
    NoOccurrenceWithoutFirstChar(s, sub, 0, |s|);
  }

  // ---------------------------------------------------------------------
  // split / join / replace
  // ---------------------------------------------------------------------

  /** Python's `s.split(sep)` for a non-empty separator. */
  function Split(s: string, sep: string): (parts: seq<string>)
    requires |sep| > 0
    decreases |s|
    ensures |parts| >= 1
  {
    match Find(s, sep)
    case None => [s]
    case Some(i) => [s[..i]] + Split(s[i + |sep|..], sep)
  }

  /** Python's `sep.join(parts)`. */
  function Join(parts: seq<string>, sep: string): string
    decreases |parts|
  {
    if |parts| == 0 then ""
    else if |parts| == 1 then parts[0]
    else parts[0] + sep + Join(parts[1..], sep)
  }

  /** Python's `s.replace(pat, rep)`: every non-overlapping occurrence, scanning
      left to right, which is exactly `rep.join(s.split(pat))`. */
  function ReplaceAll(s: string, pat: string, rep: string): string
    requires |pat| > 0
  {
    Join(Split(s, pat), rep)
  }

  /** Joining the pieces with the separator gives back the original string. */
  lemma {:induction false} JoinSplit(s: string, sep: string)
    requires |sep| > 0
    ensures Join(Split(s, sep), sep) == s
    decreases |s|
  {
    match Find(s, sep)
    case None =>
    case Some(i) =>
      var rest := s[i + |sep|..];
      JoinSplit(rest, sep);
      assert Split(s, sep)[1..] == Split(rest, sep);
      assert s == s[..i] + sep + rest by {
        assert s[i..i + |sep|] == sep;
        assert s == s[..i] + s[i..i + |sep|] + s[i + |sep|..];
      }
  }

  /** No piece of a split contains the separator, and there is more than one
      piece exactly when the separator occurs. */
  lemma {:induction false} SplitPieces(s: string, sep: string)
    requires |sep| > 0
    ensures forall k :: 0 <= k < |Split(s, sep)| ==> !Contains(Split(s, sep)[k], sep)
    ensures |Split(s, sep)| > 1 <==> Contains(s, sep)
    decreases |s|
  {
    match Find(s, sep)
    case None =>
    case Some(i) =>
      var rest := s[i + |sep|..];
      SplitPieces(rest, sep);
      var head := s[..i];
      forall j
        ensures !OccursAt(head, sep, j)
      {
        if 0 <= j && j + |sep| <= |head| {
          assert head[j..j + |sep|] == s[j..j + |sep|];
          assert !OccursAt(s, sep, j);
        }
      }
      assert !Contains(head, sep);
      assert Split(s, sep) == [head] + Split(rest, sep);
  }

  /** The first piece of a split. */
  lemma SplitHead(s: string, sep: string, i: nat)
    requires |sep| > 0 && Find(s, sep) == Some(i)
    ensures Split(s, sep) == [s[..i]] + Split(s[i + |sep|..], sep)
  {
  }

  lemma SplitAbsent(s: string, sep: string)
    requires |sep| > 0 && !Contains(s, sep)
    ensures Split(s, sep) == [s]
  {
  }

  /** Replacing a pattern that does not occur changes nothing. */
  lemma ReplaceAllAbsent(s: string, pat: string, rep: string)
    requires |pat| > 0 && !Contains(s, pat)
    ensures ReplaceAll(s, pat, rep) == s
  {
  }

  /** Replacing a pattern by itself changes nothing. */
  lemma ReplaceAllSelf(s: string, pat: string)
    requires |pat| > 0
    ensures ReplaceAll(s, pat, pat) == s
  {
    JoinSplit(s, pat);
  }

  /** A string that starts with `pat` loses that occurrence first. */
  lemma ReplaceAllLeading(s: string, pat: string, rep: string)
    requires |pat| > 0 && OccursAt(s, pat, 0)
    ensures ReplaceAll(s, pat, rep) == rep + ReplaceAll(s[|pat|..], pat, rep)
  {
    MatchesFromSlice(s, pat, 0, 0);
    assert pat[0..] == pat;
    assert Find(s, pat) == Some(0);
    SplitHead(s, pat, 0);
    assert s[..0] == "";
    var rest := Split(s[|pat|..], pat);
    assert ([""] + rest)[1..] == rest;
    assert "" + rep + Join(rest, rep) == rep + Join(rest, rep);
  }

  lemma {:induction false} JoinEmptySepFree(parts: seq<string>, c: char)
    requires forall k :: 0 <= k < |parts| ==> c !in parts[k]
    ensures c !in Join(parts, "")
    decreases |parts|
  {
    if |parts| > 1 {
      JoinEmptySepFree(parts[1..], c);
      assert Join(parts, "") == parts[0] + Join(parts[1..], "");
    }
  }

  /** Replacing every copy of a character by text without it leaves none
      behind. */
  lemma ReplaceCharGone(s: string, c: char, rep: string)
    requires c !in rep
    ensures c !in ReplaceAll(s, [c], rep)
  {
    SplitPieces(s, [c]);
    var parts := Split(s, [c]);
    if c in ReplaceAll(s, [c], rep) {
      JoinChars(parts, rep, c);
      var k :| 0 <= k < |parts| && c in parts[k];
      var j :| 0 <= j < |parts[k]| && parts[k][j] == c;
      assert OccursAt(parts[k], [c], j);
    }
  }

  /** Deleting every copy of a character leaves none behind. */
  lemma RemoveCharAll(s: string, c: char)
    ensures c !in ReplaceAll(s, [c], "")
  {
    ReplaceCharGone(s, c, "");
  }

  /** A character that occurs exactly once is replaced in place. */
  lemma SplitSingleChar(a: string, c: char, b: string)
    requires c !in a && c !in b
    ensures Split(a + [c] + b, [c]) == [a, b]
  {
    var s := a + [c] + b;
    assert s[0..|a|] == a;
    FindFromSkipChars(s, [c], 0, |a|);
    assert s[|a|] == c;
    assert MatchesFrom(s, [c], |a| + 1, 1);
    assert MatchesFrom(s, [c], |a|, 0);
    assert FindFrom(s, [c], |a|) == Some(|a|);
    assert s[|a| + 1..] == b;
    NotContainsWithoutFirstChar(b, [c]);
    SplitHead(s, [c], |a|);
    assert s[..|a|] == a;
  }

  /** The first occurrence of a character ends the first piece. */
  lemma SplitFirstChar(a: string, c: char, rest: string)
    requires c !in a
    ensures Split(a + [c] + rest, [c]) == [a] + Split(rest, [c])
  {
    var s := a + [c] + rest;
    assert s[0..|a|] == a;
    FindFromSkipChars(s, [c], 0, |a|);
    assert s[|a|] == c;
    assert MatchesFrom(s, [c], |a| + 1, 1);
    assert MatchesFrom(s, [c], |a|, 0);
    assert FindFrom(s, [c], |a|) == Some(|a|);
    assert s[|a| + 1..] == rest;
    SplitHead(s, [c], |a|);
    assert s[..|a|] == a;
  }

  /** Three pieces without the separator character split back apart. */
  lemma SplitThree(a: string, b: string, d: string, c: char)
    requires c !in a && c !in b && c !in d
    ensures Split(a + [c] + b + [c] + d, [c]) == [a, b, d]
  {
    assert a + [c] + b + [c] + d == a + [c] + (b + [c] + d);
    SplitFirstChar(a, c, b + [c] + d);
    SplitSingleChar(b, c, d);
  }

  lemma ReplaceSingleChar(a: string, c: char, b: string, rep: string)
    requires c !in a && c !in b
    ensures ReplaceAll(a + [c] + b, [c], rep) == a + rep + b
  {
    SplitSingleChar(a, c, b);
    assert Join([a, b], rep) == a + rep + Join([b], rep);
  }

  /** An occurrence stays put when text is appended. */
  lemma OccursInPrefix(p: string, rest: string, sub: string, i: nat)
    requires OccursAt(p, sub, i)
    ensures OccursAt(p + rest, sub, i)
  {
    assert (p + rest)[i..i + |sub|] == p[i..i + |sub|];
  }

  /** A string lacking one of the characters of `sub` cannot contain it. */
  lemma NotContainsWithoutChar(s: string, sub: string, k: nat)
    requires k < |sub| && sub[k] !in s
    ensures !Contains(s, sub)
  {
  }

  /** The first copy of a character is found where it stands. */
  lemma FindFirstChar(a: string, c: char, b: string)
    requires c !in a
    ensures Find(a + [c] + b, [c]) == Some(|a|)
  {
    var s := a + [c] + b;
    assert s[0..|a|] == a;
    FindFromSkipChars(s, [c], 0, |a|);
    assert s[|a|] == c;
    assert MatchesFrom(s, [c], |a| + 1, 1);
    assert MatchesFrom(s, [c], |a|, 0);
  }

  /** Removing a character: everything before its first copy is kept as it is. */
  lemma RemoveFirstChar(a: string, c: char, b: string)
    requires c !in a
    ensures ReplaceAll(a + [c] + b, [c], "") == a + ReplaceAll(b, [c], "")
  {
    var s := a + [c] + b;
    FindFirstChar(a, c, b);
    assert s[|a| + 1..] == b;
    assert s[..|a|] == a;
    SplitHead(s, [c], |a|);
    var rest := Split(b, [c]);
    assert Split(s, [c]) == [a] + rest;
    assert ([a] + rest)[1..] == rest;
  }

  /** Replacing a character: everything before its first copy is kept, the
      copy becomes `rep`, and the rest is replaced in turn. */
  lemma ReplaceFirstChar(a: string, c: char, b: string, rep: string)
    requires c !in a
    ensures ReplaceAll(a + [c] + b, [c], rep) == a + rep + ReplaceAll(b, [c], rep)
  {
    SplitFirstChar(a, c, b);
    var rest := Split(b, [c]);
    assert ([a] + rest)[1..] == rest;
  }

  /** `s` with every copy of `c` turned into `d`, character by character. */
  function SwapChar(s: string, c: char, d: char): string {
    seq(|s|, k requires 0 <= k < |s| => if s[k] == c then d else s[k])
  }

  /** Swapping around the first copy of the character. */
  lemma SwapFirstChar(a: string, c: char, b: string, d: char)
    requires c !in a
    ensures SwapChar(a + [c] + b, c, d) == a + [d] + SwapChar(b, c, d)
  {
    var s, r := a + [c] + b, SwapChar(a + [c] + b, c, d);
    forall k | 0 <= k < |a|
      ensures r[k] == a[k]
    {
      assert s[k] == a[k] && a[k] in a;
    }
    forall k | 0 <= k < |b|
      ensures r[|a| + 1 + k] == SwapChar(b, c, d)[k]
    {
      assert s[|a| + 1 + k] == b[k];
    }
  }

  /** Replacing a character by a character works position by position. */
  lemma {:induction false} ReplaceCharByChar(s: string, c: char, d: char)
    ensures ReplaceAll(s, [c], [d]) == SwapChar(s, c, d)
    decreases |s|
  {
    match IndexOf(s, c)
    case None =>
      NotContainsWithoutFirstChar(s, [c]);
      ReplaceAllAbsent(s, [c], [d]);
    case Some(i) =>
      var a, b := s[..i], s[i + 1..];
      assert s == a + [c] + b;
      ReplaceFirstChar(a, c, b, [d]);
      ReplaceCharByChar(b, c, d);
      SwapFirstChar(a, c, b, d);
  }

  /** A leading prefix that cannot reoccur in what follows is replaced once. */
  lemma ReplaceLeadingOnce(p: string, name: string, rep: string, k: nat)
    requires k < |p| && p[k] !in name
    ensures ReplaceAll(p + name, p, rep) == rep + name
  {
    assert (p + name)[0..|p|] == p;
    assert (p + name)[|p|..] == name;
    ReplaceAllLeading(p + name, p, rep);
    NotContainsWithoutChar(name, p, k);
    ReplaceAllAbsent(name, p, rep);
  }

  /** Every character of a split piece comes from the split string. */
  lemma {:induction false} SplitChars(s: string, sep: string, k: nat, x: char)
    requires |sep| > 0 && k < |Split(s, sep)| && x in Split(s, sep)[k]
    ensures x in s
    decreases |s|
  {
    match Find(s, sep)
    case None =>
    case Some(i) =>
      if k == 0 {
        assert x in s[..i];
      } else {
        assert Split(s, sep)[k] == Split(s[i + |sep|..], sep)[k - 1];
        SplitChars(s[i + |sep|..], sep, k - 1, x);
        assert x in s[i + |sep|..];
      }
  }

  /** Every character of a join comes from a piece or from the separator. */
  lemma {:induction false} JoinChars(parts: seq<string>, sep: string, x: char)
    requires x in Join(parts, sep)
    ensures x in sep || exists k :: 0 <= k < |parts| && x in parts[k]
    decreases |parts|
  {
    if |parts| > 1 {
      if x !in parts[0] && x !in sep {
        JoinChars(parts[1..], sep, x);
        var k :| 0 <= k < |parts[1..]| && x in parts[1..][k];
        assert x in parts[k + 1];
      }
    }
  }

  /** Every character of a replacement comes from the original or from `rep`. */
  lemma ReplaceAllChars(s: string, pat: string, rep: string, x: char)
    requires |pat| > 0 && x in ReplaceAll(s, pat, rep)
    ensures x in s || x in rep
  {
    JoinChars(Split(s, pat), rep, x);
    if x !in rep {
      var k :| 0 <= k < |Split(s, pat)| && x in Split(s, pat)[k];
      SplitChars(s, pat, k, x);
    }
  }

  /** Python's `s.split(sep)[-1]`. */
  function LastPiece(s: string, sep: string): string
    requires |sep| > 0
  {
    var parts := Split(s, sep);
    parts[|parts| - 1]
  }

  /** Python's `s.split(sep)[0]`. */
  function FirstPiece(s: string, sep: string): string
    requires |sep| > 0
  {
    Split(s, sep)[0]
  }

  /** Python's `s.split(sep)[1]`, for a string in which `sep` occurs. */
  function SecondPiece(s: string, sep: string): string
    requires |sep| > 0 && Contains(s, sep)
  {
    Split(s, sep)[1]
  }

  /** The first piece is everything before the first occurrence of the
      separator, or the whole string when there is none. */
  lemma FirstPieceSpec(s: string, sep: string)
    requires |sep| > 0
    ensures Find(s, sep).None? ==> FirstPiece(s, sep) == s
    ensures Find(s, sep).Some? ==> FirstPiece(s, sep) == s[..Find(s, sep).value]
  {
  }

  /** The second piece starts right after the first occurrence of the
      separator and is the first piece of what follows it. */
  lemma SecondPieceSpec(s: string, sep: string)
    requires |sep| > 0 && Contains(s, sep)
    ensures SecondPiece(s, sep) == FirstPiece(s[Find(s, sep).value + |sep|..], sep)
  {
  }

  /** `p` is a prefix of `s` (`s.startswith(p)`). */
  predicate StartsWith(s: string, p: string) {
    |p| <= |s| && s[..|p|] == p
  }

  /** `sep` placed after `a` is its first occurrence when one of its
      characters appears neither in `a` nor before it in `sep`. */
  lemma FirstOccurrence(a: string, sep: string, b: string, k: nat)
    requires k < |sep| && sep[k] !in a + sep[..k]
    ensures Find(a + sep + b, sep) == Some(|a|)
    ensures Split(a + sep + b, sep) == [a] + Split(b, sep)
  {
    var s := a + sep + b;
    OccursBetween(a, sep, b);
    forall j | 0 <= j < |a|
      ensures !OccursAt(s, sep, j)
    {
    }
    assert s[..|a|] == a;
    assert s[|a| + |sep|..] == b;
    SplitHead(s, sep, |a|);
  }

  /** No occurrence fits once the first character of `sub` has been left
      behind and fewer than `|sub|` characters remain. */
  lemma NoOccurrenceNearEnd(a: string, b: string, sub: string)
    requires |sub| > |b| && sub[0] !in a
    ensures !Contains(a + b, sub)
  {
    forall j | OccursAt(a + b, sub, j)
      ensures false
    {
      OccurrenceStartsWithFirstChar(a + b, sub, j);
    }
  }

  // ---------------------------------------------------------------------
  // strip
  // ---------------------------------------------------------------------

  /** ASCII white space, as `str.strip()` and `String.prototype.trim()` see it. */
  predicate IsSpace(c: char) {
    c == ' ' || c == '\t' || c == '\n' || c == '\r' || c == '\U{000B}' || c == '\U{000C}'
  }

  predicate AllSpace(s: string) {
    forall i :: 0 <= i < |s| ==> IsSpace(s[i])
  }

  function TrimStart(s: string): (r: string)
    decreases |s|
    ensures |r| <= |s|
  {
    if |s| > 0 && IsSpace(s[0]) then TrimStart(s[1..]) else s
  }

  function TrimEnd(s: string): (r: string)
    decreases |s|
    ensures |r| <= |s|
  {
    if |s| > 0 && IsSpace(s[|s| - 1]) then TrimEnd(s[..|s| - 1]) else s
  }

  /** `TrimStart` removes exactly the leading white space. */
  lemma {:induction false} TrimStartSpec(s: string)
    ensures var r := TrimStart(s);
            && r == s[|s| - |r|..]
            && (|r| > 0 ==> !IsSpace(r[0]))
            && AllSpace(s[..|s| - |r|])
    decreases |s|
  {
    if |s| > 0 && IsSpace(s[0]) {
      TrimStartSpec(s[1..]);
      var r := TrimStart(s);
      assert s[1..][|s| - 1 - |r|..] == s[|s| - |r|..];
      var pre := s[..|s| - |r|];
      forall k | 0 <= k < |pre| ensures IsSpace(pre[k]) {
        if k > 0 {
          assert pre[k] == s[1..][..|s| - 1 - |r|][k - 1];
        }
      }
    }
  }

  /** `TrimEnd` removes exactly the trailing white space. */
  lemma {:induction false} TrimEndSpec(s: string)
    ensures var r := TrimEnd(s);
            && r == s[..|r|]
            && (|r| > 0 ==> !IsSpace(r[|r| - 1]))
            && AllSpace(s[|r|..])
    decreases |s|
  {
    if |s| > 0 && IsSpace(s[|s| - 1]) {
      TrimEndSpec(s[..|s| - 1]);
      var r := TrimEnd(s);
      assert s[..|s| - 1][..|r|] == s[..|r|];
      var post := s[|r|..];
      forall k | 0 <= k < |post| ensures IsSpace(post[k]) {
        if k < |s| - 1 - |r| {
          assert post[k] == s[..|s| - 1][|r|..][k];
        }
      }
    }
  }

  /** `r` is `s` with its leading and trailing white space removed. */
  ghost predicate IsStripOf(s: string, r: string) {
    exists i, j :: 0 <= i <= j <= |s| && r == s[i..j] && AllSpace(s[..i]) && AllSpace(s[j..])
      && (|r| > 0 ==> !IsSpace(r[0]) && !IsSpace(r[|r| - 1]))
  }

  /** Python's `s.strip()` / JavaScript's `s.trim()`. */
  function Strip(s: string): (r: string)
    ensures |r| <= |s|
  {
    TrimEnd(TrimStart(s))
  }

  /** `Strip` removes the white space at both ends and nothing else. */
  lemma StripSpec(s: string)
    ensures IsStripOf(s, Strip(s))
  {
    var t := TrimStart(s);
    var r := TrimEnd(t);
    TrimStartSpec(s);
    TrimEndSpec(t);
    var i := |s| - |t|;
    var j := i + |r|;
    assert r == s[i..j];
    assert s[j..] == t[|r|..];
  }

  /** Every character of a stripped string comes from the original. */
  lemma StripChars(s: string)
    ensures forall k :: 0 <= k < |Strip(s)| ==> Strip(s)[k] in s
  {
    StripSpec(s);
  }

  /** A string strips to nothing exactly when it is all white space. */
  lemma StripEmptyIff(s: string)
    ensures Strip(s) == "" <==> AllSpace(s)
  {
    StripSpec(s);
    var r := Strip(s);
    var i, j :| 0 <= i <= j <= |s| && r == s[i..j] && AllSpace(s[..i]) && AllSpace(s[j..])
      && (|r| > 0 ==> !IsSpace(r[0]) && !IsSpace(r[|r| - 1]));
    if r == "" {
      forall k | 0 <= k < |s| ensures IsSpace(s[k]) {
        if k < i { assert s[..i][k] == s[k]; } else { assert s[j..][k - j] == s[k]; }
      }
    } else {
      assert s[i] == r[0];
    }
  }

  /** A string without white space at either end is its own strip. */
  lemma StripTrimmed(s: string)
    requires |s| == 0 || (!IsSpace(s[0]) && !IsSpace(s[|s| - 1]))
    ensures Strip(s) == s
  {
  }

  // ---------------------------------------------------------------------
  // lower case
  // ---------------------------------------------------------------------

  predicate IsUpper(c: char) {
    ('A' <= c <= 'Z') || ('\U{0410}' <= c <= '\U{042F}') || c == '\U{0401}'
  }

  /** Lower case of one character: ASCII and the Russian alphabet. */
  function LowerChar(c: char): char {
    if 'A' <= c <= 'Z' || '\U{0410}' <= c <= '\U{042F}' then (c as int + 32) as char
    else if c == '\U{0401}' then '\U{0451}'
    else c
  }

  function Lower(s: string): (r: string)
    ensures |r| == |s|
  {
    seq(|s|, i requires 0 <= i < |s| => LowerChar(s[i]))
  }

  lemma LowerAppend(a: string, b: string)
    ensures Lower(a + b) == Lower(a) + Lower(b)
  {
  }

  /** Lower-casing leaves a string without upper-case letters unchanged. */
  lemma LowerUnchanged(s: string)
    requires forall i :: 0 <= i < |s| ==> !IsUpper(s[i])
    ensures Lower(s) == s
  {
  }

  // ---------------------------------------------------------------------
  // digits
  // ---------------------------------------------------------------------

  predicate IsDigit(c: char) {
    '0' <= c <= '9'
  }

  predicate AllDigits(s: string) {
    forall i :: 0 <= i < |s| ==> IsDigit(s[i])
  }

  /** The number a string of decimal digits denotes (0 for no digits). */
  function DigitsValue(s: string): nat
    requires AllDigits(s)
    decreases |s|
  {
    if |s| == 0 then 0 else DigitsValue(s[..|s| - 1]) * 10 + (s[|s| - 1] as int - '0' as int)
  }

  function DigitChar(d: nat): char
    requires d < 10
  {
    ('0' as int + d) as char
  }

  /** Python's `str(n)` for a natural number. */
  function NatToString(n: nat): string
    decreases n
  {
    if n < 10 then [DigitChar(n)] else NatToString(n / 10) + [DigitChar(n % 10)]
  }

  /** Python's `str(i)` for an integer. */
  function IntToString(i: int): string {
    if i < 0 then "-" + NatToString(-i) else NatToString(i)
  }

  /** `str(n)` is a non-empty string of digits that reads back as `n`. */
  lemma {:induction false} NatToStringDigits(n: nat)
    ensures |NatToString(n)| > 0 && AllDigits(NatToString(n))
    ensures DigitsValue(NatToString(n)) == n
    decreases n
  {
    if n >= 10 {
      NatToStringDigits(n / 10);
      var s := NatToString(n);
      assert s[..|s| - 1] == NatToString(n / 10);
    }
  }
}
