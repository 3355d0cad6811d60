/** frontend/src/App.js: the topic history kept by handleSubmit and the word
    counts the summary effect feeds to the word cloud. */
module Frontend {
  import opened Common

  const HistoryCap := 5
  const FailedSummary := "Failed to generate summary."

  /** Array.prototype.slice(0, n) */
  function Take<T>(s: seq<T>, n: nat): (r: seq<T>)
    ensures r <= s && |r| == if |s| <= n then |s| else n
  {
    if |s| <= n then s else s[..n]
  }

  /** No entry occurs twice. */
  predicate Distinct(s: seq<string>) {
    forall i, j :: 0 <= i < j < |s| ==> s[i] != s[j]
  }

  /** The history after a submit: a non-empty topic not yet listed goes to the
      front and the list is cut to five; otherwise the history is kept. */
  function UpdateHistory(history: seq<string>, topic: string): (r: seq<string>)
    ensures topic == "" || topic in history ==> r == history
    ensures topic != "" && topic !in history ==> r != [] && r[0] == topic && r[1..] <= history
  {
    if topic != "" && topic !in history then Take([topic] + history, HistoryCap) else history
  }

  /** A history of at most five entries stays within five. */
  lemma HistoryBounded(history: seq<string>, topic: string)
    requires |history| <= HistoryCap
    ensures |UpdateHistory(history, topic)| <= HistoryCap
  {
  }

  /** A new topic is the first entry, the rest keep their order, and the
      oldest entries fall off only past the cap. */
  lemma NewestFirst(history: seq<string>, topic: string)
    requires topic != "" && topic !in history
    ensures var r := UpdateHistory(history, topic);
      r[0] == topic && |r| == (if |history| < HistoryCap then |history| + 1 else HistoryCap)
      && forall i :: 0 < i < |r| ==> r[i] == history[i - 1]
  {
  }

  /** Every entry was already listed or is the submitted topic. */
  lemma HistoryFromTopics(history: seq<string>, topic: string)
    ensures forall t :: t in UpdateHistory(history, topic) ==> t == topic || t in history
  {
    var r := UpdateHistory(history, topic);
    if r != history {
      forall t | t in r ensures t == topic || t in history {
        var i :| 0 <= i < |r| && r[i] == t;
        if i > 0 {
          assert r[1..][i - 1] == t;
        }
      }
    }
  }

  /** The history never lists a topic twice. */
  lemma {:induction false} HistoryStaysDistinct(history: seq<string>, topic: string)
    requires Distinct(history)
    ensures Distinct(UpdateHistory(history, topic))
  {
    var r := UpdateHistory(history, topic);
    if r != history {
      forall i, j | 0 <= i < j < |r| ensures r[i] != r[j] {
        assert r[j] == history[j - 1];
        if i > 0 {
          assert r[i] == history[i - 1];
        }
      }
    }
  }

  /** Submitting the same topic again changes nothing. */
  lemma HistoryRepeat(history: seq<string>, topic: string)
    ensures UpdateHistory(UpdateHistory(history, topic), topic) == UpdateHistory(history, topic)
  {
    var r := UpdateHistory(history, topic);
    if topic != "" && topic !in history {
      assert r[0] == topic;
    }
  }

  /** How the request ends: response.json() resolves to an object whose
      `summary` may be undefined, or fetch or response.json() rejects. A 4xx
      or 5xx response does not reject. */
  datatype Reply = Json(summary: Option<string>) | Threw

  /** The component state handleSubmit touches, and the topicHistory entry of
      localStorage. */
  datatype View = View(topic: string, summary: Option<string>, loading: bool,
                       history: seq<string>, stored: seq<string>)

  /** handleSubmit, from the state before the click to the state after the
      request settles. */
  function HandleSubmit(v: View, reply: Reply): (r: View)
    ensures !r.loading && r.topic == v.topic
    ensures reply.Threw? ==> r.summary == Some(FailedSummary) && r.history == v.history && r.stored == v.stored
    ensures reply.Json? ==> r.summary == reply.summary && r.history == UpdateHistory(v.history, v.topic)
    ensures r.history != v.history ==> r.stored == r.history
    ensures r.history == v.history ==> r.stored == v.stored
  {
    match reply
    case Threw => v.(summary := Some(FailedSummary), loading := false)
    case Json(summary) =>
      if v.topic != "" && v.topic !in v.history then
        var newHistory := Take([v.topic] + v.history, HistoryCap);
        v.(summary := summary, loading := false, history := newHistory, stored := newHistory)
      else v.(summary := summary, loading := false)
  }

  /** Once the history has been loaded from localStorage, the stored copy
      keeps mirroring it, and it never grows past five entries. */
  lemma StorageMirrorsHistory(v: View, reply: Reply)
    requires v.stored == v.history && |v.history| <= HistoryCap
    ensures var r := HandleSubmit(v, reply);
      r.stored == r.history && |r.history| <= HistoryCap
  {
    HistoryBounded(v.history, v.topic);
  }

  /** The characters of the split pattern /[ ,.\n]+/. */
  predicate IsSep(c: char) {
    c == ' ' || c == ',' || c == '.' || c == '\n'
  }

  /** A piece of the split: no separator in it. */
  predicate IsWord(t: string) {
    forall i :: 0 <= i < |t| ==> !IsSep(t[i])
  }

  /** The longest prefix of s without a separator. */
  function TakeWord(s: string): (w: string)
    ensures w <= s && (forall i :: 0 <= i < |w| ==> !IsSep(w[i]))
    ensures |w| < |s| ==> IsSep(s[|w|])
  {
    if s == [] || IsSep(s[0]) then [] else [s[0]] + TakeWord(s[1..])
  }

  /** s without its leading run of separators. */
  function DropSeps(s: string): (r: string)
    ensures |r| <= |s| && r == s[|s| - |r|..]
    ensures r == [] || !IsSep(r[0])
    ensures s != [] && IsSep(s[0]) ==> |r| < |s|
  {
    if s != [] && IsSep(s[0]) then DropSeps(s[1..]) else s
  }

  /** String.prototype.split on /[ ,.\n]+/: the pieces between runs of
      separators, with an empty piece first when s starts with a separator
      and last when it ends with one. */
  function Split(s: string): (tokens: seq<string>)
    ensures tokens != []
    ensures forall k :: 0 <= k < |tokens| ==> IsWord(tokens[k])
    decreases |s|
  {
    var w := TakeWord(s);
    var rest := s[|w|..];
    if rest == [] then [w]
    else
      var tail := Split(DropSeps(rest));
      assert forall k :: 0 < k < |[w] + tail| ==> ([w] + tail)[k] == tail[k - 1];
      [w] + tail
  }

  /** A string with no separator splits into itself alone. */
  lemma SplitWord(s: string)
    requires forall i :: 0 <= i < |s| ==> !IsSep(s[i])
    ensures Split(s) == [s]
  {
    TakeWordWhole(s);
    assert s[|s|..] == [];
  }

  lemma {:induction false} TakeWordWhole(s: string)
    requires forall i :: 0 <= i < |s| ==> !IsSep(s[i])
    ensures TakeWord(s) == s
  {
    if s != [] {
      assert forall i :: 0 <= i < |s[1..]| ==> s[1..][i] == s[i + 1];
      TakeWordWhole(s[1..]);
      assert [s[0]] + s[1..] == s;
    }
  }

  /** The tokens joined back together, with nothing between them. */
  function Concat(tokens: seq<string>): string {
    if tokens == [] then [] else tokens[0] + Concat(tokens[1..])
  }

  /** s with every separator removed. */
  function Letters(s: string): (r: string)
    ensures |r| <= |s|
  {
    if s == [] then [] else (if IsSep(s[0]) then [] else [s[0]]) + Letters(s[1..])
  }

  lemma {:induction false} LettersAppend(a: string, b: string)
    ensures Letters(a + b) == Letters(a) + Letters(b)
  {
    if a != [] {
      assert (a + b)[1..] == a[1..] + b;
      LettersAppend(a[1..], b);
    } else {
      assert a + b == b;
    }
  }

  lemma {:induction false} LettersOfWord(s: string)
    requires forall i :: 0 <= i < |s| ==> !IsSep(s[i])
    ensures Letters(s) == s
  {
    if s != [] {
      assert forall i :: 0 <= i < |s[1..]| ==> s[1..][i] == s[i + 1];
      LettersOfWord(s[1..]);
      assert [s[0]] + s[1..] == s;
    }
  }

  lemma {:induction false} LettersDropSeps(s: string)
    ensures Letters(DropSeps(s)) == Letters(s)
  {
    if s != [] && IsSep(s[0]) {
      LettersDropSeps(s[1..]);
    }
  }

  /** Joining the pieces gives the input with its separators removed. */
  lemma {:induction false} SplitJoin(s: string)
    ensures Concat(Split(s)) == Letters(s)
    decreases |s|
  {
    var w := TakeWord(s);
    var rest := s[|w|..];
    assert s == w + rest;
    LettersAppend(w, rest);
    LettersOfWord(w);
    if rest == [] {
      assert Concat([w]) == w + Concat([]);
    } else {
      var next := DropSeps(rest);
      SplitJoin(next);
      LettersDropSeps(rest);
      assert ([w] + Split(next))[1..] == Split(next);
    }
  }

  /** The leading run of separators of s: what DropSeps removes. */
  function SepRun(s: string): string {
    if s != [] && IsSep(s[0]) then [s[0]] + SepRun(s[1..]) else []
  }

  /** The run and the remainder make up s again. */
  lemma {:induction false} SepRunDropSeps(s: string)
    ensures s == SepRun(s) + DropSeps(s)
  {
    if s != [] && IsSep(s[0]) {
      SepRunDropSeps(s[1..]);
      assert s == [s[0]] + s[1..];
    }
  }

  /** The run consists of separators only, and is non-empty when s starts
      with one. */
  lemma {:induction false} SepRunIsSeps(s: string)
    ensures forall i :: 0 <= i < |SepRun(s)| ==> IsSep(SepRun(s)[i])
    ensures s != [] && IsSep(s[0]) ==> SepRun(s) != []
  {
    if s != [] && IsSep(s[0]) {
      SepRunIsSeps(s[1..]);
      var r := SepRun(s[1..]);
      assert SepRun(s) == [s[0]] + r;
      assert forall i :: 0 < i < |[s[0]] + r| ==> ([s[0]] + r)[i] == r[i - 1];
    }
  }

  /** The separator runs between the pieces of Split(s), in order. */
  function Gaps(s: string): seq<string>
    decreases |s|
  {
    var w := TakeWord(s);
    var rest := s[|w|..];
    if rest == [] then [] else [SepRun(rest)] + Gaps(DropSeps(rest))
  }

  /** Piece 0, gap 0, piece 1, gap 1, ..., the last piece. */
  function Weave(tokens: seq<string>, gaps: seq<string>): string
    requires |tokens| == |gaps| + 1
    decreases |gaps|
  {
    if gaps == [] then tokens[0] else tokens[0] + gaps[0] + Weave(tokens[1..], gaps[1..])
  }

  /** A gap: a non-empty run of separators. */
  predicate IsGap(g: string) {
    g != [] && forall i :: 0 <= i < |g| ==> IsSep(g[i])
  }

  /** One step of Split: the first piece, then the pieces of what follows
      the first run of separators. */
  lemma SplitStep(s: string)
    ensures var w := TakeWord(s);
      var rest := s[|w|..];
      Split(s) == if rest == [] then [w] else [w] + Split(DropSeps(rest))
  {
  }

  /** One step of Gaps: the first run of separators, then the gaps of what
      follows it. */
  lemma GapsStep(s: string)
    ensures var w := TakeWord(s);
      var rest := s[|w|..];
      Gaps(s) == if rest == [] then [] else [SepRun(rest)] + Gaps(DropSeps(rest))
  {
  }

  lemma WeaveCons(w: string, g: string, tokens: seq<string>, gaps: seq<string>)
    requires |tokens| == |gaps| + 1
    ensures Weave([w] + tokens, [g] + gaps) == w + g + Weave(tokens, gaps)
  {
    assert ([w] + tokens)[1..] == tokens && ([g] + gaps)[1..] == gaps;
  }

  /** There is one gap fewer than pieces. */
  lemma {:induction false} GapsCount(s: string)
    ensures |Gaps(s)| == |Split(s)| - 1
    decreases |s|
  {
    SplitStep(s);
    GapsStep(s);
    var w := TakeWord(s);
    var rest := s[|w|..];
    if rest != [] {
      GapsCount(DropSeps(rest));
    }
  }

  /** Putting a gap in front of gaps keeps them all gaps. */
  lemma GapsCons(g: string, gaps: seq<string>)
    requires IsGap(g) && forall k :: 0 <= k < |gaps| ==> IsGap(gaps[k])
    ensures forall k :: 0 <= k < |[g] + gaps| ==> IsGap(([g] + gaps)[k])
  {
    forall k | 0 < k < |[g] + gaps| ensures IsGap(([g] + gaps)[k]) {
      assert ([g] + gaps)[k] == gaps[k - 1];
    }
  }

  /** Every gap is a non-empty run of separators. */
  lemma {:induction false} GapsAreRuns(s: string)
    ensures forall k :: 0 <= k < |Gaps(s)| ==> IsGap(Gaps(s)[k])
    decreases |s|
  {
    GapsStep(s);
    var w := TakeWord(s);
    var rest := s[|w|..];
    if rest != [] {
      var next := DropSeps(rest);
      SepRunIsSeps(rest);
      GapsAreRuns(next);
      GapsCons(SepRun(rest), Gaps(next));
    }
  }

  /** Split breaks s exactly at its separator runs: the pieces and the gaps
      woven together give s back. With separator-free pieces and non-empty
      separator gaps (GapsAreRuns), this determines the pieces. */
  lemma {:induction false} SplitWeave(s: string)
    ensures |Gaps(s)| == |Split(s)| - 1 && s == Weave(Split(s), Gaps(s))
    decreases |s|
  {
    GapsCount(s);
    var w := TakeWord(s);
    var rest := s[|w|..];
    TakeWordRest(s);
    SplitStep(s);
    GapsStep(s);
    if rest == [] {
      assert Weave([w], []) == w;
    } else {
      var next := DropSeps(rest);
      SepRunDropSeps(rest);
      SplitWeave(next);
      WeaveStep(s, w, SepRun(rest), next, Split(next), Gaps(next));
    }
  }

  /** s is its first piece followed by the rest. */
  lemma TakeWordRest(s: string)
    ensures s == TakeWord(s) + s[|TakeWord(s)|..]
  {
  }

  /** Weaving one more piece and gap in front. */
  lemma WeaveStep(s: string, w: string, gap: string, rest: string, tokens: seq<string>, gaps: seq<string>)
    requires s == w + (gap + rest) && |tokens| == |gaps| + 1 && rest == Weave(tokens, gaps)
    ensures s == Weave([w] + tokens, [gap] + gaps)
  {
    WeaveCons(w, gap, tokens, gaps);
  }

  /** A string that starts with a letter has a non-empty first piece; the
      empty string splits into one empty piece. */
  lemma SplitFirst(t: string)
    ensures t != [] && !IsSep(t[0]) ==> Split(t)[0] != ""
    ensures t == [] ==> Split(t) == [""]
  {
    var w := TakeWord(t);
    if t != [] && !IsSep(t[0]) {
      assert w == [t[0]] + TakeWord(t[1..]);
    }
  }

  /** Putting a piece in front keeps the inner pieces non-empty when the old
      first piece becomes an inner one only if it is non-empty. */
  lemma InnerCons(w: string, tail: seq<string>)
    requires forall i :: 0 < i < |tail| - 1 ==> tail[i] != ""
    requires |tail| > 1 ==> tail[0] != ""
    ensures forall i :: 0 < i < |[w] + tail| - 1 ==> ([w] + tail)[i] != ""
  {
    forall i | 0 < i < |[w] + tail| - 1 ensures ([w] + tail)[i] != "" {
      assert ([w] + tail)[i] == tail[i - 1];
    }
  }

  /** Only the first and the last piece can be empty. */
  lemma {:induction false} SplitMiddle(s: string)
    ensures forall i :: 0 < i < |Split(s)| - 1 ==> Split(s)[i] != ""
    decreases |s|
  {
    var w := TakeWord(s);
    var rest := s[|w|..];
    if rest != [] {
      var next := DropSeps(rest);
      SplitMiddle(next);
      SplitFirst(next);
      InnerCons(w, Split(next));
    }
  }

  /** The tokens the `if (word)` test lets through, in order. */
  function NonEmpty(tokens: seq<string>): (r: seq<string>)
    ensures |r| <= |tokens| && "" !in r
  {
    if tokens == [] then []
    else (if tokens[0] != "" then [tokens[0]] else []) + NonEmpty(tokens[1..])
  }

  /** Filtering a token list with one more token appended. */
  lemma {:induction false} NonEmptyAppend(tokens: seq<string>, word: string)
    ensures NonEmpty(tokens + [word]) == NonEmpty(tokens) + (if word != "" then [word] else [])
  {
    if tokens != [] {
      assert (tokens + [word])[1..] == tokens[1..] + [word];
      NonEmptyAppend(tokens[1..], word);
    } else {
      assert [word][1..] == [];
    }
  }

  /** The kept tokens are an order-preserving subsequence of the tokens. */
  lemma {:induction false} NonEmptyIsSubsequence(tokens: seq<string>)
    ensures IsSubsequence(NonEmpty(tokens), tokens)
  {
    if tokens != [] {
      NonEmptyIsSubsequence(tokens[1..]);
      var rest := NonEmpty(tokens[1..]);
      if tokens[0] != "" {
        assert NonEmpty(tokens) == [tokens[0]] + rest;
        assert ([tokens[0]] + rest)[1..] == rest;
      } else {
        assert NonEmpty(tokens) == rest;
        assert IsSubsequence(rest, tokens[1..]);
      }
    }
  }

  /** Every non-empty token is kept as often as it occurs. */
  lemma {:induction false} NonEmptyCounts(tokens: seq<string>, w: string)
    ensures multiset(NonEmpty(tokens))[w] == if w != "" then multiset(tokens)[w] else 0
  {
    if tokens != [] {
      var rest := NonEmpty(tokens[1..]);
      NonEmptyCounts(tokens[1..], w);
      assert tokens == [tokens[0]] + tokens[1..];
      assert multiset(tokens)[w] == multiset([tokens[0]])[w] + multiset(tokens[1..])[w];
      if tokens[0] != "" {
        assert multiset(NonEmpty(tokens))[w] == multiset([tokens[0]])[w] + multiset(rest)[w];
      }
    }
  }

  /** The sum of a map's values. */
  ghost function Total(m: map<string, nat>): nat
    decreases m.Keys
  {
    if m == map[] then 0
    else
      var k :| k in m;
      m[k] + Total(m - {k})
  }

  /** Total does not depend on which key it takes first. */
  lemma {:induction false} TotalRemove(m: map<string, nat>, k: string)
    requires k in m
    ensures Total(m) == m[k] + Total(m - {k})
    decreases m.Keys
  {
    var j :| j in m && Total(m) == m[j] + Total(m - {j});
    if j != k {
      TotalRemove(m - {j}, k);
      TotalRemove(m - {k}, j);
      assert m - {j} - {k} == m - {k} - {j};
    }
  }

  /** Adding one to a key's count (starting from 0 when it is absent) adds
      one to the total. */
  lemma Increment(m: map<string, nat>, w: string)
    ensures var c := if w in m then m[w] else 0;
      Total(m[w := c + 1]) == Total(m) + 1
  {
    var c := if w in m then m[w] else 0;
    var m' := m[w := c + 1];
    TotalRemove(m', w);
    assert m' - {w} == m - {w};
    if w in m {
      TotalRemove(m, w);
    } else {
      assert m - {w} == m;
    }
  }

  /** `counts` holds, for each non-empty token of `tokens`, the number of its
      occurrences, no other key, and values that sum to the number of
      non-empty tokens. */
  ghost predicate Counted(counts: map<string, nat>, tokens: seq<string>) {
    && (forall w :: w in counts <==> w != "" && w in tokens)
    && (forall w :: w in counts ==> counts[w] == multiset(tokens)[w])
    && Total(counts) == |NonEmpty(tokens)|
  }

  /** The map one forEach step leaves: the word's count goes up by one,
      unless the word is empty. */
  function Bump(counts: map<string, nat>, word: string): map<string, nat> {
    if word == "" then counts
    else counts[word := (if word in counts then counts[word] else 0) + 1]
  }

  /** One forEach step keeps the counts exact. */
  lemma CountStep(counts: map<string, nat>, tokens: seq<string>, word: string)
    requires Counted(counts, tokens)
    ensures Counted(Bump(counts, word), tokens + [word])
  {
    var all := tokens + [word];
    var next := Bump(counts, word);
    NonEmptyAppend(tokens, word);
    assert |NonEmpty(all)| == |NonEmpty(tokens)| + (if word == "" then 0 else 1);
    if word != "" {
      Increment(counts, word);
    }
    assert Total(next) == |NonEmpty(all)|;
    assert forall w :: w in all <==> w in tokens || w == word;
    assert forall w :: w in next <==> w != "" && w in all;
    assert multiset(all) == multiset(tokens) + multiset{word};
    assert forall w :: w in next ==> next[w] == multiset(all)[w];
  }

  /** The word map the forEach leaves after `tokens`. */
  function WordMap(tokens: seq<string>): map<string, nat> {
    if tokens == [] then map[]
    else Bump(WordMap(tokens[..|tokens| - 1]), tokens[|tokens| - 1])
  }

  /** The word map holds exactly the counts of the non-empty tokens. */
  lemma {:induction false} WordMapCounts(tokens: seq<string>)
    ensures Counted(WordMap(tokens), tokens)
  {
    if tokens != [] {
      var init, last := tokens[..|tokens| - 1], tokens[|tokens| - 1];
      assert WordMap(tokens) == Bump(WordMap(init), last);
      assert init + [last] == tokens;
      WordMapCounts(init);
      CountStep(WordMap(init), init, last);
    }
  }

  /** The forEach: each non-empty token's count goes up by one. */
  method CountTokens(tokens: seq<string>) returns (counts: map<string, nat>)
    ensures forall w :: w in counts <==> w != "" && w in tokens
    ensures forall w :: w in counts ==> counts[w] == multiset(tokens)[w]
    ensures Total(counts) == |NonEmpty(tokens)|
  {
    counts := map[];
    for i := 0 to |tokens|
      invariant counts == WordMap(tokens[..i])
    {
      var word := tokens[i];
      assert tokens[..i + 1][..i] == tokens[..i];
      if word != "" {
        counts := counts[word := (if word in counts then counts[word] else 0) + 1];
      }
    }
    assert tokens[..|tokens|] == tokens;
    WordMapCounts(tokens);
  }

  /** The word map of a summary: the counts of the non-empty pieces of its
      split, and nothing for the empty pieces. */
  method CountWords(summary: string) returns (counts: map<string, nat>)
    ensures "" !in counts
    ensures forall w :: w in counts <==> w != "" && w in Split(summary)
    ensures forall w :: w in counts ==> counts[w] == multiset(Split(summary))[w]
    ensures Total(counts) == |NonEmpty(Split(summary))|
  {
    counts := CountTokens(Split(summary));
  }

  /** The members a fresh object literal inherits from Object.prototype whose
      value is a function, so `wordMap[word] || 0` yields the function. */
  const Inherited := {"constructor", "hasOwnProperty", "isPrototypeOf", "propertyIsEnumerable",
                      "toLocaleString", "toString", "valueOf",
                      "__defineGetter__", "__defineSetter__", "__lookupGetter__", "__lookupSetter__"}

  /** The accessor of Object.prototype: reading it gives the prototype, and
      assigning it a string is ignored, so it never becomes an own key. */
  const Proto := "__proto__"

  /** A word-map value as the browser holds it: a count, or the string that
      `function + 1` concatenates to. */
  datatype Entry = Count(n: nat) | Garbled

  /** The forEach as written, with `wordMap` a plain object; the map holds
      its own keys, the ones Object.keys would list. */
  function CountAsWritten(tokens: seq<string>): (m: map<string, Entry>)
    ensures "" !in m && Proto !in m
  {
    if tokens == [] then map[]
    else
      var m := CountAsWritten(tokens[..|tokens| - 1]);
      var word := tokens[|tokens| - 1];
      if word == "" || word == Proto then m
      else
        var current := if word in m then m[word] else if word in Inherited then Garbled else Count(0);
        m[word := if current.Count? then Count(current.n + 1) else Garbled]
  }

  /** A word that names a member of Object.prototype. */
  const Constructor := "constructor"

  /** The summary "constructor" splits into itself alone. */
  lemma ConstructorSplit()
    ensures Constructor in Inherited && Split(Constructor) == [Constructor]
  {
    SplitWord(Constructor);
  }

  /** A summary of one word: no key for "" and "__proto__", a non-count for
      an inherited member, and the count 1 otherwise. */
  lemma CountOneWord(w: string)
    ensures CountAsWritten([w]) ==
      if w == "" || w == Proto then map[] else map[w := if w in Inherited then Garbled else Count(1)]
  {
    assert [w][..0] == [];
  }

  /** The summary "constructor" is one word, but its entry is not a count. */
  lemma ConstructorIsGarbled()
    ensures var m := CountAsWritten(Split(Constructor));
      Constructor in m && m[Constructor] == Garbled
  {
    ConstructorSplit();
    CountOneWord(Constructor);
    assert |Constructor| != |Proto|;
  }

  /** The counts the word cloud evidently means: for "constructor" it is 1. */
  lemma ConstructorCountedOnce(counts: map<string, nat>)
    requires forall w :: w in counts <==> w != "" && w in Split(Constructor)
    requires forall w :: w in counts ==> counts[w] == multiset(Split(Constructor))[w]
    ensures Constructor in counts && counts[Constructor] == 1
  {
    ConstructorSplit();
    assert Constructor in [Constructor];
  }

  /** The summary "__proto__" is one word, yet no key is stored for it. */
  lemma ProtoLeavesNoKey()
    ensures Split(Proto) == [Proto] && CountAsWritten(Split(Proto)) == map[]
  {
    SplitWord(Proto);
    CountOneWord(Proto);
  }
}
