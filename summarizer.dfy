/** summarizer.py: summaries from the chat-completion API, cached in the
    summaries table under a key built from the topic and the options. */
module Summarizer {
  import opened Common
  import opened Database

  const CacheTtl := 300   // seconds
  const EmptySentinel := "No meaningful posts found to summarize."
  const MainSystem := "You are a helpful assistant that summarizes text."
  const UiSystem := "You are a helpful assistant that provides very short summaries."

  /** The arguments of summarize_text besides the posts. */
  datatype Options = Options(
    topic: string,
    summaryFormat: string,     // "text" by default
    sentimentAnalysis: bool,   // False by default
    summaryLength: string,     // "medium" by default
    promptTemplate: string)    // "basic" by default

  /** str(bool) in Python. */
  function PyBool(b: bool): string {
    if b then "True" else "False"
  }

  /** f"{topic}-{summary_format}-{sentiment_analysis}-{summary_length}-{prompt_template}" */
  function CacheKey(o: Options): string {
    o.topic + "-" + o.summaryFormat + "-" + PyBool(o.sentimentAnalysis) + "-"
      + o.summaryLength + "-" + o.promptTemplate
  }

  /** The index of the last '-' in s, or -1. */
  function LastDash(s: string): int
    ensures -1 <= LastDash(s) < |s|
  {
    if s == [] then -1
    else if s[|s| - 1] == '-' then |s| - 1
    else LastDash(s[..|s| - 1])
  }

  lemma {:induction false} LastDashAfter(a: string, x: string)
    requires '-' !in x
    ensures LastDash(a + "-" + x) == |a|
    decreases |x|
  {
    var s := a + "-" + x;
    if x == [] {
      assert s[|s| - 1] == '-';
    } else {
      assert s[|s| - 1] == x[|x| - 1];
      assert s[..|s| - 1] == a + "-" + x[..|x| - 1];
      LastDashAfter(a, x[..|x| - 1]);
    }
  }

  /** A string ending in "-" followed by a dash-free part splits back uniquely. */
  lemma SplitAtLastDash(a: string, x: string, b: string, y: string)
    requires '-' !in x && '-' !in y
    requires a + "-" + x == b + "-" + y
    ensures a == b && x == y
  {
    var s := a + "-" + x;
    LastDashAfter(a, x);
    LastDashAfter(b, y);
    assert a == s[..|a|];
    assert x == s[|a| + 1..];
  }

  /** When the option strings contain no '-', different requests never share
      a cache key (the topic itself may contain '-'); identical requests
      always do, since CacheKey is a function of its arguments. */
  lemma CacheKeyInjective(o1: Options, o2: Options)
    requires '-' !in o1.summaryFormat && '-' !in o1.summaryLength && '-' !in o1.promptTemplate
    requires '-' !in o2.summaryFormat && '-' !in o2.summaryLength && '-' !in o2.promptTemplate
    requires CacheKey(o1) == CacheKey(o2)
    ensures o1 == o2
  {
    var k1 := o1.topic + "-" + o1.summaryFormat + "-" + PyBool(o1.sentimentAnalysis) + "-" + o1.summaryLength;
    var k2 := o2.topic + "-" + o2.summaryFormat + "-" + PyBool(o2.sentimentAnalysis) + "-" + o2.summaryLength;
    SplitAtLastDash(k1, o1.promptTemplate, k2, o2.promptTemplate);
    var j1 := o1.topic + "-" + o1.summaryFormat + "-" + PyBool(o1.sentimentAnalysis);
    var j2 := o2.topic + "-" + o2.summaryFormat + "-" + PyBool(o2.sentimentAnalysis);
    SplitAtLastDash(j1, o1.summaryLength, j2, o2.summaryLength);
    var i1 := o1.topic + "-" + o1.summaryFormat;
    var i2 := o2.topic + "-" + o2.summaryFormat;
    assert '-' !in PyBool(o1.sentimentAnalysis) && '-' !in PyBool(o2.sentimentAnalysis);
    SplitAtLastDash(i1, PyBool(o1.sentimentAnalysis), i2, PyBool(o2.sentimentAnalysis));
    SplitAtLastDash(o1.topic, o1.summaryFormat, o2.topic, o2.summaryFormat);
  }

  // The fixed wording of the prompts, each sentence split around the topic.
  const BasicHead := "Summarize the following social media posts about "
  const BasicTail := " in a concise and neutral tone. Focus on key points, opinions, and emerging trends. Ignore spam or low-quality content."
  const SentimentHead := "Analyze and summarize the following posts about "
  const SentimentTail := ". Identify the overall sentiment (positive, negative, mixed) and highlight representative comments for each perspective."
  const ComparativeHead := "Given Reddit, Twitter, and YouTube posts about "
  const ComparativeTail := ", summarize each platform\U{2019}s dominant sentiment and highlight how the conversation differs between them."
  const DailyHead := "Provide a daily digest summary of online discussions about "
  const DailyTail := " across Reddit, Twitter, and YouTube. Include major developments, shifts in sentiment, and any viral trends or keywords."
  const ExecutiveHead := "Summarize the key insights from these social media discussions on "
  const ExecutiveTail := " as if reporting to an executive. Use bullet points, avoid slang, and emphasize impact and emerging patterns."
  const DashboardHead := "Write a short and engaging summary of these posts on "
  const DashboardTail := ", suitable for display on a dashboard. Keep it under 100 words and highlight trending ideas or questions."
  const GenericHead := "Summarize the following posts on the topic '"
  const GenericTail := "'."
  const BulletsClause := " Use bullet points."
  const TldrClause := " Provide a TL;DR."
  const SentimentRequest := " Also, provide a sentiment analysis (positive, negative, or neutral)."
  const ShortClause := " The summary should be about 50 words."
  const LongClause := " The summary should be about 200 words."
  const MediumClause := " The summary should be about 100 words."
  const UiHead := "Provide a very short, one-sentence summary of the following posts on the topic '"
  const UiTail := "':\n\n"

  /** The generic sentence used for any template name not listed. */
  function GenericSentence(topic: string): string {
    GenericHead + topic + GenericTail
  }

  /** The opening sentence selected by prompt_template. */
  function TemplateSentence(template: string, topic: string): string {
    if template == "basic" then BasicHead + topic + BasicTail
    else if template == "sentiment" then SentimentHead + topic + SentimentTail
    else if template == "comparative" then ComparativeHead + topic + ComparativeTail
    else if template == "daily" then DailyHead + topic + DailyTail
    else if template == "executive" then ExecutiveHead + topic + ExecutiveTail
    else if template == "ui" then DashboardHead + topic + DashboardTail
    else GenericSentence(topic)
  }

  const KnownTemplates := {"basic", "sentiment", "comparative", "daily", "executive", "ui"}

  /** An unknown template falls back to the generic sentence; a known one does
      not (each known sentence is longer). */
  lemma TemplateFallback(template: string, topic: string)
    ensures template !in KnownTemplates <==> TemplateSentence(template, topic) == GenericSentence(topic)
  {
    if template in KnownTemplates {
      assert |TemplateSentence(template, topic)| > |GenericSentence(topic)|;
    }
  }

  /** The clause summary_format adds: bullets, TL;DR, or nothing. */
  function FormatClause(format: string): string {
    if format == "bullets" then BulletsClause
    else if format == "tldr" then TldrClause
    else ""
  }

  /** The clause sentiment_analysis adds, or nothing. */
  function SentimentClause(sentiment: bool): string {
    if sentiment then SentimentRequest else ""
  }

  /** The target word count named by summary_length: 50, 200, otherwise 100. */
  function WordTarget(length: string): string {
    if length == "short" then "50" else if length == "long" then "200" else "100"
  }

  /** The one length clause, always present, naming the word target. */
  function LengthClause(length: string): (clause: string)
    ensures clause == " The summary should be about " + WordTarget(length) + " words."
  {
    if length == "short" then ShortClause
    else if length == "long" then LongClause
    else MediumClause
  }

  /** Everything before the post blocks, in the order the code appends it. */
  function Header(o: Options): string {
    TemplateSentence(o.promptTemplate, o.topic) + FormatClause(o.summaryFormat)
      + SentimentClause(o.sentimentAnalysis) + LengthClause(o.summaryLength) + "\n\n"
  }

  /** The main prompt: header, then every post's block, untruncated. */
  function Prompt(posts: seq<Post>, o: Options): string {
    Header(o) + Blocks(posts)
  }

  /** The intro of the one-sentence UI prompt. */
  function UiIntro(topic: string): string {
    UiHead + topic + UiTail
  }

  /** The UI prompt: its intro, then the same post blocks. */
  function UiPrompt(posts: seq<Post>, topic: string): string {
    UiIntro(topic) + Blocks(posts)
  }

  /** The post loop: two appends per post, which together are its block. */
  method AppendPosts(start: string, posts: seq<Post>) returns (prompt: string)
    ensures prompt == start + Blocks(posts)
  {
    prompt := start;
    for i := 0 to |posts|
      invariant prompt == start + Blocks(posts[..i])
    {
      assert posts[..i + 1][..i] == posts[..i];
      prompt := prompt + "Title: " + posts[i].title + "\n";
      prompt := prompt + "Text: " + posts[i].text + "\n\n";
    }
    assert posts[..|posts|] == posts;
  }

  /** The prompt_template if/elif chain as the code runs it, assigning the
      opening sentence. TemplateSentence states the same choice as a function,
      for the specification functions (Header, Prompt), which cannot call a
      method; this method is proved equal to it. */
  method ChooseTemplate(template: string, topic: string) returns (sentence: string)
    ensures sentence == TemplateSentence(template, topic)
  {
    if template == "basic" {
      sentence := BasicHead + topic + BasicTail;
    } else if template == "sentiment" {
      sentence := SentimentHead + topic + SentimentTail;
    } else if template == "comparative" {
      sentence := ComparativeHead + topic + ComparativeTail;
    } else if template == "daily" {
      sentence := DailyHead + topic + DailyTail;
    } else if template == "executive" {
      sentence := ExecutiveHead + topic + ExecutiveTail;
    } else if template == "ui" {
      sentence := DashboardHead + topic + DashboardTail;
    } else {
      sentence := GenericHead + topic + GenericTail;
    }
  }

  /** Builds the header as the code does: the template sentence, then each
      clause appended by its own if-chain. */
  method BuildHeader(o: Options) returns (header: string)
    ensures header == Header(o)
  {
    header := ChooseTemplate(o.promptTemplate, o.topic);

    if o.summaryFormat == "bullets" {
      header := header + BulletsClause;
    } else if o.summaryFormat == "tldr" {
      header := header + TldrClause;
    }
    assert header == TemplateSentence(o.promptTemplate, o.topic) + FormatClause(o.summaryFormat);

    if o.sentimentAnalysis {
      header := header + SentimentRequest;
    }
    ghost var clauses := header;
    assert clauses == TemplateSentence(o.promptTemplate, o.topic) + FormatClause(o.summaryFormat)
                      + SentimentClause(o.sentimentAnalysis);

    if o.summaryLength == "short" {
      header := header + ShortClause;
    } else if o.summaryLength == "long" {
      header := header + LongClause;
    } else {
      header := header + MediumClause;
    }
    assert header == clauses + LengthClause(o.summaryLength);

    header := header + "\n\n";
  }

  /** The main prompt as the code builds it. */
  method BuildPrompt(posts: seq<Post>, o: Options) returns (prompt: string)
    ensures prompt == Prompt(posts, o)
  {
    var header := BuildHeader(o);
    prompt := AppendPosts(header, posts);
  }

  /** The UI prompt as the code builds it. */
  method BuildUiPrompt(posts: seq<Post>, topic: string) returns (prompt: string)
    ensures prompt == UiPrompt(posts, topic)
  {
    prompt := AppendPosts(UiIntro(topic), posts);
  }

  /** After any prefix, post i's block sits right after the blocks of the
      posts before it. */
  lemma BlockAfter(h: string, posts: seq<Post>, i: nat)
    requires i < |posts|
    ensures var off := |h| + |Blocks(posts[..i])|;
      off + |PostBlock(posts[i])| <= |h + Blocks(posts)|
      && (h + Blocks(posts))[off..off + |PostBlock(posts[i])|] == PostBlock(posts[i])
  {
    BlockAt(posts, i);
    var b := Blocks(posts);
    var off := |Blocks(posts[..i])|;
    var len := |PostBlock(posts[i])|;
    assert (h + b)[|h| + off..|h| + off + len] == b[off..off + len];
  }

  /** The main prompt carries every post's block whole, post i's right after
      the header and the blocks of the posts before it. */
  lemma PromptCarriesEveryPost(posts: seq<Post>, o: Options, i: nat)
    requires i < |posts|
    ensures var main := Prompt(posts, o);
      var off := |Header(o)| + |Blocks(posts[..i])|;
      off + |PostBlock(posts[i])| <= |main| && main[off..off + |PostBlock(posts[i])|] == PostBlock(posts[i])
  {
    BlockAfter(Header(o), posts, i);
  }

  /** So does the UI prompt, after its intro. */
  lemma UiPromptCarriesEveryPost(posts: seq<Post>, topic: string, i: nat)
    requires i < |posts|
    ensures var ui := UiPrompt(posts, topic);
      var off := |UiIntro(topic)| + |Blocks(posts[..i])|;
      off + |PostBlock(posts[i])| <= |ui| && ui[off..off + |PostBlock(posts[i])|] == PostBlock(posts[i])
  {
    BlockAfter(UiIntro(topic), posts, i);
  }

  /** One chat.completions.create request: the system and the user message. */
  datatype ChatCall = ChatCall(system: string, user: string)

  /** The completion's first choice, or the exception the client raised. */
  datatype Completion = Reply(content: string) | Failed(reason: string)

  /** What one call of summarize_text returns, the requests it sent, and the
      table afterwards. */
  datatype Outcome = Outcome(result: Result<(string, string)>, calls: seq<ChatCall>, table: Table)

  /** The two completion requests a summary needs, in the order they are sent. */
  datatype Requests = Requests(main: ChatCall, ui: ChatCall)

  /** The requests summarize_text builds for these posts and options. */
  function RequestsFor(posts: seq<Post>, o: Options): Requests {
    Requests(ChatCall(MainSystem, Prompt(posts, o)), ChatCall(UiSystem, UiPrompt(posts, o.topic)))
  }

  /** A stored row younger than the TTL. */
  predicate IsFresh(row: Row, now: int) {
    now - row.timestamp < CacheTtl
  }

  /** summarize_text as a function of the table, the cache key, the two
      requests, the clock readings `now` (before the lookup) and `later`
      (before the save), and the completion oracle. */
  function Summarize(table: Table, posts: seq<Post>, key: string, req: Requests, now: int, later: int,
                     complete: ChatCall -> Completion): Outcome
  {
    if posts == [] then Outcome(Ok((EmptySentinel, "")), [], table)
    else
      match Select(table, key)
      case Err(e) => Outcome(Err(e), [], table)
      case Ok(cached) =>
        if cached.Some? && IsFresh(cached.value, now) then
          Outcome(Ok((cached.value.summary, cached.value.uiSummary)), [], table)
        else
          Complete(table.value, key, req, later, complete)
  }

  /** The cache-miss half of summarize_text: the main request, then the UI
      request, then the save of both replies under the key at time `later`. */
  function Complete(rows: map<string, Row>, key: string, req: Requests, later: int,
                    complete: ChatCall -> Completion): Outcome
  {
    match complete(req.main)
    case Failed(reason) => Outcome(Err(OtherException(reason)), [req.main], Some(rows))
    case Reply(summary) =>
      match complete(req.ui)
      case Failed(reason) => Outcome(Err(OtherException(reason)), [req.main, req.ui], Some(rows))
      case Reply(uiSummary) =>
        Outcome(Ok((summary, uiSummary)), [req.main, req.ui],
                Some(Upsert(rows, key, Row(summary, uiSummary, later))))
  }

  /** Empty posts return the sentinel pair without touching the table or the API. */
  lemma EmptyPostsSentinel(table: Table, key: string, req: Requests, now: int, later: int,
                           complete: ChatCall -> Completion)
    ensures Summarize(table, [], key, req, now, later, complete) == Outcome(Ok((EmptySentinel, "")), [], table)
  {
  }

  /** A fresh row under the key is returned as stored, and no completion
      request is made. */
  lemma FreshRowSuppressesCalls(table: Table, posts: seq<Post>, key: string, req: Requests,
                                now: int, later: int, complete: ChatCall -> Completion)
    requires posts != [] && table.Some? && key in table.value
    requires IsFresh(table.value[key], now)
    ensures var out := Summarize(table, posts, key, req, now, later, complete);
      var row := table.value[key];
      out.result == Ok((row.summary, row.uiSummary)) && out.calls == [] && out.table == table
  {
  }

  /** On a miss or a stale row the main request goes out first; a successful
      pair is stored under the same key with the time `later`, every other key
      keeps its row, and the pair is returned; a failed completion leaves the
      table as it was. */
  lemma MissWritesBack(table: Table, posts: seq<Post>, key: string, req: Requests, now: int,
                       later: int, complete: ChatCall -> Completion, other: string)
    requires posts != [] && table.Some?
    requires key !in table.value || !IsFresh(table.value[key], now)
    ensures var out := Summarize(table, posts, key, req, now, later, complete);
      && |out.calls| >= 1 && out.calls[0] == req.main
      && (out.result.Ok? ==>
            && out.calls == [req.main, req.ui]
            && Select(out.table, key) == Ok(Some(Row(out.result.value.0, out.result.value.1, later)))
            && (other != key ==> Select(out.table, other) == Select(table, other)))
      && (out.result.Err? ==> out.table == table)
  {
  }

  /** Two identical calls, the first of which missed and the second made
      within the TTL of the first's save: the second sends no request and
      returns the first's pair. */
  lemma RepeatIsCached(table: Table, posts: seq<Post>, key: string, req: Requests, now: int,
                       later: int, again: int, complete: ChatCall -> Completion)
    requires later <= again < later + CacheTtl
    requires table.Some? && (key !in table.value || !IsFresh(table.value[key], now))
    ensures var first := Summarize(table, posts, key, req, now, later, complete);
      var second := Summarize(first.table, posts, key, req, again, again, complete);
      first.result.Ok? ==> second.result == first.result && second.calls == []
  {
    var first := Summarize(table, posts, key, req, now, later, complete);
    if first.result.Ok? && posts != [] {
      var (s, u) := first.result.value;
      assert first.table == Some(Upsert(table.value, key, Row(s, u, later)));
      assert Select(first.table, key) == Ok(Some(Row(s, u, later)));
    }
  }

  /** The two requests as the code builds them. */
  method BuildRequests(posts: seq<Post>, o: Options) returns (req: Requests)
    ensures req == RequestsFor(posts, o)
  {
    var prompt := BuildPrompt(posts, o);
    var uiPrompt := BuildUiPrompt(posts, o.topic);
    req := Requests(ChatCall(MainSystem, prompt), ChatCall(UiSystem, uiPrompt));
  }

  /** The completion requests and the save, once the lookup has missed. */
  method CompleteAndSave(store: SummaryStore, key: string, req: Requests, later: int,
                         complete: ChatCall -> Completion)
    returns (r: Result<(string, string)>, calls: seq<ChatCall>)
    requires store.table.Some?
    modifies store
    ensures Outcome(r, calls, store.table) == Complete(old(store.table).value, key, req, later, complete)
  {
    calls := [req.main];
    var response := complete(req.main);
    if response.Failed? {
      return Err(OtherException(response.reason)), calls;
    }
    var summary := response.content;

    calls := calls + [req.ui];
    var uiResponse := complete(req.ui);
    if uiResponse.Failed? {
      return Err(OtherException(uiResponse.reason)), calls;
    }
    var uiSummary := uiResponse.content;

    var saved := store.SaveSummary(key, summary, uiSummary, later);
    r := Ok((summary, uiSummary));
  }

  /** summarize_text */
  method SummarizeText(store: SummaryStore, posts: seq<Post>, o: Options, now: int, later: int,
                       complete: ChatCall -> Completion)
    returns (r: Result<(string, string)>, calls: seq<ChatCall>)
    modifies store
    ensures Outcome(r, calls, store.table)
            == Summarize(old(store.table), posts, CacheKey(o), RequestsFor(posts, o), now, later, complete)
  {
    if posts == [] {
      return Ok((EmptySentinel, "")), [];
    }

    var key := CacheKey(o);
    var cached := store.GetSummary(key);
    if cached.Err? {
      return Err(cached.error), [];
    }
    if cached.value.Some? {
      var row := cached.value.value;
      if now - row.timestamp < CacheTtl {
        return Ok((row.summary, row.uiSummary)), [];
      }
    }

    var req := BuildRequests(posts, o);
    r, calls := CompleteAndSave(store, key, req, later, complete);
  }
}
