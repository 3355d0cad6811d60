/** main.py: the FastAPI service that validates a topic, fetches Reddit
    posts, and summarizes them through the Hugging Face inference API, with an
    in-process cache keyed by topic. */
module Server {
  import opened Common
  import opened Listing
  import Reddit

  const CacheTtl := 300            // seconds
  const MaxInputLength := 3000     // characters sent to the inference API

  const InvalidTopic := "Topic must be a non-empty string with at least 3 characters."
  const NoMeaningfulPosts := "No meaningful Reddit posts found for this topic."
  const HfErrorDetail := "Error generating summary from Hugging Face API."
  const NoSummaryGenerated := "No summary generated."
  const RedditErrorDetail := "Error fetching data from Reddit."
  const SummaryErrorPrefix := "Error generating summary: "

  /** is_valid_topic: non-empty, non-blank, and at least 3 characters once stripped. */
  function IsValidTopic(topic: string): (valid: bool)
    ensures valid <==> |Trim(topic)| >= 3
    ensures valid ==> |topic| >= 3
  {
    |topic| > 0 && |Trim(topic)| > 0 && |Trim(topic)| >= 3
  }

  /** {"title": ..., "text": ...} for one kept post: no "url" key in this variant. */
  function Excerpt(p: RawPost): Post {
    Post(p.title, SelfText(p), None)
  }

  /** get_reddit_posts of main.py: unlike reddit.py it also raises 404 when
      no post survives the filter. */
  function GetRedditPosts(search: Result<seq<RawPost>>): (r: Result<seq<Post>>)
    ensures search.Err? ==> r == Err(search.error)
    ensures search == Ok([]) ==> r == Err(HttpException(404, NoPostsFound))
    ensures search.Ok? && search.value != [] ==>
      (r.Ok? <==> Meaningful(search.value) != [])
    ensures search.Ok? && search.value != [] && Meaningful(search.value) == [] ==>
      r == Err(HttpException(404, NoMeaningfulPosts))
    ensures r.Ok? ==>
      && |r.value| == |Meaningful(search.value)| > 0
      && forall i :: 0 <= i < |r.value| ==> r.value[i] == Excerpt(Meaningful(search.value)[i])
  {
    match search
    case Err(e) => Err(e)
    case Ok(posts) =>
      if posts == [] then Err(HttpException(404, NoPostsFound))
      else
        var kept := Meaningful(posts);
        if kept == [] then Err(HttpException(404, NoMeaningfulPosts))
        else Ok(seq(|kept|, i requires 0 <= i < |kept| => Excerpt(kept[i])))
  }

  /** The two copies of get_reddit_posts agree on every listing except one
      that is non-empty but has no meaningful post: main.py raises 404 there,
      reddit.py returns an empty list. Where both succeed they keep the same
      posts, and only reddit.py's records carry a url. */
  lemma VariantsDiffer(posts: seq<RawPost>)
    requires posts != []
    ensures Meaningful(posts) == [] ==>
      GetRedditPosts(Ok(posts)) == Err(HttpException(404, NoMeaningfulPosts))
      && Reddit.GetRedditPosts(Ok(posts)) == Ok([])
    ensures Meaningful(posts) != [] ==>
      var mine := GetRedditPosts(Ok(posts));
      var theirs := Reddit.GetRedditPosts(Ok(posts));
      mine.Ok? && theirs.Ok? && |mine.value| == |theirs.value|
      && forall i :: 0 <= i < |mine.value| ==>
           mine.value[i].title == theirs.value[i].title
           && mine.value[i].text == theirs.value[i].text
           && mine.value[i].url.None? && theirs.value[i].url.Some?
  {
    var theirs := Reddit.GetRedditPosts(Ok(posts));
    if Meaningful(posts) == [] {
      assert |theirs.value| == 0;
    }
  }

  /** The fixed text the prompt starts with. */
  function Intro(topic: string): string {
    "Summarize the following Reddit posts on the topic '" + topic + "':\n\n"
  }

  /** What the truncation loop produces from `content` and the posts still to go. */
  function Fit(content: string, posts: seq<Post>): string
    decreases |posts|
  {
    if posts == [] then content
    else if |content| + |PostBlock(posts[0])| > MaxInputLength then content
    else Fit(content + PostBlock(posts[0]), posts[1..])
  }

  lemma BlocksStep(ps: seq<Post>, i: nat)
    requires i < |ps|
    ensures Blocks(ps[..i + 1]) == Blocks(ps[..i]) + PostBlock(ps[i])
  {
    assert ps[..i + 1][..i] == ps[..i];
  }

  /** The text only grows as blocks are appended, so a cut-off that holds
      for the text built so far held for every earlier step. */
  lemma {:induction false} BlocksPrefixGrow(ps: seq<Post>, j: nat, k: nat)
    requires j <= k <= |ps|
    ensures |Blocks(ps[..j])| <= |Blocks(ps[..k])|
    decreases k - j
  {
    if j < k {
      BlocksStep(ps, j);
      BlocksPrefixGrow(ps, j + 1, k);
    }
  }

  /** The prompt-building loop of summarize_text: starting from the intro,
      append post blocks in order until the first one that would take the text
      past 3000 characters. */
  method BuildContent(intro: string, posts: seq<Post>) returns (content: string, ghost taken: nat)
    ensures taken <= |posts|
    ensures content == intro + Blocks(posts[..taken])
    ensures taken > 0 ==> |content| <= MaxInputLength
    ensures taken < |posts| ==> |content| + |PostBlock(posts[taken])| > MaxInputLength
    ensures |intro| <= MaxInputLength ==> |content| <= MaxInputLength
    ensures content == Fit(intro, posts)
  {
    content := intro;
    taken := 0;
    var i := 0;
    while i < |posts|
      invariant taken == i <= |posts|
      invariant content == intro + Blocks(posts[..i])
      invariant i > 0 ==> |content| <= MaxInputLength
      invariant |intro| <= MaxInputLength ==> |content| <= MaxInputLength
      invariant Fit(content, posts[i..]) == Fit(intro, posts)
    {
      var postText := PostBlock(posts[i]);
      if |content| + |postText| > MaxInputLength {
        break;
      }
      BlocksStep(posts, i);
      assert posts[i..][1..] == posts[i + 1..];
      content := content + postText;
      i := i + 1;
      taken := i;
    }
  }

  /** The key the summary is read from. */
  const SummaryKey := "summary_text"

  /** The first element of a JSON list, as far as `"summary_text" in data[0]`
      and `data[0]["summary_text"]` can tell: an object (its string-valued
      fields), a string, a list (its string elements), or a number, boolean or
      null. */
  datatype JsonItem =
    | Object(fields: map<string, string>)
    | Text(text: string)
    | Array(strings: seq<string>)
    | Scalar

  /** The JSON body of a Hugging Face response. */
  datatype HfBody =
    | JsonList(items: seq<JsonItem>)
    | OtherJson
    | NotJson

  /** What requests.post to the inference API produced. */
  datatype HfReply =
    | HfResponse(statusCode: int, body: HfBody)
    | HfRaised(reason: string)

  /** `k` occurs in `t` as a substring: Python's `in` on two strings. */
  predicate Contains(t: string, k: string)
    decreases |t|
  {
    |k| <= |t| && (t[..|k|] == k || Contains(t[1..], k))
  }

  /** The first item makes the try block raise TypeError: `in` on a number,
      boolean or null, or a passed `in` test followed by indexing a string or
      a list with a string. */
  predicate ItemRaises(item: JsonItem) {
    || item.Scalar?
    || (item.Text? && Contains(item.text, SummaryKey))
    || (item.Array? && SummaryKey in item.strings)
  }

  /** The try block around the inference call: a non-200 status, a body that
      is not JSON, an exception from the call, or a TypeError from reading the
      first item raise 502; a 200 with any other unexpected shape still yields
      the fallback text. */
  function ReadHfReply(reply: HfReply): (r: Result<string>)
    ensures r.Err? <==>
      || reply.HfRaised? || reply.statusCode != 200 || reply.body.NotJson?
      || (reply.body.JsonList? && |reply.body.items| > 0 && ItemRaises(reply.body.items[0]))
    ensures r.Err? ==> r.error == HttpException(502, HfErrorDetail)
    ensures r.Ok? && reply.body.JsonList? && |reply.body.items| > 0 && reply.body.items[0].Object?
            && SummaryKey in reply.body.items[0].fields ==>
      r.value == reply.body.items[0].fields[SummaryKey]
    ensures r.Ok? && !(reply.body.JsonList? && |reply.body.items| > 0 && reply.body.items[0].Object?
                       && SummaryKey in reply.body.items[0].fields) ==>
      r.value == NoSummaryGenerated
  {
    match reply
    case HfRaised(_) => Err(HttpException(502, HfErrorDetail))
    case HfResponse(status, body) =>
      if status != 200 then Err(HttpException(502, HfErrorDetail))
      else match body
        case NotJson => Err(HttpException(502, HfErrorDetail))
        case OtherJson => Ok(NoSummaryGenerated)
        case JsonList(items) =>
          if |items| == 0 then Ok(NoSummaryGenerated)
          else match items[0]
            case Scalar => Err(HttpException(502, HfErrorDetail))
            case Object(fields) =>
              if SummaryKey in fields then Ok(fields[SummaryKey]) else Ok(NoSummaryGenerated)
            case Text(t) =>
              if Contains(t, SummaryKey) then Err(HttpException(502, HfErrorDetail)) else Ok(NoSummaryGenerated)
            case Array(strings) =>
              if SummaryKey in strings then Err(HttpException(502, HfErrorDetail)) else Ok(NoSummaryGenerated)
  }

  /** A cache value: the summary and the time it was stored. */
  datatype CacheEntry = CacheEntry(summary: string, timestamp: int)

  /** An entry for `topic` younger than the TTL. */
  predicate IsFresh(cache: map<string, CacheEntry>, topic: string, now: int) {
    topic in cache && now - cache[topic].timestamp < CacheTtl
  }

  /** An outbound call a request made. */
  datatype Call = RedditSearch(query: string) | HfInference(inputs: string)

  /** How the handlers turn an exception from the fetch or the summarizer
      into an HTTP error. */
  function HandlerError(e: Raised): (r: Raised)
    ensures r.HttpException?
    ensures e.HttpException? ==> r == e
  {
    match e
    case HttpException(_, _) => e
    case RequestsHttpError(_) => HttpException(502, RedditErrorDetail)
    case OtherException(reason) => HttpException(500, SummaryErrorPrefix + reason)
  }

  /** The body of POST /summarize. */
  datatype SummaryRequest = SummaryRequest(topic: string)

  /** The process: the global `cache` dict shared by all requests. */
  class App {
    var cache: map<string, CacheEntry>

    constructor ()
      ensures cache == map[]
    {
      cache := map[];
    }

    /** summarize_text: a fresh cache entry answers without calling the API;
        otherwise the truncated prompt is sent and a successful result is
        stored under the topic with the time `later` read after the call. */
    method SummarizeText(posts: seq<Post>, topic: string, now: int, later: int,
                         infer: string -> HfReply)
      returns (r: Result<string>, sent: Option<string>)
      modifies this
      ensures IsFresh(old(cache), topic, now) ==>
        r == Ok(old(cache)[topic].summary) && sent == None && cache == old(cache)
      ensures !IsFresh(old(cache), topic, now) ==>
        && sent == Some(Fit(Intro(topic), posts))
        && r == ReadHfReply(infer(sent.value))
        && cache == if r.Ok? then old(cache)[topic := CacheEntry(r.value, later)] else old(cache)
    {
      if topic in cache {
        var entry := cache[topic];
        if now - entry.timestamp < CacheTtl {
          return Ok(entry.summary), None;
        }
      }
      var content, _ := BuildContent(Intro(topic), posts);
      sent := Some(content);
      r := ReadHfReply(infer(content));
      if r.Ok? {
        cache := cache[topic := CacheEntry(r.value, later)];
      }
    }

    /** GET /summarize: reject an invalid topic with 400 before any call,
        then fetch, summarize and map exceptions to HTTP errors. */
    method SummarizeGet(topic: string, search: string -> Result<seq<RawPost>>,
                        infer: string -> HfReply, now: int, later: int)
      returns (r: Result<string>, calls: seq<Call>)
      modifies this
      ensures r.Err? ==> r.error.HttpException?
      ensures !IsValidTopic(topic) ==>
        r == Err(HttpException(400, InvalidTopic)) && calls == [] && cache == old(cache)
      ensures IsValidTopic(topic) && GetRedditPosts(search(topic)).Err? ==>
        && r == Err(HandlerError(GetRedditPosts(search(topic)).error))
        && calls == [RedditSearch(topic)] && cache == old(cache)
      ensures IsValidTopic(topic) && GetRedditPosts(search(topic)).Ok? ==>
        var posts := GetRedditPosts(search(topic)).value;
        if IsFresh(old(cache), topic, now) then
          r == Ok(old(cache)[topic].summary) && calls == [RedditSearch(topic)] && cache == old(cache)
        else
          var content := Fit(Intro(topic), posts);
          && calls == [RedditSearch(topic), HfInference(content)]
          && r == (if ReadHfReply(infer(content)).Ok? then ReadHfReply(infer(content))
                   else Err(HandlerError(ReadHfReply(infer(content)).error)))
          && cache == if r.Ok? then old(cache)[topic := CacheEntry(r.value, later)] else old(cache)
    {
      if !IsValidTopic(topic) {
        return Err(HttpException(400, InvalidTopic)), [];
      }
      calls := [RedditSearch(topic)];
      var fetched := GetRedditPosts(search(topic));
      if fetched.Err? {
        return Err(HandlerError(fetched.error)), calls;
      }
      var summary, sent := SummarizeText(fetched.value, topic, now, later, infer);
      if sent.Some? {
        calls := calls + [HfInference(sent.value)];
      }
      if summary.Err? {
        r := Err(HandlerError(summary.error));
      } else {
        r := summary;
      }
    }

    /** POST /summarize: the same steps, with the topic taken from the body. */
    method SummarizePost(request: SummaryRequest, search: string -> Result<seq<RawPost>>,
                         infer: string -> HfReply, now: int, later: int)
      returns (r: Result<string>, calls: seq<Call>)
      modifies this
      ensures r.Err? ==> r.error.HttpException?
      ensures !IsValidTopic(request.topic) ==>
        r == Err(HttpException(400, InvalidTopic)) && calls == [] && cache == old(cache)
      ensures IsValidTopic(request.topic) && GetRedditPosts(search(request.topic)).Err? ==>
        && r == Err(HandlerError(GetRedditPosts(search(request.topic)).error))
        && calls == [RedditSearch(request.topic)] && cache == old(cache)
      ensures IsValidTopic(request.topic) && GetRedditPosts(search(request.topic)).Ok? ==>
        var topic := request.topic;
        var posts := GetRedditPosts(search(topic)).value;
        if IsFresh(old(cache), topic, now) then
          r == Ok(old(cache)[topic].summary) && calls == [RedditSearch(topic)] && cache == old(cache)
        else
          var content := Fit(Intro(topic), posts);
          && calls == [RedditSearch(topic), HfInference(content)]
          && r == (if ReadHfReply(infer(content)).Ok? then ReadHfReply(infer(content))
                   else Err(HandlerError(ReadHfReply(infer(content)).error)))
          && cache == if r.Ok? then old(cache)[topic := CacheEntry(r.value, later)] else old(cache)
    {
      r, calls := SummarizeGet(request.topic, search, infer, now, later);
    }

    /** Two identical requests, the first of which missed the cache and
        succeeded, the second made within the TTL of the first's write-back.
        The second fetches the posts again (`search2`) and makes no inference
        call: it returns the cached summary when the fetch succeeds and the
        fetch's error otherwise. */
    method RepeatWithinTtl(topic: string, search: string -> Result<seq<RawPost>>,
                           search2: string -> Result<seq<RawPost>>,
                           infer: string -> HfReply, now: int, later: int, again: int)
      returns (first: Result<string>, second: Result<string>, secondCalls: seq<Call>)
      requires later <= again < later + CacheTtl
      modifies this
      ensures first.Ok? && !IsFresh(old(cache), topic, now) ==>
        && secondCalls == [RedditSearch(topic)]
        && (GetRedditPosts(search2(topic)).Ok? ==> second == first)
        && (GetRedditPosts(search2(topic)).Err? ==>
              second == Err(HandlerError(GetRedditPosts(search2(topic)).error)))
    {
      ghost var before := cache;
      var calls;
      first, calls := SummarizeGet(topic, search, infer, now, later);
      ghost var mid := cache;
      second, secondCalls := SummarizeGet(topic, search2, infer, again, again);
      if first.Ok? && !IsFresh(before, topic, now) {
        assert IsValidTopic(topic) && GetRedditPosts(search(topic)).Ok?;
        assert mid == before[topic := CacheEntry(first.value, later)];
        assert IsFresh(mid, topic, again);
      }
    }
  }
}
