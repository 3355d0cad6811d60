/** reddit.py: the listing filter that returns an empty list when nothing
    survives, and the trending-subreddit list. */
module Reddit {
  import opened Common
  import opened Listing

  const TrendingHttpDetail := "Error fetching trending topics from Reddit."
  const TrendingErrorPrefix := "Error fetching trending topics: "

  /** {"title": ..., "text": ..., "url": ...} for one kept post: the untrimmed
      selftext and the url defaulting to "". */
  function PostRecord(p: RawPost): Post {
    Post(p.title, SelfText(p), Some(if p.url.Some? then p.url.value else ""))
  }

  /** get_reddit_posts, from the outcome of the token exchange and search
      (an HTTP error there escapes as requests' HTTPError). */
  function GetRedditPosts(search: Result<seq<RawPost>>): (r: Result<seq<Post>>)
    ensures search.Err? ==> r == Err(search.error)
    ensures search == Ok([]) ==> r == Err(HttpException(404, NoPostsFound))
    ensures search.Ok? && search.value != [] ==> r.Ok?
    ensures r.Ok? ==>
      && |r.value| == |Meaningful(search.value)|
      && forall i :: 0 <= i < |r.value| ==> r.value[i] == PostRecord(Meaningful(search.value)[i])
  {
    match search
    case Err(e) => Err(e)
    case Ok(posts) =>
      if posts == [] then Err(HttpException(404, NoPostsFound))
      else
        var kept := Meaningful(posts);
        Ok(seq(|kept|, i requires 0 <= i < |kept| => PostRecord(kept[i])))
  }

  /** A non-empty listing whose posts all fail the filter yields [] here,
      not an error. */
  lemma AllFilteredIsEmptyList(posts: seq<RawPost>)
    requires posts != [] && forall p :: p in posts ==> !IsMeaningful(p)
    ensures GetRedditPosts(Ok(posts)) == Ok([])
  {
    var kept := Meaningful(posts);
    forall p ensures multiset(kept)[p] == 0 {
      MeaningfulCounts(posts, p);
    }
    assert multiset(kept) == multiset{};
    assert |kept| == |multiset(kept)| == 0;
  }

  /** ["r/" + name for name in subreddit_names], written as the recursion the
      comprehension unfolds to. */
  function Prefixed(names: seq<string>): (r: seq<string>)
    ensures |r| == |names|
  {
    if names == [] then [] else ["r/" + names[0]] + Prefixed(names[1..])
  }

  lemma {:induction false} PrefixedAt(names: seq<string>, i: nat)
    requires i < |names|
    ensures Prefixed(names)[i] == "r/" + names[i]
  {
    if i > 0 {
      PrefixedAt(names[1..], i - 1);
    }
  }

  /** The inverse of Prefixed: drop the two-character "r/" of each entry. */
  function Unprefixed(topics: seq<string>): seq<string>
  {
    if topics == [] then []
    else [if |topics[0]| >= 2 then topics[0][2..] else topics[0]] + Unprefixed(topics[1..])
  }

  lemma {:induction false} UnprefixedPrefixed(names: seq<string>)
    ensures Unprefixed(Prefixed(names)) == names
  {
    if names != [] {
      UnprefixedPrefixed(names[1..]);
      assert ("r/" + names[0])[2..] == names[0];
    }
  }

  /** The response of the trending_subreddits.json request. */
  datatype TrendingReply =
    | TrendingOk(subredditNames: seq<string>)
    | TrendingHttpError(reason: string)   // raise_for_status
    | TrendingFailed(reason: string)      // connection error, bad JSON, missing key

  /** get_trending_topics: HTTP errors map to 502, anything else to 500. */
  function GetTrendingTopics(reply: TrendingReply): (r: Result<seq<string>>)
    ensures reply.TrendingOk? <==> r.Ok?
    ensures reply.TrendingOk? ==> r.value == Prefixed(reply.subredditNames)
    ensures reply.TrendingHttpError? ==> r == Err(HttpException(502, TrendingHttpDetail))
    ensures reply.TrendingFailed? ==>
      r == Err(HttpException(500, TrendingErrorPrefix + reply.reason))
  {
    match reply
    case TrendingOk(names) => Ok(Prefixed(names))
    case TrendingHttpError(_) => Err(HttpException(502, TrendingHttpDetail))
    case TrendingFailed(reason) => Err(HttpException(500, TrendingErrorPrefix + reason))
  }
}
