/** The `data` object of one child of a Reddit search listing, and the
    "meaningful post" filter that main.py and reddit.py both apply to it. */
module Listing {
  import opened Common

  /** The 404 detail both copies of get_reddit_posts raise for an empty listing. */
  const NoPostsFound := "No Reddit posts found for this topic."

  /** The keys the filter reads; None stands for a key the JSON object lacks. */
  datatype RawPost = RawPost(
    title: string,
    selftext: Option<string>,
    isRedditMediaDomain: Option<bool>,
    isVideo: Option<bool>,
    postHint: Option<string>,
    url: Option<string>)

  /** post["data"].get("selftext", "") */
  function SelfText(p: RawPost): string {
    if p.selftext.Some? then p.selftext.value else ""
  }

  /** dict.get(key, False) for a boolean flag */
  function Flag(b: Option<bool>): bool {
    b.Some? && b.value
  }

  /** The five-part condition of the comprehension: non-blank body, at least
      20 characters after trimming, not a media domain, not a video, and a
      post_hint other than "link" (a missing hint is not "link"). */
  predicate IsMeaningful(p: RawPost) {
    && |Trim(SelfText(p))| > 0
    && |Trim(SelfText(p))| >= 20
    && !Flag(p.isRedditMediaDomain)
    && !Flag(p.isVideo)
    && p.postHint != Some("link")
  }

  /** The posts the comprehension keeps, in listing order. */
  function Meaningful(raw: seq<RawPost>): (kept: seq<RawPost>)
    ensures |kept| <= |raw|
    ensures forall p :: p in kept <==> p in raw && IsMeaningful(p)
  {
    if raw == [] then []
    else (if IsMeaningful(raw[0]) then [raw[0]] else []) + Meaningful(raw[1..])
  }

  /** The filter keeps an order-preserving subsequence of the listing. */
  lemma {:induction false} MeaningfulIsSubsequence(raw: seq<RawPost>)
    ensures IsSubsequence(Meaningful(raw), raw)
  {
    if raw != [] {
      MeaningfulIsSubsequence(raw[1..]);
      var rest := Meaningful(raw[1..]);
      if IsMeaningful(raw[0]) {
        assert Meaningful(raw) == [raw[0]] + rest;
        assert ([raw[0]] + rest)[1..] == rest;
      } else {
        assert Meaningful(raw) == rest;
        SubsequenceOfTail(rest, raw);
      }
    }
  }

  lemma {:induction false} SubsequenceOfTail<T>(s: seq<T>, t: seq<T>)
    requires t != [] && IsSubsequence(s, t[1..])
    ensures IsSubsequence(s, t)
  {
  }

  /** Each post that satisfies the predicate is kept as often as it occurs. */
  lemma {:induction false} MeaningfulCounts(raw: seq<RawPost>, p: RawPost)
    ensures multiset(Meaningful(raw))[p] == if IsMeaningful(p) then multiset(raw)[p] else 0
  {
    if raw != [] {
      var rest := Meaningful(raw[1..]);
      MeaningfulCounts(raw[1..], p);
      assert raw == [raw[0]] + raw[1..];
      assert multiset(raw)[p] == multiset([raw[0]])[p] + multiset(raw[1..])[p];
      if IsMeaningful(raw[0]) {
        assert Meaningful(raw) == [raw[0]] + rest;
        assert multiset(Meaningful(raw))[p] == multiset([raw[0]])[p] + multiset(rest)[p];
      } else {
        assert Meaningful(raw) == rest;
        assert p == raw[0] ==> !IsMeaningful(p);
      }
    }
  }

  /** Filtering a second time changes nothing. */
  lemma {:induction false} MeaningfulIdempotent(raw: seq<RawPost>)
    ensures Meaningful(Meaningful(raw)) == Meaningful(raw)
  {
    if raw != [] {
      MeaningfulIdempotent(raw[1..]);
      var rest := Meaningful(raw[1..]);
      if IsMeaningful(raw[0]) {
        var kept := [raw[0]] + rest;
        assert Meaningful(raw) == kept;
        assert kept[0] == raw[0] && kept[1..] == rest;
        assert Meaningful(kept) == [raw[0]] + Meaningful(rest);
      } else {
        assert Meaningful(raw) == rest;
      }
    }
  }
}
