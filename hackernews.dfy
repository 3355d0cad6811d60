/** hackernews.py: the top stories that carry a text, fetched one by one. */
module HackerNews {
  import opened Common

  const HttpDetail := "Error fetching data from Hacker News."
  const ErrorPrefix := "Error fetching data from Hacker News: "
  /** str() of the KeyError raised by story_data["title"]. */
  const MissingTitle := "'title'"
  /** str() of the AttributeError raised by .get on a null item. */
  const NullItem := "'NoneType' object has no attribute 'get'"

  /** One GET with raise_for_status and .json(): the decoded body, the
      HTTPError raise_for_status raises, or any other exception (connection,
      bad JSON), each with its str(). */
  datatype Fetch<T> = Got(value: T) | HttpError(reason: string) | Broken(reason: string)

  /** The decoded JSON of item/{id}.json: an object with the keys the code
      reads (None for a missing key), or null for a deleted item. */
  datatype Item = Story(title: Option<string>, text: Option<string>, url: Option<string>) | Null

  /** top_stories_ids[:limit], with Python's slice semantics for a negative
      or oversized limit. */
  function Head(ids: seq<int>, limit: int): (head: seq<int>)
    ensures head <= ids
    ensures limit >= 0 ==> |head| == if limit < |ids| then limit else |ids|
    ensures limit < 0 ==> |head| == if |ids| + limit > 0 then |ids| + limit else 0
  {
    if limit >= 0 then (if limit < |ids| then ids[..limit] else ids)
    else if |ids| + limit > 0 then ids[..|ids| + limit]
    else []
  }

  /** story_data.get("text") is truthy: present and non-empty. */
  predicate HasText(item: Item)
    requires item.Story?
  {
    item.text.Some? && item.text.value != ""
  }

  /** An item fetch the loop gets past without raising. */
  predicate Passes(f: Fetch<Item>) {
    f.Got? && f.value.Story? && (HasText(f.value) ==> f.value.title.Some?)
  }

  /** {"title": ..., "text": ..., "url": story_data.get("url", "")} */
  function Record(item: Item): Post
    requires item.Story? && HasText(item) && item.title.Some?
  {
    Post(item.title.value, item.text.value, Some(if item.url.Some? then item.url.value else ""))
  }

  /** One iteration of the loop: the post it appends, none, or the exception. */
  function Step(f: Fetch<Item>): (r: Fetch<Option<Post>>)
    ensures r.Got? <==> Passes(f)
    ensures r.Got? ==> (r.value.Some? <==> HasText(f.value))
    ensures f.HttpError? <==> r.HttpError?
  {
    match f
    case HttpError(reason) => HttpError(reason)
    case Broken(reason) => Broken(reason)
    case Got(Null) => Broken(NullItem)
    case Got(item) =>
      if !HasText(item) then Got(None)
      else if item.title.None? then Broken(MissingTitle)
      else Got(Some(Record(item)))
  }

  /** The loop over `ids`, as a function of the per-id fetches: the first
      exception aborts it and discards the posts gathered so far. */
  function Collect(ids: seq<int>, fetch: int -> Fetch<Item>): (r: Fetch<seq<Post>>)
    ensures r.Got? ==> |r.value| <= |ids|
  {
    if ids == [] then Got([])
    else
      match Collect(ids[..|ids| - 1], fetch)
      case HttpError(reason) => HttpError(reason)
      case Broken(reason) => Broken(reason)
      case Got(posts) =>
        match Step(fetch(ids[|ids| - 1]))
        case HttpError(reason) => HttpError(reason)
        case Broken(reason) => Broken(reason)
        case Got(kept) => Got(if kept.Some? then posts + [kept.value] else posts)
  }

  /** get_hacker_news_posts: a requests HTTPError anywhere gives 502, any other
      exception 500 with its text. */
  function GetHackerNewsPosts(top: Fetch<seq<int>>, limit: int, fetch: int -> Fetch<Item>): (r: Result<seq<Post>>)
    ensures top.HttpError? ==> r == Err(HttpException(502, HttpDetail))
    ensures top.Broken? ==> r == Err(HttpException(500, ErrorPrefix + top.reason))
    ensures top.Got? ==>
      match Collect(Head(top.value, limit), fetch)
      case Got(posts) => r == Ok(posts)
      case HttpError(_) => r == Err(HttpException(502, HttpDetail))
      case Broken(reason) => r == Err(HttpException(500, ErrorPrefix + reason))
    ensures r.Ok? ==> top.Got? && |r.value| <= |top.value| && (limit >= 0 ==> |r.value| <= limit)
  {
    var collected := if top.Got? then Collect(Head(top.value, limit), fetch)
                     else if top.HttpError? then HttpError(top.reason) else Broken(top.reason);
    match collected
    case Got(posts) => Ok(posts)
    case HttpError(_) => Err(HttpException(502, HttpDetail))
    case Broken(reason) => Err(HttpException(500, ErrorPrefix + reason))
  }

  /** The posts of the stories with text, in ID order: the reference the loop
      is compared with, written front to back. */
  function WithText(ids: seq<int>, fetch: int -> Fetch<Item>): seq<Post>
    requires forall i :: 0 <= i < |ids| ==> Passes(fetch(ids[i]))
  {
    if ids == [] then []
    else
      assert Passes(fetch(ids[0]));
      var item := fetch(ids[0]).value;
      assert forall i :: 0 <= i < |ids[1..]| ==> ids[1..][i] == ids[i + 1];
      (if HasText(item) then [Record(item)] else []) + WithText(ids[1..], fetch)
  }

  /** Every id of `ids` passes and `id` passes: then every id of `ids + [id]` does. */
  lemma AllPassAppend(ids: seq<int>, id: int, fetch: int -> Fetch<Item>)
    requires forall i :: 0 <= i < |ids| ==> Passes(fetch(ids[i]))
    requires Passes(fetch(id))
    ensures forall i :: 0 <= i < |ids + [id]| ==> Passes(fetch((ids + [id])[i]))
  {
    var all := ids + [id];
    forall i | 0 <= i < |all| ensures Passes(fetch(all[i])) {
      if i < |ids| { assert all[i] == ids[i]; }
    }
  }

  /** Appending a passing id appends its post, if it has a text. */
  lemma {:induction false} WithTextAppend(ids: seq<int>, id: int, fetch: int -> Fetch<Item>)
    requires forall i :: 0 <= i < |ids| ==> Passes(fetch(ids[i]))
    requires Passes(fetch(id))
    ensures forall i :: 0 <= i < |ids + [id]| ==> Passes(fetch((ids + [id])[i]))
    ensures var item := fetch(id).value;
      WithText(ids + [id], fetch) == WithText(ids, fetch) + (if HasText(item) then [Record(item)] else [])
  {
    AllPassAppend(ids, id, fetch);
    var item := fetch(id).value;
    var last := if HasText(item) then [Record(item)] else [];
    if ids == [] {
      assert (ids + [id])[1..] == [];
      assert WithText(ids + [id], fetch) == last + WithText([], fetch);
    } else {
      var all := ids + [id];
      var head := fetch(ids[0]).value;
      var first := if HasText(head) then [Record(head)] else [];
      assert all[0] == ids[0];
      assert all[1..] == ids[1..] + [id];
      WithTextAppend(ids[1..], id, fetch);
      assert WithText(all, fetch) == first + WithText(all[1..], fetch);
      assert WithText(ids, fetch) == first + WithText(ids[1..], fetch);
      assert WithText(all[1..], fetch) == WithText(ids[1..], fetch) + last;
    }
  }

  /** The loop completes exactly when every fetch passes, and then its result
      is the stories with text, in ID order; otherwise nothing is returned. */
  lemma {:induction false} CollectIsWithText(ids: seq<int>, fetch: int -> Fetch<Item>)
    ensures Collect(ids, fetch).Got? <==> forall i :: 0 <= i < |ids| ==> Passes(fetch(ids[i]))
    ensures Collect(ids, fetch).Got? ==> Collect(ids, fetch).value == WithText(ids, fetch)
  {
    if ids != [] {
      var init := ids[..|ids| - 1];
      var id := ids[|ids| - 1];
      assert ids == init + [id];
      CollectIsWithText(init, fetch);
      if forall i :: 0 <= i < |ids| ==> Passes(fetch(ids[i])) {
        assert forall i :: 0 <= i < |init| ==> Passes(fetch(init[i])) by {
          forall i | 0 <= i < |init| ensures Passes(fetch(init[i])) {
            assert init[i] == ids[i];
          }
        }
        assert Passes(fetch(ids[|ids| - 1]));
        WithTextAppend(init, id, fetch);
      } else {
        var k :| 0 <= k < |ids| && !Passes(fetch(ids[k]));
        if k < |init| {
          assert init[k] == ids[k];
        }
      }
    }
  }

  lemma {:induction false} WithTextHasText(ids: seq<int>, fetch: int -> Fetch<Item>)
    requires forall i :: 0 <= i < |ids| ==> Passes(fetch(ids[i]))
    ensures forall p :: p in WithText(ids, fetch) ==> p.text != ""
  {
    if ids != [] {
      WithTextHasText(ids[1..], fetch);
    }
  }

  /** Every returned post has a non-empty text. */
  lemma PostsHaveText(top: Fetch<seq<int>>, limit: int, fetch: int -> Fetch<Item>)
    requires top.Got?
    ensures var r := GetHackerNewsPosts(top, limit, fetch);
      r.Ok? ==> forall p :: p in r.value ==> p.text != ""
  {
    var ids := Head(top.value, limit);
    CollectIsWithText(ids, fetch);
    if Collect(ids, fetch).Got? {
      WithTextHasText(ids, fetch);
    }
  }

  /** The loop as the code runs it. `fetched` lists the ids requested, in
      order: a prefix of the first `limit` ids, every one of which but the last
      passed, and all of them when the call succeeds. */
  method FetchHackerNewsPosts(top: Fetch<seq<int>>, limit: int, fetch: int -> Fetch<Item>)
    returns (r: Result<seq<Post>>, fetched: seq<int>)
    ensures r == GetHackerNewsPosts(top, limit, fetch)
    ensures top.Got? ==> fetched <= Head(top.value, limit)
    ensures !top.Got? ==> fetched == []
    ensures forall j :: 0 <= j < |fetched| - 1 ==> Passes(fetch(fetched[j]))
    ensures r.Ok? ==> top.Got? && fetched == Head(top.value, limit)
    ensures r.Err? && top.Got? ==> fetched != [] && !Passes(fetch(fetched[|fetched| - 1]))
  {
    fetched := [];
    if top.HttpError? {
      return Err(HttpException(502, HttpDetail)), fetched;
    } else if top.Broken? {
      return Err(HttpException(500, ErrorPrefix + top.reason)), fetched;
    }
    var ids := Head(top.value, limit);
    var posts: seq<Post> := [];
    for i := 0 to |ids|
      invariant fetched == ids[..i]
      invariant Collect(ids[..i], fetch) == Got(posts)
      invariant forall j :: 0 <= j < i ==> Passes(fetch(ids[j]))
    {
      fetched := fetched + [ids[i]];
      assert ids[..i + 1][..i] == ids[..i];
      var step := Step(fetch(ids[i]));
      if step.HttpError? {
        assert Collect(ids[..i + 1], fetch) == HttpError(step.reason);
        Lift(ids, i + 1, fetch);
        return Err(HttpException(502, HttpDetail)), fetched;
      } else if step.Broken? {
        assert Collect(ids[..i + 1], fetch) == Broken(step.reason);
        Lift(ids, i + 1, fetch);
        return Err(HttpException(500, ErrorPrefix + step.reason)), fetched;
      }
      if step.value.Some? {
        posts := posts + [step.value.value];
      }
    }
    assert ids[..|ids|] == ids;
    r := Ok(posts);
  }

  /** Once the loop has raised on a prefix, it raises the same on the whole. */
  lemma {:induction false} Lift(ids: seq<int>, n: nat, fetch: int -> Fetch<Item>)
    requires n <= |ids| && !Collect(ids[..n], fetch).Got?
    ensures Collect(ids, fetch) == Collect(ids[..n], fetch)
    decreases |ids| - n
  {
    if n < |ids| {
      var m := n + 1;
      assert ids[..m][..n] == ids[..n];
      Lift(ids, m, fetch);
    } else {
      assert ids[..n] == ids;
    }
  }
}
