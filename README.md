# centrify core, modelled in Dafny

centrify fetches social-media posts (Reddit search, Hacker News top stories),
filters them, and asks a language model for a summary. Summaries are cached:
main.py keeps an in-process dict keyed by topic, and summarizer.py keeps a
SQLite table keyed by topic and options. The React front end keeps a short
topic history and turns a summary into word counts for a word cloud.

This project models the rules inside that glue. Every network or model call is
an oracle parameter. The clock is a plain integer parameter.

- `common.dfy` (module `Common`) holds the shared types: Python exceptions as
  `Raised` and `Result`, post records, Python's `str.strip`, and the
  `"Title: …\nText: …\n\n"` block both summarizers append per post.
- `listing.dfy` (`Listing`) holds the five-part "meaningful post" filter.
  main.py and reddit.py each contain a copy of it. The model proves it keeps an
  order-preserving subsequence with the right multiplicities, and that it is
  idempotent.
- `server.dfy` (`Server`) models main.py. `App` is a class whose `cache` field
  is the global dict. The handlers are methods that return the result and the
  trace of outbound calls. The truncating prompt loop is `BuildContent`.
- `reddit.py` becomes `Reddit`, and `database.py` becomes `Database`.
  `SummaryStore` is a class with one field, the table: `None` until
  `CREATE TABLE` has run, then a map from key to row.
- `summarizer.dfy` (`Summarizer`) models summarizer.py. The prompt builders are
  methods, each proved against a specification function. `SummarizeText` is
  proved against `Summarize`, a function of the table, the key, the two
  requests, two clock readings and the completion oracle. The cache
  properties are lemmas about `Summarize`.
- `hackernews.dfy` (`HackerNews`) models the fetch loop, proved against the
  recursive `Collect`. `Collect` is shown equal to an independent front-to-back
  filter (`WithText`) whenever every fetch succeeds.
- `frontend.dfy` (`Frontend`) models the history update and `handleSubmit`.
  It also models the word split and the word-counting loop, whose values are
  proved to sum to the number of non-empty tokens.

Both summarize_text variants read `time.time()` twice. The model keeps the two
readings apart: `now` is read before the TTL check (`now - ts < 300`) and
`later` is read for the write-back.

A few behaviours of the code are worth stating outright, because the model
follows them:
- database.py has no delete operation. Rows are only inserted or replaced.
- The store returns a row however old it is. The caller applies the
  300-second check.
- main.py answers 502 ("Error generating summary from Hugging Face API.") for
  a non-200 status, a body that is not JSON, or an exception raised while
  reading the reply.
- main.py caches "No summary generated." when a 200 reply has an unexpected
  shape that does not raise.
- summarizer.py lets completion errors escape unmapped.

## Model

| member | source | states |
|---|---|---|
| Common.Trim | main.py:58 | `str.strip()`: empty exactly when the input is all whitespace, and otherwise the slice between the leading and the trailing whitespace, starting and ending with a non-space |
| Common.Lo | reddit.py:42 | the number of leading whitespace characters: all before it are whitespace, the one at it is not |
| Common.Hi | reddit.py:42 | the length without trailing whitespace: all after it are whitespace, the one before it is not |
| Common.BlocksAppend | summarizer.py:61-63 | the blocks of a concatenation are the concatenation of the blocks |
| Common.BlockAt | summarizer.py:76-78 | post i's block sits whole right after the blocks of posts 0..i-1 |
| Listing.Meaningful | main.py:87-95 | the kept posts are exactly the listing posts meeting all five conditions (non-blank body, ≥ 20 stripped characters, not media, not video, hint ≠ "link"); never more posts than the listing |
| Listing.MeaningfulIsSubsequence | reddit.py:39-47 | the kept posts are an order-preserving subsequence of the listing |
| Listing.MeaningfulCounts | main.py:87-95 | each meaningful post is kept as often as it occurs in the listing; any other post is dropped every time |
| Listing.MeaningfulIdempotent | reddit.py:39-47 | filtering twice equals filtering once |
| Server.IsValidTopic | main.py:57-58 | a topic is valid iff its stripped form has at least 3 characters (so the raw topic has at least 3 too) |
| Server.GetRedditPosts | main.py:82-99 | request errors propagate; an empty listing gives 404 "No Reddit posts found…"; a listing with no meaningful post gives 404 "No meaningful Reddit posts…"; otherwise it returns title and untrimmed selftext of each kept post, in order, and the list is non-empty |
| Server.VariantsDiffer | main.py:97-98 | for a non-empty listing with nothing meaningful, main.py raises 404 while reddit.py returns []; otherwise both keep the same titles and texts, and only reddit.py adds a url |
| Server.BuildContent | main.py:109-117 | the content is the intro plus the blocks of a prefix of the posts; the next block would have passed 3000 characters; an intro of at most 3000 characters keeps the content within 3000; the result equals the reference `Fit` |
| Server.ReadHfReply | main.py:128-142 | 502 with the fixed detail iff the call raised, the status is not 200, the body is not JSON, or reading the first list item raises (`in` on a number, boolean or null; indexing a string or list that passed the `in` test); otherwise the first item's summary_text when it is an object holding that key, and "No summary generated." for every other shape |
| Server.HandlerError | main.py:158-165 | an HTTPException passes through; a requests HTTPError becomes 502 "Error fetching data from Reddit."; anything else becomes 500 "Error generating summary: " plus its text |
| Server.App.constructor | main.py:45 | the cache starts empty |
| Server.App.SummarizeText | main.py:102-145 | a fresh entry (`now - ts < 300`) is returned with no API call and the cache unchanged; otherwise the truncated prompt is sent, and the result of a success is stored under the topic at time `later` with every other entry kept; an error leaves the cache unchanged |
| Server.App.SummarizeGet | main.py:148-165 | an invalid topic gives 400 before any call; a fetch error is mapped and leaves the cache alone; a cache hit makes only the Reddit call; a miss makes the Reddit call then one inference call with the truncated prompt; every error is an HTTPException |
| Server.App.SummarizePost | main.py:168-185 | the same contract as GET with the topic taken from the body: 400 before any call; a fetch error mapped with the cache unchanged; a fresh entry returned after only the Reddit call; on a miss the inference call with the truncated prompt, the mapped result, and a success stored at `later` |
| Server.App.RepeatWithinTtl | main.py:102-107 | a request that missed and succeeded, repeated within 300 seconds of its write-back, fetches the posts again and makes no inference call; it returns the same summary when that fetch succeeds and the fetch's mapped error otherwise |
| Reddit.GetRedditPosts | reddit.py:12-49 | request errors propagate; an empty listing gives 404; otherwise one record per kept post, in order, with title, untrimmed text and url defaulting to "" |
| Reddit.AllFilteredIsEmptyList | reddit.py:39-49 | a non-empty listing whose posts all fail the filter returns [] rather than raising |
| Reddit.Prefixed | reddit.py:58 | the trending list has the same length as the names |
| Reddit.PrefixedAt | reddit.py:58 | entry i is "r/" followed by name i |
| Reddit.UnprefixedPrefixed | reddit.py:58 | stripping the "r/" prefix recovers the names, so nothing is lost or reordered |
| Reddit.GetTrendingTopics | reddit.py:51-64 | success iff the response is good, and then the prefixed names; an HTTP error gives 502 with the fixed detail; any other failure gives 500 "Error fetching trending topics: " plus its text |
| Database.CreateIfAbsent | database.py:6-13 | afterwards the table exists; an existing table is kept with all its rows |
| Database.Select | database.py:17-23 | fails iff the table is missing; otherwise returns a row iff the key is present |
| Database.Upsert | database.py:28-29 | the keys become the old keys plus the saved one; the row count grows only for a new key, so there is one row per key |
| Database.SummaryStore.constructor | database.py:4 | the store opens on whatever table an earlier run left |
| Database.SummaryStore.InitDb | database.py:3-15 | the new table is `CreateIfAbsent` of the old one |
| Database.SummaryStore.GetSummary | database.py:17-23 | returns `Select` of the current table and changes nothing |
| Database.SummaryStore.SaveSummary | database.py:25-31 | without a table it fails and changes nothing; otherwise it upserts the row under the key |
| Database.InitIdempotent | database.py:6-13 | running init twice equals running it once |
| Database.SaveThenSelect | database.py:17-31 | a saved row reads back exactly, and every other key reads as before |
| Database.ReplayReadsLastSave | database.py:25-31 | after any series of saves, a key reads as its latest save, or as before if it was never saved (last writer wins) |
| Summarizer.SplitAtLastDash | summarizer.py:20 | `a-x` with a dash-free `x` splits back uniquely at its last dash |
| Summarizer.CacheKeyInjective | summarizer.py:20 | if the option strings contain no '-', equal cache keys mean equal arguments |
| Summarizer.TemplateFallback | summarizer.py:29-42 | the opening sentence is the generic one iff the template name is not one of the six known names |
| Summarizer.LengthClause | summarizer.py:52-57 | exactly one clause naming 50 words for "short", 200 for "long", and 100 otherwise |
| Summarizer.ChooseTemplate | summarizer.py:29-42 | the if-chain yields the opening sentence of the selected template, the generic one for an unknown name |
| Summarizer.BuildHeader | summarizer.py:29-59 | the header is template sentence, then format clause, then sentiment clause, then length clause, then a blank line |
| Summarizer.AppendPosts | summarizer.py:61-63 | the loop appends every post's block, in order, with nothing cut |
| Summarizer.BuildPrompt | summarizer.py:29-63 | the main prompt is the header followed by the blocks of all posts |
| Summarizer.BuildUiPrompt | summarizer.py:75-78 | the UI prompt is its intro followed by the blocks of all posts |
| Summarizer.BlockAfter | summarizer.py:61-63 | after any prefix, post i's block follows the blocks of the earlier posts |
| Summarizer.PromptCarriesEveryPost | summarizer.py:61-63 | the main prompt contains every post's block whole, right after the header and the blocks of the posts before it |
| Summarizer.UiPromptCarriesEveryPost | summarizer.py:75-78 | the UI prompt contains every post's block whole, right after its intro and the blocks of the posts before it |
| Summarizer.EmptyPostsSentinel | summarizer.py:16-17 | empty posts return the sentinel pair with no table access and no request |
| Summarizer.FreshRowSuppressesCalls | summarizer.py:21-26 | a row younger than 300 seconds is returned as stored, with no completion request and the table unchanged |
| Summarizer.MissWritesBack | summarizer.py:65-90 | on a miss or a stale row the main request goes first; a success sends both requests and stores both replies under the key at `later`, leaving other keys alone; a failure leaves the table unchanged |
| Summarizer.RepeatIsCached | summarizer.py:20-26 | after a call that missed and succeeded, an identical call within 300 seconds sends nothing and returns the same pair |
| Summarizer.BuildRequests | summarizer.py:65-86 | the two requests carry the fixed system messages and the main and UI prompts |
| Summarizer.CompleteAndSave | summarizer.py:65-90 | after a miss: main request, then UI request, then the save, exactly as `Complete` states |
| Summarizer.SummarizeText | summarizer.py:14-90 | the returned pair, the requests sent and the new table are those of `Summarize` for the cache key and the built prompts |
| HackerNews.Head | hackernews.py:15 | `ids[:limit]` with Python slicing: a prefix, min(limit, n) long for limit ≥ 0, and n + limit (at least 0) long for a negative limit |
| HackerNews.Step | hackernews.py:16-20 | one item passes iff it was fetched, is an object, and has a title whenever its text is non-empty; it adds a post iff its text is non-empty; HTTP errors stay HTTP errors |
| HackerNews.Collect | hackernews.py:14-21 | the loop never returns more posts than ids |
| HackerNews.CollectIsWithText | hackernews.py:14-21 | the loop succeeds iff every fetch passes, and then it returns exactly the stories with text, in id order; otherwise no list at all |
| HackerNews.GetHackerNewsPosts | hackernews.py:7-27 | an HTTP error anywhere gives 502 with the fixed detail; any other exception gives 500 with the prefix and its text; on success at most min(limit, len(ids)) posts |
| HackerNews.PostsHaveText | hackernews.py:19-20 | every returned post has a non-empty text |
| HackerNews.FetchHackerNewsPosts | hackernews.py:7-27 | the result equals `GetHackerNewsPosts`; the fetched ids are a prefix of `ids[:limit]`, all of it on success; fetching stops at the first failing item |
| Frontend.Take | frontend/src/App.js:51 | `slice(0, n)` is a prefix of length min(n, len) |
| Frontend.UpdateHistory | frontend/src/App.js:50-51 | an empty or listed topic leaves the history alone; a new one goes first, followed by a prefix of the old history |
| Frontend.HistoryBounded | frontend/src/App.js:51 | a history of at most 5 entries stays within 5 |
| Frontend.NewestFirst | frontend/src/App.js:51 | a new topic is entry 0, the old entries follow in order, and the length is min(old + 1, 5) |
| Frontend.HistoryFromTopics | frontend/src/App.js:50-51 | every entry was already listed or is the submitted topic |
| Frontend.HistoryStaysDistinct | frontend/src/App.js:50 | a history without duplicates keeps none |
| Frontend.HistoryRepeat | frontend/src/App.js:50 | submitting the same topic twice equals submitting it once |
| Frontend.HandleSubmit | frontend/src/App.js:40-61 | loading ends; a rejected fetch sets "Failed to generate summary." and keeps history and storage; a response sets the summary and updates the history; storage is rewritten iff the history changed |
| Frontend.StorageMirrorsHistory | frontend/src/App.js:50-53 | when storage mirrors a history of at most 5 entries, it still does after a submit, and the history stays within 5 |
| Frontend.TakeWord | frontend/src/App.js:31 | the longest separator-free prefix |
| Frontend.DropSeps | frontend/src/App.js:31 | a run of separators is removed whole |
| Frontend.Split | frontend/src/App.js:31 | `split(/[ ,.\n]+/)` returns at least one token, and no token contains a separator; where the tokens break is fixed by SplitWeave, GapsAreRuns and SplitMiddle |
| Frontend.SplitJoin | frontend/src/App.js:31 | joining the tokens gives the summary with every separator removed |
| Frontend.SplitMiddle | frontend/src/App.js:31 | every token except the first and the last is non-empty |
| Frontend.GapsCount | frontend/src/App.js:31 | the split leaves exactly one separator run between each two consecutive tokens |
| Frontend.GapsAreRuns | frontend/src/App.js:31 | each run the split breaks at is non-empty and made only of space, comma, period or newline |
| Frontend.SplitWeave | frontend/src/App.js:31 | token 0, run 0, token 1, run 1, …, the last token, put together, give the summary back: the tokens break exactly at the separator runs |
| Frontend.SplitWord | frontend/src/App.js:31 | a separator-free string splits into itself |
| Frontend.NonEmpty | frontend/src/App.js:32 | the tokens kept by `if (word)` are never empty and never more than the tokens |
| Frontend.NonEmptyAppend | frontend/src/App.js:32 | one more token adds itself to the kept tokens iff it is non-empty |
| Frontend.NonEmptyIsSubsequence | frontend/src/App.js:32 | the kept tokens are an order-preserving subsequence of the tokens |
| Frontend.NonEmptyCounts | frontend/src/App.js:32 | every non-empty token is kept as often as it occurs, and the empty token never |
| Frontend.CountStep | frontend/src/App.js:32-34 | one forEach step keeps the counts exact |
| Frontend.WordMapCounts | frontend/src/App.js:31-35 | the map the forEach builds has a key exactly for each non-empty token, with its number of occurrences, and its values sum to the number of non-empty tokens |
| Frontend.CountTokens | frontend/src/App.js:31-35 | the loop leaves exactly those counts: a key iff a non-empty token, its value its number of occurrences, the values summing to the number of non-empty tokens |
| Frontend.CountWords | frontend/src/App.js:30-35 | no empty key; a word is a key iff it is a non-empty token; its value is its number of occurrences; the values sum to the number of non-empty tokens |
| Frontend.CountAsWritten | frontend/src/App.js:30-35 | the loop as written on a plain object: no own key for "" or "__proto__" (whose setter ignores the string) |
| Frontend.CountOneWord | frontend/src/App.js:30-35 | a one-word summary leaves no key for "" or "__proto__", a non-count for the eleven function-valued members of Object.prototype, and the count 1 for any other word |
| Frontend.ProtoLeavesNoKey | frontend/src/App.js:33 | the summary "__proto__" is one word, yet the as-written map has no key at all |
| Frontend.ConstructorSplit | frontend/src/App.js:31 | "constructor" is a member inherited from Object.prototype and splits into itself alone |
| Frontend.ConstructorIsGarbled | frontend/src/App.js:33 | with a plain `{}` object, the summary "constructor" leaves a non-count under its key |
| Frontend.ConstructorCountedOnce | frontend/src/App.js:30-35 | the intended counts give "constructor" the count 1 |

## Findings

| source | as written | input that shows it | evidently intended | confidence | as-written member | corrected member |
|---|---|---|---|---|---|---|
| frontend/src/App.js:30-35 | `wordMap` is a `{}` literal, so `wordMap[word] \|\| 0` returns the inherited `Object.prototype` function for words such as "constructor" or "toString", and `+ 1` then produces a string instead of a count; for "__proto__" the assignment is ignored and the word is lost | a summary containing the word "constructor" | every word maps to the number of times it occurs | medium, not executed | Frontend.ConstructorIsGarbled | Frontend.CountWords |

`Frontend.CountAsWritten` is the as-written loop, and `Frontend.ProtoLeavesNoKey`
shows the "__proto__" case. `Frontend.CountWords` is the intended loop over a
map without inherited keys, and the rest of the model uses it.

## Left out

- All HTTP and model calls are oracle parameters, not modelled: the Reddit token exchange and search, trending, Hacker News, Hugging Face and OpenAI. These are foreign network calls. Their failures appear only as `Raised` values or as reply datatypes.
- The FastAPI app, the static mount, slowapi's 5-per-minute limit, logging and the uvicorn start are framework plumbing.
- The startup check of environment variables is configuration with no state.
- The SQLite engine, connections, transactions and concurrent writers are not modelled. The table is a map. Also left out: a `timestamp REAL` column holding floats, and errors other than the missing table.
- `time.time()` is a float. The model takes integer clock readings and keeps the `< 300` comparison.
- Common.Trim: covers only the ASCII whitespace that `str.isspace()` accepts, not the Unicode spaces.
- Listing.IsMeaningful: assumes every listing child has a `data.title` and that `selftext` is a string. The model does not capture the `KeyError` or `AttributeError` the comprehension raises otherwise.
- Server.ReadHfReply: a list's first item is seen only through its string-valued fields, its text, or its string elements. A `summary_text` that is not a string is not modelled; such an object reads as one without the key.
- Server.App.SummarizeGet: the `SummaryResponse` validation of the returned value is not modelled.
- Summarizer.SummarizeText: the model name `gpt-4` and the role fields of the messages are constants. They are not part of `ChatCall`. A completion whose content is `None` is not modelled.
- HackerNews.Step: an item that is JSON but neither an object nor null is not modelled. Neither is a top-stories body that is not a list of ids.
- Frontend.HandleSubmit: the topic is put into the URL without encoding. The model does not capture how the server then reads a topic containing `&` or `#`.
- Frontend.CountWords: yields a map. The order of `Object.keys` (integer-like keys first) in the array passed to the word cloud is not modelled. Neither is the `summary && WordCloud` guard of the effect.
- The React rendering, dark mode, the loading of the history from localStorage on mount, and the other components (SummarizerForm.js, UrlSummarizer.js, Summary.js, Posts.js, History.js, Header.js) are UI and not modelled.
- test_main.py is not part of this model. Its expectations (a prompt phrase that main.py does not contain, a 404 for an empty fetch that main.py's handler does not raise) disagree with main.py.
