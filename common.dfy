/** Types and string helpers shared by the backend modules. */
module Common {

  datatype Option<T> = None | Some(value: T)

  /** The exceptions the Python code raises or lets escape. */
  datatype Raised =
    | HttpException(status: nat, detail: string)   // fastapi.HTTPException
    | RequestsHttpError(reason: string)             // requests.exceptions.HTTPError (raise_for_status)
    | OtherException(reason: string)                // any other exception, with its str()

  /** A Python call either returns a value or raises. */
  datatype Result<T> = Ok(value: T) | Err(error: Raised)

  /** A post record handed to the summarizers: a dict with "title" and "text",
      and a "url" key only in the variants that set one. */
  datatype Post = Post(title: string, text: string, url: Option<string>)

  /** The ASCII characters for which Python's str.isspace() holds. */
  predicate IsSpace(c: char) {
    c == ' ' || c == '\t' || c == '\n' || c == '\r' || c == '\U{0B}' || c == '\U{0C}'
    || c == '\U{1C}' || c == '\U{1D}' || c == '\U{1E}' || c == '\U{1F}'
  }

  /** The number of leading whitespace characters of s. */
  function Lo(s: string): (lo: nat)
    ensures lo <= |s|
    ensures forall i :: 0 <= i < lo ==> IsSpace(s[i])
    ensures lo < |s| ==> !IsSpace(s[lo])
  {
    if s == [] || !IsSpace(s[0]) then 0
    else
      var lo := 1 + Lo(s[1..]);
      assert forall i :: 1 <= i < lo ==> s[i] == s[1..][i - 1];
      lo
  }

  /** The length of s without its trailing whitespace. */
  function Hi(s: string): (hi: nat)
    ensures hi <= |s|
    ensures forall i :: hi <= i < |s| ==> IsSpace(s[i])
    ensures hi > 0 ==> !IsSpace(s[hi - 1])
  {
    if s == [] || !IsSpace(s[|s| - 1]) then |s|
    else Hi(s[..|s| - 1])
  }

  /** Python's str.strip(): empty when s is all whitespace, and otherwise the
      slice between the leading and the trailing whitespace, which neither
      starts nor ends with whitespace. */
  function Trim(s: string): (r: string)
    ensures |r| <= |s|
    ensures r == [] <==> forall i :: 0 <= i < |s| ==> IsSpace(s[i])
    ensures r != [] ==>
      && Lo(s) < Hi(s) && r == s[Lo(s)..Hi(s)]
      && !IsSpace(r[0]) && !IsSpace(r[|r| - 1])
  {
    var lo := Lo(s);
    var hi := Hi(s);
    if hi == 0 then
      assert forall i :: 0 <= i < |s| ==> IsSpace(s[i]);
      []
    else
      assert !IsSpace(s[hi - 1]);
      s[lo..hi]
  }

  /** s is an order-preserving subsequence of t. */
  ghost predicate IsSubsequence<T>(s: seq<T>, t: seq<T>)
    decreases |t|
  {
    if s == [] then true
    else if t == [] then false
    else (s[0] == t[0] && IsSubsequence(s[1..], t[1..])) || IsSubsequence(s, t[1..])
  }

  /** The text block one post contributes to a prompt. */
  function PostBlock(p: Post): string {
    "Title: " + p.title + "\nText: " + p.text + "\n\n"
  }

  /** The blocks of all posts, concatenated in list order. */
  function Blocks(ps: seq<Post>): string {
    if ps == [] then "" else Blocks(ps[..|ps| - 1]) + PostBlock(ps[|ps| - 1])
  }

  lemma {:induction false} BlocksAppend(a: seq<Post>, b: seq<Post>)
    ensures Blocks(a + b) == Blocks(a) + Blocks(b)
    decreases |b|
  {
    if b == [] {
      assert a + b == a;
    } else {
      var n := |b| - 1;
      assert (a + b)[..|a + b| - 1] == a + b[..n];
      assert (a + b)[|a + b| - 1] == b[n];
      calc {
        Blocks(a + b);
        Blocks(a + b[..n]) + PostBlock(b[n]);
        { BlocksAppend(a, b[..n]); }
        Blocks(a) + Blocks(b[..n]) + PostBlock(b[n]);
      }
    }
  }

  /** No post is truncated or reordered: the block of post i sits in Blocks(ps)
      right after the blocks of the posts before it. */
  lemma BlockAt(ps: seq<Post>, i: nat)
    requires i < |ps|
    ensures var off := |Blocks(ps[..i])|;
      off + |PostBlock(ps[i])| <= |Blocks(ps)|
      && Blocks(ps)[off..off + |PostBlock(ps[i])|] == PostBlock(ps[i])
  {
    assert ps == ps[..i] + [ps[i]] + ps[i + 1..];
    BlocksAppend(ps[..i] + [ps[i]], ps[i + 1..]);
    BlocksAppend(ps[..i], [ps[i]]);
    assert Blocks([ps[i]]) == PostBlock(ps[i]) by {
      assert [ps[i]][..0] == [];
    }
  }
}
