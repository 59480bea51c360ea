/**
 * The REST client (frontend/src/services/moltbook.ts): endpoint templates,
 * default headers, the `getPosts` query builder, and the retry loop every
 * request goes through. The network is not modelled: each attempt's
 * outcome is an input, and the back-off waits are recorded instead of slept.
 */
module Moltbook {
  import opened JsString
  import Types

  const BaseUrl: string := "/api/v1"
  const ApiKeyEntry: string := "moltbook_api_key"
  const DefaultRetries: int := 3
  const ExhaustedMessage: string := "Request failed after retries"

  datatype HttpMethod = Get | Post | Delete

  /** The JSON body `createPost` sends. */
  datatype NewPost = NewPost(title: string, content: string, submolt: string)

  datatype Body = NoBody | PostBody(post: NewPost) | CommentBody(content: string)

  datatype Request = Request(verb: HttpMethod, endpoint: string, body: Body)

  /** What `fetch` is called with: the base path glued to the endpoint. */
  function Url(r: Request): (u: string)
    ensures |u| == |BaseUrl| + |r.endpoint|
    ensures u[..|BaseUrl|] == BaseUrl && u[|BaseUrl|..] == r.endpoint
  {
    BaseUrl + r.endpoint
  }

  // ---------------------------------------------------------------------
  // The client's API calls and the request each one issues. Ids and names
  // are inserted into the path as they are, unescaped.

  datatype ApiCall =
    | GetMe
    | GetPost(id: string)
    | CreatePost(data: NewPost)
    | DeletePost(id: string)
    | UpvotePost(id: string)
    | DownvotePost(id: string)
    | CreateComment(postId: string, content: string)
    | UpvoteComment(id: string)
    | GetSubmolts
    | GetSubmolt(name: string)
    | SubscribeSubmolt(name: string)
    | UnsubscribeSubmolt(name: string)

  /** The method, endpoint and JSON body of each call. */
  function RequestFor(c: ApiCall): (r: Request)
    ensures r.verb == Get <==> c.GetMe? || c.GetPost? || c.GetSubmolts? || c.GetSubmolt?
    ensures r.verb == Delete <==> c.DeletePost? || c.UnsubscribeSubmolt?
    ensures r.body.PostBody? <==> c.CreatePost?
    ensures r.body.CommentBody? <==> c.CreateComment?
  {
    match c
    case GetMe => Request(Get, "/agents/me", NoBody)
    case GetPost(id) => Request(Get, "/posts/" + id, NoBody)
    case CreatePost(data) => Request(Post, "/posts", PostBody(data))
    case DeletePost(id) => Request(Delete, "/posts/" + id, NoBody)
    case UpvotePost(id) => Request(Post, "/posts/" + id + "/upvote", NoBody)
    case DownvotePost(id) => Request(Post, "/posts/" + id + "/downvote", NoBody)
    case CreateComment(postId, content) => Request(Post, "/posts/" + postId + "/comments", CommentBody(content))
    case UpvoteComment(id) => Request(Post, "/comments/" + id + "/upvote", NoBody)
    case GetSubmolts => Request(Get, "/submolts", NoBody)
    case GetSubmolt(name) => Request(Get, "/submolts/" + name, NoBody)
    case SubscribeSubmolt(name) => Request(Post, "/submolts/" + name + "/subscribe", NoBody)
    case UnsubscribeSubmolt(name) => Request(Delete, "/submolts/" + name + "/subscribe", NoBody)
  }

  /** The call behind a post's vote button. */
  function PostVote(id: string, v: Types.Vote): (c: ApiCall)
    ensures v == Types.Upvote ==> c == UpvotePost(id)
    ensures v == Types.Downvote ==> c == DownvotePost(id)
  {
    match v
    case Upvote => UpvotePost(id)
    case Downvote => DownvotePost(id)
  }

  predicate HasPrefix(s: string, prefix: string) {
    |prefix| <= |s| && s[..|prefix|] == prefix
  }

  predicate HasSuffix(s: string, suffix: string) {
    |suffix| <= |s| && s[|s| - |suffix|..] == suffix
  }

  /** `s` with `n` characters dropped from its end. */
  function DropLast(s: string, n: nat): string
    requires n <= |s|
  {
    s[..|s| - n]
  }

  /** Reads a request back into the call that issued it. */
  function ParseRequest(r: Request): Types.Option<ApiCall> {
    var e := r.endpoint;
    match r.verb
    case Get =>
      if r.body != NoBody then Types.None
      else if e == "/agents/me" then Types.Some(GetMe)
      else if e == "/submolts" then Types.Some(GetSubmolts)
      else if HasPrefix(e, "/posts/") then Types.Some(GetPost(e[7..]))
      else if HasPrefix(e, "/submolts/") then Types.Some(GetSubmolt(e[10..]))
      else Types.None
    case Post =>
      (match r.body
       case PostBody(data) => if e == "/posts" then Types.Some(CreatePost(data)) else Types.None
       case CommentBody(content) =>
         if HasPrefix(e, "/posts/") && HasSuffix(e[7..], "/comments")
         then Types.Some(CreateComment(DropLast(e[7..], 9), content))
         else Types.None
       case NoBody =>
         if HasPrefix(e, "/posts/") then
           (if HasSuffix(e[7..], "/upvote") then Types.Some(UpvotePost(DropLast(e[7..], 7)))
            else if HasSuffix(e[7..], "/downvote") then Types.Some(DownvotePost(DropLast(e[7..], 9)))
            else Types.None)
         else if HasPrefix(e, "/comments/") && HasSuffix(e[10..], "/upvote") then
           Types.Some(UpvoteComment(DropLast(e[10..], 7)))
         else if HasPrefix(e, "/submolts/") && HasSuffix(e[10..], "/subscribe") then
           Types.Some(SubscribeSubmolt(DropLast(e[10..], 10)))
         else Types.None)
    case Delete =>
      if r.body != NoBody then Types.None
      else if HasPrefix(e, "/posts/") then Types.Some(DeletePost(e[7..]))
      else if HasPrefix(e, "/submolts/") && HasSuffix(e[10..], "/subscribe") then
        Types.Some(UnsubscribeSubmolt(DropLast(e[10..], 10)))
      else Types.None
  }

  lemma PrefixConcat(p: string, x: string)
    ensures HasPrefix(p + x, p) && (p + x)[|p|..] == x
  {
    assert (p + x)[..|p|] == p;
  }

  lemma SuffixConcat(x: string, t: string)
    ensures HasSuffix(x + t, t) && DropLast(x + t, |t|) == x
  {
    assert (x + t)[|x + t| - |t|..] == t;
  }

  lemma GetPostRoundTrip(id: string)
    ensures ParseRequest(RequestFor(GetPost(id))) == Types.Some(GetPost(id))
  {
    var e := "/posts/" + id;
    PrefixConcat("/posts/", id);
    assert e[1] == 'p';
  }

  lemma GetSubmoltRoundTrip(name: string)
    ensures ParseRequest(RequestFor(GetSubmolt(name))) == Types.Some(GetSubmolt(name))
  {
    var e := "/submolts/" + name;
    PrefixConcat("/submolts/", name);
    assert e[1] == 's' && |e| >= 10;
    assert !HasPrefix(e, "/posts/") by { assert e[1] == 's'; }
  }

  lemma UpvotePostRoundTrip(id: string)
    ensures ParseRequest(RequestFor(UpvotePost(id))) == Types.Some(UpvotePost(id))
  {
    assert "/posts/" + id + "/upvote" == "/posts/" + (id + "/upvote");
    PrefixConcat("/posts/", id + "/upvote");
    SuffixConcat(id, "/upvote");
  }

  lemma DownvotePostRoundTrip(id: string)
    ensures ParseRequest(RequestFor(DownvotePost(id))) == Types.Some(DownvotePost(id))
  {
    var rest := id + "/downvote";
    assert "/posts/" + id + "/downvote" == "/posts/" + rest;
    PrefixConcat("/posts/", rest);
    SuffixConcat(id, "/downvote");
    assert !HasSuffix(rest, "/upvote") by {
      assert rest[|rest| - 7] == 'o';
    }
  }

  lemma CreateCommentRoundTrip(postId: string, content: string)
    ensures ParseRequest(RequestFor(CreateComment(postId, content))) == Types.Some(CreateComment(postId, content))
  {
    assert "/posts/" + postId + "/comments" == "/posts/" + (postId + "/comments");
    PrefixConcat("/posts/", postId + "/comments");
    SuffixConcat(postId, "/comments");
  }

  lemma UpvoteCommentRoundTrip(id: string)
    ensures ParseRequest(RequestFor(UpvoteComment(id))) == Types.Some(UpvoteComment(id))
  {
    var e := "/comments/" + (id + "/upvote");
    assert "/comments/" + id + "/upvote" == e;
    PrefixConcat("/comments/", id + "/upvote");
    SuffixConcat(id, "/upvote");
    assert !HasPrefix(e, "/posts/") by { assert e[1] == 'c'; }
  }

  lemma SubscribeRoundTrip(name: string)
    ensures ParseRequest(RequestFor(SubscribeSubmolt(name))) == Types.Some(SubscribeSubmolt(name))
  {
    var e := "/submolts/" + (name + "/subscribe");
    assert "/submolts/" + name + "/subscribe" == e;
    PrefixConcat("/submolts/", name + "/subscribe");
    SuffixConcat(name, "/subscribe");
    assert !HasPrefix(e, "/posts/") by { assert e[1] == 's'; }
    assert !HasPrefix(e, "/comments/") by { assert e[1] == 's'; }
  }

  lemma UnsubscribeRoundTrip(name: string)
    ensures ParseRequest(RequestFor(UnsubscribeSubmolt(name))) == Types.Some(UnsubscribeSubmolt(name))
  {
    var e := "/submolts/" + (name + "/subscribe");
    assert "/submolts/" + name + "/subscribe" == e;
    PrefixConcat("/submolts/", name + "/subscribe");
    SuffixConcat(name, "/subscribe");
    assert !HasPrefix(e, "/posts/") by { assert e[1] == 's'; }
  }

  /** Every call's request reads back as that call, whatever characters its
      ids, names and bodies hold. */
  lemma RequestRoundTrip(c: ApiCall)
    ensures ParseRequest(RequestFor(c)) == Types.Some(c)
  {
    match c
    case GetMe =>
    case GetSubmolts =>
    case CreatePost(_) =>
    case GetPost(id) => GetPostRoundTrip(id);
    case DeletePost(id) => PrefixConcat("/posts/", id);
    case GetSubmolt(name) => GetSubmoltRoundTrip(name);
    case UpvotePost(id) => UpvotePostRoundTrip(id);
    case DownvotePost(id) => DownvotePostRoundTrip(id);
    case CreateComment(postId, content) => CreateCommentRoundTrip(postId, content);
    case UpvoteComment(id) => UpvoteCommentRoundTrip(id);
    case SubscribeSubmolt(name) => SubscribeRoundTrip(name);
    case UnsubscribeSubmolt(name) => UnsubscribeRoundTrip(name);
  }

  /** Hence no two calls send the same request: a vote, a comment or a
      subscription always reaches the post or community it names. */
  lemma RequestForInjective(a: ApiCall, b: ApiCall)
    requires RequestFor(a) == RequestFor(b)
    ensures a == b
  {
    RequestRoundTrip(a);
    RequestRoundTrip(b);
  }

  // ---------------------------------------------------------------------
  // Headers: `{ 'Content-Type': …, ...(apiKey && { Authorization }), ...options.headers }`

  /** A stored key is sent only when it is a non-empty string. */
  predicate KeyTruthy(apiKey: Types.Option<string>) {
    apiKey.Some? && apiKey.value != ""
  }

  function Headers(apiKey: Types.Option<string>, caller: map<string, string>): (h: map<string, string>)
    ensures h.Keys == {"Content-Type"} + (if KeyTruthy(apiKey) then {"Authorization"} else {}) + caller.Keys
    ensures forall k :: k in caller ==> h[k] == caller[k]
    ensures "Content-Type" !in caller ==> h["Content-Type"] == "application/json"
    ensures "Authorization" !in caller ==>
      ("Authorization" in h <==> KeyTruthy(apiKey)) &&
      (KeyTruthy(apiKey) ==> h["Authorization"] == "Bearer " + apiKey.value)
  {
    var defaults := map["Content-Type" := "application/json"];
    var auth := if KeyTruthy(apiKey) then map["Authorization" := "Bearer " + apiKey.value] else map[];
    defaults + auth + caller
  }

  // ---------------------------------------------------------------------
  // The retry loop.

  /** What one `fetch` attempt comes to. `OkUnparsable` is an OK response
      whose body is not JSON: `return response.json()` hands that rejection
      straight to the caller, outside the `try`, so it is not retried. */
  datatype Attempt<T> =
    | Ok(body: T)
    | OkUnparsable(parseError: string)
    | HttpError(status: int, serverMessage: Types.Option<string>)
    | NetworkError(message: string)

  datatype Outcome<T> = Resolved(value: T) | Rejected(message: string)

  /** The attempts the `catch` sees, which may be retried. */
  predicate Retryable<T>(a: Attempt<T>) {
    a.HttpError? || a.NetworkError?
  }

  /** The error a caught attempt throws: the server's message when it sent a
      non-empty one, `HTTP <status>` otherwise; a failed `fetch` rethrows its
      own error. */
  function FailureMessage<T>(a: Attempt<T>): (m: string)
    requires Retryable(a)
    ensures a.HttpError? && a.serverMessage.Some? && a.serverMessage.value != "" ==> m == a.serverMessage.value
    ensures a.HttpError? && !(a.serverMessage.Some? && a.serverMessage.value != "") ==>
      m == "HTTP " + IntToDecimal(a.status)
    ensures a.NetworkError? ==> m == a.message
  {
    match a
    case HttpError(status, msg) =>
      if msg.Some? && msg.value != "" then msg.value else "HTTP " + IntToDecimal(status)
    case NetworkError(m) => m
  }

  /** How the request settles when `a` is the attempt it stops at. */
  function Settle<T>(a: Attempt<T>): (r: Outcome<T>)
    ensures r.Resolved? <==> a.Ok?
    ensures a.Ok? ==> r.value == a.body
    ensures a.OkUnparsable? ==> r.message == a.parseError
    ensures Retryable(a) ==> r == Rejected(FailureMessage(a))
  {
    match a
    case Ok(b) => Resolved(b)
    case OkUnparsable(e) => Rejected(e)
    case _ => Rejected(FailureMessage(a))
  }

  /** The wait after failed attempt `i` (counting from 0): `1000 * (i + 1)` ms. */
  function Backoff(i: nat): (w: nat)
    ensures 1000 <= w
  {
    1000 * (i + 1)
  }

  /** The waits after the first `n` failed attempts. */
  function Schedule(n: nat): (s: seq<nat>)
    ensures |s| == n && forall k :: 0 <= k < n ==> s[k] == Backoff(k)
  {
    if n == 0 then [] else Schedule(n - 1) + [Backoff(n - 1)]
  }

  function Sum(s: seq<nat>): nat {
    if s == [] then 0 else Sum(s[..|s| - 1]) + s[|s| - 1]
  }

  /** The waits grow linearly, so `n` of them take `500 n (n + 1)` ms. */
  lemma {:induction false} ScheduleTotal(n: nat)
    ensures Sum(Schedule(n)) == 500 * n * (n + 1)
  {
    if n > 0 {
      var s := Schedule(n);
      assert s[..|s| - 1] == Schedule(n - 1);
      ScheduleTotal(n - 1);
      assert 500 * (n - 1) * n + 1000 * n == 500 * n * (n + 1);
    }
  }

  /** With the default three attempts, a request that keeps failing waits
      1000 + 2000 ms in all. */
  lemma DefaultRetriesWait()
    ensures Schedule(DefaultRetries - 1) == [1000, 2000]
    ensures Sum(Schedule(DefaultRetries - 1)) == 3000
  {
    ScheduleTotal(2);
  }

  /** `requestWithRetry` for a request `r`: every attempt is a `fetch` of
      `Url(r)` with the headers `Headers(stored key, caller's headers)`, both
      fixed before the first attempt; attempt `i` comes out as `outcome(i)`.
      Returns how the request settles, how many attempts were made, and the
      waits between them. */
  method RequestWithRetry<T>(outcome: nat -> Attempt<T>, retries: int)
    returns (r: Outcome<T>, attempts: nat, waits: seq<nat>)
    ensures retries <= 0 ==> attempts == 0 && r == Rejected(ExhaustedMessage)
    ensures retries > 0 ==> 1 <= attempts <= retries
    ensures forall i :: 0 <= i < attempts - 1 ==> Retryable(outcome(i))
    ensures 0 < attempts < retries ==> !Retryable(outcome(attempts - 1))
    ensures attempts > 0 ==> r == Settle(outcome(attempts - 1))
    ensures waits == Schedule(if attempts == 0 then 0 else attempts - 1)
  {
    attempts, waits := 0, [];
    var i := 0;
    while i < retries
      invariant 0 <= i && (i == 0 || i < retries)
      invariant attempts == i
      invariant forall k :: 0 <= k < i ==> Retryable(outcome(k))
      invariant waits == Schedule(i)
      decreases retries - i
    {
      attempts := i + 1;
      var a := outcome(i);
      if !Retryable(a) {
        r := Settle(a);
        return;
      }
      if i == retries - 1 {
        r := Settle(a);
        return;
      }
      waits := waits + [Backoff(i)];
      i := i + 1;
    }
    r := Rejected(ExhaustedMessage);
  }

  // ---------------------------------------------------------------------
  // `getPosts`: a `URLSearchParams` builder filled in a fixed key order.

  datatype PostsQuery = PostsQuery(
    submolt: Types.Option<string>,
    author: Types.Option<string>,
    sort: Types.Option<Types.SortType>,
    limit: Types.Option<int>,
    offset: Types.Option<int>)

  /** `getPosts()` without parameters reads every field as undefined. */
  const NoQuery := PostsQuery(Types.None, Types.None, Types.None, Types.None, Types.None)

  predicate StrTruthy(o: Types.Option<string>) { o.Some? && o.value != "" }
  predicate NumTruthy(o: Types.Option<int>) { o.Some? && o.value != 0 }

  function SubmoltPiece(q: PostsQuery): seq<(string, string)> {
    Piece(StrTruthy(q.submolt), "submolt", if q.submolt.Some? then q.submolt.value else "")
  }
  function AuthorPiece(q: PostsQuery): seq<(string, string)> {
    Piece(StrTruthy(q.author), "author", if q.author.Some? then q.author.value else "")
  }
  function SortPiece(q: PostsQuery): seq<(string, string)> {
    Piece(q.sort.Some?, "sort", if q.sort.Some? then Types.SortName(q.sort.value) else "")
  }
  function LimitPiece(q: PostsQuery): seq<(string, string)> {
    Piece(NumTruthy(q.limit), "limit", if q.limit.Some? then IntToDecimal(q.limit.value) else "")
  }
  function OffsetPiece(q: PostsQuery): seq<(string, string)> {
    Piece(NumTruthy(q.offset), "offset", if q.offset.Some? then IntToDecimal(q.offset.value) else "")
  }

  /** The pairs the builder should hold: one per truthy field, in the order
      submolt, author, sort, limit, offset. */
  function QueryPairs(q: PostsQuery): (ps: seq<(string, string)>)
    ensures |ps| <= 5
  {
    SubmoltPiece(q) + AuthorPiece(q) + SortPiece(q) + LimitPiece(q) + OffsetPiece(q)
  }

  function KeyRank(k: string): nat {
    if k == "submolt" then 0 else if k == "author" then 1 else if k == "sort" then 2
    else if k == "limit" then 3 else 4
  }

  /** `URLSearchParams.get`: the value of the first pair with the key
      (`FindFirst`), or none. */
  function Find(pairs: seq<(string, string)>, key: string): (r: Types.Option<string>)
    ensures r.None? <==> forall i :: 0 <= i < |pairs| ==> pairs[i].0 != key
    ensures r.Some? ==> (key, r.value) in pairs
  {
    if pairs == [] then Types.None
    else if pairs[0].0 == key then Types.Some(pairs[0].1)
    else Find(pairs[1..], key)
  }

  /** The value found is that of the first pair with the key, whatever later
      pairs with the same key hold. */
  lemma {:induction false} FindFirst(pairs: seq<(string, string)>, key: string, i: nat)
    requires i < |pairs| && pairs[i].0 == key
    requires forall j :: 0 <= j < i ==> pairs[j].0 != key
    ensures Find(pairs, key) == Types.Some(pairs[i].1)
  {
    if i > 0 {
      FindFirst(pairs[1..], key, i - 1);
    }
  }

  lemma {:induction false} FindAppend(a: seq<(string, string)>, b: seq<(string, string)>, key: string)
    ensures Find(a + b, key) == if Find(a, key).Some? then Find(a, key) else Find(b, key)
  {
    if a == [] {
      assert a + b == b;
    } else {
      assert (a + b)[0] == a[0];
      assert (a + b)[1..] == a[1..] + b;
      FindAppend(a[1..], b, key);
    }
  }

  function Piece(present: bool, key: string, value: string): seq<(string, string)> {
    if present then [(key, value)] else []
  }

  lemma FindPiece(present: bool, k: string, v: string, key: string)
    ensures Find(Piece(present, k, v), key) == if present && k == key then Types.Some(v) else Types.None
  {
    if present {
      assert Piece(present, k, v)[1..] == [];
    }
  }

  /** `Find` through the five pieces of the query: the first piece holding the key wins. */
  lemma FindQueryPairs(q: PostsQuery, key: string)
    ensures Find(QueryPairs(q), key) ==
      if Find(SubmoltPiece(q), key).Some? then Find(SubmoltPiece(q), key)
      else if Find(AuthorPiece(q), key).Some? then Find(AuthorPiece(q), key)
      else if Find(SortPiece(q), key).Some? then Find(SortPiece(q), key)
      else if Find(LimitPiece(q), key).Some? then Find(LimitPiece(q), key)
      else Find(OffsetPiece(q), key)
  {
    var p1, p2, p3, p4, p5 := SubmoltPiece(q), AuthorPiece(q), SortPiece(q), LimitPiece(q), OffsetPiece(q);
    FindAppend(p1 + p2 + p3 + p4, p5, key);
    FindAppend(p1 + p2 + p3, p4, key);
    FindAppend(p1 + p2, p3, key);
    FindAppend(p1, p2, key);
  }

  /** The value the query holds for `key`. */
  lemma FindQueryKey(q: PostsQuery, key: string)
    ensures Find(QueryPairs(q), key) ==
      if key == "submolt" then (if StrTruthy(q.submolt) then q.submolt else Types.None)
      else if key == "author" then (if StrTruthy(q.author) then q.author else Types.None)
      else if key == "sort" then (if q.sort.Some? then Types.Some(Types.SortName(q.sort.value)) else Types.None)
      else if key == "limit" then (if NumTruthy(q.limit) then Types.Some(IntToDecimal(q.limit.value)) else Types.None)
      else if key == "offset" then (if NumTruthy(q.offset) then Types.Some(IntToDecimal(q.offset.value)) else Types.None)
      else Types.None
  {
    FindQueryPairs(q, key);
    FindPiece(StrTruthy(q.submolt), "submolt", if q.submolt.Some? then q.submolt.value else "", key);
    FindPiece(StrTruthy(q.author), "author", if q.author.Some? then q.author.value else "", key);
    FindPiece(q.sort.Some?, "sort", if q.sort.Some? then Types.SortName(q.sort.value) else "", key);
    FindPiece(NumTruthy(q.limit), "limit", if q.limit.Some? then IntToDecimal(q.limit.value) else "", key);
    FindPiece(NumTruthy(q.offset), "offset", if q.offset.Some? then IntToDecimal(q.offset.value) else "", key);
  }

  /** The query holds exactly the keys whose value is truthy: a falsy value,
      including a `limit` or `offset` of 0 and an empty string, is left out. */
  lemma QueryKeysPresentIffTruthy(q: PostsQuery)
    ensures Find(QueryPairs(q), "submolt") == if StrTruthy(q.submolt) then q.submolt else Types.None
    ensures Find(QueryPairs(q), "author") == if StrTruthy(q.author) then q.author else Types.None
    ensures Find(QueryPairs(q), "sort") == if q.sort.Some? then Types.Some(Types.SortName(q.sort.value)) else Types.None
    ensures Find(QueryPairs(q), "limit") == if NumTruthy(q.limit) then Types.Some(IntToDecimal(q.limit.value)) else Types.None
    ensures Find(QueryPairs(q), "offset") == if NumTruthy(q.offset) then Types.Some(IntToDecimal(q.offset.value)) else Types.None
  {
    FindQueryKey(q, "submolt");
    FindQueryKey(q, "author");
    FindQueryKey(q, "sort");
    FindQueryKey(q, "limit");
    FindQueryKey(q, "offset");
  }

  /** The keys appear in the fixed order submolt, author, sort, limit, offset. */
  lemma QueryKeyOrder(q: PostsQuery)
    ensures var ps := QueryPairs(q);
      forall i, j :: 0 <= i < j < |ps| ==> KeyRank(ps[i].0) < KeyRank(ps[j].0)
  {
  }

  function Pair(p: (string, string)): string {
    p.0 + "=" + p.1
  }

  /** `URLSearchParams.toString()` with its form-encoding left out:
      `k=v` pairs joined by `&`. */
  function Serialize(pairs: seq<(string, string)>): (s: string)
    ensures s == [] <==> pairs == []
  {
    if pairs == [] then ""
    else if |pairs| == 1 then Pair(pairs[0])
    else Pair(pairs[0]) + "&" + Serialize(pairs[1..])
  }

  /** The `getPosts` endpoint for the pairs a builder holds. */
  function PostsEndpoint(pairs: seq<(string, string)>): (e: string)
    ensures pairs == [] ==> e == "/posts"
    ensures pairs != [] ==> e == "/posts?" + Serialize(pairs)
  {
    var query := Serialize(pairs);
    "/posts" + (if query != "" then "?" + query else "")
  }

  /** The endpoint carries a `?` exactly when some parameter is truthy. */
  lemma QueryMarkIffTruthy(q: PostsQuery)
    ensures PostsEndpoint(QueryPairs(q)) == "/posts" <==>
      !StrTruthy(q.submolt) && !StrTruthy(q.author) && q.sort.None? && !NumTruthy(q.limit) && !NumTruthy(q.offset)
  {
    var e := PostsEndpoint(QueryPairs(q));
    if QueryPairs(q) != [] {
      assert |e| > |"/posts"|;
    }
  }

  /** `URLSearchParams.set`: the first pair with the key takes the value,
      later pairs with that key go, and an absent key is appended. */
  function SetPair(pairs: seq<(string, string)>, key: string, value: string): (r: seq<(string, string)>)
    ensures Find(r, key) == Types.Some(value)
    ensures (forall i :: 0 <= i < |pairs| ==> pairs[i].0 != key) ==> r == pairs + [(key, value)]
    ensures forall k :: k != key ==> Find(r, k) == Find(pairs, k)
  {
    if pairs == [] then [(key, value)]
    else if pairs[0].0 == key then [(key, value)] + RemoveKey(pairs[1..], key)
    else [pairs[0]] + SetPair(pairs[1..], key, value)
  }

  function RemoveKey(pairs: seq<(string, string)>, key: string): (r: seq<(string, string)>)
    ensures forall i :: 0 <= i < |r| ==> r[i].0 != key
    ensures forall k :: k != key ==> Find(r, k) == Find(pairs, k)
  {
    if pairs == [] then []
    else if pairs[0].0 == key then RemoveKey(pairs[1..], key)
    else [pairs[0]] + RemoveKey(pairs[1..], key)
  }

  /** When the key is present, `set` replaces its first pair where it stands,
      keeps every pair before it, and drops the later pairs with the key. */
  lemma {:induction false} SetPairReplacesFirst(pairs: seq<(string, string)>, key: string, value: string, i: nat)
    requires i < |pairs| && pairs[i].0 == key
    requires forall j :: 0 <= j < i ==> pairs[j].0 != key
    ensures var r := SetPair(pairs, key, value);
      i < |r| && r[..i] == pairs[..i] && r[i] == (key, value) && r[i + 1..] == RemoveKey(pairs[i + 1..], key)
  {
    if i > 0 {
      SetPairReplacesFirst(pairs[1..], key, value, i - 1);
      var r := SetPair(pairs, key, value);
      assert r == [pairs[0]] + SetPair(pairs[1..], key, value);
      assert pairs[1..][i..] == pairs[i + 1..];
      assert r[..i] == [pairs[0]] + pairs[1..][..i - 1];
      assert pairs[..i] == [pairs[0]] + pairs[1..][..i - 1];
    }
  }

  /** At most one pair carries the key. */
  predicate KeyAtMostOnce(pairs: seq<(string, string)>, key: string) {
    forall i, j :: 0 <= i < |pairs| && 0 <= j < |pairs| && pairs[i].0 == key && pairs[j].0 == key ==> i == j
  }

  /** After `set` the key occurs in exactly one pair. */
  lemma {:induction false} SetPairKeyOnce(pairs: seq<(string, string)>, key: string, value: string)
    ensures KeyAtMostOnce(SetPair(pairs, key, value), key)
  {
    var r := SetPair(pairs, key, value);
    if pairs == [] {
    } else if pairs[0].0 == key {
      var tail := RemoveKey(pairs[1..], key);
      assert r == [(key, value)] + tail;
      assert forall k :: 1 <= k < |r| ==> r[k] == tail[k - 1];
    } else {
      var rest := SetPair(pairs[1..], key, value);
      SetPairKeyOnce(pairs[1..], key, value);
      assert r == [pairs[0]] + rest;
      forall i, j | 0 <= i < |r| && 0 <= j < |r| && r[i].0 == key && r[j].0 == key
        ensures i == j
      {
        assert r[0] == pairs[0];
        assert rest[i - 1] == r[i] && rest[j - 1] == r[j];
      }
    }
  }

  /** The mutable query builder `getPosts` fills in. */
  class SearchParams {
    var pairs: seq<(string, string)>

    constructor ()
      ensures pairs == []
    {
      pairs := [];
    }

    method Set(key: string, value: string)
      modifies this
      ensures pairs == SetPair(old(pairs), key, value)
    {
      pairs := SetPair(pairs, key, value);
    }

    function ToString(): (s: string)
      reads this
      ensures s == [] <==> pairs == []
    {
      Serialize(pairs)
    }
  }

  /** One `if (value) searchParams.set(key, value)` step. Keys are set in
      rank order, so the key is new to the builder and is appended. */
  method SetIf(sp: SearchParams, present: bool, key: string, value: string, rank: nat)
    requires KeyRank(key) == rank
    requires forall i :: 0 <= i < |sp.pairs| ==> KeyRank(sp.pairs[i].0) < rank
    modifies sp
    ensures sp.pairs == old(sp.pairs) + Piece(present, key, value)
    ensures forall i :: 0 <= i < |sp.pairs| ==> KeyRank(sp.pairs[i].0) <= rank
  {
    if present {
      sp.Set(key, value);
    }
  }

  /** `getPosts(params)`: builds the query key by key and returns the
      endpoint it requests. */
  method GetPostsEndpoint(q: PostsQuery) returns (endpoint: string)
    ensures endpoint == PostsEndpoint(QueryPairs(q))
  {
    var sp := new SearchParams();
    ghost var p1, p2, p3, p4 := SubmoltPiece(q), AuthorPiece(q), SortPiece(q), LimitPiece(q);
    SetIf(sp, StrTruthy(q.submolt), "submolt", if q.submolt.Some? then q.submolt.value else "", 0);
    assert sp.pairs == p1;
    SetIf(sp, StrTruthy(q.author), "author", if q.author.Some? then q.author.value else "", 1);
    assert sp.pairs == p1 + p2;
    SetIf(sp, q.sort.Some?, "sort", if q.sort.Some? then Types.SortName(q.sort.value) else "", 2);
    assert sp.pairs == p1 + p2 + p3;
    SetIf(sp, NumTruthy(q.limit), "limit", if q.limit.Some? then IntToDecimal(q.limit.value) else "", 3);
    assert sp.pairs == p1 + p2 + p3 + p4;
    SetIf(sp, NumTruthy(q.offset), "offset", if q.offset.Some? then IntToDecimal(q.offset.value) else "", 4);
    assert sp.pairs == QueryPairs(q);
    var query := sp.ToString();
    endpoint := "/posts" + (if query != "" then "?" + query else "");
  }
}
