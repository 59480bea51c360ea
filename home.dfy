/**
 * The front page (frontend/src/pages/Home.tsx): the post list with its
 * sort order and community filter, and the optimistic vote updates.
 */
module Home {
  import opened Types
  import Moltbook

  /** `getPosts({ sort, submolt: submolt || undefined })`: an empty filter
      is sent as no filter. */
  function HomeQuery(sort: SortType, submolt: string): (q: Moltbook.PostsQuery)
    ensures q.sort == Some(sort) && q.author.None? && q.limit.None? && q.offset.None?
    ensures q.submolt.None? <==> submolt == ""
    ensures submolt != "" ==> q.submolt == Some(submolt)
  {
    Moltbook.PostsQuery(if submolt == "" then None else Some(submolt), None, Some(sort), None, None)
  }

  /** The endpoint the front page requests: the sort always, the filter only when set. */
  lemma HomeEndpoint(sort: SortType, submolt: string)
    ensures Moltbook.PostsEndpoint(Moltbook.QueryPairs(HomeQuery(sort, submolt))) ==
      if submolt == "" then "/posts?sort=" + SortName(sort)
      else "/posts?submolt=" + submolt + "&sort=" + SortName(sort)
  {
    var q := HomeQuery(sort, submolt);
    var s := [("sort", SortName(sort))];
    if submolt == "" {
      assert Moltbook.QueryPairs(q) == s;
    } else {
      var pairs := [("submolt", submolt)] + s;
      assert Moltbook.QueryPairs(q) == pairs;
      assert pairs[1..] == s;
      assert Moltbook.Serialize(pairs) == "submolt=" + submolt + "&" + "sort=" + SortName(sort);
    }
  }

  class HomePage {
    var posts: seq<Post>
    var sort: SortType
    var submolt: string
    var loading: bool

    /** The first render: newest first, no filter, loading. */
    constructor ()
      ensures posts == [] && sort == New && submolt == "" && loading
    {
      posts, sort, submolt, loading := [], New, "", true;
    }

    /** The fetch effect, with what `getPosts` settled to (`None`: it failed).
        Returns the endpoint requested. */
    method FetchPosts(response: Option<seq<Post>>) returns (endpoint: string)
      modifies this
      ensures sort == old(sort) && submolt == old(submolt)
      ensures endpoint == Moltbook.PostsEndpoint(Moltbook.QueryPairs(HomeQuery(sort, submolt)))
      ensures posts == (if response.Some? then response.value else []) && !loading
    {
      loading := true;
      endpoint := Moltbook.GetPostsEndpoint(HomeQuery(sort, submolt));
      posts := if response.Some? then response.value else [];
      loading := false;
    }

    /** `handleUpvote` / `handleDownvote`: logged in, the vote request is
        sent; once it succeeds every post with that id takes the vote. */
    method HandleVote(id: string, v: Vote, loggedIn: bool, apiOk: bool) returns (sent: Option<Moltbook.ApiCall>)
      modifies this
      ensures sort == old(sort) && submolt == old(submolt) && loading == old(loading)
      ensures !loggedIn ==> sent.None?
      ensures loggedIn ==> sent == Some(Moltbook.PostVote(id, v))
      ensures loggedIn && apiOk ==> posts == VotePosts(old(posts), id, v)
      ensures !(loggedIn && apiOk) ==> posts == old(posts)
    {
      if !loggedIn {
        return None;
      }
      sent := Some(Moltbook.PostVote(id, v));
      if apiOk {
        posts := VotePosts(posts, id, v);
      }
    }
  }

  /** The first fetch asks for the newest posts of every community. */
  lemma FirstFetch()
    ensures Moltbook.PostsEndpoint(Moltbook.QueryPairs(HomeQuery(New, ""))) == "/posts?sort=new"
  {
    HomeEndpoint(New, "");
  }
}
