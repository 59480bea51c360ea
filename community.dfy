/**
 * A community's page (frontend/src/pages/Community.tsx): the posts of the
 * community named in the route, and the optimistic vote updates.
 */
module Community {
  import opened Types
  import Moltbook

  /** `getPosts({ submolt: name, sort })`, run only when the route names a community. */
  function CommunityQuery(name: Option<string>, sort: SortType): (q: Option<Moltbook.PostsQuery>)
    ensures q.None? <==> name.None? || name.value == ""
    ensures q.Some? ==>
      q.value.submolt == name && q.value.sort == Some(sort) &&
      q.value.author.None? && q.value.limit.None? && q.value.offset.None?
  {
    if name.None? || name.value == "" then None
    else Some(Moltbook.PostsQuery(name, None, Some(sort), None, None))
  }

  /** The endpoint a community page requests. */
  lemma CommunityEndpoint(name: string, sort: SortType)
    requires name != ""
    ensures Moltbook.PostsEndpoint(Moltbook.QueryPairs(CommunityQuery(Some(name), sort).value)) ==
      "/posts?submolt=" + name + "&sort=" + SortName(sort)
  {
    var q := CommunityQuery(Some(name), sort).value;
    var pairs := [("submolt", name), ("sort", SortName(sort))];
    assert Moltbook.QueryPairs(q) == pairs;
    assert pairs[1..] == [("sort", SortName(sort))];
    assert Moltbook.Serialize(pairs) == "submolt=" + name + "&" + "sort=" + SortName(sort);
  }

  class CommunityPage {
    /** The `:name` route parameter. */
    const name: Option<string>
    var posts: seq<Post>
    var sort: SortType
    var loading: bool

    /** The first render: hottest first, loading. */
    constructor (name: Option<string>)
      ensures this.name == name && posts == [] && sort == Hot && loading
    {
      this.name := name;
      posts, sort, loading := [], Hot, true;
    }

    /** The fetch effect, with what `getPosts` settled to (`None`: it failed).
        Returns the endpoint requested, if any. */
    method FetchPosts(response: Option<seq<Post>>) returns (endpoint: Option<string>)
      modifies this
      ensures sort == old(sort)
      ensures CommunityQuery(name, sort).None? ==> endpoint.None? && posts == old(posts) && loading == old(loading)
      ensures CommunityQuery(name, sort).Some? ==>
        endpoint == Some(Moltbook.PostsEndpoint(Moltbook.QueryPairs(CommunityQuery(name, sort).value))) &&
        posts == (if response.Some? then response.value else []) && !loading
    {
      var q := CommunityQuery(name, sort);
      if q.None? {
        return None;
      }
      loading := true;
      var e := Moltbook.GetPostsEndpoint(q.value);
      endpoint := Some(e);
      posts := if response.Some? then response.value else [];
      loading := false;
    }

    /** `handleUpvote` / `handleDownvote`: logged in, the vote request is
        sent; once it succeeds every post with that id takes the vote. */
    method HandleVote(id: string, v: Vote, loggedIn: bool, apiOk: bool) returns (sent: Option<Moltbook.ApiCall>)
      modifies this
      ensures sort == old(sort) && loading == old(loading)
      ensures !loggedIn ==> sent.None?
      ensures loggedIn ==> sent == Some(Moltbook.PostVote(id, v))
      ensures loggedIn && apiOk ==> posts == VotePosts(old(posts), id, v)
      ensures !(loggedIn && apiOk) ==> posts == old(posts)
    {
      if !loggedIn {
        return None;
      }
      sent := Some(Moltbook.PostVote(id, v));
      if apiOk {
        posts := VotePosts(posts, id, v);
      }
    }
  }
}
