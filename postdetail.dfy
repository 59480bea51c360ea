/**
 * The post page (frontend/src/pages/PostDetail.tsx): the Chinese
 * `timeAgo`, loading a post with its comments, the optimistic vote
 * updates, and adding a comment. Each handler runs as one step; the
 * request's success is an input.
 */
module PostDetail {
  import opened Types
  import opened JsString
  import opened RelativeTime
  import Moltbook

  function TimeAgo(elapsedMs: int): (r: string)
    ensures ElapsedSeconds(elapsedMs) < 60 ==> r == "刚刚"
    ensures 60 <= ElapsedSeconds(elapsedMs) < 3600 ==>
      r == NatToDecimal(ElapsedSeconds(elapsedMs) / 60) + " 分钟前"
    ensures 3600 <= ElapsedSeconds(elapsedMs) < 86400 ==>
      r == NatToDecimal(ElapsedSeconds(elapsedMs) / 3600) + " 小时前"
    ensures 86400 <= ElapsedSeconds(elapsedMs) ==>
      r == NatToDecimal(ElapsedSeconds(elapsedMs) / 86400) + " 天前"
  {
    FloorSecondsThen(elapsedMs, 60);
    FloorSecondsThen(elapsedMs, 3600);
    FloorSecondsThen(elapsedMs, 86400);
    ChineseLabel(Classify(elapsedMs))
  }

  /** What `getPost` resolves to: the post and, possibly, its comments. */
  datatype PostResponse = PostResponse(post: Post, comments: Option<seq<Comment>>)

  class PostDetailPage {
    /** The `:id` route parameter; an empty one counts as absent. */
    const id: Option<string>
    var post: Option<Post>
    var comments: seq<Comment>
    var loading: bool
    var newComment: string
    var submitting: bool

    constructor (id: Option<string>)
      ensures this.id == id
      ensures post.None? && comments == [] && loading && newComment == "" && !submitting
    {
      this.id := id;
      post, comments, loading, newComment, submitting := None, [], true, "", false;
    }

    predicate HasId()
      reads this
    {
      id.Some? && id.value != ""
    }

    /** The load effect with what `getPost(id)` settled to (`None`: it failed). */
    method LoadPost(response: Option<PostResponse>) returns (sent: Option<Moltbook.ApiCall>)
      modifies this
      ensures newComment == old(newComment) && submitting == old(submitting)
      ensures !HasId() ==> sent.None? && post == old(post) && comments == old(comments) && loading == old(loading)
      ensures HasId() ==> sent == Some(Moltbook.GetPost(id.value)) && !loading
      ensures HasId() && response.Some? ==>
        post == Some(response.value.post) &&
        comments == (if response.value.comments.Some? then response.value.comments.value else [])
      ensures HasId() && response.None? ==> post.None? && comments == old(comments)
    {
      if !HasId() {
        return None;
      }
      loading := true;
      sent := Some(Moltbook.GetPost(id.value));
      match response {
        case Some(r) =>
          post := Some(r.post);
          comments := if r.comments.Some? then r.comments.value else [];
        case None =>
          post := None;
      }
      loading := false;
    }

    /** `handleUpvote` / `handleDownvote`: with a post loaded and the user
        logged in, the vote request is sent; once it succeeds the post takes
        the vote. Returns the request sent, if any. */
    method HandleVote(v: Vote, loggedIn: bool, apiOk: bool) returns (sent: Option<Moltbook.ApiCall>)
      modifies this
      ensures comments == old(comments) && loading == old(loading)
      ensures newComment == old(newComment) && submitting == old(submitting)
      ensures old(post).None? || !loggedIn ==> sent.None? && post == old(post)
      ensures old(post).Some? && loggedIn ==> sent == Some(Moltbook.PostVote(old(post).value.id, v))
      ensures old(post).Some? && loggedIn && apiOk ==> post == Some(VotedPost(old(post).value, v))
      ensures !apiOk ==> post == old(post)
    {
      if post.None? || !loggedIn {
        return None;
      }
      var p := post.value;
      sent := Some(Moltbook.PostVote(p.id, v));
      if apiOk {
        post := Some(VotedPost(p, v));
      }
    }

    /** `handleCommentUpvote(commentId)`: once the request succeeds every
        top-level comment with that id takes the upvote. */
    method HandleCommentUpvote(commentId: string, loggedIn: bool, apiOk: bool)
      returns (sent: Option<Moltbook.ApiCall>)
      modifies this
      ensures post == old(post) && loading == old(loading)
      ensures newComment == old(newComment) && submitting == old(submitting)
      ensures !loggedIn ==> sent.None?
      ensures loggedIn ==> sent == Some(Moltbook.UpvoteComment(commentId))
      ensures loggedIn && apiOk ==> comments == UpvoteComments(old(comments), commentId)
      ensures !(loggedIn && apiOk) ==> comments == old(comments)
    {
      if !loggedIn {
        return None;
      }
      sent := Some(Moltbook.UpvoteComment(commentId));
      if apiOk {
        comments := UpvoteComments(comments, commentId);
      }
    }

    /** `handleSubmitComment`, with the created comment as an input (`None`:
        the request failed). The new comment goes to the front and the
        input is cleared. */
    method HandleSubmitComment(loggedIn: bool, created: Option<Comment>)
      returns (sent: Option<Moltbook.ApiCall>)
      modifies this
      ensures post == old(post) && loading == old(loading)
      ensures !HasId() || Blank(old(newComment)) || !loggedIn ==>
        sent.None? && comments == old(comments) && newComment == old(newComment) && submitting == old(submitting)
      ensures HasId() && !Blank(old(newComment)) && loggedIn ==>
        sent == Some(Moltbook.CreateComment(id.value, Trim(old(newComment)))) && !submitting
      ensures HasId() && !Blank(old(newComment)) && loggedIn && created.Some? ==>
        comments == [created.value] + old(comments) && newComment == ""
      ensures created.None? ==> comments == old(comments) && newComment == old(newComment)
    {
      if !HasId() || Blank(newComment) || !loggedIn {
        return None;
      }
      submitting := true;
      sent := Some(Moltbook.CreateComment(id.value, Trim(newComment)));
      if created.Some? {
        comments := [created.value] + comments;
        newComment := "";
      }
      submitting := false;
    }
  }
}
