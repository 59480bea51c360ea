/**
 * The comment row (frontend/src/components/CommentItem.tsx): its own copy
 * of the Chinese `timeAgo`, and the vote buttons, of which only the upvote
 * is wired to anything.
 */
module CommentItem {
  import opened Types
  import opened JsString
  import opened RelativeTime
  import PostDetail

  function TimeAgo(elapsedMs: int): (r: string)
    ensures ElapsedSeconds(elapsedMs) < 60 ==> r == "刚刚"
    ensures 60 <= ElapsedSeconds(elapsedMs) < 3600 ==>
      r == NatToDecimal(ElapsedSeconds(elapsedMs) / 60) + " 分钟前"
    ensures 3600 <= ElapsedSeconds(elapsedMs) < 86400 ==>
      r == NatToDecimal(ElapsedSeconds(elapsedMs) / 3600) + " 小时前"
    ensures 86400 <= ElapsedSeconds(elapsedMs) ==>
      r == NatToDecimal(ElapsedSeconds(elapsedMs) / 86400) + " 天前"
  {
    FloorSecondsThen(elapsedMs, 60);
    FloorSecondsThen(elapsedMs, 3600);
    FloorSecondsThen(elapsedMs, 86400);
    ChineseLabel(Classify(elapsedMs))
  }

  /** The comment row and the post page label every moment alike. */
  lemma AgreesWithPostDetail(elapsedMs: int)
    ensures TimeAgo(elapsedMs) == PostDetail.TimeAgo(elapsedMs)
  {
  }

  datatype Click = UpClick | DownClick

  /** The id a click hands to the page's `onUpvote`: this comment's id for
      the upvote button, nothing for the downvote button (`() => {}`). */
  function Forward(c: Comment, click: Click): (r: Option<string>)
    ensures click == UpClick ==> r == Some(c.id)
    ensures click == DownClick ==> r.None?
  {
    match click
    case UpClick => Some(c.id)
    case DownClick => None
  }

  /** With unique comment ids, an upvote click on the comment at index `k`
      makes the page's handler change exactly that comment. */
  lemma UpClickVotesThisComment(cs: seq<Comment>, k: nat)
    requires k < |cs|
    requires forall i, j :: 0 <= i < j < |cs| ==> cs[i].id != cs[j].id
    ensures Forward(cs[k], UpClick).Some?
    ensures var r := UpvoteComments(cs, Forward(cs[k], UpClick).value);
      r[k] == UpvotedComment(cs[k]) && r[..k] == cs[..k] && r[k + 1..] == cs[k + 1..]
  {
    UpvoteCommentChangesOnlyTarget(cs, k);
  }
}
