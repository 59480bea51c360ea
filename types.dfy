/**
 * The records the frontend receives from the forum API
 * (frontend/src/types/index.ts), and the optimistic vote update that three
 * pages apply to them.
 */
module Types {

  datatype Option<T> = None | Some(value: T)

  /** `user_vote?: 'up' | 'down' | null`: absent and null are both `NoVote`. */
  datatype UserVote = NoVote | VotedUp | VotedDown

  /** The two vote buttons. */
  datatype Vote = Upvote | Downvote

  datatype SortType = Hot | New | Top

  /** The query-string value of a sort order. */
  function SortName(s: SortType): string {
    match s
    case Hot => "hot"
    case New => "new"
    case Top => "top"
  }

  datatype Author = Author(id: string, name: string)

  datatype SubmoltRef = SubmoltRef(id: string, name: string, displayName: string)

  datatype Post = Post(
    id: string,
    title: string,
    content: string,
    author: Author,
    submolt: SubmoltRef,
    upvotes: int,
    downvotes: int,
    score: int,
    commentCount: int,
    createdAt: string,
    userVote: UserVote)

  /** A comment. Its score is optional in the API type; here it is taken to be present. */
  datatype Comment = Comment(
    id: string,
    content: string,
    author: Option<Author>,
    postId: Option<string>,
    parentId: Option<string>,
    upvotes: Option<int>,
    downvotes: Option<int>,
    score: int,
    createdAt: string,
    userVote: UserVote,
    replies: seq<Comment>)

  /** The placeholder identity the auth hook shows for any stored key. */
  datatype Agent = Agent(id: string, name: string, karma: int, isClaimed: bool)

  /** How a vote moves the displayed score. */
  function Delta(v: Vote): int {
    match v
    case Upvote => 1
    case Downvote => -1
  }

  /** The marker a vote leaves on the item. */
  function Marker(v: Vote): UserVote {
    match v
    case Upvote => VotedUp
    case Downvote => VotedDown
  }

  // ---------------------------------------------------------------------
  // `{ ...p, score: p.score ± 1, user_vote: 'up' | 'down' }`

  function VotedPost(p: Post, v: Vote): (r: Post)
    ensures r.score == p.score + Delta(v) && r.userVote == Marker(v)
    ensures r.(score := p.score, userVote := p.userVote) == p
  {
    p.(score := p.score + Delta(v), userVote := Marker(v))
  }

  /** Comments are only ever upvoted: `{ ...c, score: c.score + 1, user_vote: 'up' }`. */
  function UpvotedComment(c: Comment): (r: Comment)
    ensures r.score == c.score + 1 && r.userVote == VotedUp
    ensures r.(score := c.score, userVote := c.userVote) == c
  {
    c.(score := c.score + 1, userVote := VotedUp)
  }

  /** `posts.map(p => p.id === id ? voted(p) : p)`. */
  function VotePosts(ps: seq<Post>, id: string, v: Vote): (r: seq<Post>)
    ensures |r| == |ps|
    ensures forall i :: 0 <= i < |ps| && ps[i].id == id ==> r[i] == VotedPost(ps[i], v)
    ensures forall i :: 0 <= i < |ps| && ps[i].id != id ==> r[i] == ps[i]
  {
    if ps == [] then []
    else [if ps[0].id == id then VotedPost(ps[0], v) else ps[0]] + VotePosts(ps[1..], id, v)
  }

  /** `comments.map(c => c.id === id ? upvoted(c) : c)`: top-level entries only. */
  function UpvoteComments(cs: seq<Comment>, id: string): (r: seq<Comment>)
    ensures |r| == |cs|
    ensures forall i :: 0 <= i < |cs| && cs[i].id == id ==> r[i] == UpvotedComment(cs[i])
    ensures forall i :: 0 <= i < |cs| && cs[i].id != id ==> r[i] == cs[i]
  {
    if cs == [] then []
    else [if cs[0].id == id then UpvotedComment(cs[0]) else cs[0]] + UpvoteComments(cs[1..], id)
  }

  function Ids(ps: seq<Post>): (r: seq<string>)
    ensures |r| == |ps| && forall i :: 0 <= i < |ps| ==> r[i] == ps[i].id
  {
    if ps == [] then [] else [ps[0].id] + Ids(ps[1..])
  }

  /** A vote keeps the list's ids in their order. */
  lemma VotePostsKeepsIds(ps: seq<Post>, id: string, v: Vote)
    ensures Ids(VotePosts(ps, id, v)) == Ids(ps)
  {
  }

  /** Voting for an id that no post has leaves the list as it was. */
  lemma VoteAbsentId(ps: seq<Post>, id: string, v: Vote)
    requires forall i :: 0 <= i < |ps| ==> ps[i].id != id
    ensures VotePosts(ps, id, v) == ps
  {
  }

  /** An upvote followed by a downvote on the same id restores every score;
      the matching posts are left marked as downvoted and nothing else changes. */
  lemma UpThenDownRestoresScores(ps: seq<Post>, id: string)
    ensures var r := VotePosts(VotePosts(ps, id, Upvote), id, Downvote);
      |r| == |ps| &&
      forall i :: 0 <= i < |ps| ==>
        r[i].score == ps[i].score &&
        r[i] == if ps[i].id == id then ps[i].(userVote := VotedDown) else ps[i]
  {
  }

  /** With unique ids, the vote changes exactly the post at index `k`. */
  lemma VoteChangesOnlyTarget(ps: seq<Post>, k: nat, v: Vote)
    requires k < |ps|
    requires forall i, j :: 0 <= i < j < |ps| ==> ps[i].id != ps[j].id
    ensures var r := VotePosts(ps, ps[k].id, v);
      r[k] == VotedPost(ps[k], v) && r[..k] == ps[..k] && r[k + 1..] == ps[k + 1..]
  {
    var r := VotePosts(ps, ps[k].id, v);
    assert forall i :: 0 <= i < |ps| && i != k ==> ps[i].id != ps[k].id;
    assert r[..k] == ps[..k];
    assert r[k + 1..] == ps[k + 1..];
  }

  /** The comment counterpart of `VoteChangesOnlyTarget`. */
  lemma UpvoteCommentChangesOnlyTarget(cs: seq<Comment>, k: nat)
    requires k < |cs|
    requires forall i, j :: 0 <= i < j < |cs| ==> cs[i].id != cs[j].id
    ensures var r := UpvoteComments(cs, cs[k].id);
      r[k] == UpvotedComment(cs[k]) && r[..k] == cs[..k] && r[k + 1..] == cs[k + 1..]
  {
    var id := cs[k].id;
    var r := UpvoteComments(cs, id);
    forall i | 0 <= i < |cs| && i != k
      ensures r[i] == cs[i]
    {
      assert cs[i].id != id;
    }
    assert r[..k] == cs[..k];
    assert r[k + 1..] == cs[k + 1..];
  }
}
