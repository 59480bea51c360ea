/**
 * The post-submission form (frontend/src/pages/Submit.tsx): both fields
 * must be non-blank; the trimmed fields and the selected community are
 * sent, and success navigates to the new post.
 */
module Submit {
  import opened Types
  import opened JsString
  import opened Forms
  import Moltbook

  const DefaultSubmolt: string := "general"

  /** The `createPost` payload, or `None` when a field is blank. */
  function SubmitPayload(title: string, content: string, submolt: string): (p: Option<Moltbook.NewPost>)
    ensures p.None? <==> AllWhitespace(title) || AllWhitespace(content)
    ensures p.Some? ==>
      p.value.title == Trim(title) && p.value.content == Trim(content) && p.value.submolt == submolt
  {
    if Blank(title) || Blank(content) then None
    else Some(Moltbook.NewPost(Trim(title), Trim(content), submolt))
  }

  /** A payload's title and content are non-empty, unpadded, and what the
      user would get by submitting them again. */
  lemma PayloadFieldsClean(title: string, content: string, submolt: string)
    requires SubmitPayload(title, content, submolt).Some?
    ensures var p := SubmitPayload(title, content, submolt).value;
      p.title != [] && p.content != [] && Unpadded(p.title) && Unpadded(p.content) &&
      SubmitPayload(p.title, p.content, submolt) == SubmitPayload(title, content, submolt)
  {
    TrimIdempotent(title);
    TrimIdempotent(content);
  }

  /** The route `navigate` is sent to after a post is created. */
  function PostRoute(id: string): (r: string)
    ensures |r| == 6 + |id| && r[..6] == "/post/" && r[6..] == id
  {
    "/post/" + id
  }

  datatype CreateOutcome = Created(postId: string) | CreateFailed(err: Thrown)

  class SubmitForm {
    var title: string
    var content: string
    var submolt: string
    var submitting: bool
    var error: Notice
    /** Where the page navigated to, once it has. */
    var route: Option<string>

    constructor ()
      ensures title == "" && content == "" && submolt == DefaultSubmolt
      ensures !submitting && error == NoNotice && route.None?
    {
      title, content, submolt := "", "", DefaultSubmolt;
      submitting, error, route := false, NoNotice, None;
    }

    /** `handleSubmit`, with the request's outcome as an input. Returns the
        `createPost` call made, if any. */
    method HandleSubmit(outcome: CreateOutcome) returns (sent: Option<Moltbook.ApiCall>)
      modifies this
      ensures title == old(title) && content == old(content) && submolt == old(submolt)
      ensures var payload := SubmitPayload(title, content, submolt);
        sent == if payload.Some? then Some(Moltbook.CreatePost(payload.value)) else None
      ensures sent.None? ==>
        error == Translated("titleContentRequired") && submitting == old(submitting) && route == old(route)
      ensures sent.Some? ==> !submitting
      ensures sent.Some? && outcome.Created? ==> route == Some(PostRoute(outcome.postId)) && error == NoNotice
      ensures sent.Some? && outcome.CreateFailed? ==>
        route == old(route) && error == CaughtNotice(outcome.err, "publishFailed")
    {
      var payload := SubmitPayload(title, content, submolt);
      if payload.None? {
        error := Translated("titleContentRequired");
        return None;
      }
      sent := Some(Moltbook.CreatePost(payload.value));
      submitting := true;
      error := NoNotice;
      match outcome {
        case Created(id) =>
          route := Some(PostRoute(id));
        case CreateFailed(err) =>
          error := CaughtNotice(err, "publishFailed");
      }
      submitting := false;
    }
  }
}
