/**
 * The comment thread of a project or task: fetching the top-level comments,
 * the whitespace guard on posting, the post payload, reactions and their
 * counts.
 */
module CommentSection {
  import opened Wrappers
  import opened Http
  import opened Text
  import opened Lists
  import opened Decimal

  const CommentsPath: string := "/comments/comments/"
  const Like: string := "LIKE"
  const Love: string := "LOVE"

  datatype Reaction = Reaction(reaction_type: string)

  /** A comment as the thread shows it; `reactions` may be missing. */
  datatype Comment = Comment(id: int, author: string, text: string, created_at: string, is_edited: bool,
                             reactions: Option<seq<Reaction>>)

  /** The query of the fetch: the object the thread belongs to, top-level comments only. */
  function FetchParams(contentType: string, objectId: int): (ps: seq<(string, string)>)
    ensures |ps| == 3
    ensures ps[0] == ("content_type", contentType)
    ensures ps[1].0 == "object_id" && ParseInt(ps[1].1) == Some(objectId)
    ensures ps[2] == ("top_level", "true")
  {
    IntToStringRoundTrip(objectId);
    [("content_type", contentType), ("object_id", IntToString(objectId)), ("top_level", "true")]
  }

  /** The body of a new comment: the draft exactly as typed, and the object it belongs to. */
  function CommentBody(draft: string, contentType: string, objectId: int): (body: JsonObject)
    ensures body.Keys == {"text", "content_type", "object_id"}
    ensures body["text"] == JStr(draft) && body["content_type"] == JStr(contentType)
    ensures body["object_id"] == JInt(objectId)
  {
    map["text" := JStr(draft), "content_type" := JStr(contentType), "object_id" := JInt(objectId)]
  }

  /** Whether the post button is enabled: not while posting, and not for a blank draft. */
  function CanSubmit(submitting: bool, draft: string): (b: bool)
    ensures b <==> !submitting && !IsBlank(draft)
  {
    TrimEmptyIffBlank(draft);
    !submitting && Trim(draft) != ""
  }

  predicate IsOfType(kind: string, r: Reaction) {
    r.reaction_type == kind
  }

  /** `reactions?.filter(r => r.reaction_type === kind).length || 0`. */
  function ReactionCount(c: Comment, kind: string): (n: nat)
    ensures c.reactions.None? ==> n == 0
    ensures c.reactions.Some? ==> n <= |c.reactions.value|
    ensures c.reactions.Some? ==> n == |Filter(c.reactions.value, r => IsOfType(kind, r))|
  {
    if c.reactions.None? then 0 else |Filter(c.reactions.value, r => IsOfType(kind, r))|
  }

  /** The like and love counts never add up to more reactions than the comment has. */
  lemma LikesAndLovesBounded(c: Comment)
    requires c.reactions.Some?
    ensures ReactionCount(c, Like) + ReactionCount(c, Love) <= |c.reactions.value|
  {
    FilterDisjointLength(c.reactions.value, r => IsOfType(Like, r), r => IsOfType(Love, r));
  }

  /** Appending a reaction of one kind adds one to that count and leaves another kind's count alone. */
  lemma {:induction false} ReactionAdded(c: Comment, kind: string, other: string)
    requires c.reactions.Some? && other != kind
    ensures var c' := c.(reactions := Some(c.reactions.value + [Reaction(kind)]));
      ReactionCount(c', kind) == ReactionCount(c, kind) + 1
      && ReactionCount(c', other) == ReactionCount(c, other)
  {
    var rs := c.reactions.value;
    FilterAppend(rs, [Reaction(kind)], r => IsOfType(kind, r));
    FilterAppend(rs, [Reaction(kind)], r => IsOfType(other, r));
  }

  /** The state of one comment thread, for the object `objectId` of kind `contentType`. */
  class CommentThread {
    const contentType: string
    const objectId: int
    const backend: Backend
    var comments: seq<Comment>
    var draft: string
    var loading: bool
    var submitting: bool

    constructor (contentType: string, objectId: int, backend: Backend)
      ensures this.contentType == contentType && this.objectId == objectId && this.backend == backend
      ensures comments == [] && draft == "" && loading && !submitting
    {
      this.contentType := contentType;
      this.objectId := objectId;
      this.backend := backend;
      comments := [];
      draft := "";
      loading := true;
      submitting := false;
    }

    /** `fetchComments()`: a failure keeps the comments shown; `loading` ends false either way. */
    method FetchComments(reply: Result<ListResponse<Comment>, Failure>)
      modifies this, backend
      ensures backend.calls == old(backend.calls) + [Call(GET, CommentsPath, FetchParams(contentType, objectId), NoBody)]
      ensures reply.Success? ==> comments == Normalize(reply.value)
      ensures reply.Failure? ==> comments == old(comments)
      ensures !loading && draft == old(draft) && submitting == old(submitting)
    {
      backend.Issue(Call(GET, CommentsPath, FetchParams(contentType, objectId), NoBody));
      if reply.Success? {
        comments := Normalize(reply.value);
      }
      loading := false;
    }

    /** The comment text area. */
    method SetDraft(text: string)
      modifies this
      ensures draft == text
      ensures comments == old(comments) && loading == old(loading) && submitting == old(submitting)
    {
      draft := text;
    }

    /**
     * `handleSubmit`: a blank draft changes nothing and sends nothing.
     * Otherwise the draft is posted as typed; success clears it and
     * refetches the thread, failure keeps it. `submitting` ends false.
     */
    method HandleSubmit(reply: Result<JsonObject, Failure>, refetch: Result<ListResponse<Comment>, Failure>)
      modifies this, backend
      ensures IsBlank(old(draft)) ==>
        backend.calls == old(backend.calls) && comments == old(comments) && draft == old(draft)
        && loading == old(loading) && submitting == old(submitting)
      ensures !IsBlank(old(draft)) ==>
        backend.calls == old(backend.calls)
          + [Call(POST, CommentsPath, [], JsonBody(CommentBody(old(draft), contentType, objectId)))]
          + (if reply.Success? then [Call(GET, CommentsPath, FetchParams(contentType, objectId), NoBody)] else [])
        && !submitting
      ensures !IsBlank(old(draft)) && reply.Success? ==>
        draft == "" && !loading && comments == (if refetch.Success? then Normalize(refetch.value) else old(comments))
      ensures !IsBlank(old(draft)) && reply.Failure? ==>
        draft == old(draft) && comments == old(comments) && loading == old(loading)
    {
      TrimEmptyIffBlank(draft);
      if Trim(draft) == "" {
        return;
      }
      submitting := true;
      backend.Issue(Call(POST, CommentsPath, [], JsonBody(CommentBody(draft, contentType, objectId))));
      if reply.Success? {
        draft := "";
        FetchComments(refetch);
      }
      submitting := false;
    }

    /** `handleReact(id, kind)`: posts the reaction and, once accepted, refetches the thread. */
    method HandleReact(commentId: int, kind: string, reply: Result<JsonObject, Failure>,
                       refetch: Result<ListResponse<Comment>, Failure>)
      modifies this, backend
      ensures backend.calls == old(backend.calls)
        + [Call(POST, ActionPath(CommentsPath, commentId, "react"), [], JsonBody(map["reaction_type" := JStr(kind)]))]
        + (if reply.Success? then [Call(GET, CommentsPath, FetchParams(contentType, objectId), NoBody)] else [])
      ensures reply.Success? ==>
        !loading && comments == (if refetch.Success? then Normalize(refetch.value) else old(comments))
      ensures reply.Failure? ==> comments == old(comments) && loading == old(loading)
      ensures draft == old(draft) && submitting == old(submitting)
    {
      backend.Issue(Call(POST, ActionPath(CommentsPath, commentId, "react"), [], JsonBody(map["reaction_type" := JStr(kind)])));
      if reply.Success? {
        FetchComments(refetch);
      }
    }
  }
}
