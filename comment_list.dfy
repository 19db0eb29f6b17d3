/**
 * The comment thread of a post (src/components/post/CommentList.tsx): the
 * recursive rendering of each comment followed by its replies, the reply
 * form of each comment, and the form for a new top-level comment.
 */
module CommentList {
  import opened Types
  import opened JsText
  import opened AuthForms

  /** One rendered `CommentItem`: the comment, the post id it was given and
      how many reply blocks it sits in. */
  datatype Item = Item(comment: Comment, postId: string, depth: nat)

  /** `comment.replies && comment.replies.length > 0 && ...`: an absent and
      an empty list of replies both give no nested block. */
  function RepliesOf(c: Comment): seq<Comment> {
    if c.replies.Replies? then c.replies.list else []
  }

  /** A `CommentItem`: the comment itself, then each reply rendered one level
      deeper with the same post id. */
  function RenderItem(c: Comment, postId: string, depth: nat): seq<Item>
    decreases c, 1
  {
    [Item(c, postId, depth)] + (if c.replies.Replies? then RenderList(c.replies.list, postId, depth + 1) else [])
  }

  /** `comments.map(comment => <CommentItem ... />)`. */
  function RenderList(cs: seq<Comment>, postId: string, depth: nat): seq<Item>
    decreases cs, 0
  {
    if cs == [] then [] else RenderItem(cs[0], postId, depth) + RenderList(cs[1..], postId, depth)
  }

  /** The number of comments in a tree, the comment itself included. */
  function Size(c: Comment): nat
    decreases c, 1
  {
    1 + (if c.replies.Replies? then SizeList(c.replies.list) else 0)
  }

  function SizeList(cs: seq<Comment>): nat
    decreases cs, 0
  {
    if cs == [] then 0 else Size(cs[0]) + SizeList(cs[1..])
  }

  /** Pre-order: a comment comes first in its block, followed by the blocks
      of its replies; a comment without replies is a block of one. */
  lemma PreOrder(c: Comment, postId: string, depth: nat)
    ensures RenderItem(c, postId, depth)[0] == Item(c, postId, depth)
    ensures RenderItem(c, postId, depth)[1..] == RenderList(RepliesOf(c), postId, depth + 1)
    ensures c.replies == NoReplies || c.replies == Replies([]) ==> RenderItem(c, postId, depth) == [Item(c, postId, depth)]
  {
  }

  /** A tree renders as many items as it has comments, each with the post
      id passed down and at least the depth of its block. */
  lemma {:induction false} ItemFacts(c: Comment, postId: string, depth: nat)
    ensures |RenderItem(c, postId, depth)| == Size(c)
    ensures forall i :: 0 <= i < |RenderItem(c, postId, depth)| ==>
      RenderItem(c, postId, depth)[i].postId == postId && RenderItem(c, postId, depth)[i].depth >= depth
    decreases c, 1
  {
    if c.replies.Replies? {
      ListFacts(c.replies.list, postId, depth + 1);
    }
  }

  lemma {:induction false} ListFacts(cs: seq<Comment>, postId: string, depth: nat)
    ensures |RenderList(cs, postId, depth)| == SizeList(cs)
    ensures forall i :: 0 <= i < |RenderList(cs, postId, depth)| ==>
      RenderList(cs, postId, depth)[i].postId == postId && RenderList(cs, postId, depth)[i].depth >= depth
    decreases cs, 0
  {
    if cs != [] {
      ItemFacts(cs[0], postId, depth);
      ListFacts(cs[1..], postId, depth);
    }
  }

  /** The comments of a tree in pre-order: the comment, then the trees of
      its replies in their order. */
  function Flatten(c: Comment): seq<Comment>
    decreases c, 1
  {
    [c] + (if c.replies.Replies? then FlattenList(c.replies.list) else [])
  }

  function FlattenList(cs: seq<Comment>): seq<Comment>
    decreases cs, 0
  {
    if cs == [] then [] else Flatten(cs[0]) + FlattenList(cs[1..])
  }

  /** The comments the items show, in order. */
  function Comments(items: seq<Item>): (r: seq<Comment>)
    ensures |r| == |items|
    ensures forall i :: 0 <= i < |items| ==> r[i] == items[i].comment
  {
    seq(|items|, i requires 0 <= i < |items| => items[i].comment)
  }

  lemma CommentsAppend(a: seq<Item>, b: seq<Item>)
    ensures Comments(a + b) == Comments(a) + Comments(b)
  {
    assert forall i :: 0 <= i < |a + b| ==> (a + b)[i] == if i < |a| then a[i] else b[i - |a|];
  }

  /** The rendered thread shows every comment of the tree exactly once, in
      pre-order: the comments of the items are the tree flattened. */
  lemma {:induction false} ItemComments(c: Comment, postId: string, depth: nat)
    ensures Comments(RenderItem(c, postId, depth)) == Flatten(c)
    decreases c, 1
  {
    var nested := if c.replies.Replies? then RenderList(c.replies.list, postId, depth + 1) else [];
    if c.replies.Replies? {
      ListComments(c.replies.list, postId, depth + 1);
    }
    CommentsAppend([Item(c, postId, depth)], nested);
  }

  lemma {:induction false} ListComments(cs: seq<Comment>, postId: string, depth: nat)
    ensures Comments(RenderList(cs, postId, depth)) == FlattenList(cs)
    decreases cs, 0
  {
    if cs != [] {
      ItemComments(cs[0], postId, depth);
      ListComments(cs[1..], postId, depth);
      CommentsAppend(RenderItem(cs[0], postId, depth), RenderList(cs[1..], postId, depth));
    }
  }

  /** The items of a list at exactly depth `d`, in order. */
  function AtDepth(items: seq<Item>, d: nat): seq<Comment> {
    if items == [] then []
    else (if items[0].depth == d then [items[0].comment] else []) + AtDepth(items[1..], d)
  }

  lemma {:induction false} AtDepthAppend(a: seq<Item>, b: seq<Item>, d: nat)
    ensures AtDepth(a + b, d) == AtDepth(a, d) + AtDepth(b, d)
  {
    if a != [] {
      AtDepthAppend(a[1..], b, d);
      assert (a + b)[0] == a[0];
      assert (a + b)[1..] == a[1..] + b;
    } else {
      assert a + b == b;
    }
  }

  lemma {:induction false} AtDepthDeeper(items: seq<Item>, d: nat)
    requires forall i :: 0 <= i < |items| ==> items[i].depth > d
    ensures AtDepth(items, d) == []
  {
    if items != [] {
      AtDepthDeeper(items[1..], d);
    }
  }

  /** The comments shown at the top level of a block are exactly the
      block's comments, in their order: replies only appear nested. */
  lemma {:induction false} TopLevelInOrder(cs: seq<Comment>, postId: string, d: nat)
    ensures AtDepth(RenderList(cs, postId, d), d) == cs
    decreases |cs|
  {
    if cs != [] {
      var head := RenderItem(cs[0], postId, d);
      var nested := RenderList(RepliesOf(cs[0]), postId, d + 1);
      ListFacts(RepliesOf(cs[0]), postId, d + 1);
      AtDepthDeeper(nested, d);
      AtDepthAppend([Item(cs[0], postId, d)], nested, d);
      assert AtDepth([Item(cs[0], postId, d)], d) == [cs[0]];
      TopLevelInOrder(cs[1..], postId, d);
      AtDepthAppend(head, RenderList(cs[1..], postId, d), d);
    }
  }

  const EmptyMessage := "No comments yet. Be the first to comment!"
  const CommentFailedMessage := "Failed to create comment. Please try again."

  /** The comment list below the form: the placeholder text, or the items. */
  datatype ListView = Placeholder(text: string) | Items(items: seq<Item>)

  /** `comments = commentsData || []`, then the placeholder for an empty list
      and the rendered top-level comments otherwise. */
  function View(commentsData: Option<seq<Comment>>, postId: string): (v: ListView)
    ensures v.Placeholder? <==> commentsData.None? || commentsData.value == []
    ensures v.Placeholder? ==> v.text == EmptyMessage
    ensures v.Items? ==> AtDepth(v.items, 0) == commentsData.value
    ensures v.Items? ==> v.items == RenderList(commentsData.value, postId, 0)
  {
    var comments := if commentsData.Some? then commentsData.value else [];
    if |comments| == 0 then Placeholder(EmptyMessage)
    else
      TopLevelInOrder(comments, postId, 0);
      Items(RenderList(comments, postId, 0))
  }

  /** The guard and request shared by both forms: blank text or no signed-in
      user sends nothing; otherwise the trimmed text is sent for the post,
      with the given parent. */
  function Submission(text: string, user: Option<User>, postId: string, parent: Option<string>)
    : (r: Option<CreateCommentRequest>)
    ensures r.None? <==> IsBlank(text) || user.None?
    ensures r.Some? ==> r.value == CreateCommentRequest(Trim(text), postId, parent)
    ensures r.Some? ==> r.value.content != ""
  {
    if IsBlank(text) || user.None? then None
    else Some(CreateCommentRequest(content := Trim(text), postId := postId, parentCommentId := parent))
  }

  /** The reply state of one `CommentItem`. */
  class ReplyForm {
    var showReplyForm: bool
    var replyContent: string

    constructor ()
      ensures !showReplyForm && replyContent == ""
    {
      showReplyForm, replyContent := false, "";
    }

    /** The Reply button opens and closes the form. */
    method Toggle()
      modifies this`showReplyForm
      ensures showReplyForm == !old(showReplyForm)
    {
      showReplyForm := !showReplyForm;
    }

    method Edit(value: string)
      modifies this`replyContent
      ensures replyContent == value
    {
      replyContent := value;
    }

    /** Cancel closes the form and drops the text. */
    method Cancel()
      modifies this
      ensures !showReplyForm && replyContent == ""
    {
      showReplyForm := false;
      replyContent := "";
    }

    /** `handleReplySubmit`: a reply is sent for the post passed down, with
        the replied-to comment as parent. Success clears the text and closes
        the form; a refused or failed reply changes nothing. */
    method Submit(comment: Comment, postId: string, user: Option<User>, succeeded: bool)
      returns (request: Option<CreateCommentRequest>)
      modifies this
      ensures request == Submission(old(replyContent), user, postId, Some(comment.id))
      ensures request.Some? && succeeded ==> replyContent == "" && !showReplyForm
      ensures !(request.Some? && succeeded) ==>
        replyContent == old(replyContent) && showReplyForm == old(showReplyForm)
    {
      if IsBlank(replyContent) || user.None? {
        return None;
      }
      request := Some(CreateCommentRequest(Trim(replyContent), postId, Some(comment.id)));
      if succeeded {
        replyContent := "";
        showReplyForm := false;
      }
    }
  }

  /** `disabled={!text.trim() || isCreating}`, for both forms. */
  predicate SubmitDisabled(text: string, isCreating: bool) {
    IsBlank(text) || isCreating
  }

  /** For a signed-in user either button is enabled exactly when nothing is
      being sent and the text would be sent; without a user the button can
      be enabled while the submission is refused. */
  lemma EnabledIffSubmits(text: string, isCreating: bool, user: Option<User>, postId: string, parent: Option<string>)
    ensures user.Some? ==>
      (!SubmitDisabled(text, isCreating) <==> !isCreating && Submission(text, user, postId, parent).Some?)
    ensures user.None? ==> Submission(text, user, postId, parent).None?
  {
  }

  /** The new-comment form of `CommentList`. */
  class NewCommentForm {
    var newComment: string
    var error: string

    constructor ()
      ensures newComment == "" && error == ""
    {
      newComment, error := "", "";
    }

    /** The text field's `onChange`: the text changes and the message goes. */
    method Edit(value: string)
      modifies this
      ensures newComment == value && error == ""
    {
      newComment := value;
      if error != "" {
        error := "";
      }
    }

    /** `handleSubmitComment`: a top-level comment has no parent. Success
        clears text and message; failure keeps the text and shows the
        server's message or the fallback; a refused comment changes nothing. */
    method Submit(postId: string, user: Option<User>, outcome: Option<ApiError>)
      returns (request: Option<CreateCommentRequest>)
      modifies this
      ensures request == Submission(old(newComment), user, postId, None)
      ensures request.None? ==> newComment == old(newComment) && error == old(error)
      ensures request.Some? && outcome.None? ==> newComment == "" && error == ""
      ensures request.Some? && outcome.Some? ==>
        newComment == old(newComment) && error == DataMessageOr(outcome.value, CommentFailedMessage)
    {
      if IsBlank(newComment) || user.None? {
        return None;
      }
      request := Some(CreateCommentRequest(Trim(newComment), postId, None));
      if outcome.None? {
        newComment := "";
        error := "";
      } else {
        error := DataMessageOr(outcome.value, CommentFailedMessage);
      }
    }
  }
}
