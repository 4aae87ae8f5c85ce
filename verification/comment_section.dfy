/**
 * The comment widget of a game page. Its React state (`comments`,
 * `newComment`, `isSubmitting`) is the state of a `CommentSection` object.
 * Posting is two steps, as in the component: the click handler checks the
 * input and raises `isSubmitting`; the delayed callback installs the new
 * list. The callback works from the values its closure captured at the
 * click, which `PendingPost` carries.
 */
module CommentSection {
  import opened Wrappers
  import opened Text
  import opened GameService

  const GuestName: string := "Guest User"

  /** The comment a guest posts; `id` and `date` come from the clock. */
  function GuestComment(id: string, content: string, date: string): (c: Comment)
    ensures c.id == id && c.content == content && c.date == date
    ensures c.userName == GuestName && c.likes == 0 && c.dislikes == 0
  {
    Comment(id, GuestName, None, content, date, 0, 0, None)
  }

  /** `comments.map(c => c.id === commentId ? {...c, likes: c.likes + 1} : c)` */
  function AddLike(cs: seq<Comment>, commentId: string): (r: seq<Comment>)
    ensures |r| == |cs|
    ensures forall i :: 0 <= i < |cs| ==> r[i].likes == cs[i].likes + (if cs[i].id == commentId then 1 else 0)
    ensures forall i :: 0 <= i < |cs| ==> r[i].(likes := cs[i].likes) == cs[i]
  {
    if cs == [] then []
    else
      var c := cs[0];
      var rest := AddLike(cs[1..], commentId);
      var r := [if c.id == commentId then c.(likes := c.likes + 1) else c] + rest;
      assert forall i :: 1 <= i < |cs| ==> r[i] == rest[i - 1] && cs[i] == cs[1..][i - 1];
      r
  }

  /** `comments.map(c => c.id === commentId ? {...c, dislikes: c.dislikes + 1} : c)` */
  function AddDislike(cs: seq<Comment>, commentId: string): (r: seq<Comment>)
    ensures |r| == |cs|
    ensures forall i :: 0 <= i < |cs| ==> r[i].dislikes == cs[i].dislikes + (if cs[i].id == commentId then 1 else 0)
    ensures forall i :: 0 <= i < |cs| ==> r[i].(dislikes := cs[i].dislikes) == cs[i]
  {
    if cs == [] then []
    else
      var c := cs[0];
      var rest := AddDislike(cs[1..], commentId);
      var r := [if c.id == commentId then c.(dislikes := c.dislikes + 1) else c] + rest;
      assert forall i :: 1 <= i < |cs| ==> r[i] == rest[i - 1] && cs[i] == cs[1..][i - 1];
      r
  }

  /** Liking or disliking a comment id that is not in the list changes nothing. */
  lemma UnknownIdChangesNothing(cs: seq<Comment>, commentId: string)
    requires forall i :: 0 <= i < |cs| ==> cs[i].id != commentId
    ensures AddLike(cs, commentId) == cs && AddDislike(cs, commentId) == cs
  {
    var l, d := AddLike(cs, commentId), AddDislike(cs, commentId);
    assert forall i :: 0 <= i < |cs| ==> l[i] == l[i].(likes := cs[i].likes);
    assert forall i :: 0 <= i < |cs| ==> d[i] == d[i].(dislikes := cs[i].dislikes);
  }

  /** A like and a dislike touch different counters, so their order does not matter. */
  lemma {:induction false} LikeDislikeCommute(cs: seq<Comment>, a: string, b: string)
    ensures AddDislike(AddLike(cs, a), b) == AddLike(AddDislike(cs, b), a)
  {
    if cs != [] {
      LikeDislikeCommute(cs[1..], a, b);
      var l := AddLike(cs, a);
      var d := AddDislike(cs, b);
      assert l[1..] == AddLike(cs[1..], a);
      assert d[1..] == AddDislike(cs[1..], b);
      assert AddDislike(l, b)[1..] == AddDislike(l[1..], b);
      assert AddLike(d, a)[1..] == AddLike(d[1..], a);
    }
  }

  /** The `disabled` state of the post button: posting, or nothing but white space typed. */
  function PostButtonDisabled(isSubmitting: bool, newComment: string): (disabled: bool)
    ensures !disabled <==> !isSubmitting && exists i :: 0 <= i < |newComment| && !IsWhiteSpace(newComment[i])
  {
    BlankIffAllWhiteSpace(newComment);
    isSubmitting || IsBlank(newComment)
  }

  /** What the delayed callback of a click captured: the text and the list at that moment. */
  datatype PendingPost = PendingPost(content: string, snapshot: seq<Comment>)

  class CommentSection {
    var comments: seq<Comment>
    var newComment: string
    var isSubmitting: bool

    constructor(initialComments: seq<Comment>)
      ensures comments == initialComments && newComment == "" && !isSubmitting
    {
      comments := initialComments;
      newComment := "";
      isSubmitting := false;
    }

    /** The text area's `onChange`. */
    method Edit(text: string)
      modifies this
      ensures newComment == text
      ensures comments == old(comments) && isSubmitting == old(isSubmitting)
    {
      newComment := text;
    }

    /** `handleSubmitComment` up to the timer: blank input is ignored, otherwise posting starts. */
    method Submit() returns (pending: Option<PendingPost>)
      modifies this
      ensures comments == old(comments) && newComment == old(newComment)
      ensures IsBlank(old(newComment)) ==> pending.None? && isSubmitting == old(isSubmitting)
      ensures !IsBlank(old(newComment)) ==> isSubmitting && pending == Some(PendingPost(old(newComment), old(comments)))
    {
      if IsBlank(newComment) {
        return None;
      }
      isSubmitting := true;
      pending := Some(PendingPost(newComment, comments));
    }

    /** The timer callback: the guest comment goes in front of the captured list, and the form resets. */
    method FinishSubmit(p: PendingPost, id: string, date: string)
      modifies this
      ensures comments == [GuestComment(id, p.content, date)] + p.snapshot
      ensures newComment == "" && !isSubmitting
    {
      comments := [GuestComment(id, p.content, date)] + p.snapshot;
      newComment := "";
      isSubmitting := false;
    }

    /** `handleLike` */
    method Like(commentId: string)
      modifies this
      ensures comments == AddLike(old(comments), commentId)
      ensures newComment == old(newComment) && isSubmitting == old(isSubmitting)
    {
      comments := AddLike(comments, commentId);
    }

    /** `handleDislike` */
    method Dislike(commentId: string)
      modifies this
      ensures comments == AddDislike(old(comments), commentId)
      ensures newComment == old(newComment) && isSubmitting == old(isSubmitting)
    {
      comments := AddDislike(comments, commentId);
    }
  }

  /**
   * A whole post with nothing in between: the guest comment, holding the
   * text as typed (not trimmed), lands in front of the list as it was.
   */
  method PostComment(section: CommentSection, id: string, date: string)
    modifies section
    ensures IsBlank(old(section.newComment)) ==>
      section.comments == old(section.comments)
      && section.newComment == old(section.newComment) && section.isSubmitting == old(section.isSubmitting)
    ensures !IsBlank(old(section.newComment)) ==>
      section.comments == [GuestComment(id, old(section.newComment), date)] + old(section.comments)
      && section.newComment == "" && !section.isSubmitting
  {
    var pending := section.Submit();
    if pending.Some? {
      section.FinishSubmit(pending.value, id, date);
    }
  }
}
