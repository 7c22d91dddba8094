/** The comment handlers: edit (author only, and only while the comment
    may still be edited), delete (author only), the per-post listing with
    its visibility rule and `sortBy` gate, and creation under a post. */
module CommentsController {
  import opened Text
  import opened Store

  const EditMissing := "Comment does not exist."
  const DeleteMissing := "Comment does not exist"
  const CannotEdit := "You are not authorized to edit this comment."
  const CannotDelete := "You are not authorized to delete this comment."
  const CommentUpdated := "Comment updated successfully"
  const ReportsAdminOnly := "Can Only Filter By Reports if ADMIN"
  const PostMissing := "Post does not exist."

  /** The refusal, if any, of an edit: 404 for a missing comment, else 403
      unless the caller wrote it and it is still editable. */
  function EditAccess(comments: map<int, Comment>, id: int, userId: int): (r: Option<Reply>)
    ensures r.None? <==> id in comments && comments[id].userId == userId && comments[id].canEdit
    ensures r == Some(Reply(404, Message(EditMissing))) <==> id !in comments
    ensures r == Some(Reply(403, Message(CannotEdit))) <==>
              id in comments && (comments[id].userId != userId || !comments[id].canEdit)
  {
    if id !in comments then Some(Reply(404, Message(EditMissing)))
    else if comments[id].userId != userId || !comments[id].canEdit then Some(Reply(403, Message(CannotEdit)))
    else None
  }

  /** The refusal, if any, of a delete: 404 for a missing comment, else 403
      unless the caller wrote it. */
  function DeleteAccess(comments: map<int, Comment>, id: int, userId: int): (r: Option<Reply>)
    ensures r.None? <==> id in comments && comments[id].userId == userId
    ensures r == Some(Reply(404, Message(DeleteMissing))) <==> id !in comments
    ensures r == Some(Reply(403, Message(CannotDelete))) <==> id in comments && comments[id].userId != userId
  {
    if id !in comments then Some(Reply(404, Message(DeleteMissing)))
    else if comments[id].userId != userId then Some(Reply(403, Message(CannotDelete)))
    else None
  }

  /** A comment an administrator has frozen cannot be edited by anyone,
      its author included, but its author can still delete it. */
  lemma FrozenCommentEditRefused(comments: map<int, Comment>, id: int, userId: int)
    requires id in comments && !comments[id].canEdit
    ensures EditAccess(comments, id, userId) == Some(Reply(403, Message(CannotEdit)))
    ensures comments[id].userId == userId ==> DeleteAccess(comments, id, userId).None?
  {
  }

  /** `updateComment`: only the content changes. */
  method UpdateComment(db: Database, caller: Caller, id: int, content: Option<string>) returns (reply: Reply)
    requires db.Valid()
    modifies db`comments
    ensures db.Valid()
    ensures var refusal := EditAccess(old(db.comments), id, caller.userId);
            && (refusal.Some? ==> reply == refusal.value && db.comments == old(db.comments))
            && (refusal.None? ==>
                  var c := old(db.comments)[id];
                  reply == Reply(200, Message(CommentUpdated))
                  && db.comments == old(db.comments)[id := c.(content := Given(content, c.content))])
  {
    if id !in db.comments {
      return Reply(404, Message(EditMissing));
    }
    var c := db.comments[id];
    if c.userId != caller.userId || !c.canEdit {
      return Reply(403, Message(CannotEdit));
    }
    db.comments := db.comments[id := c.(content := Given(content, c.content))];
    return Reply(200, Message(CommentUpdated));
  }

  /** `deleteComment`: exactly that comment goes. */
  method DeleteComment(db: Database, caller: Caller, id: int) returns (reply: Reply)
    requires db.Valid()
    modifies db`comments
    ensures db.Valid()
    ensures var refusal := DeleteAccess(old(db.comments), id, caller.userId);
            && (refusal.Some? ==> reply == refusal.value && db.comments == old(db.comments))
            && (refusal.None? ==> reply == Reply(204, Empty) && db.comments == old(db.comments) - {id})
  {
    if id !in db.comments {
      return Reply(404, Message(DeleteMissing));
    }
    if db.comments[id].userId != caller.userId {
      return Reply(403, Message(CannotDelete));
    }
    db.comments := db.comments - {id};
    return Reply(204, Empty);
  }

  /** The query string of `getComments`. */
  datatype CommentQuery = CommentQuery(sortBy: Option<string>, page: Option<int>, limit: Option<int>, postId: int)

  datatype CommentClause = Shown | HiddenOf(userId: int)

  /** A `where` clause on comments: one `OR` list, and the post when set. */
  datatype CommentWhere = CommentWhere(anyOf: seq<CommentClause>, blogPostId: Option<int>)

  predicate ClauseHolds(k: CommentClause, c: Comment)
  {
    match k
    case Shown => !c.hidden
    case HiddenOf(userId) => c.hidden && c.userId == userId
  }

  predicate WhereHolds(w: CommentWhere, c: Comment)
  {
    && (exists k :: k in w.anyOf && ClauseHolds(k, c))
    && (w.blogPostId.Some? ==> c.blogPostId == w.blogPostId.value)
  }

  /** A comment is shown to a user when it is not hidden or the user wrote it. */
  predicate VisibleTo(c: Comment, userId: int)
  {
    !c.hidden || c.userId == userId
  }

  /** The comments a listing should return: those of the post that the
      caller may see. */
  function SelectedIds(comments: map<int, Comment>, q: CommentQuery, userId: int): set<int>
  {
    set id | id in comments && comments[id].blogPostId == q.postId && VisibleTo(comments[id], userId)
  }

  lemma VisibilityClause(userId: int, c: Comment)
    ensures (exists k :: k in [Shown, HiddenOf(userId)] && ClauseHolds(k, c)) <==> VisibleTo(c, userId)
  {
    if !c.hidden {
      assert Shown in [Shown, HiddenOf(userId)];
    } else if c.userId == userId {
      assert HiddenOf(userId) in [Shown, HiddenOf(userId)];
    }
  }

  /** What the `sortBy` branch of the handler leads to. */
  datatype CommentOrdering = Sorted(order: Order) | SortForbidden | OrderByUndefined

  /** The `sortBy` branch as the handler runs it: the query options start
      without an `orderBy`, so a sort by rating assigns a field of
      `undefined`. */
  function CommentOrderAsWritten(sortBy: Option<string>, role: string): (r: CommentOrdering)
    ensures r == SortForbidden <==> RequestedOrder(sortBy, role).None?
    ensures r == OrderByUndefined <==> RequestedOrder(sortBy, role).Some? && RequestedOrder(sortBy, role).value.ByRating?
    ensures r.Sorted? ==> RequestedOrder(sortBy, role) == Some(r.order)
  {
    if !Present(sortBy) then Sorted(Unordered)
    else if sortBy.value == "reports" then
      if role != Admin then SortForbidden else Sorted(ByReportCount)
    else OrderByUndefined
  }

  /** Every non-empty `sortBy` other than "reports" (the page itself sends
      "recent") makes the handler throw. */
  lemma AsWrittenRatingSortThrows(sortBy: string, role: string)
    requires sortBy != "" && sortBy != "reports"
    ensures CommentOrderAsWritten(Some(sortBy), role) == OrderByUndefined
    ensures RequestedOrder(Some(sortBy), role) == Some(ByRating(sortBy))
  {
  }

  /** On every other `sortBy` the handler agrees with the intended gate. */
  lemma AsWrittenAgreesOtherwise(sortBy: Option<string>, role: string)
    requires !Present(sortBy) || sortBy.value == "reports"
    ensures var r := RequestedOrder(sortBy, role);
            && (r.None? <==> CommentOrderAsWritten(sortBy, role) == SortForbidden)
            && (r.Some? ==> CommentOrderAsWritten(sortBy, role) == Sorted(r.value))
  {
  }

  /** `getComments`, with a sort by rating ordering the listing as
      `getPosts` does; a direction Prisma refuses is an unhandled error. */
  method GetComments(db: Database, caller: Caller, q: CommentQuery) returns (r: ListReply)
    ensures var order := RequestedOrder(q.sortBy, caller.role);
            && (order.None? ==> r == Refused(Reply(403, Message(ReportsAdminOnly))))
            && (order.Some? && order.value.ByRating? && !ValidDirection(order.value.direction) ==>
                  r == Refused(Reply(500, Empty)))
            && (order.Some? && (order.value.ByRating? ==> ValidDirection(order.value.direction)) ==>
                  r == Listed(ListingOf(SelectedIds(db.comments, q, caller.userId), q.page, q.limit)))
  {
    var w := CommentWhere([Shown, HiddenOf(caller.userId)], None);
    var order := Unordered;
    if Present(q.sortBy) {
      if q.sortBy.value == "reports" {
        if caller.role != Admin {
          return Refused(Reply(403, Message(ReportsAdminOnly)));
        }
        order := ByReportCount;
      } else {
        order := ByRating(q.sortBy.value);
      }
    }
    w := w.(blogPostId := Some(q.postId));
    if order.ByRating? && !ValidDirection(order.direction) {
      return Refused(Reply(500, Empty));
    }
    var ids := set id | id in db.comments && WhereHolds(w, db.comments[id]);
    forall id | id in db.comments
      ensures WhereHolds(w, db.comments[id]) <==> db.comments[id].blogPostId == q.postId && VisibleTo(db.comments[id], caller.userId)
    {
      VisibilityClause(caller.userId, db.comments[id]);
    }
    assert ids == SelectedIds(db.comments, q, caller.userId);
    r := Listed(ListingOf(ids, q.page, q.limit));
  }

  /** A listing never shows a user a comment hidden from them, nor one of
      another post. */
  lemma ListedCommentsVisible(comments: map<int, Comment>, q: CommentQuery, userId: int, id: int)
    requires id in SelectedIds(comments, q, userId)
    ensures id in comments && comments[id].blogPostId == q.postId
    ensures !comments[id].hidden || comments[id].userId == userId
  {
  }

  /** The row `createPostComment` inserts: the caller's comment on the
      post, visible, unreported, editable and unrated. */
  function NewComment(content: string, userId: int, postId: int): (c: Comment)
    ensures c.content == content && c.userId == userId && c.blogPostId == postId
    ensures c.rating == 0 && !c.hidden && !c.reported && c.canEdit
  {
    Comment(content, userId, postId, 0, false, false, true)
  }

  /** `createPostComment`. */
  method CreatePostComment(db: Database, caller: Caller, postId: int, content: string) returns (reply: Reply)
    requires db.Valid()
    modifies db`comments, db`nextCommentId
    ensures db.Valid()
    ensures postId !in db.posts ==>
              reply == Reply(404, Message(PostMissing))
              && db.comments == old(db.comments) && db.nextCommentId == old(db.nextCommentId)
    ensures postId in db.posts ==>
              && reply == Reply(201, Record(old(db.nextCommentId)))
              && old(db.nextCommentId) !in old(db.comments)
              && db.comments == old(db.comments)[old(db.nextCommentId) := NewComment(content, caller.userId, postId)]
              && db.nextCommentId == old(db.nextCommentId) + 1
  {
    if postId !in db.posts {
      return Reply(404, Message(PostMissing));
    }
    var id := db.nextCommentId;
    db.comments := db.comments[id := NewComment(content, caller.userId, postId)];
    db.nextCommentId := id + 1;
    return Reply(201, Record(id));
  }
}
