/** The blog-post handlers: edit and delete by the author only (404 before
    403), creation with its required fields, and the listing with its
    filters, visibility rule, `sortBy` gate and page count. */
module PostsController {
  import opened Text
  import opened Store

  const PostMissing := "Post does not exist"
  const NotAuthor := "You are not authorized to perform this task."
  const PostUpdated := "Post updated successfully"
  const MissingFields := "Missing required fields."
  const CreateFailed := "Error creating post."
  const ReportsAdminOnly := "Only ADMIN can filter by reports"
  const FetchFailed := "Failed to fetch posts | "

  /** The refusal, if any, of an author-only operation on post `id`: 404
      when it does not exist, else 403 when the caller did not write it. */
  function PostAccess(posts: map<int, Post>, id: int, userId: int): (r: Option<Reply>)
    ensures r.None? <==> id in posts && posts[id].authorId == userId
    ensures r == Some(Reply(404, Message(PostMissing))) <==> id !in posts
    ensures r == Some(Reply(403, Message(NotAuthor))) <==> id in posts && posts[id].authorId != userId
  {
    if id !in posts then Some(Reply(404, Message(PostMissing)))
    else if posts[id].authorId != userId then Some(Reply(403, Message(NotAuthor)))
    else None
  }

  /** The body of an edit; an absent field (`undefined`) leaves its column
      as it is. */
  datatype PostEdit = PostEdit(title: Option<string>, description: Option<string>, content: Option<string>, tags: Option<seq<string>>)

  /** The post after an edit: the four editable columns take the given
      values and nothing else moves. */
  function Edited(p: Post, e: PostEdit): (q: Post)
    ensures q == p.(title := q.title, description := q.description, content := q.content, tags := q.tags)
    ensures e.title.Some? ==> q.title == e.title.value
    ensures e.description.Some? ==> q.description == e.description.value
    ensures e.content.Some? ==> q.content == e.content.value
    ensures e.tags.Some? ==> q.tags == e.tags.value
    ensures e.title.None? ==> q.title == p.title
    ensures e.description.None? ==> q.description == p.description
    ensures e.content.None? ==> q.content == p.content
    ensures e.tags.None? ==> q.tags == p.tags
  {
    p.(title := Given(e.title, p.title), description := Given(e.description, p.description),
       content := Given(e.content, p.content), tags := Given(e.tags, p.tags))
  }

  /** Sending the same edit twice changes nothing the second time. */
  lemma EditIdempotent(p: Post, e: PostEdit)
    ensures Edited(Edited(p, e), e) == Edited(p, e)
  {
  }

  /** An edit with no fields leaves the post as it is. */
  lemma EmptyEditKeepsPost(p: Post)
    ensures Edited(p, PostEdit(None, None, None, None)) == p
  {
  }

  /** `updatePost`. */
  method UpdatePost(db: Database, caller: Caller, id: int, edit: PostEdit) returns (reply: Reply)
    requires db.Valid()
    modifies db`posts
    ensures db.Valid()
    ensures var refusal := PostAccess(old(db.posts), id, caller.userId);
            && (refusal.Some? ==> reply == refusal.value && db.posts == old(db.posts))
            && (refusal.None? ==> reply == Reply(200, Message(PostUpdated))
                                  && db.posts == old(db.posts)[id := Edited(old(db.posts)[id], edit)])
  {
    if id !in db.posts {
      return Reply(404, Message(PostMissing));
    }
    if db.posts[id].authorId != caller.userId {
      return Reply(403, Message(NotAuthor));
    }
    db.posts := db.posts[id := Edited(db.posts[id], edit)];
    return Reply(200, Message(PostUpdated));
  }

  /** `deletePost`: the same checks, then exactly that post goes. */
  method DeletePost(db: Database, caller: Caller, id: int) returns (reply: Reply)
    requires db.Valid()
    modifies db`posts
    ensures db.Valid()
    ensures var refusal := PostAccess(old(db.posts), id, caller.userId);
            && (refusal.Some? ==> reply == refusal.value && db.posts == old(db.posts))
            && (refusal.None? ==> reply == Reply(204, Empty) && db.posts == old(db.posts) - {id})
  {
    if id !in db.posts {
      return Reply(404, Message(PostMissing));
    }
    if db.posts[id].authorId != caller.userId {
      return Reply(403, Message(NotAuthor));
    }
    db.posts := db.posts - {id};
    return Reply(204, Empty);
  }

  /** The body of `createPost`. */
  datatype PostDraft = PostDraft(title: Option<string>, description: Option<string>, content: Option<string>,
                                 tags: Option<seq<string>>, rating: Option<int>)

  /** `!title || !description || !content || !authorId`. */
  predicate MissingRequired(d: PostDraft, authorId: int)
  {
    !Present(d.title) || !Present(d.description) || !Present(d.content) || authorId == 0
  }

  /** The row `createPost` inserts; an absent rating or tag list takes the
      column default (0 and the empty list), and a new post is visible,
      unreported and editable. */
  function NewPost(d: PostDraft, authorId: int): (p: Post)
    requires !MissingRequired(d, authorId)
    ensures p.title == d.title.value && p.description == d.description.value && p.content == d.content.value
    ensures p.authorId == authorId && p.authorId != 0
    ensures p.tags == Given(d.tags, []) && p.rating == Given(d.rating, 0)
    ensures !p.hidden && !p.reported && p.canEdit
  {
    Post(d.title.value, d.description.value, d.content.value, Given(d.tags, []), authorId,
         Given(d.rating, 0), false, false, true)
  }

  /** `createPost`; `accepted` is whether the database takes the row. */
  method CreatePost(db: Database, caller: Caller, d: PostDraft, accepted: bool) returns (reply: Reply)
    requires db.Valid()
    modifies db`posts, db`nextPostId
    ensures db.Valid()
    ensures MissingRequired(d, caller.userId) ==>
              reply == Reply(400, Message(MissingFields)) && db.posts == old(db.posts) && db.nextPostId == old(db.nextPostId)
    ensures !MissingRequired(d, caller.userId) && !accepted ==>
              reply == Reply(500, Message(CreateFailed)) && db.posts == old(db.posts) && db.nextPostId == old(db.nextPostId)
    ensures !MissingRequired(d, caller.userId) && accepted ==>
              && reply == Reply(201, Record(old(db.nextPostId)))
              && old(db.nextPostId) !in old(db.posts)
              && db.posts == old(db.posts)[old(db.nextPostId) := NewPost(d, caller.userId)]
              && db.nextPostId == old(db.nextPostId) + 1
  {
    if MissingRequired(d, caller.userId) {
      return Reply(400, Message(MissingFields));
    }
    if !accepted {
      return Reply(500, Message(CreateFailed));
    }
    var id := db.nextPostId;
    db.posts := db.posts[id := NewPost(d, caller.userId)];
    db.nextPostId := id + 1;
    return Reply(201, Record(id));
  }

  /** The query string of `getPosts`; an absent parameter is `None`. */
  datatype PostQuery = PostQuery(
    title: Option<string>, tags: Option<string>, content: Option<string>,
    page: Option<int>, limit: Option<int>, ownedByUser: Option<string>, sortBy: Option<string>)

  /** The conditions a `where` clause on posts is built from. */
  datatype PostClause = DescriptionHas(text: string) | ContentHas(text: string) | NotHidden | HiddenOf(authorId: int)

  /** A `where` clause on posts: each present field must hold, and each
      group (one `OR` list) must have a clause that holds. */
  datatype PostWhere = PostWhere(title: Option<string>, tagsAny: Option<seq<string>>, authorId: Option<int>,
                                 groups: seq<seq<PostClause>>)

  predicate ClauseHolds(c: PostClause, p: Post)
  {
    match c
    case DescriptionHas(text) => Contains(p.description, text)
    case ContentHas(text) => Contains(p.content, text)
    case NotHidden => !p.hidden
    case HiddenOf(authorId) => p.hidden && p.authorId == authorId
  }

  predicate AnyHolds(group: seq<PostClause>, p: Post)
  {
    exists c :: c in group && ClauseHolds(c, p)
  }

  predicate WhereHolds(w: PostWhere, p: Post)
  {
    && (w.title.Some? ==> Contains(p.title, w.title.value))
    && (w.tagsAny.Some? ==> exists t :: t in w.tagsAny.value && t in p.tags)
    && (w.authorId.Some? ==> p.authorId == w.authorId.value)
    && forall g :: g in w.groups ==> AnyHolds(g, p)
  }

  /** A post is shown to a user when it is not hidden or the user wrote it. */
  predicate VisibleTo(p: Post, userId: int)
  {
    !p.hidden || p.authorId == userId
  }

  /** The search term occurs in the description or the body. */
  predicate ContentMatches(p: Post, text: string)
  {
    Contains(p.description, text) || Contains(p.content, text)
  }

  /** The title, tag and owner filters: a substring of the title, one tag
      in common with the comma-separated list, and the caller as author
      only for `ownedByUser=true` with a user id. */
  predicate MatchesFilters(q: PostQuery, userId: int, p: Post)
  {
    && (Present(q.title) ==> Contains(p.title, q.title.value))
    && (Present(q.tags) ==> exists t :: t in Split(q.tags.value, ',') && t in p.tags)
    && (q.ownedByUser == Some("true") && userId != 0 ==> p.authorId == userId)
  }

  /** The posts a listing should return: the filters, the search term, and
      visibility, all three. */
  predicate Selected(q: PostQuery, userId: int, p: Post)
  {
    && MatchesFilters(q, userId, p)
    && (Present(q.content) ==> ContentMatches(p, q.content.value))
    && VisibleTo(p, userId)
  }

  /** The ids of the posts a listing should return. */
  function SelectedIds(posts: map<int, Post>, q: PostQuery, userId: int): set<int>
  {
    set id | id in posts && Selected(q, userId, posts[id])
  }

  lemma AnyOfTwo(a: PostClause, b: PostClause, p: Post)
    ensures AnyHolds([a, b], p) <==> ClauseHolds(a, p) || ClauseHolds(b, p)
  {
    if ClauseHolds(a, p) {
      assert a in [a, b];
    } else if ClauseHolds(b, p) {
      assert b in [a, b];
    }
  }

  lemma AnyOfFour(a: PostClause, b: PostClause, c: PostClause, d: PostClause, p: Post)
    ensures AnyHolds([a, b, c, d], p) <==> ClauseHolds(a, p) || ClauseHolds(b, p) || ClauseHolds(c, p) || ClauseHolds(d, p)
  {
    var g := [a, b, c, d];
    if ClauseHolds(a, p) {
      assert g[0] == a;
    } else if ClauseHolds(b, p) {
      assert g[1] == b;
    } else if ClauseHolds(c, p) {
      assert g[2] == c;
    } else if ClauseHolds(d, p) {
      assert g[3] == d;
    }
  }

  /** The visibility group selects exactly the posts the user may see. */
  lemma VisibilityGroup(userId: int, p: Post)
    ensures AnyHolds([NotHidden, HiddenOf(userId)], p) <==> VisibleTo(p, userId)
  {
    AnyOfTwo(NotHidden, HiddenOf(userId), p);
  }

  /** The `where` clause of `getPosts`, built field by field, with the
      search term in a group of its own beside the visibility group. */
  method PostFilter(q: PostQuery, userId: int) returns (w: PostWhere)
    ensures forall p :: WhereHolds(w, p) <==> Selected(q, userId, p)
  {
    w := PostWhere(None, None, None, []);
    if Present(q.title) {
      w := w.(title := q.title);
    }
    if Present(q.tags) {
      w := w.(tagsAny := Some(Split(q.tags.value, ',')));
    }
    if Present(q.content) {
      w := w.(groups := [[DescriptionHas(q.content.value), ContentHas(q.content.value)]]);
    }
    if q.ownedByUser == Some("true") && userId != 0 {
      w := w.(authorId := Some(userId));
    }
    w := w.(groups := w.groups + [[NotHidden, HiddenOf(userId)]]);
    forall p
      ensures WhereHolds(w, p) <==> Selected(q, userId, p)
    {
      VisibilityGroup(userId, p);
      if Present(q.content) {
        AnyOfTwo(DescriptionHas(q.content.value), ContentHas(q.content.value), p);
      }
    }
  }

  /** The clause as the handler builds it: the search term's two
      conditions go into the same `OR` list as the visibility conditions. */
  function PostFilterAsWritten(q: PostQuery, userId: int): (w: PostWhere)
    ensures |w.groups| == 1
    ensures NotHidden in w.groups[0] && HiddenOf(userId) in w.groups[0]
    ensures Present(q.content) ==> DescriptionHas(q.content.value) in w.groups[0] && ContentHas(q.content.value) in w.groups[0]
    ensures w.authorId.Some? <==> q.ownedByUser == Some("true") && userId != 0
  {
    var content := if Present(q.content) then [DescriptionHas(q.content.value), ContentHas(q.content.value)] else [];
    PostWhere(
      if Present(q.title) then q.title else None,
      if Present(q.tags) then Some(Split(q.tags.value, ',')) else None,
      if q.ownedByUser == Some("true") && userId != 0 then Some(userId) else None,
      [content + [NotHidden, HiddenOf(userId)]])
  }

  /** As written, a post passes when the filters hold and it either matches
      the search term or is visible: the term widens the visibility rule
      instead of narrowing the result. */
  lemma AsWrittenSelects(q: PostQuery, userId: int, p: Post)
    ensures WhereHolds(PostFilterAsWritten(q, userId), p)
            <==> MatchesFilters(q, userId, p)
                 && ((Present(q.content) && ContentMatches(p, q.content.value)) || VisibleTo(p, userId))
  {
    var w := PostFilterAsWritten(q, userId);
    assert w.groups == [w.groups[0]];
    if Present(q.content) {
      var t := q.content.value;
      assert w.groups[0] == [DescriptionHas(t), ContentHas(t), NotHidden, HiddenOf(userId)];
      AnyOfFour(DescriptionHas(t), ContentHas(t), NotHidden, HiddenOf(userId), p);
    } else {
      assert w.groups[0] == [NotHidden, HiddenOf(userId)];
      VisibilityGroup(userId, p);
    }
  }

  /** Without a search term the handler's clause selects exactly the
      intended posts. */
  lemma AsWrittenWithoutContent(q: PostQuery, userId: int, p: Post)
    requires !Present(q.content)
    ensures WhereHolds(PostFilterAsWritten(q, userId), p) <==> Selected(q, userId, p)
  {
    AsWrittenSelects(q, userId, p);
  }

  /** User 1 searching for "x" is shown a post that user 2 wrote and that
      is hidden. */
  lemma AsWrittenShowsHiddenPost()
    ensures var q := PostQuery(None, None, Some("x"), None, None, None, None);
            var p := Post("t", "d", "x", [], 2, 0, true, true, false);
            WhereHolds(PostFilterAsWritten(q, 1), p) && !VisibleTo(p, 1) && !Selected(q, 1, p)
  {
    var q := PostQuery(None, None, Some("x"), None, None, None, None);
    var p := Post("t", "d", "x", [], 2, 0, true, true, false);
    assert OccursAt(p.content, "x", 0);
    AsWrittenSelects(q, 1, p);
  }

  /** Whatever the filters, a listing shows a user no post hidden from them. */
  lemma SelectedHidesOthersHiddenPosts(q: PostQuery, userId: int, p: Post)
    requires p.hidden && p.authorId != userId
    ensures !Selected(q, userId, p)
  {
  }

  /** The owner filter has no effect unless `ownedByUser` is exactly
      "true" and the caller has a user id. */
  lemma OwnerFilterNeedsTrue(q: PostQuery, userId: int, p: Post)
    requires q.ownedByUser != Some("true") || userId == 0
    ensures Selected(q, userId, p) <==> Selected(q.(ownedByUser := None), userId, p)
  {
  }

  /** `getPosts`; `dbError` is the message Prisma gives for a sort
      direction it does not accept. */
  method GetPosts(db: Database, caller: Caller, q: PostQuery, dbError: string) returns (r: ListReply)
    ensures var order := RequestedOrder(q.sortBy, caller.role);
            && (order.None? ==> r == Refused(Reply(403, Message(ReportsAdminOnly))))
            && (order.Some? && order.value.ByRating? && !ValidDirection(order.value.direction) ==>
                  r == Refused(Reply(500, Message(FetchFailed + dbError))))
            && (order.Some? && (order.value.ByRating? ==> ValidDirection(order.value.direction)) ==>
                  r == Listed(ListingOf(SelectedIds(db.posts, q, caller.userId), q.page, q.limit)))
  {
    var w := PostFilter(q, caller.userId);
    var order := Unordered;
    if Present(q.sortBy) {
      if q.sortBy.value == "reports" {
        if caller.role != Admin {
          return Refused(Reply(403, Message(ReportsAdminOnly)));
        }
        order := ByReportCount;
      } else {
        order := ByRating(q.sortBy.value);
      }
    }
    if order.ByRating? && !ValidDirection(order.direction) {
      return Refused(Reply(500, Message(FetchFailed + dbError)));
    }
    var ids := set id | id in db.posts && WhereHolds(w, db.posts[id]);
    assert ids == SelectedIds(db.posts, q, caller.userId);
    r := Listed(ListingOf(ids, q.page, q.limit));
  }
}
