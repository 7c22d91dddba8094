/** The moderation handlers: filing a report on a comment or a post, the
    administrators' list of reports, and acting on a report by hiding and
    freezing its target. */
module ReportController {
  import opened Text
  import opened Store
  import CommentsController
  import PostsController

  const InvalidItemType := "Invalid item type"
  const Unauthorized := "Unauthorized access"
  const ReportMissing := "Report not found"
  const CommentHidden := "Comment reported and hidden"
  const PostHidden := "Blog post reported and hidden"
  const InvalidHandling := "Invalid item type or missing report details"

  /** The row `reportItem` files: a comment report carries only the comment
      id and a post report only the post id; any other item type files
      nothing. */
  function NewReport(itemType: string, reason: string, userId: int, commentId: Option<int>, blogPostId: Option<int>): (r: Option<Report>)
    ensures r.Some? <==> itemType == "COMMENT" || itemType == "POST"
    ensures r.Some? ==> r.value.reason == reason && r.value.userId == userId
    ensures itemType == "COMMENT" ==> r.value.commentId == commentId && r.value.blogPostId.None?
    ensures itemType == "POST" ==> r.value.blogPostId == blogPostId && r.value.commentId.None?
  {
    if itemType == "COMMENT" then Some(Report(reason, userId, commentId, None))
    else if itemType == "POST" then Some(Report(reason, userId, None, blogPostId))
    else None
  }

  /** `reportItem`. */
  method ReportItem(db: Database, caller: Caller, itemType: string, reason: string,
                    commentId: Option<int>, blogPostId: Option<int>) returns (reply: Reply)
    requires db.Valid()
    modifies db`reports, db`nextReportId
    ensures db.Valid()
    ensures var filed := NewReport(itemType, reason, caller.userId, commentId, blogPostId);
            && (filed.None? ==> reply == Reply(400, Message(InvalidItemType))
                                && db.reports == old(db.reports) && db.nextReportId == old(db.nextReportId))
            && (filed.Some? ==> reply == Reply(201, Record(old(db.nextReportId)))
                                && old(db.nextReportId) !in old(db.reports)
                                && db.reports == old(db.reports)[old(db.nextReportId) := filed.value]
                                && db.nextReportId == old(db.nextReportId) + 1)
  {
    var report;
    if itemType == "COMMENT" {
      report := Report(reason, caller.userId, commentId, None);
    } else if itemType == "POST" {
      report := Report(reason, caller.userId, None, blogPostId);
    } else {
      return Reply(400, Message(InvalidItemType));
    }
    var id := db.nextReportId;
    db.reports := db.reports[id := report];
    db.nextReportId := id + 1;
    return Reply(201, Record(id));
  }

  /** The rows Prisma loads for the list: each report with its reporter,
      its post and its comment (with the comment's post). */
  datatype Reporter = Reporter(id: int, firstName: string, lastName: string, email: string)
  datatype PostSummary = PostSummary(id: int, title: string, content: string, hidden: bool)
  datatype PostLink = PostLink(id: int, title: string)
  datatype CommentSummary = CommentSummary(id: int, content: string, hidden: bool, blogPost: Option<PostLink>)
  datatype LoadedReport = LoadedReport(
    id: int, reason: string, createdAt: string, user: Reporter,
    blogPost: Option<PostSummary>, comment: Option<CommentSummary>)

  /** One entry of the list the administrators see. */
  datatype CommentView = CommentView(id: int, content: string, hidden: bool)
  datatype PostContent = PostContent(content: string, hidden: bool)
  datatype FormattedReport = FormattedReport(
    id: int, reason: string, createdAt: string, user: Reporter,
    blogPost: Option<PostLink>, comment: Option<CommentView>, postContent: Option<PostContent>)

  /** The post a report leads to: its own post, else its comment's post,
      else none. */
  function LinkOf(r: LoadedReport): (l: Option<PostLink>)
    ensures r.blogPost.Some? ==> l == Some(PostLink(r.blogPost.value.id, r.blogPost.value.title))
    ensures r.blogPost.None? && r.comment.Some? ==> l == r.comment.value.blogPost
    ensures l.None? <==> r.blogPost.None? && (r.comment.None? || r.comment.value.blogPost.None?)
  {
    if r.blogPost.Some? then Some(PostLink(r.blogPost.value.id, r.blogPost.value.title))
    else if r.comment.Some? && r.comment.value.blogPost.Some? then r.comment.value.blogPost
    else None
  }

  /** The entry for one report: its own fields, the link, the comment cut
      down to id, content and hidden, and the post's content and hidden. */
  function Format(r: LoadedReport): (f: FormattedReport)
    ensures f.id == r.id && f.reason == r.reason && f.createdAt == r.createdAt && f.user == r.user
    ensures f.blogPost == LinkOf(r)
    ensures f.comment.Some? <==> r.comment.Some?
    ensures r.comment.Some? ==>
              f.comment.value == CommentView(r.comment.value.id, r.comment.value.content, r.comment.value.hidden)
    ensures f.postContent.Some? <==> r.blogPost.Some?
    ensures r.blogPost.Some? ==>
              f.postContent.value == PostContent(r.blogPost.value.content, r.blogPost.value.hidden)
  {
    FormattedReport(
      r.id, r.reason, r.createdAt, r.user, LinkOf(r),
      if r.comment.Some? then Some(CommentView(r.comment.value.id, r.comment.value.content, r.comment.value.hidden)) else None,
      if r.blogPost.Some? then Some(PostContent(r.blogPost.value.content, r.blogPost.value.hidden)) else None)
  }

  /** `reports.map(...)`: one entry per report, in the same order. */
  function FormatAll(rs: seq<LoadedReport>): (fs: seq<FormattedReport>)
    ensures |fs| == |rs|
    ensures forall i :: 0 <= i < |rs| ==> fs[i] == Format(rs[i])
  {
    if |rs| == 0 then [] else [Format(rs[0])] + FormatAll(rs[1..])
  }

  /** Formatting commutes with concatenation. */
  lemma {:induction false} FormatAllAppend(a: seq<LoadedReport>, b: seq<LoadedReport>)
    ensures FormatAll(a + b) == FormatAll(a) + FormatAll(b)
  {
    var l, r := FormatAll(a + b), FormatAll(a) + FormatAll(b);
    assert |l| == |r|;
    forall i | 0 <= i < |l|
      ensures l[i] == r[i]
    {
      if i < |a| {
        assert (a + b)[i] == a[i];
      } else {
        assert (a + b)[i] == b[i - |a|];
      }
    }
  }

  /** The list keeps the reports' ids in their order. */
  lemma FormatKeepsIds(rs: seq<LoadedReport>, i: int, j: int)
    requires 0 <= i < j < |rs|
    ensures FormatAll(rs)[i].id == rs[i].id && FormatAll(rs)[j].id == rs[j].id
  {
  }

  /** The reply of `getReports`. */
  datatype ReportsReply = Reports(reports: seq<FormattedReport>) | ReportsRefused(reply: Reply)

  /** `getReports`: the role stored for the caller decides; a caller with
      no user row makes the handler throw. `loaded` is the joined reports,
      newest first. */
  function GetReports(roles: map<int, string>, caller: Caller, loaded: seq<LoadedReport>): (r: ReportsReply)
    ensures r.Reports? <==> caller.userId in roles && roles[caller.userId] == Admin
    ensures r.Reports? ==> |r.reports| == |loaded|
                           && forall i :: 0 <= i < |loaded| ==> r.reports[i] == Format(loaded[i])
    ensures caller.userId !in roles ==> r == ReportsRefused(Reply(500, Empty))
    ensures caller.userId in roles && roles[caller.userId] != Admin ==> r == ReportsRefused(Reply(403, Message(Unauthorized)))
  {
    if caller.userId !in roles then ReportsRefused(Reply(500, Empty))
    else if roles[caller.userId] == Admin then Reports(FormatAll(loaded))
    else ReportsRefused(Reply(403, Message(Unauthorized)))
  }

  /** The list goes by the stored role, not the token's: a token that says
      ADMIN does not help a user whose row says otherwise. */
  lemma StoredRoleDecides(roles: map<int, string>, caller: Caller, loaded: seq<LoadedReport>)
    requires caller.role == Admin && caller.userId in roles && roles[caller.userId] != Admin
    ensures GetReports(roles, caller, loaded) == ReportsRefused(Reply(403, Message(Unauthorized)))
  {
  }

  /** A JavaScript-truthy id: present and not 0. */
  predicate TruthyId(x: Option<int>)
  {
    x.Some? && x.value != 0
  }

  /** What `handleReport` does with a request. */
  datatype Action = Refuse(reply: Reply) | HideComment(commentId: int) | HidePost(postId: int)

  /** The decisions of `handleReport`: only a token with role ADMIN acts,
      the report must exist, and the item type must name a target the
      report carries. */
  function Handling(role: string, reports: map<int, Report>, id: int, itemType: string): (a: Action)
    ensures role != Admin ==> a == Refuse(Reply(403, Message(Unauthorized)))
    ensures role == Admin && id !in reports ==> a == Refuse(Reply(404, Message(ReportMissing)))
    ensures a.HideComment? <==> role == Admin && id in reports && itemType == "COMMENT" && TruthyId(reports[id].commentId)
    ensures a.HideComment? ==> Some(a.commentId) == reports[id].commentId
    ensures a.HidePost? <==>
              role == Admin && id in reports && !(itemType == "COMMENT" && TruthyId(reports[id].commentId))
              && itemType == "POST" && TruthyId(reports[id].blogPostId)
    ensures a.HidePost? ==> Some(a.postId) == reports[id].blogPostId
  {
    if role != Admin then Refuse(Reply(403, Message(Unauthorized)))
    else if id !in reports then Refuse(Reply(404, Message(ReportMissing)))
    else if itemType == "COMMENT" && TruthyId(reports[id].commentId) then HideComment(reports[id].commentId.value)
    else if itemType == "POST" && TruthyId(reports[id].blogPostId) then HidePost(reports[id].blogPostId.value)
    else Refuse(Reply(400, Message(InvalidHandling)))
  }

  /** Any other item type, or a report without the matching id, is 400. */
  lemma MismatchRefused(reports: map<int, Report>, id: int, itemType: string)
    requires id in reports
    requires !(itemType == "COMMENT" && TruthyId(reports[id].commentId))
    requires !(itemType == "POST" && TruthyId(reports[id].blogPostId))
    ensures Handling(Admin, reports, id, itemType) == Refuse(Reply(400, Message(InvalidHandling)))
  {
  }

  /** The target of a handled report: hidden, reported and frozen. */
  function FreezeComment(c: Comment): Comment
  {
    c.(hidden := true, reported := true, canEdit := false)
  }

  function FreezePost(p: Post): Post
  {
    p.(hidden := true, reported := true, canEdit := false)
  }

  /** A frozen comment leaves every other user's listing and can no longer
      be edited, by its author or anyone. */
  lemma FrozenCommentWithdrawn(comments: map<int, Comment>, id: int, userId: int)
    requires id in comments
    ensures var f := FreezeComment(comments[id]);
            && (userId != f.userId ==> !CommentsController.VisibleTo(f, userId))
            && CommentsController.EditAccess(comments[id := f], id, userId) == Some(Reply(403, Message(CommentsController.CannotEdit)))
  {
  }

  /** A frozen post leaves every listing but its author's. */
  lemma FrozenPostWithdrawn(p: Post, userId: int, q: PostsController.PostQuery)
    requires userId != p.authorId
    ensures !PostsController.Selected(q, userId, FreezePost(p))
  {
  }

  /** `handleReport`; updating a target that no longer exists throws. */
  method HandleReport(db: Database, caller: Caller, id: int, itemType: string) returns (reply: Reply)
    requires db.Valid()
    modifies db`comments, db`posts
    ensures db.Valid()
    ensures var a := Handling(caller.role, old(db.reports), id, itemType);
            && (a.Refuse? ==> reply == a.reply && db.comments == old(db.comments) && db.posts == old(db.posts))
            && (a.HideComment? && a.commentId !in old(db.comments) ==>
                  reply == Reply(500, Empty) && db.comments == old(db.comments) && db.posts == old(db.posts))
            && (a.HideComment? && a.commentId in old(db.comments) ==>
                  && reply == Reply(200, Message(CommentHidden))
                  && db.comments == old(db.comments)[a.commentId := FreezeComment(old(db.comments)[a.commentId])]
                  && db.posts == old(db.posts))
            && (a.HidePost? && a.postId !in old(db.posts) ==>
                  reply == Reply(500, Empty) && db.comments == old(db.comments) && db.posts == old(db.posts))
            && (a.HidePost? && a.postId in old(db.posts) ==>
                  && reply == Reply(200, Message(PostHidden))
                  && db.posts == old(db.posts)[a.postId := FreezePost(old(db.posts)[a.postId])]
                  && db.comments == old(db.comments))
  {
    if caller.role != Admin {
      return Reply(403, Message(Unauthorized));
    }
    if id !in db.reports {
      return Reply(404, Message(ReportMissing));
    }
    var report := db.reports[id];
    if itemType == "COMMENT" && TruthyId(report.commentId) {
      var target := report.commentId.value;
      if target !in db.comments {
        return Reply(500, Empty);
      }
      db.comments := db.comments[target := FreezeComment(db.comments[target])];
      return Reply(200, Message(CommentHidden));
    } else if itemType == "POST" && TruthyId(report.blogPostId) {
      var target := report.blogPostId.value;
      if target !in db.posts {
        return Reply(500, Empty);
      }
      db.posts := db.posts[target := FreezePost(db.posts[target])];
      return Reply(200, Message(PostHidden));
    } else {
      return Reply(400, Message(InvalidHandling));
    }
  }
}
