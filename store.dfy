/** The tables the controllers read and write, and the shape of their
    replies. The caller is the payload of the verified access token. */
module Store {
  import opened Text
  import opened Pagination

  /** `req.user`: the token's user id and role. */
  datatype Caller = Caller(userId: int, role: string)

  const Admin := "ADMIN"

  datatype Post = Post(
    title: string, description: string, content: string, tags: seq<string>,
    authorId: int, rating: int, hidden: bool, reported: bool, canEdit: bool)

  datatype Comment = Comment(
    content: string, userId: int, blogPostId: int,
    rating: int, hidden: bool, reported: bool, canEdit: bool)

  datatype Report = Report(reason: string, userId: int, commentId: Option<int>, blogPostId: Option<int>)

  datatype Template = Template(
    title: string, description: string, code: string, language: string,
    tags: seq<string>, userId: int, forkedFromId: Option<int>)

  /** The JSON body of a reply: `{message}`, `{error}`, a created record
      (by its id), or nothing (204, and the default body of an unhandled
      exception). */
  datatype Body = Message(text: string) | Error(text: string) | Record(id: int) | Empty

  datatype Reply = Reply(status: int, body: Body)

  /** JavaScript truthiness of an optional string parameter. */
  predicate Present(s: Option<string>)
  {
    s.Some? && s.value != ""
  }

  /** A field of an update or create body: the given value, or the current
      one (or the column default) when the field is absent. */
  function Given<T>(field: Option<T>, current: T): T
  {
    if field.Some? then field.value else current
  }

  /** The listing order a `sortBy` parameter asks for. */
  datatype Order = Unordered | ByReportCount | ByRating(direction: string)

  /** Prisma accepts only these two sort directions. */
  predicate ValidDirection(d: string)
  {
    d == "asc" || d == "desc"
  }

  /** The `sortBy` gate of the listing handlers: ordering by report count is
      for ADMIN only (`None` is the 403), any other non-empty value orders by
      rating in that direction, and an empty or absent one leaves the
      listing unordered. */
  function RequestedOrder(sortBy: Option<string>, role: string): (r: Option<Order>)
    ensures r.None? <==> sortBy == Some("reports") && role != Admin
    ensures r == Some(Unordered) <==> !Present(sortBy)
    ensures r == Some(ByReportCount) <==> sortBy == Some("reports") && role == Admin
    ensures r.Some? && r.value.ByRating? <==> Present(sortBy) && sortBy.value != "reports"
    ensures r.Some? && r.value.ByRating? ==> r.value.direction == sortBy.value
  {
    if !Present(sortBy) then Some(Unordered)
    else if sortBy.value == "reports" then
      if role != Admin then None else Some(ByReportCount)
    else Some(ByRating(sortBy.value))
  }

  /** What a listing handler reports: the ids its `where` clause selects,
      the page echoed back, the count and the page count. Which rows land on
      the page depends on the order and is not modelled. */
  datatype Listing = Listing(matching: set<int>, currentPage: int, pageSize: int, totalItems: nat, totalPages: nat)

  datatype ListReply = Listed(listing: Listing) | Refused(reply: Reply)

  /** The pagination block of a listing over the selected ids. */
  function ListingOf(ids: set<int>, page: Option<int>, limit: Option<int>): (l: Listing)
    ensures l.matching == ids && l.totalItems == |ids|
    ensures l.currentPage >= 1 && l.pageSize >= 1
    ensures l.currentPage == Paginate(page, limit).currentPage && l.pageSize == Paginate(page, limit).pageSize
    ensures l.totalPages * l.pageSize >= |ids|
    ensures l.totalPages == 0 || (l.totalPages - 1) * l.pageSize < |ids|
  {
    var w := Paginate(page, limit);
    Listing(ids, w.currentPage, w.pageSize, |ids|, TotalPages(|ids|, w.pageSize))
  }

  /** The database: one map per table from id to row, the rating rows of
      posts and comments as item id -> user id -> stored value, and the next
      id of each autoincrementing table. */
  class Database {
    var posts: map<int, Post>
    var comments: map<int, Comment>
    var reports: map<int, Report>
    var templates: map<int, Template>
    var roles: map<int, string>
    var postVotes: map<int, map<int, int>>
    var commentVotes: map<int, map<int, int>>
    var nextPostId: int
    var nextCommentId: int
    var nextReportId: int
    var nextTemplateId: int

    /** Every id in use lies below its table's next id. */
    ghost predicate Valid()
      reads this
    {
      && (forall id :: id in posts ==> id < nextPostId)
      && (forall id :: id in comments ==> id < nextCommentId)
      && (forall id :: id in reports ==> id < nextReportId)
      && (forall id :: id in templates ==> id < nextTemplateId)
    }

    constructor ()
      ensures Valid()
      ensures posts == map[] && comments == map[] && reports == map[] && templates == map[]
      ensures roles == map[] && postVotes == map[] && commentVotes == map[]
    {
      posts, comments, reports, templates := map[], map[], map[], map[];
      roles, postVotes, commentVotes := map[], map[], map[];
      nextPostId, nextCommentId, nextReportId, nextTemplateId := 1, 1, 1, 1;
    }
  }
}
