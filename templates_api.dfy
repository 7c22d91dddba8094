/** The code-template routes: forking a template into the caller's own
    copy, and the index route that lists templates (GET) or creates one
    (POST). */
module TemplatesApi {
  import opened Text
  import opened Store

  const MethodNotAllowed := "Method not allowed"
  const LoginRequired := "Unauthorized: Only logged-in users can save a forked template."
  const OriginalMissing := "Original template not found"
  const ForkFailed := "Failed to fork template | "
  const CreateFailed := "Failed to create template | "
  const ForkedSuffix := " (Forked)"

  /** The body of a fork request; an absent field is `None`. */
  datatype ForkRequest = ForkRequest(id: int, title: Option<string>, description: Option<string>,
                                     tags: Option<seq<string>>, code: Option<string>)

  /** `given || fallback` on a string field: an empty string falls back. */
  function Or(given: Option<string>, fallback: string): string
  {
    if Present(given) then given.value else fallback
  }

  /** The row a fork inserts. Text fields take the request's value unless
      it is absent or empty; tags take the request's list whenever it is
      present, even empty, since every array is truthy. */
  function ForkOf(orig: Template, origId: int, req: ForkRequest, userId: int): (t: Template)
    ensures t.language == orig.language && t.userId == userId && t.forkedFromId == Some(origId)
    ensures |t.title| > 0
    ensures Present(req.title) ==> t.title == req.title.value
    ensures !Present(req.title) ==> t.title == orig.title + ForkedSuffix
    ensures Present(req.description) ==> t.description == req.description.value
    ensures !Present(req.description) ==> t.description == orig.description
    ensures Present(req.code) ==> t.code == req.code.value
    ensures !Present(req.code) ==> t.code == orig.code
    ensures req.tags.Some? ==> t.tags == req.tags.value
    ensures req.tags.None? ==> t.tags == orig.tags
  {
    Template(
      Or(req.title, orig.title + ForkedSuffix),
      Or(req.description, orig.description),
      Or(req.code, orig.code),
      orig.language,
      if req.tags.Some? then req.tags.value else orig.tags,
      userId,
      Some(origId))
  }

  /** A fork that supplies nothing copies the original, retitled, owned by
      the caller and pointing back at it. */
  lemma BareForkCopies(orig: Template, origId: int, id: int, userId: int)
    ensures ForkOf(orig, origId, ForkRequest(id, None, None, None, None), userId)
            == orig.(title := orig.title + ForkedSuffix, userId := userId, forkedFromId := Some(origId))
  {
  }

  /** Empty strings do not blank the original's text, but an empty tag list
      does replace its tags. */
  lemma EmptyValuesInFork(orig: Template, origId: int, id: int, userId: int)
    ensures var t := ForkOf(orig, origId, ForkRequest(id, Some(""), Some(""), Some([]), Some("")), userId);
            && t.title == orig.title + ForkedSuffix
            && t.description == orig.description && t.code == orig.code
            && t.tags == []
  {
  }

  /** A reply together with the template table after the request. */
  datatype Written = Written(reply: Reply, templates: map<int, Template>)

  /** The fork handler; `nextId` is the id the table gives its next row and
      `createError` the error, if any, the create raises. */
  function Fork(templates: map<int, Template>, nextId: int, verb: string, userId: int, req: ForkRequest,
                createError: Option<string>): (r: Written)
    requires nextId !in templates
    ensures r.reply.status in {201, 400, 401, 404, 405}
    ensures r.reply.status == 201 <==> verb == "POST" && userId != 0 && req.id in templates && createError.None?
    ensures r.reply.status != 201 ==> r.templates == templates
    ensures r.reply.status == 201 ==>
              && r.reply == Reply(201, Record(nextId))
              && r.templates == templates[nextId := ForkOf(templates[req.id], req.id, req, userId)]
    ensures forall id :: id in templates ==> id in r.templates && r.templates[id] == templates[id]
  {
    if verb != "POST" then Written(Reply(405, Error(MethodNotAllowed)), templates)
    else if userId == 0 then Written(Reply(401, Error(LoginRequired)), templates)
    else if req.id !in templates then Written(Reply(404, Error(OriginalMissing)), templates)
    else if createError.Some? then Written(Reply(400, Error(ForkFailed + createError.value)), templates)
    else Written(Reply(201, Record(nextId)), templates[nextId := ForkOf(templates[req.id], req.id, req, userId)])
  }

  /** The checks come in order: method, then login, then the original. */
  lemma ForkRefusals(templates: map<int, Template>, nextId: int, verb: string, userId: int, req: ForkRequest,
                     createError: Option<string>)
    requires nextId !in templates
    ensures verb != "POST" ==> Fork(templates, nextId, verb, userId, req, createError).reply == Reply(405, Error(MethodNotAllowed))
    ensures verb == "POST" && userId == 0 ==> Fork(templates, nextId, verb, userId, req, createError).reply == Reply(401, Error(LoginRequired))
    ensures verb == "POST" && userId != 0 && req.id !in templates ==>
              Fork(templates, nextId, verb, userId, req, createError).reply == Reply(404, Error(OriginalMissing))
  {
  }

  /** The query string of the index route. */
  datatype TemplateQuery = TemplateQuery(title: Option<string>, tags: Option<string>, content: Option<string>,
                                         page: Option<int>, limit: Option<int>, ownedByUser: Option<string>)

  datatype TemplateClause = DescriptionHas(text: string) | CodeHas(text: string)

  /** A `where` clause on templates: each present field must hold. */
  datatype TemplateWhere = TemplateWhere(title: Option<string>, tagsAny: Option<seq<string>>,
                                         anyOf: Option<seq<TemplateClause>>, userId: Option<int>)

  predicate ClauseHolds(c: TemplateClause, t: Template)
  {
    match c
    case DescriptionHas(text) => Contains(t.description, text)
    case CodeHas(text) => Contains(t.code, text)
  }

  predicate WhereHolds(w: TemplateWhere, t: Template)
  {
    && (w.title.Some? ==> Contains(t.title, w.title.value))
    && (w.tagsAny.Some? ==> exists s :: s in w.tagsAny.value && s in t.tags)
    && (w.anyOf.Some? ==> exists c :: c in w.anyOf.value && ClauseHolds(c, t))
    && (w.userId.Some? ==> t.userId == w.userId.value)
  }

  /** The templates a listing returns: a substring of the title, a tag in
      common with the comma-separated list, the search term in the
      description or the code, and the caller as owner only for
      `ownedByUser=true` with a user id. */
  predicate Selected(q: TemplateQuery, userId: int, t: Template)
  {
    && (Present(q.title) ==> Contains(t.title, q.title.value))
    && (Present(q.tags) ==> exists s :: s in Split(q.tags.value, ',') && s in t.tags)
    && (Present(q.content) ==> Contains(t.description, q.content.value) || Contains(t.code, q.content.value))
    && (q.ownedByUser == Some("true") && userId != 0 ==> t.userId == userId)
  }

  function SelectedIds(templates: map<int, Template>, q: TemplateQuery, userId: int): set<int>
  {
    set id | id in templates && Selected(q, userId, templates[id])
  }

  lemma ContentClauses(text: string, t: Template)
    ensures (exists c :: c in [DescriptionHas(text), CodeHas(text)] && ClauseHolds(c, t))
            <==> Contains(t.description, text) || Contains(t.code, text)
  {
    if Contains(t.description, text) {
      assert DescriptionHas(text) in [DescriptionHas(text), CodeHas(text)];
    } else if Contains(t.code, text) {
      assert CodeHas(text) in [DescriptionHas(text), CodeHas(text)];
    }
  }

  /** The `where` clause of the GET branch, built field by field. */
  method TemplateFilter(q: TemplateQuery, userId: int) returns (w: TemplateWhere)
    ensures forall t :: WhereHolds(w, t) <==> Selected(q, userId, t)
  {
    w := TemplateWhere(None, None, None, None);
    if Present(q.title) {
      w := w.(title := q.title);
    }
    if Present(q.tags) {
      w := w.(tagsAny := Some(Split(q.tags.value, ',')));
    }
    if Present(q.content) {
      w := w.(anyOf := Some([DescriptionHas(q.content.value), CodeHas(q.content.value)]));
    }
    if q.ownedByUser == Some("true") && userId != 0 {
      w := w.(userId := Some(userId));
    }
    forall t
      ensures WhereHolds(w, t) <==> Selected(q, userId, t)
    {
      if Present(q.content) {
        ContentClauses(q.content.value, t);
      }
    }
  }

  /** The GET branch. */
  method ListTemplates(db: Database, caller: Caller, q: TemplateQuery) returns (l: Listing)
    ensures l == ListingOf(SelectedIds(db.templates, q, caller.userId), q.page, q.limit)
  {
    var w := TemplateFilter(q, caller.userId);
    var ids := set id | id in db.templates && WhereHolds(w, db.templates[id]);
    assert ids == SelectedIds(db.templates, q, caller.userId);
    l := ListingOf(ids, q.page, q.limit);
  }

  /** Templates are not hidden from anyone: unless the owner filter is on,
      every caller gets the same listing. */
  lemma ListingSameForAll(templates: map<int, Template>, q: TemplateQuery, u1: int, u2: int)
    requires q.ownedByUser != Some("true")
    ensures SelectedIds(templates, q, u1) == SelectedIds(templates, q, u2)
  {
    forall id | id in templates
      ensures Selected(q, u1, templates[id]) <==> Selected(q, u2, templates[id])
    {
    }
  }

  /** With the owner filter on, a caller sees only their own templates. */
  lemma OwnedListingIsOwn(templates: map<int, Template>, q: TemplateQuery, userId: int, id: int)
    requires q.ownedByUser == Some("true") && userId != 0
    requires id in SelectedIds(templates, q, userId)
    ensures templates[id].userId == userId
  {
  }

  /** The body of a create request. */
  datatype TemplateDraft = TemplateDraft(title: string, description: string, code: string, language: string, tags: seq<string>)

  /** The POST branch: a new template owned by the caller, or 400 with the
      database's error. */
  function CreateTemplate(templates: map<int, Template>, nextId: int, userId: int, d: TemplateDraft,
                          createError: Option<string>): (r: Written)
    requires nextId !in templates
    ensures createError.Some? ==> r == Written(Reply(400, Error(CreateFailed + createError.value)), templates)
    ensures createError.None? ==>
              && r.reply == Reply(201, Record(nextId))
              && r.templates.Keys == templates.Keys + {nextId}
              && r.templates[nextId] == Template(d.title, d.description, d.code, d.language, d.tags, userId, None)
              && (forall id :: id in templates ==> r.templates[id] == templates[id])
  {
    if createError.Some? then Written(Reply(400, Error(CreateFailed + createError.value)), templates)
    else Written(Reply(201, Record(nextId)),
                 templates[nextId := Template(d.title, d.description, d.code, d.language, d.tags, userId, None)])
  }

  /** A successful fork stores what creating a template from the fork's
      fields would store, except that the row points back at the original. */
  lemma ForkIsCreateWithOrigin(templates: map<int, Template>, nextId: int, userId: int, req: ForkRequest)
    requires nextId !in templates && userId != 0 && req.id in templates
    ensures var t := ForkOf(templates[req.id], req.id, req, userId);
            var c := CreateTemplate(templates, nextId, userId,
                                    TemplateDraft(t.title, t.description, t.code, t.language, t.tags), None);
            var f := Fork(templates, nextId, "POST", userId, req, None);
            && f.reply == c.reply
            && f.templates == c.templates[nextId := c.templates[nextId].(forkedFromId := Some(req.id))]
  {
  }

  /** A created template is found again by its owner: the owner's own
      listing, searched by the new title, selects it. */
  lemma CreatedTemplateFound(templates: map<int, Template>, nextId: int, userId: int, d: TemplateDraft)
    requires nextId !in templates && userId != 0
    ensures var q := TemplateQuery(Some(d.title), None, None, None, None, Some("true"));
            nextId in SelectedIds(CreateTemplate(templates, nextId, userId, d, None).templates, q, userId)
  {
    ContainsInfix([], d.title, []);
    assert [] + d.title + [] == d.title;
  }

  /** What the index route answers: a listing, or a plain reply. */
  datatype IndexReply = Page(listing: Listing) | Answer(reply: Reply)

  /** The index route: GET lists, POST creates, anything else is 405. */
  method TemplatesIndex(db: Database, caller: Caller, verb: string, q: TemplateQuery, d: TemplateDraft,
                        createError: Option<string>) returns (r: IndexReply)
    requires db.Valid()
    modifies db`templates, db`nextTemplateId
    ensures db.Valid()
    ensures verb == "GET" ==>
              && r == Page(ListingOf(SelectedIds(old(db.templates), q, caller.userId), q.page, q.limit))
              && db.templates == old(db.templates) && db.nextTemplateId == old(db.nextTemplateId)
    ensures verb == "POST" ==>
              var w := CreateTemplate(old(db.templates), old(db.nextTemplateId), caller.userId, d, createError);
              && r == Answer(w.reply) && db.templates == w.templates
              && db.nextTemplateId == old(db.nextTemplateId) + (if createError.None? then 1 else 0)
    ensures verb != "GET" && verb != "POST" ==>
              && r == Answer(Reply(405, Error(MethodNotAllowed)))
              && db.templates == old(db.templates) && db.nextTemplateId == old(db.nextTemplateId)
  {
    if verb == "GET" {
      var l := ListTemplates(db, caller, q);
      r := Page(l);
    } else if verb == "POST" {
      var w := CreateTemplate(db.templates, db.nextTemplateId, caller.userId, d, createError);
      db.templates := w.templates;
      if createError.None? {
        db.nextTemplateId := db.nextTemplateId + 1;
      }
      r := Answer(w.reply);
    } else {
      r := Answer(Reply(405, Error(MethodNotAllowed)));
    }
  }
}
