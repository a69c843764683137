/**
 * `GET /api/tools` (filtered, newest-first, paginated listing) and
 * `POST /api/tools` (create one tool, for a signed-in administrator).
 */
module ToolsRoute {
  import opened Common
  import opened Store
  import Seqs
  import Sorting
  import Paging

  const DEFAULT_PAGE: nat := 1
  const DEFAULT_LIMIT: nat := 12

  /**
   * The query-string parameters of a listing request. `page` and `limit` are given
   * already parsed as numbers; `None` stands for a parameter that is absent or empty.
   */
  datatype ToolQuery = ToolQuery(
    categoryId: Option<string>,
    search: Option<string>,
    featured: Option<string>,
    page: Option<nat>,
    limit: Option<nat>)

  /** Page numbers and page sizes start at 1. */
  predicate WellFormed(q: ToolQuery)
  {
    (q.page.Some? ==> q.page.value >= 1) && (q.limit.Some? ==> q.limit.value >= 1)
  }

  function PageOf(q: ToolQuery): nat
  {
    if q.page.Some? then q.page.value else DEFAULT_PAGE
  }

  function LimitOf(q: ToolQuery): nat
  {
    if q.limit.Some? then q.limit.value else DEFAULT_LIMIT
  }

  // ---------------------------------------------------------------------------
  // The filter object handed to the store, and what it means.
  // ---------------------------------------------------------------------------

  datatype Column = Name | Description | DetailedDescription

  /** `{ <column>: { contains: text } }` */
  datatype Contains = Contains(column: Column, text: string)

  /** The `where` object: each field is present only when the handler set it. */
  datatype Where = Where(categoryId: Option<string>, anyOf: Option<seq<Contains>>, featured: Option<bool>)

  /** `needle` occurs somewhere in `hay` (case-sensitive). */
  predicate IsSubstring(needle: string, hay: string)
  {
    exists k :: 0 <= k <= |hay| && needle <= hay[k..]
  }

  /** A `contains` condition; a missing (null) long description contains nothing. */
  predicate Holds(c: Contains, t: Tool)
  {
    match c.column
    case Name => IsSubstring(c.text, t.name)
    case Description => IsSubstring(c.text, t.description)
    case DetailedDescription => t.detailedDescription.Some? && IsSubstring(c.text, t.detailedDescription.value)
  }

  /** The rows a `where` object selects: every field that is set must hold; `OR` needs one of its conditions. */
  predicate Matches(w: Where, t: Tool)
  {
    (w.categoryId.Some? ==> t.categoryId == w.categoryId.value) &&
    (w.anyOf.Some? ==> exists c :: c in w.anyOf.value && Holds(c, t)) &&
    (w.featured.Some? ==> t.featured == w.featured.value)
  }

  /** `text` occurs in the tool's name, short description or long description. */
  predicate Mentions(t: Tool, text: string)
  {
    IsSubstring(text, t.name) || IsSubstring(text, t.description) ||
    (t.detailedDescription.Some? && IsSubstring(text, t.detailedDescription.value))
  }

  /**
   * Which tools a listing request asks for, read off the query parameters: a non-empty
   * `categoryId` must match exactly, a non-empty `search` must be mentioned, and
   * `featured=true` (that exact text) keeps only featured tools. Other values add no condition.
   */
  predicate Selected(q: ToolQuery, t: Tool)
  {
    (Truthy(q.categoryId) ==> t.categoryId == q.categoryId.value) &&
    (Truthy(q.search) ==> Mentions(t, q.search.value)) &&
    (q.featured == Some("true") ==> t.featured)
  }

  /** Builds the `where` object field by field from the query parameters. */
  method BuildWhere(q: ToolQuery) returns (w: Where)
    ensures forall t :: Matches(w, t) <==> Selected(q, t)
  {
    w := Where(None, None, None);
    if Truthy(q.categoryId) {
      w := w.(categoryId := Some(q.categoryId.value));
    }
    if Truthy(q.search) {
      var s := q.search.value;
      w := w.(anyOf := Some([Contains(Name, s), Contains(Description, s), Contains(DetailedDescription, s)]));
    }
    if q.featured == Some("true") {
      w := w.(featured := Some(true));
    }
    forall t | Truthy(q.search) && Mentions(t, q.search.value)
      ensures exists c :: c in w.anyOf.value && Holds(c, t)
    {
      var s := q.search.value;
      if IsSubstring(s, t.name) {
        assert Contains(Name, s) in w.anyOf.value;
      } else if IsSubstring(s, t.description) {
        assert Contains(Description, s) in w.anyOf.value;
      } else {
        assert Contains(DetailedDescription, s) in w.anyOf.value;
      }
    }
  }

  // ---------------------------------------------------------------------------
  // The listing.
  // ---------------------------------------------------------------------------

  predicate NewerFirst(a: Tool, b: Tool)
  {
    a.createdAt >= b.createdAt
  }

  /** The tools a listing request selects, in store order. */
  function Matching(tools: seq<Tool>, q: ToolQuery): seq<Tool>
  {
    Seqs.Filter(tools, t => Selected(q, t))
  }

  /** `orderBy: { createdAt: 'desc' }`: the same tools, newest first. */
  function NewestFirst(tools: seq<Tool>): (r: seq<Tool>)
    ensures multiset(r) == multiset(tools)
    ensures forall i, j :: 0 <= i < j < |r| ==> r[i].createdAt >= r[j].createdAt
  {
    assert Sorting.TotalPreorder(NewerFirst);
    Sorting.SortBy(tools, NewerFirst)
  }

  datatype Pagination = Pagination(total: nat, page: nat, limit: nat, totalPages: nat)

  datatype ToolPage = ToolPage(tools: seq<Tool>, pagination: Pagination)

  /**
   * The listing handler. One `where` object drives both the page query (ordered newest
   * first, `skip`/`take` window) and the count of all matches.
   */
  method Get(db: Database, q: ToolQuery) returns (r: Reply<ToolPage>)
    requires WellFormed(q)
    ensures r.Success? && r.status == OK
    ensures r.value.tools == Paging.Window(NewestFirst(Matching(db.tools, q)), Paging.Offset(PageOf(q), LimitOf(q)), LimitOf(q))
    ensures r.value.pagination.total == |Matching(db.tools, q)|
    ensures r.value.pagination.page == PageOf(q) && r.value.pagination.limit == LimitOf(q)
    ensures r.value.pagination.totalPages == Paging.TotalPages(r.value.pagination.total, LimitOf(q))
    ensures forall t :: t in r.value.tools ==> t in db.tools && Selected(q, t)
    ensures forall i, j :: 0 <= i < j < |r.value.tools| ==> r.value.tools[i].createdAt >= r.value.tools[j].createdAt
    ensures |r.value.tools| <= LimitOf(q)
  {
    var page := PageOf(q);
    var limit := LimitOf(q);
    var skip := Paging.Offset(page, limit);

    var where := BuildWhere(q);
    var found := Seqs.Filter(db.tools, t => Matches(where, t));
    WhereSelectsMatching(db.tools, q, where);
    var ordered := NewestFirst(found);
    var tools := Paging.Window(ordered, skip, limit);
    var total := |found|;

    PageIsSelected(db.tools, q, skip, limit);
    PageIsNewestFirst(ordered, skip, limit);
    r := Success(OK, ToolPage(tools, Pagination(total, page, limit, Paging.TotalPages(total, limit))));
  }

  /** A `where` object with the meaning of the request filters the same tools the request selects. */
  lemma WhereSelectsMatching(tools: seq<Tool>, q: ToolQuery, w: Where)
    requires forall t :: Matches(w, t) <==> Selected(q, t)
    ensures Seqs.Filter(tools, t => Matches(w, t)) == Matching(tools, q)
  {
    Seqs.FilterCongruent(tools, t => Matches(w, t), t => Selected(q, t));
  }

  /** Every tool on a page is a stored tool that the request selects. */
  lemma PageIsSelected(tools: seq<Tool>, q: ToolQuery, skip: nat, limit: nat)
    ensures forall t :: t in Paging.Window(NewestFirst(Matching(tools, q)), skip, limit) ==> t in tools && Selected(q, t)
  {
    var found := Matching(tools, q);
    var ordered := NewestFirst(found);
    forall t | t in Paging.Window(ordered, skip, limit) ensures t in tools && Selected(q, t) {
      assert t in ordered;
      assert t in multiset(ordered);
      assert t in multiset(found);
    }
  }

  /** A window of a newest-first sequence is newest first. */
  lemma PageIsNewestFirst(ordered: seq<Tool>, skip: nat, limit: nat)
    requires forall i, j :: 0 <= i < j < |ordered| ==> ordered[i].createdAt >= ordered[j].createdAt
    ensures var w := Paging.Window(ordered, skip, limit);
      forall i, j :: 0 <= i < j < |w| ==> w[i].createdAt >= w[j].createdAt
  {
  }

  // ---------------------------------------------------------------------------
  // Creating a tool.
  // ---------------------------------------------------------------------------

  /** The JSON body of a create request; a field the client left out is `None`. */
  datatype ToolInput = ToolInput(
    name: Option<string>,
    url: Option<string>,
    description: Option<string>,
    detailedDescription: Option<string>,
    icon: Option<string>,
    categoryId: Option<string>,
    featured: Option<bool>)

  /** Name, URL, short description and category are present and non-empty. */
  predicate HasRequiredFields(b: ToolInput)
  {
    Truthy(b.name) && Truthy(b.url) && Truthy(b.description) && Truthy(b.categoryId)
  }

  /** The row a valid body creates: `featured` is false unless the body says `true`. */
  function NewTool(b: ToolInput, id: string, now: int): (t: Tool)
    requires HasRequiredFields(b)
    ensures t.id == id && t.createdAt == now
    ensures t.name == b.name.value && t.url == b.url.value && t.description == b.description.value
    ensures t.categoryId == b.categoryId.value
    ensures t.detailedDescription == b.detailedDescription && t.icon == b.icon
    ensures t.featured <==> b.featured == Some(true)
  {
    Tool(id, b.name.value, b.url.value, b.description.value, b.detailedDescription, b.icon,
         b.featured == Some(true), b.categoryId.value, now)
  }

  /**
   * The create handler. The session is checked before the body is looked at; a body
   * without the required fields is refused before the store is touched; a category id
   * the store does not know violates the foreign key and ends in the generic failure.
   * `id` and `now` stand for the identifier and timestamp the store generates.
   */
  method Post(db: Database, signedIn: bool, body: ToolInput, id: string, now: int) returns (r: Reply<Tool>)
    requires db.Valid()
    requires forall t :: t in db.tools ==> t.id != id
    modifies db
    ensures db.Valid()
    ensures db.categories == old(db.categories)
    ensures !signedIn ==>
      r == Failure(UNAUTHORIZED, "Unauthorized") && db.tools == old(db.tools)
    ensures signedIn && !HasRequiredFields(body) ==>
      r == Failure(BAD_REQUEST, "Missing required fields") && db.tools == old(db.tools)
    ensures signedIn && HasRequiredFields(body) && !HasCategory(db.categories, body.categoryId.value) ==>
      r == Failure(SERVER_ERROR, "Failed to create tool") && db.tools == old(db.tools)
    ensures signedIn && HasRequiredFields(body) && HasCategory(db.categories, body.categoryId.value) ==>
      r == Success(CREATED, NewTool(body, id, now)) && db.tools == old(db.tools) + [NewTool(body, id, now)]
  {
    if !signedIn {
      return Failure(UNAUTHORIZED, "Unauthorized");
    }
    if !Truthy(body.name) || !Truthy(body.url) || !Truthy(body.description) || !Truthy(body.categoryId) {
      return Failure(BAD_REQUEST, "Missing required fields");
    }
    if !HasCategory(db.categories, body.categoryId.value) {
      return Failure(SERVER_ERROR, "Failed to create tool");
    }
    var tool := Tool(id, body.name.value, body.url.value, body.description.value,
                     body.detailedDescription, body.icon, body.featured == Some(true),
                     body.categoryId.value, now);
    db.tools := db.tools + [tool];
    r := Success(CREATED, tool);
  }
}
