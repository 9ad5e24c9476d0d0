/**
 * `getAnnouncements` of src/lib/supabase-queries.ts: the list of clauses it
 * builds for the hosted database (which is not modelled: it only receives the
 * clauses) and how it turns the backend's answer into a return or a throw.
 */
module Queries {
  import opened Wrappers
  import opened Commission

  /** One step of the query builder chain. */
  datatype Clause =
    | From(table: string)                    // `.from(table).select(...)`
    | Eq(column: string, value: string)      // `.eq(column, value)`
    | ILike(column: string, pattern: string) // `.ilike(column, pattern)`
    | Order(column: string, ascending: bool) // `.order(column, { ascending })`

  /** The optional `filters` argument; each field may be absent. */
  datatype AnnouncementFilters = AnnouncementFilters(
    state: Option<string>,
    city: Option<string>,
    vehicleBrand: Option<string>,
    searchTerm: Option<string>)

  /** A user row as embedded by the backend (only what the catalog page reads). */
  datatype UserRow = UserRow(name: Option<string>, avatarUrl: Option<string>)

  /** A comment row as returned by the backend. */
  datatype CommentRow = CommentRow(
    id: string,
    announcementId: string,
    userId: string,
    user: Option<UserRow>,
    content: string,
    videoUrl: Option<string>,
    isSellerResponse: bool,
    createdAt: int,
    parentCommentId: Option<string>)

  /** The embedded seller of an announcement row. */
  datatype SellerRow = SellerRow(id: string, name: string, rating: real, avatarUrl: Option<string>)

  /** An announcement row as returned by the backend; the seller join may come back empty. */
  datatype AnnouncementRow = AnnouncementRow(
    id: string,
    title: string,
    price: int,
    tier: AnnouncementType,
    videoUrl: string,
    thumbnailUrl: string,
    seller: Option<SellerRow>,
    city: string,
    state: string,
    vehicleBrand: string,
    views: int,
    comments: Option<seq<CommentRow>>,
    commission: int)

  /** What awaiting a query yields: `{ data, error }`. */
  datatype Response<T> = Response(data: T, error: Option<string>)

  /** The fixed ordering: commission descending, then price descending. */
  const OrderingClauses: seq<Clause> := [Order("commission", false), Order("price", false)]

  /** A filter value that is present, non-empty (JavaScript-truthy) and not the "all" sentinel. */
  predicate Applies(v: Option<string>)
  {
    v.Some? && v.value != "" && v.value != "all"
  }

  /** The equality clause a filter field contributes, if any. */
  function EqClauses(column: string, v: Option<string>): seq<Clause>
  {
    if Applies(v) then [Eq(column, v.value)] else []
  }

  /** The title-substring clause a search term contributes, if any. */
  function SearchClauses(term: Option<string>): seq<Clause>
  {
    if term.Some? && term.value != "" then [ILike("title", "%" + term.value + "%")] else []
  }

  /** The clause list of a query with the given filters. */
  ghost function AnnouncementQuery(filters: Option<AnnouncementFilters>): seq<Clause>
  {
    var f := if filters.Some? then filters.value else AnnouncementFilters(None, None, None, None);
    [From("announcements")]
    + EqClauses("state", f.state)
    + EqClauses("city", f.city)
    + EqClauses("vehicle_brand", f.vehicleBrand)
    + SearchClauses(f.searchTerm)
    + OrderingClauses
  }

  /**
   * `getAnnouncements`: `query` is reassigned clause by clause, then awaited;
   * a backend error is thrown and no data is returned.
   */
  method GetAnnouncements(filters: Option<AnnouncementFilters>, response: Response<seq<AnnouncementRow>>)
    returns (query: seq<Clause>, result: Result<seq<AnnouncementRow>>)
    ensures query == AnnouncementQuery(filters)
    ensures result.Failure? <==> response.error.Some?
    ensures result.Failure? ==> result.error == response.error.value
    ensures result.Success? ==> result.value == response.data
  {
    query := [From("announcements")];
    if filters.Some? && filters.value.state.Some? && filters.value.state.value != "" && filters.value.state.value != "all" {
      query := query + [Eq("state", filters.value.state.value)];
    }
    if filters.Some? && filters.value.city.Some? && filters.value.city.value != "" && filters.value.city.value != "all" {
      query := query + [Eq("city", filters.value.city.value)];
    }
    if filters.Some? && filters.value.vehicleBrand.Some? && filters.value.vehicleBrand.value != "" && filters.value.vehicleBrand.value != "all" {
      query := query + [Eq("vehicle_brand", filters.value.vehicleBrand.value)];
    }
    if filters.Some? && filters.value.searchTerm.Some? && filters.value.searchTerm.value != "" {
      query := query + [ILike("title", "%" + filters.value.searchTerm.value + "%")];
    }
    query := query + [Order("commission", false)] + [Order("price", false)];
    if response.error.Some? {
      result := Failure(response.error.value);
    } else {
      result := Success(response.data);
    }
  }

  /** Number of filter clauses a set of filters produces. */
  function FilterCount(f: AnnouncementFilters): nat
  {
    (if Applies(f.state) then 1 else 0) + (if Applies(f.city) then 1 else 0)
    + (if Applies(f.vehicleBrand) then 1 else 0)
    + (if f.searchTerm.Some? && f.searchTerm.value != "" then 1 else 0)
  }

  /**
   * Whatever the filters, the query starts from the announcements table, ends
   * with commission descending then price descending, and orders by nothing else.
   */
  lemma OrderingAlwaysLast(filters: Option<AnnouncementFilters>)
    ensures var q := AnnouncementQuery(filters);
      && |q| >= 3 && q[0] == From("announcements")
      && q[|q| - 2..] == OrderingClauses
      && forall i :: 0 <= i < |q| - 2 ==> !q[i].Order?
  {
  }

  /** An equality clause on `state` is present iff the state filter is set and not "all", and it carries that value. */
  lemma StateClauseIff(filters: Option<AnnouncementFilters>, v: string)
    ensures Eq("state", v) in AnnouncementQuery(filters)
        <==> filters.Some? && Applies(filters.value.state) && v == filters.value.state.value
  {
  }

  /** An equality clause on `city` is present iff the city filter is set and not "all", and it carries that value. */
  lemma CityClauseIff(filters: Option<AnnouncementFilters>, v: string)
    ensures Eq("city", v) in AnnouncementQuery(filters)
        <==> filters.Some? && Applies(filters.value.city) && v == filters.value.city.value
  {
  }

  /** An equality clause on `vehicle_brand` is present iff the brand filter is set and not "all", and it carries that value. */
  lemma BrandClauseIff(filters: Option<AnnouncementFilters>, v: string)
    ensures Eq("vehicle_brand", v) in AnnouncementQuery(filters)
        <==> filters.Some? && Applies(filters.value.vehicleBrand) && v == filters.value.vehicleBrand.value
  {
  }

  /** A `%term%` title clause is present iff the search term is non-empty. */
  lemma SearchClauseIff(filters: Option<AnnouncementFilters>, p: string)
    ensures ILike("title", p) in AnnouncementQuery(filters)
        <==> filters.Some? && filters.value.searchTerm.Some? && filters.value.searchTerm.value != ""
             && p == "%" + filters.value.searchTerm.value + "%"
  {
  }

  /** Filter clauses come in the fixed order state, city, brand, search, one per applying filter. */
  lemma FilterClauseLayout(f: AnnouncementFilters)
    ensures var q := AnnouncementQuery(Some(f));
      |q| == 3 + FilterCount(f)
      && q[1..|q| - 2] == EqClauses("state", f.state) + EqClauses("city", f.city)
                          + EqClauses("vehicle_brand", f.vehicleBrand) + SearchClauses(f.searchTerm)
  {
  }

  /** Passing "all", passing "" and leaving a filter out all build the same query. */
  lemma AllIsAbsent(f: AnnouncementFilters)
    ensures AnnouncementQuery(Some(f.(state := Some("all")))) == AnnouncementQuery(Some(f.(state := None)))
    ensures AnnouncementQuery(Some(f.(city := Some("all")))) == AnnouncementQuery(Some(f.(city := None)))
    ensures AnnouncementQuery(Some(f.(vehicleBrand := Some("all")))) == AnnouncementQuery(Some(f.(vehicleBrand := None)))
    ensures AnnouncementQuery(Some(f.(state := Some("")))) == AnnouncementQuery(Some(f.(state := None)))
    ensures AnnouncementQuery(Some(f.(city := Some("")))) == AnnouncementQuery(Some(f.(city := None)))
    ensures AnnouncementQuery(Some(f.(vehicleBrand := Some("")))) == AnnouncementQuery(Some(f.(vehicleBrand := None)))
    ensures AnnouncementQuery(Some(f.(searchTerm := Some("")))) == AnnouncementQuery(Some(f.(searchTerm := None)))
    ensures AnnouncementQuery(Some(AnnouncementFilters(None, None, None, None))) == AnnouncementQuery(None)
  {
  }
}
