/**
 * The catalog page of src/app/page.tsx: the filter state and how it becomes
 * query filters, the transformation of backend rows into listings, the
 * fallback listing, and the handlers for loading, opening a video, adding a
 * comment and confirming a purchase. Backend calls are parameters: a
 * `CallOutcome` (returns or throws) or a `Response` (data or error).
 */
module Catalog {
  import opened Wrappers
  import opened Commission
  import opened Queries
  import VideoComments
  import PurchaseWizard

  datatype Seller = Seller(id: string, name: string, rating: real, avatar: Option<string>)

  datatype Location = Location(city: string, state: string)

  /** A listing as the page holds it (the page's `Announcement`). */
  datatype Listing = Listing(
    id: string,
    title: string,
    price: int,
    tier: AnnouncementType,
    videoUrl: string,
    thumbnailUrl: string,
    seller: Seller,
    location: Location,
    vehicleBrand: string,
    views: int,
    comments: seq<VideoComments.Comment>,
    commission: int)

  /** The payload of `createComment`. */
  datatype CommentInsert = CommentInsert(
    announcementId: string,
    userId: string,
    content: string,
    videoUrl: Option<string>,
    isSellerResponse: bool)

  /** The payload of `createPurchase`. */
  datatype PurchaseInsert = PurchaseInsert(
    announcementId: string,
    buyerId: string,
    buyerName: Option<string>,
    buyerEmail: Option<string>,
    buyerPhone: Option<string>,
    buyerCity: Option<string>,
    buyerState: Option<string>,
    status: string)

  /** A request sent to the backend, in the order the page sends them. */
  datatype BackendRequest =
    | ListAnnouncements(query: seq<Clause>)
    | IncrementViews(announcementId: string)
    | CreateComment(comment: CommentInsert)
    | CreatePurchase(purchase: PurchaseInsert)

  /** A toast notice shown to the user. */
  datatype Toast = ToastSuccess(message: string) | ToastError(message: string)

  /** The badge of a tier: its label text and colour classes. */
  datatype TypeBadge = TypeBadge(text: string, color: string)

  const AllSentinel := "all"
  const DefaultUserName := "Usuário"
  const MockUserId := "user-temp-id"
  const MockBuyerId := "buyer-temp-id"
  const PendingStatus := "pending"
  const LoadErrorMessage := "Erro ao carregar anúncios. Usando dados de exemplo."
  const CommentSuccessMessage := "Comentário adicionado com sucesso!"
  const CommentErrorMessage := "Erro ao adicionar comentário. Tente novamente."
  const PurchaseSuccessMessage := "Compra registrada com sucesso! O vendedor entrará em contato."
  const PurchaseErrorMessage := "Erro ao processar compra. Tente novamente."

  // ---------------------------------------------------------------------------
  // Pure parts

  /** The filters `loadAnnouncements` passes: "all" and an empty search term become absent. */
  function FilterArgs(selectedState: string, selectedCity: string, selectedBrand: string, searchTerm: string)
    : (f: AnnouncementFilters)
    ensures f.state.None? <==> selectedState == AllSentinel
    ensures f.city.None? <==> selectedCity == AllSentinel
    ensures f.vehicleBrand.None? <==> selectedBrand == AllSentinel
    ensures f.searchTerm.None? <==> searchTerm == ""
    ensures f.state.Some? ==> f.state.value == selectedState
    ensures f.city.Some? ==> f.city.value == selectedCity
    ensures f.vehicleBrand.Some? ==> f.vehicleBrand.value == selectedBrand
    ensures f.searchTerm.Some? ==> f.searchTerm.value == searchTerm
  {
    AnnouncementFilters(
      if selectedState != AllSentinel then Some(selectedState) else None,
      if selectedCity != AllSentinel then Some(selectedCity) else None,
      if selectedBrand != AllSentinel then Some(selectedBrand) else None,
      if searchTerm != "" then Some(searchTerm) else None)
  }

  /**
   * From the page's selections to the query: a state clause is sent iff a
   * concrete state (neither "all" nor empty) is selected, and it names that state.
   */
  lemma PageStateClause(selectedState: string, selectedCity: string, selectedBrand: string, searchTerm: string, v: string)
    ensures Eq("state", v) in AnnouncementQuery(Some(FilterArgs(selectedState, selectedCity, selectedBrand, searchTerm)))
        <==> selectedState != AllSentinel && selectedState != "" && v == selectedState
  {
    StateClauseIff(Some(FilterArgs(selectedState, selectedCity, selectedBrand, searchTerm)), v);
  }

  /** The page's initial selections send no filter clause at all. */
  lemma InitialQueryUnfiltered()
    ensures AnnouncementQuery(Some(FilterArgs(AllSentinel, AllSentinel, AllSentinel, ""))) == [From("announcements")] + OrderingClauses
  {
  }

  /** The comment transformation: the author's name defaults to "Usuário" when missing or empty. */
  function TransformComment(c: CommentRow): (r: VideoComments.Comment)
    ensures |r.userName| > 0
    ensures r.userName != DefaultUserName ==> c.user.Some? && c.user.value.name == Some(r.userName)
    ensures c.user.Some? && c.user.value.name.Some? && c.user.value.name.value != "" ==> r.userName == c.user.value.name.value
    ensures r.userAvatar == (if c.user.Some? then c.user.value.avatarUrl else None)
    ensures r.id == c.id && r.announcementId == c.announcementId && r.userId == c.userId
    ensures r.content == c.content && r.videoUrl == c.videoUrl && r.isSellerResponse == c.isSellerResponse
    ensures r.createdAt == c.createdAt && r.parentCommentId == c.parentCommentId
  {
    var name := if c.user.Some? && c.user.value.name.Some? && c.user.value.name.value != "" then c.user.value.name.value else DefaultUserName;
    VideoComments.Comment(
      c.id, c.announcementId, c.userId, name,
      if c.user.Some? then c.user.value.avatarUrl else None,
      c.content, c.videoUrl, c.isSellerResponse, c.createdAt, c.parentCommentId)
  }

  /** Transforms a list of comment rows in order. */
  function TransformComments(cs: seq<CommentRow>): (r: seq<VideoComments.Comment>)
    ensures |r| == |cs|
    ensures forall i :: 0 <= i < |cs| ==> r[i] == TransformComment(cs[i])
  {
    if cs == [] then [] else [TransformComment(cs[0])] + TransformComments(cs[1..])
  }

  /**
   * The row-to-listing transformation. Reading `item.seller.id` when the seller
   * join is empty throws inside the load's `try`, so that row yields `None`.
   * A missing comment array becomes the empty list.
   */
  function TransformListing(row: AnnouncementRow): (r: Option<Listing>)
    ensures r.Some? <==> row.seller.Some?
    ensures r.Some? ==>
      && r.value.id == row.id && r.value.title == row.title
      && r.value.price == row.price && r.value.tier == row.tier
      && r.value.videoUrl == row.videoUrl && r.value.thumbnailUrl == row.thumbnailUrl
      && r.value.vehicleBrand == row.vehicleBrand
      && r.value.views == row.views && r.value.commission == row.commission
      && r.value.location == Location(row.city, row.state)
      && r.value.seller == Seller(row.seller.value.id, row.seller.value.name, row.seller.value.rating, row.seller.value.avatarUrl)
      && (row.comments.None? ==> r.value.comments == [])
      && (row.comments.Some? ==> r.value.comments == TransformComments(row.comments.value))
  {
    if row.seller.None? then None
    else
      var s := row.seller.value;
      Some(Listing(
        row.id, row.title, row.price, row.tier, row.videoUrl, row.thumbnailUrl,
        Seller(s.id, s.name, s.rating, s.avatarUrl),
        Location(row.city, row.state),
        row.vehicleBrand, row.views,
        if row.comments.Some? then TransformComments(row.comments.value) else [],
        row.commission))
  }

  /** `data.map(...)`: every row transformed in order, or `None` if any row throws. */
  function TransformAll(rows: seq<AnnouncementRow>): (r: Option<seq<Listing>>)
    ensures r.Some? <==> forall i :: 0 <= i < |rows| ==> rows[i].seller.Some?
    ensures r.Some? ==>
      && |r.value| == |rows|
      && forall i :: 0 <= i < |rows| ==> Some(r.value[i]) == TransformListing(rows[i])
  {
    if rows == [] then Some([])
    else
      var head := TransformListing(rows[0]);
      var tail := TransformAll(rows[1..]);
      if head.None? || tail.None? then None
      else Some([head.value] + tail.value)
  }

  /** The example listing shown when the catalog cannot be fetched. */
  const FallbackListing: Listing := Listing(
    "1", "Motor Parcial 1.0 Flex Gol G5", 1200, Premium,
    "https://www.w3schools.com/html/mov_bbb.mp4",
    "https://images.unsplash.com/photo-1486262715619-67b85e0b08d3?w=400&h=300&fit=crop",
    Seller("seller1", "João Silva", 4.8, Some("https://api.dicebear.com/7.x/avataaars/svg?seed=joao")),
    Location("São Paulo", "SP"),
    "Volkswagen", 245, [], 12)

  /** The fallback listing's stored commission (12) is not its tier's percentage (15). */
  lemma FallbackCommissionDisagrees()
    ensures FallbackListing.commission != TierPercent(FallbackListing.tier)
  {
  }

  /** What the catalog holds after a load with the given answer: the rows, or the single fallback listing. */
  function LoadedListings(response: Response<seq<AnnouncementRow>>): (r: seq<Listing>)
    ensures response.error.Some? ==> r == [FallbackListing]
    ensures response.error.None? && TransformAll(response.data).Some? ==> r == TransformAll(response.data).value
    ensures response.error.None? && TransformAll(response.data).None? ==> r == [FallbackListing]
  {
    if response.error.None? && TransformAll(response.data).Some? then TransformAll(response.data).value
    else [FallbackListing]
  }

  /**
   * The toasts a load with the given answer adds: one error notice when it
   * falls back, whether the backend failed or a row could not be transformed,
   * and none when the rows are shown.
   */
  function LoadToasts(response: Response<seq<AnnouncementRow>>): (r: seq<Toast>)
    ensures r == [] || r == [ToastError(LoadErrorMessage)]
    ensures r == [] <==> response.error.None? && TransformAll(response.data).Some?
  {
    if response.error.None? && TransformAll(response.data).Some? then [] else [ToastError(LoadErrorMessage)]
  }

  /** A failed fetch never leaves the catalog empty, and it always shows a notice. */
  lemma FailedLoadNonEmpty(response: Response<seq<AnnouncementRow>>)
    requires response.error.Some?
    ensures |LoadedListings(response)| == 1 && LoadToasts(response) == [ToastError(LoadErrorMessage)]
  {
  }

  /** One listing with its view count raised by one if its id matches. */
  function ViewAdded(a: Listing, id: string): Listing
  {
    if a.id == id then a.(views := a.views + 1) else a
  }

  /**
   * The optimistic view update `prev.map(...)`: same length and order, each
   * listing keeps every field but `views`, and `views` grows by one exactly
   * where the id matches.
   */
  function WithViewAdded(listings: seq<Listing>, id: string): (r: seq<Listing>)
    ensures |r| == |listings|
    ensures forall i :: 0 <= i < |listings| ==>
      && r[i].(views := 0) == listings[i].(views := 0)
      && r[i].views == listings[i].views + (if listings[i].id == id then 1 else 0)
  {
    if listings == [] then [] else [ViewAdded(listings[0], id)] + WithViewAdded(listings[1..], id)
  }

  /** Sum of the displayed view counts. */
  function TotalViews(listings: seq<Listing>): int
  {
    if listings == [] then 0 else listings[0].views + TotalViews(listings[1..])
  }

  /** How many listings carry the id. */
  function CountId(listings: seq<Listing>, id: string): nat
  {
    if listings == [] then 0 else (if listings[0].id == id then 1 else 0) + CountId(listings[1..], id)
  }

  /** The total displayed views grow by the number of listings with the id: by exactly one when ids are unique. */
  lemma {:induction false} ViewUpdateTotal(listings: seq<Listing>, id: string)
    ensures TotalViews(WithViewAdded(listings, id)) == TotalViews(listings) + CountId(listings, id)
  {
    if listings != [] {
      ViewUpdateTotal(listings[1..], id);
      assert WithViewAdded(listings, id)[1..] == WithViewAdded(listings[1..], id);
    }
  }

  /** `getTypeLabel`: premium and new have their own badge; every other tier is shown as normal. */
  function TypeLabel(t: AnnouncementType): (b: TypeBadge)
    ensures b.text == "Premium" <==> t == Premium
    ensures b.text == "Novo" <==> t == New
    ensures b.text == "Normal" <==> t != Premium && t != New
  {
    match t
    case Premium => TypeBadge("Premium", "bg-gradient-to-r from-amber-500 to-orange-600")
    case New => TypeBadge("Novo", "bg-gradient-to-r from-emerald-500 to-teal-600")
    case _ => TypeBadge("Normal", "bg-gradient-to-r from-blue-500 to-indigo-600")
  }

  // ---------------------------------------------------------------------------
  // The page's state and handlers

  class CatalogPage {
    var searchTerm: string
    var selectedState: string
    var selectedCity: string
    var selectedBrand: string
    var announcements: seq<Listing>
    var loading: bool
    var selectedVideo: Option<Listing>
    var selectedComments: Option<Listing>
    var selectedPurchase: Option<Listing>
    /** Requests sent to the backend, oldest first. */
    var requests: seq<BackendRequest>
    /** Toasts shown, oldest first. */
    var toasts: seq<Toast>

    /** The page's initial state: no filters, no listings yet, loading, nothing open. */
    constructor ()
      ensures searchTerm == "" && selectedState == AllSentinel && selectedCity == AllSentinel && selectedBrand == AllSentinel
      ensures announcements == [] && loading
      ensures selectedVideo.None? && selectedComments.None? && selectedPurchase.None?
      ensures requests == [] && toasts == []
    {
      searchTerm := "";
      selectedState := AllSentinel;
      selectedCity := AllSentinel;
      selectedBrand := AllSentinel;
      announcements := [];
      loading := true;
      selectedVideo := None;
      selectedComments := None;
      selectedPurchase := None;
      requests := [];
      toasts := [];
    }

    /** The search input's `onChange`. */
    method SetSearchTerm(term: string)
      modifies this`searchTerm
      ensures searchTerm == term
    {
      searchTerm := term;
    }

    /** The state select's `onValueChange`. */
    method SetSelectedState(state: string)
      modifies this`selectedState
      ensures selectedState == state
    {
      selectedState := state;
    }

    /** The city select's `onValueChange`. */
    method SetSelectedCity(city: string)
      modifies this`selectedCity
      ensures selectedCity == city
    {
      selectedCity := city;
    }

    /** The brand select's `onValueChange`. */
    method SetSelectedBrand(brand: string)
      modifies this`selectedBrand
      ensures selectedBrand == brand
    {
      selectedBrand := brand;
    }

    /** The comments button of a card. */
    method OpenComments(a: Listing)
      modifies this`selectedComments
      ensures selectedComments == Some(a)
    {
      selectedComments := Some(a);
    }

    /** The buy button of a card. */
    method OpenPurchase(a: Listing)
      modifies this`selectedPurchase
      ensures selectedPurchase == Some(a)
    {
      selectedPurchase := Some(a);
    }

    /**
     * `loadAnnouncements`: queries with the current filters; on success shows
     * the transformed rows, on any failure (backend error or a row that cannot
     * be transformed) shows the single fallback listing and an error toast;
     * `loading` is false afterwards in every case.
     */
    method LoadAnnouncements(response: Response<seq<AnnouncementRow>>)
      modifies this`loading, this`announcements, this`requests, this`toasts
      ensures !loading
      ensures requests == old(requests) + [ListAnnouncements(AnnouncementQuery(Some(FilterArgs(selectedState, selectedCity, selectedBrand, searchTerm))))]
      ensures announcements == LoadedListings(response)
      ensures toasts == old(toasts) + LoadToasts(response)
    {
      loading := true;
      var filters := FilterArgs(selectedState, selectedCity, selectedBrand, searchTerm);
      var query, result := GetAnnouncements(Some(filters), response);
      requests := requests + [ListAnnouncements(query)];
      var transformed := if result.Success? then TransformAll(result.value) else None;
      if transformed.Some? {
        announcements := transformed.value;
      } else {
        toasts := toasts + [ToastError(LoadErrorMessage)];
        announcements := [FallbackListing];
      }
      loading := false;
    }

    /**
     * `handleVideoClick`: opens the viewer first, then asks for a view
     * increment; only when that call returns is the local count raised.
     */
    method HandleVideoClick(a: Listing, increment: CallOutcome)
      modifies this`selectedVideo, this`requests, this`announcements
      ensures selectedVideo == Some(a)
      ensures requests == old(requests) + [IncrementViews(a.id)]
      ensures announcements == if increment == Succeeds then WithViewAdded(old(announcements), a.id) else old(announcements)
    {
      selectedVideo := Some(a);
      requests := requests + [IncrementViews(a.id)];
      if increment == Succeeds {
        announcements := WithViewAdded(announcements, a.id);
      }
    }

    /**
     * `handleAddComment`: creates a buyer comment (never a seller response)
     * under the placeholder user; on success shows a toast and reloads the
     * whole catalog, on failure shows an error toast. It never throws.
     */
    method HandleAddComment(announcementId: string, content: string, videoUrl: Option<string>,
                            create: CallOutcome, reload: Response<seq<AnnouncementRow>>)
      modifies this`loading, this`announcements, this`requests, this`toasts
      ensures |requests| > |old(requests)| && requests[..|old(requests)|] == old(requests)
      ensures requests[|old(requests)|] == CreateComment(CommentInsert(announcementId, MockUserId, content, videoUrl, false))
      ensures create == Throws ==>
        && requests == old(requests) + [CreateComment(CommentInsert(announcementId, MockUserId, content, videoUrl, false))]
        && toasts == old(toasts) + [ToastError(CommentErrorMessage)]
        && announcements == old(announcements) && loading == old(loading)
      ensures create == Succeeds ==>
        && requests == old(requests) + [CreateComment(CommentInsert(announcementId, MockUserId, content, videoUrl, false)),
                                         ListAnnouncements(AnnouncementQuery(Some(FilterArgs(selectedState, selectedCity, selectedBrand, searchTerm))))]
        && toasts == old(toasts) + [ToastSuccess(CommentSuccessMessage)] + LoadToasts(reload)
        && announcements == LoadedListings(reload) && !loading
    {
      requests := requests + [CreateComment(CommentInsert(announcementId, MockUserId, content, videoUrl, false))];
      if create == Succeeds {
        toasts := toasts + [ToastSuccess(CommentSuccessMessage)];
        LoadAnnouncements(reload);
      } else {
        toasts := toasts + [ToastError(CommentErrorMessage)];
      }
    }

    /**
     * `handleConfirmPurchase`: records a pending purchase for the selected
     * listing under the placeholder buyer. The buyer fields are read from
     * `data`, which carries only the wizard's three selections, so they are
     * all absent. With no listing selected, reading its id throws inside the
     * `try` and only the error toast appears. The selection is cleared only on
     * success.
     */
    method HandleConfirmPurchase(data: PurchaseWizard.PurchaseSelection, create: CallOutcome)
      modifies this`requests, this`toasts, this`selectedPurchase
      ensures old(selectedPurchase).None? ==>
        && requests == old(requests) && selectedPurchase.None?
        && toasts == old(toasts) + [ToastError(PurchaseErrorMessage)]
      ensures old(selectedPurchase).Some? ==>
        && requests == old(requests) + [CreatePurchase(PurchaseInsert(old(selectedPurchase).value.id, MockBuyerId,
                                                                      None, None, None, None, None, PendingStatus))]
        && selectedPurchase == (if create == Succeeds then None else old(selectedPurchase))
        && toasts == old(toasts) + [if create == Succeeds then ToastSuccess(PurchaseSuccessMessage) else ToastError(PurchaseErrorMessage)]
    {
      if selectedPurchase.None? {
        toasts := toasts + [ToastError(PurchaseErrorMessage)];
        return;
      }
      var purchase := PurchaseInsert(selectedPurchase.value.id, MockBuyerId, None, None, None, None, None, PendingStatus);
      requests := requests + [CreatePurchase(purchase)];
      if create == Succeeds {
        toasts := toasts + [ToastSuccess(PurchaseSuccessMessage)];
        selectedPurchase := None;
      } else {
        toasts := toasts + [ToastError(PurchaseErrorMessage)];
      }
    }

    /**
     * The comment panel wired to this page: its `onAddComment` is
     * `handleAddComment` for the listing whose comments are open, with no
     * video. Because `handleAddComment` never throws, the panel's input is
     * cleared whenever it was not blank, even when the comment was not created.
     */
    method SubmitComment(form: VideoComments.CommentForm, create: CallOutcome, reload: Response<seq<AnnouncementRow>>)
      returns (raised: bool)
      requires selectedComments.Some?
      modifies this`loading, this`announcements, this`requests, this`toasts, form
      ensures !raised
      ensures !VideoComments.AllWhitespace(old(form.newComment)) ==>
        && form.newComment == "" && !form.isSubmitting
        && |requests| > |old(requests)|
        && requests[|old(requests)|] == CreateComment(CommentInsert(selectedComments.value.id, MockUserId, old(form.newComment), None, false))
      ensures !VideoComments.AllWhitespace(old(form.newComment)) ==>
        && form.calls == old(form.calls) + [VideoComments.AddCommentCall(old(form.newComment), None)]
        && requests == old(requests)
             + [CreateComment(CommentInsert(selectedComments.value.id, MockUserId, old(form.newComment), None, false))]
             + (if create == Succeeds
                then [ListAnnouncements(AnnouncementQuery(Some(FilterArgs(selectedState, selectedCity, selectedBrand, searchTerm))))]
                else [])
        && toasts == old(toasts)
             + (if create == Succeeds then [ToastSuccess(CommentSuccessMessage)] + LoadToasts(reload)
                else [ToastError(CommentErrorMessage)])
        && announcements == (if create == Succeeds then LoadedListings(reload) else old(announcements))
        && loading == (if create == Succeeds then false else old(loading))
      ensures VideoComments.AllWhitespace(old(form.newComment)) ==>
        && form.newComment == old(form.newComment) && form.isSubmitting == old(form.isSubmitting)
        && form.calls == old(form.calls) && requests == old(requests) && toasts == old(toasts)
        && announcements == old(announcements) && loading == old(loading)
    {
      if !VideoComments.AllWhitespace(form.newComment) {
        HandleAddComment(selectedComments.value.id, form.newComment, None, create, reload);
      }
      ghost var sent := requests;
      raised := form.HandleSubmit(Succeeds);
      assert requests == sent;
    }
  }
}
