# Storefront logic of a video-backed auto-parts marketplace, in Dafny

The storefront lists used and new auto parts, each backed by a seller's video.
Persistence lives in a hosted backend; what the storefront itself decides is
small and sequential, and this project models it:

- **Commission** (`commission.dfy`, from `src/lib/types.ts`): the tier table
  (normal 8%, premium 15%, new 5%), `calculateCommission` and
  `calculateSellerAmount`, with exact rational rates.
- **Purchase wizard** (`purchase_wizard.dfy`, from
  `src/components/custom/purchase-modal.tsx`): a class holding the step and the
  three selections; Continue and Back handlers proved against the
  specification functions `NextStep` and `PrevStep`; the disabled guard; the
  inline copy of the commission formula.
- **Comment panel** (`video_comments.dfy`, from
  `src/components/custom/video-comments.tsx`): JavaScript `trim` and the
  submit guard, the submit handler with its try/finally, the newest-first
  stable sort, the count noun.
- **Catalog query** (`queries.dfy`, from `src/lib/supabase-queries.ts`):
  `getAnnouncements` as the list of clauses it builds, and its throw on a
  backend error.
- **Catalog page** (`catalog.dfy`, from `src/app/page.tsx`): the page state
  as a class, the filter mapping, the row transformation, the fallback
  listing, the optimistic view update, the tier labels and the four handlers.

Backend calls are parameters: a `CallOutcome` (the call returns or throws) or
a `Response` (`{ data, error }`). Every request the page sends is appended to
its `requests` field, and every toast to `toasts`, so the order of effects is
part of each handler's contract.

Where the code disagrees with itself, the model follows the code:

- A failed comment submission is meant to keep the input: the panel keeps it
  when `onAddComment` throws (`src/components/custom/video-comments.tsx:36-41`),
  but the page's `handleAddComment`
  (`src/app/page.tsx:203-206`) catches every error, so in the wired-up page
  the input is always cleared. `Catalog.CatalogPage.SubmitComment` proves this.
- The fallback listing stores commission 12 (`src/app/page.tsx:148`) while
  the premium rate is 15 (`src/lib/types.ts:147`);
  `Catalog.FallbackCommissionDisagrees` states the mismatch.
- `handleConfirmPurchase` reads `name`, `email`, `phone`, `city` and `state`
  from the wizard's record (`src/app/page.tsx:217-221`), which carries only
  the payment method, delivery method and postal code. The purchase is sent
  with all five buyer fields absent, and the three selections are never sent.

## Model

| member | source | states |
|---|---|---|
| Commission.TierPercent | src/lib/constants.ts:113-142 | The table's per-tier percentage is below 100. |
| Commission.Rate | src/lib/types.ts:145-149 | Every tier's rate lies strictly between 0 and 1. |
| Commission.RateIsTierPercent | src/lib/types.ts:145-149 | Each rate equals the `TIPOS_ANUNCIO` percentage over 100. |
| Commission.RateOrdering | src/lib/types.ts:145-149 | New has the lowest rate and premium the highest. |
| Commission.CalculateCommission | src/lib/types.ts:151-153 | A zero price gives zero commission; a positive price gives a commission strictly between 0 and the price. |
| Commission.CalculateSellerAmount | src/lib/types.ts:155-157 | For a non-negative price the seller amount lies between 0 and the price. |
| Commission.CommissionBounds | src/lib/types.ts:151-153 | Price times rate is 0 for a zero price and strictly between 0 and the price for a positive one. |
| Commission.SplitIsExact | src/lib/types.ts:151-157 | Commission plus seller amount equals the price, for every tier and price. |
| Commission.CommissionMonotone | src/lib/types.ts:151-153 | The commission never decreases as the price grows. |
| Commission.CommissionInCents | src/lib/types.ts:151-153 | For an integer price, 100 times the commission is the integer price times the percentage, so no fraction of a cent appears. |
| PurchaseWizard.PaymentAdvance | src/components/custom/purchase-modal.tsx:238 | Continue in `payment` reaches `delivery` iff a payment method is chosen; otherwise the step stays. |
| PurchaseWizard.DeliveryAdvance | src/components/custom/purchase-modal.tsx:239 | Continue in `delivery` reaches `confirm` iff both the delivery method and the postal code are non-empty; otherwise the step stays. |
| PurchaseWizard.NoSkip | src/components/custom/purchase-modal.tsx:237-241 | Continue moves forward at most one step and never back, and nothing reaches `confirm` from `payment`. |
| PurchaseWizard.BackUndoesContinue | src/components/custom/purchase-modal.tsx:224-241 | After any Continue that moved, Back returns to the step it left. |
| PurchaseWizard.Wizard.constructor | src/components/custom/purchase-modal.tsx:41-44 | The wizard starts in `payment` with empty payment method, delivery method and postal code. |
| PurchaseWizard.Wizard.SetPaymentMethod | src/components/custom/purchase-modal.tsx:109 | Choosing a payment method changes that field only and keeps the postal code within nine characters. |
| PurchaseWizard.Wizard.SetDeliveryMethod | src/components/custom/purchase-modal.tsx:151 | Choosing a delivery method changes that field only and keeps the postal code within nine characters. |
| PurchaseWizard.Wizard.SetZipCode | src/components/custom/purchase-modal.tsx:142-148 | Typing a postal code of at most nine characters changes that field only. |
| PurchaseWizard.Wizard.Continue | src/components/custom/purchase-modal.tsx:236-241 | The step becomes `NextStep` of the old step and the unchanged selections; in `confirm` it emits exactly the three current selections and stays in `confirm`, elsewhere it emits nothing. |
| PurchaseWizard.Wizard.Back | src/components/custom/purchase-modal.tsx:224-230 | `delivery` goes to `payment`, `confirm` to `delivery`, `payment` stays; no selection changes, so the postal code stays within nine characters. |
| PurchaseWizard.Wizard.BackOffered | src/components/custom/purchase-modal.tsx:224 | The Back button is shown exactly when Back would change the step. |
| PurchaseWizard.Wizard.ContinueDisabled | src/components/custom/purchase-modal.tsx:242-245 | The Continue button is disabled exactly when the step is not `confirm` and the forward guard fails. |
| PurchaseWizard.Wizard.CommissionRate | src/components/custom/purchase-modal.tsx:46 | The modal's inline rate equals `COMMISSION_RATES` for the listing's tier. |
| PurchaseWizard.Wizard.CommissionAmount | src/components/custom/purchase-modal.tsx:47 | The modal's commission equals `calculateCommission` of the price and tier. |
| PurchaseWizard.Wizard.SellerAmount | src/components/custom/purchase-modal.tsx:48 | The modal's seller amount equals `calculateSellerAmount` of the price and tier. |
| PurchaseWizard.WizardSplitIsExact | src/components/custom/purchase-modal.tsx:46-48 | The summary's commission and seller amount add up to the price. |
| PurchaseWizard.BackAndForth | src/components/custom/purchase-modal.tsx:224-241 | Payment, delivery, confirm, back to delivery, confirm: confirming emits the first selections without re-entering them. |
| VideoComments.TrimStart | src/components/custom/video-comments.tsx:33 | Leading trim keeps a suffix, drops only whitespace, and starts with a non-whitespace character. |
| VideoComments.TrimEnd | src/components/custom/video-comments.tsx:33 | Trailing trim keeps a prefix, drops only whitespace, and ends with a non-whitespace character. |
| VideoComments.Trim | src/components/custom/video-comments.tsx:33 | The trimmed text is no longer than the input and, when non-empty, neither starts nor ends with whitespace. |
| VideoComments.TrimEmptyIff | src/components/custom/video-comments.tsx:33 | Trimmed text is empty iff every character is whitespace. |
| VideoComments.SendDisabled | src/components/custom/video-comments.tsx:92 | Send is disabled iff a submission is in flight or the text is whitespace only. |
| VideoComments.CommentForm.constructor | src/components/custom/video-comments.tsx:29-30 | The panel starts with an empty input, not submitting, with no calls made. |
| VideoComments.CommentForm.SetNewComment | src/components/custom/video-comments.tsx:68 | Typing replaces the input text. |
| VideoComments.CommentForm.HandleSubmit | src/components/custom/video-comments.tsx:32-42 | Whitespace-only input changes nothing and calls nothing. Otherwise it makes one call with the untrimmed text and no video, and `isSubmitting` ends false. The input is cleared only if the call returns; a throw keeps it and propagates. |
| VideoComments.SortedComments | src/components/custom/video-comments.tsx:44-46 | The displayed list is a permutation of the comments, ordered newest first. |
| VideoComments.SortIsStable | src/components/custom/video-comments.tsx:44-46 | Comments with equal timestamps keep their input order. |
| VideoComments.SortKeepsSorted | src/components/custom/video-comments.tsx:44-46 | A list already ordered newest first is returned unchanged. |
| VideoComments.SortIdempotent | src/components/custom/video-comments.tsx:44-46 | Sorting the sorted list changes nothing. |
| VideoComments.CountNoun | src/components/custom/video-comments.tsx:104 | The heading says "comentário" exactly for one comment and "comentários" otherwise. |
| Queries.GetAnnouncements | src/lib/supabase-queries.ts:64-101 | The clauses built are `AnnouncementQuery(filters)`. The call fails iff the backend reports an error, with that error, and otherwise returns the backend's data. |
| Queries.OrderingAlwaysLast | src/lib/supabase-queries.ts:94-95 | Every query starts from the announcements table and ends with commission descending, then price descending, and has no other ordering. |
| Queries.StateClauseIff | src/lib/supabase-queries.ts:78-80 | A state equality clause is present iff the state filter is set, non-empty and not "all", and it carries that value. |
| Queries.CityClauseIff | src/lib/supabase-queries.ts:82-84 | The same for the city filter. |
| Queries.BrandClauseIff | src/lib/supabase-queries.ts:86-88 | The same for the brand filter, on column `vehicle_brand`. |
| Queries.SearchClauseIff | src/lib/supabase-queries.ts:90-92 | A title clause `%term%` is present iff the search term is non-empty. |
| Queries.FilterClauseLayout | src/lib/supabase-queries.ts:78-95 | Between the table and the ordering come the filter clauses in the order state, city, brand, search; the query has three clauses plus one per applying filter. |
| Queries.AllIsAbsent | src/lib/supabase-queries.ts:78-92 | Passing "all" or "" for state, city or brand, or "" for the search term, builds the same query as leaving it out; empty filters equal no filters. |
| Catalog.FilterArgs | src/app/page.tsx:94-99 | State, city and brand are unset exactly when "all" and passed as the value otherwise; the search term is unset exactly when empty. |
| Catalog.PageStateClause | src/app/page.tsx:94-99 | The page sends a state clause iff a concrete state is selected, and it names that state. |
| Catalog.InitialQueryUnfiltered | src/app/page.tsx:73-76 | With the initial selections the query has no filter clause. |
| Catalog.TransformComment | src/app/page.tsx:121-132 | The author name is never empty: the row's name when present and non-empty, otherwise "Usuário". All other fields are copied. |
| Catalog.TransformComments | src/app/page.tsx:121-132 | Comment rows are transformed one to one, in order. |
| Catalog.TransformListing | src/app/page.tsx:102-134 | A row transforms iff its seller join is present. The id, title, price, tier, video and thumbnail URLs, seller, location, vehicle brand, views and commission are copied; a missing comment list becomes empty, a present one is transformed. |
| Catalog.TransformAll | src/app/page.tsx:102-136 | All rows transform, in order and one to one, iff every row has a seller; otherwise the load fails. |
| Catalog.FallbackCommissionDisagrees | src/app/page.tsx:142-165 | The fallback listing's stored commission differs from its tier's percentage. |
| Catalog.LoadedListings | src/app/page.tsx:136-165 | After a failed fetch or transformation the catalog is exactly the one fallback listing; otherwise it is the transformed rows. |
| Catalog.LoadToasts | src/app/page.tsx:102-139 | A load adds no toast or one error toast; it adds none exactly when the backend answers without error and every row transforms, so a backend error or a row without a seller both show the notice. |
| Catalog.FailedLoadNonEmpty | src/app/page.tsx:137-168 | A failed fetch leaves exactly one listing and shows the error notice. |
| Catalog.WithViewAdded | src/app/page.tsx:180-182 | Same length and order. Only the listings with the id gain exactly one view, and every other field and listing is unchanged. |
| Catalog.ViewUpdateTotal | src/app/page.tsx:180-182 | Total views grow by the number of listings with that id. |
| Catalog.TypeLabel | src/app/page.tsx:233-242 | Premium is labelled "Premium", new "Novo" and every other tier "Normal", each exactly. |
| Catalog.CatalogPage.constructor | src/app/page.tsx:72-84 | The page starts with no filters ("all", empty search), no listings, loading, nothing open. |
| Catalog.CatalogPage.SetSearchTerm | src/app/page.tsx:290 | Typing in the search box changes only the search term. |
| Catalog.CatalogPage.SetSelectedState | src/app/page.tsx:318 | Choosing a state changes only that selection. |
| Catalog.CatalogPage.SetSelectedCity | src/app/page.tsx:338 | Choosing a city changes only that selection. |
| Catalog.CatalogPage.SetSelectedBrand | src/app/page.tsx:356 | Choosing a brand changes only that selection. |
| Catalog.CatalogPage.OpenComments | src/app/page.tsx:462 | Opens the comments of the given listing. |
| Catalog.CatalogPage.OpenPurchase | src/app/page.tsx:473 | Selects the given listing for purchase. |
| Catalog.CatalogPage.LoadAnnouncements | src/app/page.tsx:91-169 | Sends one query built from the current filters. The catalog becomes `LoadedListings` of the answer, a failure adds the error toast, and `loading` ends false. |
| Catalog.CatalogPage.HandleVideoClick | src/app/page.tsx:175-186 | Opens the viewer whatever happens, then requests the increment. Views change as `WithViewAdded` only if that call returns; a throw leaves the listings unchanged. |
| Catalog.CatalogPage.HandleAddComment | src/app/page.tsx:188-207 | Sends a comment with the placeholder user and `isSellerResponse` false. On success it adds a success toast and then reloads; on failure it adds an error toast and changes nothing else. |
| Catalog.CatalogPage.HandleConfirmPurchase | src/app/page.tsx:209-231 | With a selected listing, sends a `pending` purchase for it under the placeholder buyer with all buyer fields absent, and clears the selection only on success. With none selected, it adds an error toast and sends nothing. |
| Catalog.CatalogPage.SubmitComment | src/app/page.tsx:541-546 | The wired-up panel never raises. Blank text changes nothing on the page or the panel. Non-blank text is passed to `onAddComment` and sent as one comment for the open listing by the placeholder user; the input is cleared even when creating it failed; on success the success notice is shown and the catalog is reloaded with the current filters, on failure only the error notice is shown. |

## Left out

- Rendering, styling, dialogs, icons and console logging: presentational only.
- `src/lib/supabase.ts` and every other function of `src/lib/supabase-queries.ts`
  (user, comment, purchase and media CRUD, storage upload and delete): thin
  wrappers over the hosted backend. The page's calls to them are modelled
  only as a `CallOutcome`.
- How the hosted database evaluates `eq`, `ilike` and `order`: the query is
  the list of clauses sent, so which rows a query selects is not modelled.
- `src/components/custom/video-player.tsx`: its `isPlaying` flag only mirrors
  media events and is never read.
- The columns and embedded joins named in `.select(...)`: the first clause
  records the table only.
- The shape of the `comments` join: `getAnnouncements` selects only
  `comments(count)` (`src/lib/supabase-queries.ts:75`), so the backend returns
  a one-element array `[{ count: n }]` per listing, and the `.map` at
  `src/app/page.tsx:121-132` turns it into one comment whose fields are all
  undefined except the author name "Usuário". The model instead takes comment
  rows of the full shape the page reads; that placeholder comment is not
  modelled.
- Commission.CalculateCommission: uses exact rational arithmetic, not IEEE
  doubles, so the rounding of `price * 0.15` is not modelled.
- Commission.CalculateSellerAmount: likewise exact; with doubles the sum of
  the two amounts can differ from the price in the last bit.
- `Date` parsing of `createdAt`: comments carry an integer timestamp. Strings
  that do not parse (a NaN comparison) are not modelled.
- Locale formatting (`toLocaleString`, `Intl.NumberFormat`,
  `toLocaleDateString`) and the number in the count heading: library calls.
- Asynchronous interleaving: each handler runs to completion. `isSubmitting`
  is true only while `onAddComment` is pending, which a sequential model
  cannot observe. Stale updates after a closed overlay are out of scope.
- A tier outside `normal`, `premium` and `new` coming from the backend is not
  modelled, since the row's `type` is taken as a tier. `getTypeLabel`'s
  default branch therefore only ever sees `normal`.
- Closing the overlays (`onClose` setting a selection to null) and
  `handleSearch` (a plain call to `loadAnnouncements`) are plain assignments
  and calls, and have no member of their own.
- A missing `onAddComment` video reference is the only case modelled for the
  panel; the "add video" button has no handler in the source.
