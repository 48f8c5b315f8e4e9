# Luxury webstore storefront and admin: a Dafny model

This project models the client-side core of a Next.js luxury webstore. The
core holds:

- the zustand stores that keep in-memory copies of database tables: the
  wishlist, the hero showcase settings, the hero slides, the admin product
  list and the discount banners;
- the string helpers of `lib/utils.ts`;
- the components whose behaviour is more than layout: the new-product
  form, the live search box, the hero slider, the quick-view modal, the
  discount banner countdown, the admin product list, the featured grid,
  the trending section and the product card.

Each store and each stateful component is a Dafny `class`. Its fields are
the store's or the component's state, and its methods are the handlers,
with `modifies` clauses. The expressions they evaluate (filters, slugs,
labels, the countdown arithmetic) are functions. Lemmas state what the
source promises about those functions: uniqueness, round trips, ordering,
bounds and tiers.

Remote database calls are never performed. Each store action receives the
call's outcome as a parameter, either `Succeeded(data)` or
`Failed(message)`. It returns `Completed`, or `Rethrown(message)` when the
source rethrows the error. The browser prompt, the confirm dialog and the
time left before a countdown ends are parameters too. Calls into the cart
store, which is not part of this model, are returned as `CartRequest`
values.

Files, one module each:

| file | module | models |
|---|---|---|
| `wrappers.dfy` | `Wrappers` | `Option` for null or undefined; `Remote` and `Completion`; truthiness of a nullable string |
| `seqs.dfy` | `Seqs` | `filter`, `find`, `some`, `map` with a replacement, `slice(0, n)`, filtering by index, and `Array.from(new Set(...))` |
| `text.dfy` | `Text` | ASCII `toLowerCase`, `trim`, `includes`, and replacing runs of characters by one `-` |
| `catalog.dfy` | `Catalog` | the `Product` record and the lookups by id |
| `utils.dfy` | `Utils` | `lib/utils.ts` |
| `wishlist.dfy` | `Wishlist` | `store/use-wishlist.ts` |
| `hero_showcase.dfy` | `HeroShowcase` | `store/use-hero-showcase.ts` |
| `hero_slides.dfy` | `HeroSlides` | `store/use-hero-slides.ts` |
| `admin_products.dfy` | `AdminProducts` | `store/use-admin-products.ts` |
| `new_product_form.dfy` | `NewProductForm` | `app/admin/products/new/page.tsx` |
| `live_search.dfy` | `LiveSearch` | `components/shared/live-search.tsx` |
| `hero_slider.dfy` | `HeroSlider` | `components/home/hero-slider.tsx` |
| `quick_view.dfy` | `QuickView` | `components/shared/quick-view-modal.tsx` |
| `discount_banner.dfy` | `DiscountBanners` | `store/use-discount-banners.ts`, `components/home/discount-banner.tsx` |
| `admin_product_list.dfy` | `AdminProductList` | `app/admin/products/page.tsx` |
| `bento_grid.dfy` | `BentoGrid` | `components/home/bento-grid.tsx` |
| `trending_section.dfy` | `TrendingSection` | `components/home/trending-section.tsx` |
| `product_card.dfy` | `ProductCard` | `components/shared/product-card.tsx` |

Conventions:

- Strings are `seq<char>`. Only ASCII letters change case.
- Whitespace for `trim` and `\s` is the ECMAScript set: the WhiteSpace and
  LineTerminator code points.
- JavaScript's `%` keeps the sign of the dividend, so the slider writes it
  out as `JsRem` rather than using Dafny's Euclidean `%`.
- The countdown's `Math.floor` of floating-point quotients is integer
  division on the whole number of milliseconds left. For a positive
  difference the two agree.

## Model

| member | source | states |
|---|---|---|
| Text.Lower | lib/utils.ts:38 | `toLowerCase` keeps the length and lowercases exactly the ASCII capitals, position by position |
| Text.LowerIdempotent | lib/utils.ts:38 | lowercasing twice is lowercasing once |
| Text.TrimBy | lib/utils.ts:39 | `trim` yields a contiguous slice of the input that neither starts nor ends with whitespace |
| Text.TrimByRemovesOnly | lib/utils.ts:39 | everything `trim` drops from either end is whitespace |
| Text.TrimByEmpty | components/shared/live-search.tsx:27 | a string trims to empty exactly when all of it is whitespace |
| Text.ContainsAt | components/shared/live-search.tsx:37-39 | `includes` holds exactly when the needle occurs at some position |
| Text.CollapseRuns | lib/utils.ts:41 | replacing runs by `-` never lengthens the text; every character is `-` or a kept non-separator of the input; with `-` a separator no `--` remains |
| Catalog.HasId | store/use-wishlist.ts:54-56 | `some(item => item.id === id)` holds iff some item has that id |
| Catalog.WithoutId | store/use-admin-products.ts:113-115 | the filtered list has no item with the id, keeps every other item in order, and is the list itself when the id is absent; each kept item as often as it occurs in the input |
| Catalog.ReplaceId | store/use-admin-products.ts:93-97 | same length; exactly the items with the id are replaced by the new row |
| Catalog.FindById | store/use-admin-products.ts:122-124 | `find` is undefined iff no item has the id, and otherwise is the first item with it |
| Catalog.WithoutIdKeepsOthers | store/use-admin-products.ts:113-115 | deleting one id keeps every other id present or absent as before |
| Catalog.WithoutIdKeepsUnique | store/use-wishlist.ts:35-39 | removing by id keeps the ids unique |
| Catalog.WithoutIdCount | store/use-wishlist.ts:35-39 | with unique ids, removing a present id shortens the list by exactly one |
| Utils.SlugifyIsSlug | lib/utils.ts:36-43 | `slugify` always yields lower-case letters, digits and single inner dashes, with no dash at either end |
| Utils.KeptChars | lib/utils.ts:38-40 | after lowercasing, trimming and removing `[^\w\s-]`, only separators, lower-case letters and digits remain |
| Utils.SlugFromKept | lib/utils.ts:41-42 | collapsing `[\s_-]+` to `-` and stripping outer dashes turns such text into a slug |
| Utils.TrimmedDashesIsSlug | lib/utils.ts:42 | stripping the outer dashes of slug characters without `--` leaves a slug |
| Utils.SlugPrefixSteps | lib/utils.ts:38-40 | lowercasing, trimming and filtering leave a slug unchanged |
| Utils.SlugCollapseSteps | lib/utils.ts:41 | collapsing separator runs leaves a slug unchanged |
| Utils.SlugifyFixesSlugs | lib/utils.ts:36-43 | `slugify` of a slug is the slug itself |
| Utils.SlugifyIdempotent | lib/utils.ts:36-43 | `slugify(slugify(t)) == slugify(t)` |
| Utils.Truncate | lib/utils.ts:59-62 | text up to the length is returned as is; longer text becomes its first `length` characters, trimmed, followed by `...` |
| Utils.TruncateDefault | lib/utils.ts:59 | with the default length 100, text of at most 100 characters is kept and longer text ends in `...` within 103 characters |
| Utils.GetImageUrl | lib/utils.ts:48-54 | empty path gives the placeholder; a path starting with `http` is returned unchanged; otherwise the public storage URL of the bucket (default `products`) ending in the path |
| Utils.ImageUrlEndsWithPath | lib/utils.ts:48-54 | the URL is never empty and always ends with a non-empty path |
| Utils.GetStockStatus | lib/utils.ts:81-85 | "Out of stock" iff stock is 0, "Low stock" iff non-zero and below 10, "In stock" iff at least 10 |
| Utils.StockStatusAgreesWithIsInStock | lib/utils.ts:74-85 | for non-negative stock the label is "Out of stock" iff `isInStock` is false; negative stock is "Low stock" and not in stock |
| Wishlist.Added | store/use-wishlist.ts:24-33 | the product's id is present afterwards; an existing id leaves the list unchanged; a new one is appended at the end with the earlier items untouched |
| Wishlist.Removed | store/use-wishlist.ts:35-39 | no item with the id is left |
| Wishlist.AddedKeepsUnique | store/use-wishlist.ts:24-33 | adding keeps the ids unique |
| Wishlist.RemovedKeepsUnique | store/use-wishlist.ts:35-39 | removing keeps the ids unique |
| Wishlist.ToggledKeepsUnique | store/use-wishlist.ts:41-48 | toggling keeps the ids unique |
| Wishlist.ToggleFlips | store/use-wishlist.ts:41-48 | after a toggle the product is in the list iff it was not before |
| Wishlist.ToggleKeepsOthers | store/use-wishlist.ts:41-48 | a toggle leaves the presence of every other id unchanged |
| Wishlist.ToggleTwiceAbsent | store/use-wishlist.ts:41-48 | toggling an absent product twice restores the list exactly |
| Wishlist.ToggleTwicePresent | store/use-wishlist.ts:41-48 | toggling a present product twice moves it to the end, as the given product object |
| Wishlist.CountAfterUpdates | store/use-wishlist.ts:24-60 | with unique ids, adding grows the count by one iff the id is new, and removing shrinks it by one iff the id is present |
| Wishlist.WishlistStore.constructor | store/use-wishlist.ts:22 | the wishlist starts empty |
| Wishlist.WishlistStore.AddItem | store/use-wishlist.ts:24-33 | the items become `Added(items, product)`; unique ids are preserved |
| Wishlist.WishlistStore.RemoveItem | store/use-wishlist.ts:35-39 | the items become `Removed(items, id)`; unique ids are preserved |
| Wishlist.WishlistStore.ToggleItem | store/use-wishlist.ts:41-48 | checks membership, then removes or adds; unique ids are preserved |
| Wishlist.WishlistStore.ClearWishlist | store/use-wishlist.ts:50-52 | the items become empty |
| Wishlist.WishlistStore.IsInWishlist | store/use-wishlist.ts:54-56 | true iff some item has the id |
| Wishlist.WishlistStore.GetTotalItems | store/use-wishlist.ts:58-60 | the number of items |
| HeroShowcase.SetIds | store/use-hero-showcase.ts:73-78 | `filter(Boolean)` keeps exactly the non-null, non-empty slot ids, never more than there are slots |
| HeroShowcase.IdsOf | store/use-hero-showcase.ts:86 | the ids of a product list, position by position |
| HeroShowcase.FoundProducts | store/use-hero-showcase.ts:85-87 | mapping ids to catalogue products and dropping misses yields, in id order, exactly the ids found; each product is what `find` returns for its id |
| HeroShowcase.GetHeroProduct | store/use-hero-showcase.ts:63-67 | null iff there are no settings or no hero id; otherwise the first catalogue product with the hero id, or null |
| HeroShowcase.GetSupportProducts | store/use-hero-showcase.ts:69-88 | no settings gives `[]`; otherwise the ids of the result are the deduplicated non-hero slot ids found in the catalogue, in order |
| HeroShowcase.SupportProductsShape | store/use-hero-showcase.ts:73-87 | at most four support products, no two with the same id, none with the hero id |
| HeroShowcase.SupportIdsCover | store/use-hero-showcase.ts:73-83 | a non-empty slot id survives deduplication and the hero filter iff it is not the hero id |
| HeroShowcase.FoundProductsCover | store/use-hero-showcase.ts:85-87 | an id has a product in the result iff it was asked for and the catalogue has it |
| HeroShowcase.SupportProductsCover | store/use-hero-showcase.ts:69-88 | a slot's product is shown iff it is not the hero and the catalogue has it |
| HeroShowcase.SupportProductsOrder | store/use-hero-showcase.ts:81-87 | the support products appear in the order of the first slot naming each |
| HeroShowcase.HeroShowcaseStore.constructor | store/use-hero-showcase.ts:21-22 | no settings, not loading |
| HeroShowcase.HeroShowcaseStore.FetchSettings | store/use-hero-showcase.ts:24-38 | on success the settings are the row read; on failure they are kept; loading ends false |
| HeroShowcase.HeroShowcaseStore.UpdateSettings | store/use-hero-showcase.ts:40-61 | without settings nothing is sent and nothing changes; otherwise the update targets the current settings' id, success stores the returned row, failure keeps the settings and rethrows |
| HeroSlides.ActiveSlides | store/use-hero-slides.ts:53-55 | the active slides, all of them, in store order; each kept item as often as it occurs in the input |
| HeroSlides.OrderUpdatesFrom | store/use-hero-slides.ts:128-133 | one update per slide, in list order, with consecutive orders |
| HeroSlides.OrderUpdatesNumbering | store/use-hero-slides.ts:128-133 | `reorderSlides` sends orders 1..n, strictly increasing in list order, one per slide with its id |
| HeroSlides.ActiveAfterAdd | store/use-hero-slides.ts:72-75 | an added slide joins the active slides at the end iff it is active |
| HeroSlides.DeleteRemovesOnly | store/use-hero-slides.ts:113-116 | deleting leaves no slide with the id and keeps all others in order |
| HeroSlides.HeroSlidesStore.constructor | store/use-hero-slides.ts:33-35 | no slides, not loading, no error |
| HeroSlides.HeroSlidesStore.FetchSlides | store/use-hero-slides.ts:37-51 | success stores the rows (null as empty) and clears the error; failure records the message and keeps the slides; loading ends false |
| HeroSlides.HeroSlidesStore.GetActiveSlides | store/use-hero-slides.ts:53-55 | the active slides, in store order |
| HeroSlides.HeroSlidesStore.GetAllSlides | store/use-hero-slides.ts:57-59 | the whole list |
| HeroSlides.HeroSlidesStore.AddSlide | store/use-hero-slides.ts:61-81 | success appends the returned row; failure records the message, keeps the list and rethrows |
| HeroSlides.HeroSlidesStore.UpdateSlide | store/use-hero-slides.ts:83-104 | success replaces exactly the slides with the id by the returned row; failure records, keeps and rethrows |
| HeroSlides.HeroSlidesStore.DeleteSlide | store/use-hero-slides.ts:106-122 | success removes the slides with the id; failure records, keeps and rethrows |
| HeroSlides.HeroSlidesStore.ReorderSlides | store/use-hero-slides.ts:124-143 | the orders 1..n are sent in list order; success stores the list as given; failure records, keeps and rethrows |
| AdminProducts.AddThenDelete | store/use-admin-products.ts:73-115 | adding a row with a new id and deleting that id restores the list |
| AdminProducts.ReplaceKeepsIds | store/use-admin-products.ts:93-97 | replacing the rows of an id by a row with that id keeps the set of ids |
| AdminProducts.ReplaceThenFind | store/use-admin-products.ts:93-124 | after an update of a present id, looking it up yields the new row |
| AdminProducts.AdminProductsStore.constructor | store/use-admin-products.ts:43-44 | no products, not loading |
| AdminProducts.AdminProductsStore.FetchProducts | store/use-admin-products.ts:46-61 | success stores the rows (null as empty); failure keeps the list; loading ends false |
| AdminProducts.AdminProductsStore.AddProduct | store/use-admin-products.ts:63-80 | success puts the returned row first; failure keeps the list and rethrows |
| AdminProducts.AdminProductsStore.UpdateProduct | store/use-admin-products.ts:82-102 | success replaces exactly the products with the id by the returned row; failure keeps the list and rethrows |
| AdminProducts.AdminProductsStore.DeleteProduct | store/use-admin-products.ts:104-120 | success removes the products with the id; failure keeps the list and rethrows |
| AdminProducts.AdminProductsStore.GetProductById | store/use-admin-products.ts:122-124 | undefined iff no product has the id; otherwise the first product with it |
| AdminProducts.AdminProductsStore.GetAllProducts | store/use-admin-products.ts:126-128 | the whole list |
| NewProductForm.StripEdgeDashes | app/admin/products/new/page.tsx:39 | `(^-\|-$)` yields the input without one leading `-` if it starts with one and without one trailing `-` if what is left ends with one; the text is unchanged iff neither end is a `-` |
| NewProductForm.AutoSlugIsSlug | app/admin/products/new/page.tsx:39 | the generated slug holds only `[a-z0-9-]`, with no dash at either end and no two dashes together |
| NewProductForm.CollapsedNameChars | app/admin/products/new/page.tsx:39 | replacing runs of `[^a-z0-9]` by `-` leaves slug characters with no `--` |
| NewProductForm.StripEdgeDashesIsSlug | app/admin/products/new/page.tsx:39 | removing one edge dash from such text leaves a slug |
| NewProductForm.FallbackSlugHasNoSpace | app/admin/products/new/page.tsx:90 | the fallback slug has no whitespace and is empty only for an empty name |
| NewProductForm.Assigned | app/admin/products/new/page.tsx:83 | assigning to a plain object stores the value under any key except `__proto__`, which leaves the object unchanged; other keys are untouched |
| NewProductForm.ProtoRowDropped | app/admin/products/new/page.tsx:80-85 | a row keyed `__proto__` passes the guard yet the object stays empty |
| NewProductForm.SpecsMapKeys | app/admin/products/new/page.tsx:80-85 | a key is in the object iff some row with that key has a non-empty key and value, and the key is not `__proto__`, which the object's prototype setter swallows |
| NewProductForm.SpecsMapLastWins | app/admin/products/new/page.tsx:80-85 | the last stored row for a key (non-empty key and value, key not `__proto__`) decides its value |
| NewProductForm.NewProductPage.constructor | app/admin/products/new/page.tsx:15-32 | empty fields, no images, one empty specification row |
| NewProductForm.NewProductPage.HandleNameChange | app/admin/products/new/page.tsx:35-41 | stores the name and the slug derived from it, which is a slug; nothing else changes |
| NewProductForm.NewProductPage.SetSlug | app/admin/products/new/page.tsx:151 | the slug field takes any text |
| NewProductForm.NewProductPage.HandleAddImage | app/admin/products/new/page.tsx:44-49 | a non-empty answer is appended; a cancelled or empty prompt changes nothing; the form fields and specification rows are kept |
| NewProductForm.NewProductPage.HandleRemoveImage | app/admin/products/new/page.tsx:51-53 | exactly that image is removed, the rest kept in order; an index outside the list changes nothing; the form fields and specification rows are kept |
| NewProductForm.NewProductPage.HandleSpecChange | app/admin/products/new/page.tsx:56-60 | only the chosen half of the chosen row changes; the other rows, the form fields and the images are kept |
| NewProductForm.NewProductPage.HandleAddSpec | app/admin/products/new/page.tsx:62-64 | one empty row is appended and the others are untouched; the form fields and images are kept |
| NewProductForm.NewProductPage.HandleRemoveSpec | app/admin/products/new/page.tsx:66-68 | exactly that row is removed, the rest kept in order; an index outside the list changes nothing; the form fields and images are kept |
| NewProductForm.NewProductPage.CollectSpecs | app/admin/products/new/page.tsx:80-85 | the loop builds the specification object of the rows, with JavaScript's assignment semantics for `__proto__`; its keys and values are those of `SpecsMapKeys` and `SpecsMapLastWins` |
| NewProductForm.NewProductPage.HandleSubmit | app/admin/products/new/page.tsx:70-106 | rejected iff name, price or stock is empty; otherwise the draft carries the fields, the slug or its fallback, the images or the placeholder, the category or "uncategorized", and the specification object |
| NewProductForm.SubmittedDraftComplete | app/admin/products/new/page.tsx:90-94 | a submitted draft has a non-empty slug, at least one image and a non-empty category |
| LiveSearch.Matching | components/shared/live-search.tsx:33-40 | the matching products, all of them, in catalogue order; each kept item as often as it occurs in the input |
| LiveSearch.QueryCaseInsensitive | components/shared/live-search.tsx:34 | matching ignores the case of the query |
| LiveSearch.BlankIsAllSpace | components/shared/live-search.tsx:27 | a query counts as blank iff it is all whitespace |
| LiveSearch.ListedMatch | components/shared/live-search.tsx:36-42 | every listed result matches the query |
| LiveSearch.OpenIffMatch | components/shared/live-search.tsx:43 | the dropdown opens iff some product matches |
| LiveSearch.ViewAllMeansFull | components/shared/live-search.tsx:147 | when "View all" shows, exactly five are listed and at least five matched |
| LiveSearch.SearchBox.constructor | components/shared/live-search.tsx:15-17 | empty query, closed, no results |
| LiveSearch.SearchBox.SearchEffect | components/shared/live-search.tsx:26-45 | a blank query clears and closes; otherwise the first five matches are listed and the dropdown is open iff something matched; at most five results, all matching |
| LiveSearch.SearchBox.SetQuery | components/shared/live-search.tsx:78 | typing stores the text and runs the search effect: a blank text clears and closes; otherwise the first five matches are listed and the dropdown is open iff some product matches |
| LiveSearch.SearchBox.Clear | components/shared/live-search.tsx:85-89 | empty query, no results, closed |
| LiveSearch.SearchBox.Focus | components/shared/live-search.tsx:79 | reopens iff there is a query and there are results |
| LiveSearch.SearchBox.ClickOutside | components/shared/live-search.tsx:48-57 | closes the dropdown and keeps the results |
| LiveSearch.SearchBox.HandleProductClick | components/shared/live-search.tsx:59-63 | navigates to `/products/<slug>`, clears the query and closes; the results empty when the query was not already empty |
| LiveSearch.SearchBox.HandleViewAll | components/shared/live-search.tsx:65-68 | closes and hands over the query as typed |
| LiveSearch.SearchBox.ShowViewAll | components/shared/live-search.tsx:99-147 | "View all" shows iff the dropdown is open and at least five results are listed; it never shows on a closed or empty dropdown |
| LiveSearch.ViewAllAfterSearch | components/shared/live-search.tsx:26-147 | right after a search, "View all" shows iff the query is not blank and at least five products match it |
| HeroSlider.JsRem | components/home/hero-slider.tsx:29-40 | JavaScript `%`: equals Euclidean `%` for a non-negative dividend and never leaves `(-n, n)` |
| HeroSlider.NextStep | components/home/hero-slider.tsx:35-37 | the next arrow moves one on, wrapping from the last slide to the first |
| HeroSlider.PrevStep | components/home/hero-slider.tsx:39-41 | the previous arrow moves one back, wrapping from the first slide to the last |
| HeroSlider.StepsStayInRange | components/home/hero-slider.tsx:35-41 | both arrows keep the index on a slide |
| HeroSlider.PrevUndoesNext | components/home/hero-slider.tsx:35-41 | previous undoes next and next undoes previous |
| HeroSlider.AdvanceIsRotation | components/home/hero-slider.tsx:28-30 | up to n autoplay ticks rotate the index k places |
| HeroSlider.FullCycle | components/home/hero-slider.tsx:28-30 | n autoplay ticks return to the starting slide |
| HeroSlider.ArrowsMoveIffShown | components/home/hero-slider.tsx:126-146 | the arrows change the slide iff there is more than one slide, which is when they are rendered |
| HeroSlider.Slider.constructor | components/home/hero-slider.tsx:11-13 | no slides, index 0, loading |
| HeroSlider.Slider.Load | components/home/hero-slider.tsx:15-22 | after the fetch the slides are the store's active slides and loading ends |
| HeroSlider.Slider.Next | components/home/hero-slider.tsx:35-37 | the index becomes the next one; a valid index stays valid |
| HeroSlider.Slider.Prev | components/home/hero-slider.tsx:39-41 | the index becomes the previous one; a valid index stays valid |
| HeroSlider.Slider.AutoplayTick | components/home/hero-slider.tsx:25-33 | a tick, which only runs with slides, advances like the next arrow |
| HeroSlider.Slider.SelectDot | components/home/hero-slider.tsx:148-151 | clicking dot k shows slide k |
| QuickView.Label | components/shared/quick-view-modal.tsx:102-114 | "Out of Stock" iff stock is not positive; "Only N left" with N the stock iff 0 < stock < 10; "In Stock" iff stock is at least 10 |
| QuickView.LabelAgreesWithStockStatus | components/shared/quick-view-modal.tsx:102-114 | for non-negative stock the modal's tiers match `getStockStatus` |
| QuickView.Decremented | components/shared/quick-view-modal.tsx:122 | the minus button never goes below 1 and steps down by one above 1 |
| QuickView.Incremented | components/shared/quick-view-modal.tsx:131 | the plus button never exceeds the stock and steps up by one while enabled |
| QuickView.PressKeepsFit | components/shared/quick-view-modal.tsx:122-132 | one enabled click keeps 1 ≤ quantity ≤ max(1, stock) |
| QuickView.PressesKeepFit | components/shared/quick-view-modal.tsx:122-132 | any sequence of enabled clicks keeps 1 ≤ quantity ≤ max(1, stock) |
| QuickView.FromStartStaysInStock | components/shared/quick-view-modal.tsx:22-132 | from the initial 1, clicks never go below 1 nor above a positive stock |
| QuickView.StaleQuantityExceedsStock | components/shared/quick-view-modal.tsx:22-131 | four plus clicks at stock 10 reach 5, which exceeds a next product's stock of 2 |
| QuickView.RequestWithinStock | components/shared/quick-view-modal.tsx:22-132 | with a fresh quantity, what is handed to the cart is within the stock |
| QuickView.QuickViewModal.constructor | components/shared/quick-view-modal.tsx:22 | quantity starts at 1, nothing selected |
| QuickView.QuickViewModal.IsOpen | components/home/bento-grid.tsx:89 | the modal is open iff a product is selected |
| QuickView.QuickViewModal.Show | components/home/bento-grid.tsx:87-90 | selecting a product keeps the previous quantity |
| QuickView.QuickViewModal.ShowFresh | components/shared/quick-view-modal.tsx:22 | selecting a product with the quantity reset to 1 restores the bounds |
| QuickView.QuickViewModal.Decrement | components/shared/quick-view-modal.tsx:122 | the quantity becomes the minus-button value; the bounds are kept |
| QuickView.QuickViewModal.Increment | components/shared/quick-view-modal.tsx:131-132 | the enabled plus button sets the plus-button value; the bounds are kept |
| QuickView.QuickViewModal.AddToCart | components/shared/quick-view-modal.tsx:26-30 | enabled unless stock is 0; hands the product and current quantity to the cart and closes |
| QuickView.QuickViewModal.AddToWishlist | components/shared/quick-view-modal.tsx:32-35 | the wishlist's items become `Added(items, product)` |
| DiscountBanners.CalculateTimeLeft | components/home/discount-banner.tsx:22-36 | all zero without an end date or once the end has passed; otherwise hours < 24, minutes < 60, seconds < 60 and days ≥ 0 |
| DiscountBanners.TimeLeftReconstructs | components/home/discount-banner.tsx:28-33 | days·86400000 + hours·3600000 + minutes·60000 + seconds·1000 equals the difference less its milliseconds, so it is ≤ d < that + 1000 |
| DiscountBanners.CountdownPositiveIff | components/home/discount-banner.tsx:22-55 | some number is positive iff an end date is set and at least one whole second is left |
| DiscountBanners.DaysShownIff | components/home/discount-banner.tsx:152 | the days box shows iff an end date is set and at least a whole day is left |
| DiscountBanners.FirstBanner | components/home/discount-banner.tsx:19 | null iff there are no banners, otherwise the first one |
| DiscountBanners.Renders | components/home/discount-banner.tsx:53 | the banner renders iff there is at least one banner |
| DiscountBanners.DiscountBannersStore.constructor | store/use-discount-banners.ts:20-21 | no banners, not loading |
| DiscountBanners.DiscountBannersStore.FetchActiveBanners | store/use-discount-banners.ts:23-38 | success stores the rows (null as empty); failure keeps them; loading ends false |
| DiscountBanners.DiscountBannersStore.GetActiveBanner | store/use-discount-banners.ts:56-59 | null iff there are no banners, otherwise the first one |
| DiscountBanners.BannerView.constructor | components/home/discount-banner.tsx:12 | the countdown starts at all zeros |
| DiscountBanners.BannerView.Refresh | components/home/discount-banner.tsx:38-55 | a timer run recomputes the countdown; afterwards `hasCountdown` holds iff a whole second is left and the days box iff a whole day is |
| AdminProductList.FilteredProducts | app/admin/products/page.tsx:30-32 | exactly the products whose lowercased name contains the lowercased query, in store order; each kept item as often as it occurs in the input |
| AdminProductList.EmptyQueryShowsAll | app/admin/products/page.tsx:30-32 | an empty search lists every product |
| AdminProductList.NoMatchIff | app/admin/products/page.tsx:260 | "No products match" shows iff there are products and none matches |
| AdminProductList.MessagesExclusive | app/admin/products/page.tsx:260 | the empty-store message and the no-match message never show together |
| AdminProductList.Tier | app/admin/products/page.tsx:161-166 | red iff stock is 0, yellow iff non-zero and below 10, green iff at least 10 |
| AdminProductList.TierAgreesWithStockStatus | app/admin/products/page.tsx:161-166 | the colour tiers match `getStockStatus` for every stock |
| AdminProductList.ToggleTrending | app/admin/products/page.tsx:45 | sends the negation of the trending flag, an absent flag counting as off |
| AdminProductList.ToggleFeatured | app/admin/products/page.tsx:56 | sends the negation of the featured flag |
| AdminProductList.ToggleHeroShowcase | app/admin/products/page.tsx:67 | sends the negation of the hero-showcase flag, an absent flag counting as off |
| AdminProductList.TogglesFlip | app/admin/products/page.tsx:41-73 | each written patch flips its flag and leaves all other columns as they were |
| AdminProductList.ToggleTwice | app/admin/products/page.tsx:41-73 | two clicks restore the flag's truthiness (featured exactly) |
| AdminProductList.ProductsPage.constructor | app/admin/products/page.tsx:14-15 | empty search, not mounted |
| AdminProductList.ProductsPage.SetSearchQuery | app/admin/products/page.tsx:14 | the search box stores the text |
| AdminProductList.ProductsPage.Mount | app/admin/products/page.tsx:17-20 | mounts and fetches: the store's list as after `fetchProducts` |
| AdminProductList.ProductsPage.Listed | app/admin/products/page.tsx:30-32 | the rows listed are the store's products matching the search, in order |
| AdminProductList.HandleDelete | app/admin/products/page.tsx:34-39 | the delete runs only when confirmed; the success toast shows iff confirmed, whatever the outcome |
| AdminProductList.HandleToggle | app/admin/products/page.tsx:41-73 | the patch goes through `updateProduct`; success toasts the new flag state, failure toasts an error and keeps the list |
| BentoGrid.FeaturedSelection | components/home/bento-grid.tsx:19-22 | at most eight products, all featured |
| BentoGrid.SelectionIsFirstFeatured | components/home/bento-grid.tsx:19-22 | the first eight featured products in store order, or all of them when fewer |
| BentoGrid.HiddenIffNoneFeatured | components/home/bento-grid.tsx:28-30 | the section renders nothing iff no product is featured |
| BentoGrid.ViewAllNeverShown | components/home/bento-grid.tsx:68 | the "View All Products" link can never render |
| TrendingSection.TrendingSelection | components/home/trending-section.tsx:21 | at most four products, each with its trending flag `true` |
| TrendingSection.SelectionIsFirstTrending | components/home/trending-section.tsx:21 | the first four trending products in store order, or all of them when fewer |
| TrendingSection.HiddenIffNoneTrending | components/home/trending-section.tsx:27-29 | the section renders nothing iff no product has its flag `true` |
| TrendingSection.NoFeaturedBadge | components/home/trending-section.tsx:70 | no trending card shows the featured badge |
| ProductCard.StockBadgesAgreeWithLabel | components/shared/product-card.tsx:62-71 | "Sold Out" and "Low Stock" never show together; "Sold Out" iff the modal says "Out of Stock" (stock ≥ 0); "Low Stock" only where it shows a count |
| ProductCard.ButtonText | components/shared/product-card.tsx:88 | "Added! ✓" iff the flag is up; else "Out of Stock" iff stock is 0; else "Quick Add" |
| ProductCard.LabelMatchesEnabled | components/shared/product-card.tsx:78-88 | "Quick Add" only shows on an enabled button, "Out of Stock" only on a disabled one |
| ProductCard.ProductCardView.constructor | components/shared/product-card.tsx:20 | the added flag starts down |
| ProductCard.ProductCardView.QuickAdd | components/shared/product-card.tsx:22-27 | enabled unless stock is 0; hands exactly one unit to the cart and raises the flag |
| ProductCard.ProductCardView.ResetAdded | components/shared/product-card.tsx:26 | the timer lowers the flag |
| ProductCard.ProductCardView.HeartClick | components/shared/product-card.tsx:123-126 | the heart only stops navigation and changes no state |

## Findings

| source | as written | input that shows it | evidently intended | confidence | as-written member | corrected member |
|---|---|---|---|---|---|---|
| components/shared/quick-view-modal.tsx:22 | The quantity is state of a modal that stays mounted while its parent changes the `product` prop (components/home/bento-grid.tsx:87-90, components/home/trending-section.tsx:77-81). It is never reset, so it carries over to the next product. | Open a product with stock 10 and click "+" four times, giving 5. Close it, then open a product with stock 2. The modal shows 5, and "Add to Cart" hands 5 units of the second product to the cart. | The quantity starts at 1 for each product shown, so it stays within 1..max(1, stock) as the `+` clamp intends. | medium, not executed | QuickView.QuickViewModal.Show, QuickView.StaleQuantityExceedsStock | QuickView.QuickViewModal.ShowFresh, QuickView.PressesKeepFit |

## Left out

- Database I/O: every query is replaced by its outcome, given as a parameter. The model does not capture:
  - the filtering and ordering the server applies (`is_active`, `display_order`, `created_at`);
  - timestamps such as `updated_at`;
  - how the server merges a partial update.
- `fetchAllBanners` (store/use-discount-banners.ts:40-54) differs from `fetchActiveBanners` only in the server-side query, so its in-memory effect is the same and it has no member of its own.
- Concurrency: the intermediate `loading: true, error: null` state is not stated, because only the final state of each action is.
- HeroSlides.HeroSlidesStore.ReorderSlides: the parallel update requests are one outcome. The per-row `{ error }` results, which `Promise.all` does not inspect, are not modelled.
- Wishlist persistence through zustand `persist` and `localStorage` is library behaviour.
- The cart store is not part of this model. Cart additions are returned as `CartRequest` values.
- Utils.Truncate: lengths and `substring` count characters (Unicode scalar values), not UTF-16 code units as JavaScript does. Text with characters outside the Basic Multilingual Plane is cut later than in the source, and a cut through a surrogate pair cannot be represented. The default length of 100 is `Utils.TruncateDefault`.
- Text: only ASCII letters are lowercased. `parseFloat` and `parseInt` are not modelled, so the draft keeps the price and stock text as typed. `Date` parsing and the clock are reduced to the millisecond difference, an integer.
- DiscountBanners.CalculateTimeLeft: the floating-point divisions are modelled as exact integer arithmetic.
- Timers are steps called by the caller: the autoplay interval, the countdown interval, the card's two-second reset.
- Also left out: animation, toasts other than those stated, router navigation beyond the path or query returned, and the modal's backdrop and close buttons (they clear the parent's selection).
- Library wrappers `cn`, `formatPrice` and `formatDate`, and `calculateDiscount` (floating-point division with `Math.round`), are not modelled.
- The product record keeps the columns the core reads. The SEO fields the new-product form sends (`meta_title`, `meta_description`, `keywords`) are carried in the draft only.
- NewProductForm.NewProductPage.HandleSubmit returns the draft handed to `addProduct`. The store call is not awaited in the source, so the success toast and the navigation happen whatever its outcome; the model returns the draft and does not run the store action.
- HeroSlider.Slider.Load requires the index to be 0. That holds on mount, the only time the effect runs.
