# Awwal Al-Saif electronics store: a verified model of its logic

Awwal Al-Saif is a bilingual (Arabic and English) electronics storefront with
an admin panel, written as a Next.js application. It exists in two variants:
one backed by a hosted relational database and one backed by a document
store. This project models the logic of both in Dafny and proves properties
of that model:

- the admin dashboard's product and category lists, which are updated after
  each insert, update and delete;
- the guard that refuses to delete a category that still has products;
- the admin category and product forms, including slug generation from the
  English name and the `parseInt` of the chosen category;
- the two products API routes: listing filtered by category, and validating
  and storing new products;
- the storefront search dialog: the blank-query check, the case-insensitive
  matches, the per-kind limits, the merged and tagged results, and routing;
- the language provider: the translation lookup `t` with its key fallback,
  the text direction, the persisted preference and the header toggle;
- the two home-page slideshows, as a cyclic index state machine;
- the cart and checkout order summary, with free shipping above 500;
- the two admin login routes, the admin login page and the session that
  local storage holds.

Database tables are sequences of rows in their stored order. Anything that
comes from the database, the clock, the browser or the user's choices is a
parameter. JavaScript's own semantics are written out where the code relies
on them:

- truthiness, and `===` on numbers with NaN;
- `Number.parseInt` and number-to-string conversion;
- the `\s` and `\w` character classes, `trim` and `toLowerCase`;
- `Array.filter` and `find`;
- object spread, as a right-biased map update.

The modules are:

- `Js`, `JsArray`, `Json`, `Browser`, `Postgrest`, `Catalog`: shared
  definitions;
- `AdminDashboard`, `AdminCategoryForm`, `AdminProductForm`: the admin panel;
- `ProductsApi`, `ProductsApiMongo`: the products routes;
- `SearchDialog`, `Language`, `Slides`, `Totals`: the storefront;
- `AuthApi`, `AuthApiHardcoded`, `AdminLogin`: admin login.

Components whose fields the code updates in place are classes, with the
updated state as fields:

- the dashboard, the two forms, the search dialog, the language provider,
  the two slideshows and the login page;
- local storage.

## Model

| member | source | states |
|---|---|---|
| JsArray.Filter | awwalu-saif/app/admin/dashboard/page.tsx:232 | `filter` keeps exactly the elements satisfying the predicate, in order |
| JsArray.FilterAppend | awwalu-saif/app/admin/dashboard/page.tsx:232 | filtering distributes over concatenation, so survivors keep their relative order |
| JsArray.Find | awwalu-saif/app/admin/dashboard/page.tsx:291-294 | `find` returns the first satisfying element, or nothing when none satisfies |
| JsArray.ReplaceWhere | awwalu-saif/app/admin/dashboard/page.tsx:170 | `map` with a conditional replaces exactly the matching positions and keeps length and every other entry |
| Js.ParseIntOfToString | components/admin-product-form.tsx:35-100 | `parseInt(n.toString(), 10)` gives back every integer n |
| Js.TrimBlank | components/search-dialog.tsx:32 | `trim()` yields "" exactly when every character is JavaScript white space |
| Postgrest.Single | app/api/products/route.ts:13 | `.single()` yields a row exactly when one row matches, and that row matches |
| Postgrest.Limit | components/search-dialog.tsx:44 | `.limit(n)` keeps a prefix of at most n rows |
| Catalog.ProductsIn | app/api/products/route.ts:15-17 | the products kept are exactly those whose `category_id` equals the id |
| Browser.LocalStorage.GetItem | app/admin/login/page.tsx:39-40 | `getItem` returns the stored string, or null for a missing key |
| AdminDashboard.ReplaceProduct | awwalu-saif/app/admin/dashboard/page.tsx:170 | every entry with the edited id becomes the submitted product; length and all other entries stay |
| AdminDashboard.ReplaceCategory | awwalu-saif/app/admin/dashboard/page.tsx:202 | the same for categories |
| AdminDashboard.RemoveProduct | awwalu-saif/app/admin/dashboard/page.tsx:232 | the survivors are exactly the entries whose id differs |
| AdminDashboard.RemoveCategory | awwalu-saif/app/admin/dashboard/page.tsx:276 | the same for categories |
| AdminDashboard.ProductCountZero | awwalu-saif/app/admin/dashboard/page.tsx:249-261 | the count of products in a category is 0 exactly when no product refers to it |
| AdminDashboard.ProductCountAppend | awwalu-saif/app/admin/dashboard/page.tsx:404-405 | appending a product adds one to the count of its own category only |
| AdminDashboard.CategoryName | awwalu-saif/app/admin/dashboard/page.tsx:291-294 | nothing when no category has the id; otherwise the name, in the page language, of the first one that does |
| AdminDashboard.ProductPayloadKeepsFields | awwalu-saif/app/admin/dashboard/page.tsx:83-92 | re-parsing `category_id` in the payload changes no field |
| AdminDashboard.GuardKeepsReferences | awwalu-saif/app/admin/dashboard/page.tsx:247-289 | deleting a category no product refers to leaves every product reference resolvable |
| AdminDashboard.EditKeepsReferences | awwalu-saif/app/admin/dashboard/page.tsx:202 | editing a category loses no reference |
| AdminDashboard.GrowShrinkKeepsReferences | awwalu-saif/app/admin/dashboard/page.tsx:134 | adding a category or deleting products loses no reference |
| AdminDashboard.RemoveProductKeepsOrder | awwalu-saif/app/admin/dashboard/page.tsx:232 | deleting distributes over concatenation: the rest keep their order |
| AdminDashboard.RemoveProductExact | awwalu-saif/app/admin/dashboard/page.tsx:232 | the kept entries and the entries carrying the id together account for every entry of the list: nothing else is dropped |
| AdminDashboard.Dashboard.constructor | awwalu-saif/app/admin/dashboard/page.tsx:20-27 | empty lists, nothing being added or edited, unauthenticated and loading, so only the spinner shows |
| AdminDashboard.Dashboard.Mount | awwalu-saif/app/admin/dashboard/page.tsx:31-39 | without a truthy `adminToken`: redirect to the login page and no change; with one: authenticated, both lists loaded and the spinner gone |
| AdminDashboard.Dashboard.FetchData | awwalu-saif/app/admin/dashboard/page.tsx:41-70 | both lists are replaced (null data as []) when both selects succeed, else both kept; loading ends cleared, so the spinner shows exactly while unauthenticated |
| AdminDashboard.Dashboard.Logout | awwalu-saif/app/admin/dashboard/page.tsx:72-76 | removes `adminToken` and `adminUsername`, nothing else, and goes to the login page |
| AdminDashboard.Dashboard.AddProduct | awwalu-saif/app/admin/dashboard/page.tsx:78-114 | sends the payload; on success appends exactly the returned row and closes the add form; on error changes nothing |
| AdminDashboard.Dashboard.AddCategory | awwalu-saif/app/admin/dashboard/page.tsx:116-148 | the same for categories; references stay resolvable |
| AdminDashboard.Dashboard.EditProduct | awwalu-saif/app/admin/dashboard/page.tsx:150-184 | sends the update; on success replaces by id and closes the modal; on error changes nothing |
| AdminDashboard.Dashboard.EditCategory | awwalu-saif/app/admin/dashboard/page.tsx:186-216 | the same for categories; references stay resolvable |
| AdminDashboard.Dashboard.DeleteProductById | awwalu-saif/app/admin/dashboard/page.tsx:218-245 | declined: no request and no change; confirmed: the delete is sent, and the list shrinks by the id only on success |
| AdminDashboard.Dashboard.DeleteCategoryById | awwalu-saif/app/admin/dashboard/page.tsx:247-289 | the confirmation is asked exactly when no product is in the category; refused or declined sends nothing; a failed delete reports failure and keeps the list; a successful one removes the category by id |
| AdminDashboard.Dashboard.StartEditProduct | awwalu-saif/app/admin/dashboard/page.tsx:360 | the edit modal opens on the chosen product |
| AdminDashboard.Dashboard.CancelEditProduct | awwalu-saif/app/admin/dashboard/page.tsx:466 | the edit modal closes |
| AdminDashboard.Dashboard.StartEditCategory | awwalu-saif/app/admin/dashboard/page.tsx:409 | the edit modal opens on the chosen category |
| AdminDashboard.Dashboard.CancelEditCategory | awwalu-saif/app/admin/dashboard/page.tsx:487 | the edit modal closes |
| AdminCategoryForm.WithField | components/admin-category-form.tsx:42 | a change sets the named field and leaves every other field as it was |
| AdminCategoryForm.InitialForm | components/admin-category-form.tsx:21-26 | each field comes from the category, or "" when adding; the image is the category's own when non-empty, else the placeholder |
| AdminCategoryForm.CollapseShape | components/admin-category-form.tsx:38 | after `replace(/\s+/g, "-")` no white space remains and no capital is introduced |
| AdminCategoryForm.StripNonWord | components/admin-category-form.tsx:39 | `replace(/[^\w-]+/g, "")` keeps only word characters and hyphens taken from the input, and every word character or hyphen of the input survives |
| AdminCategoryForm.LowerHasNoCapitals | components/admin-category-form.tsx:37 | `toLowerCase` leaves no ASCII capital |
| AdminCategoryForm.SlugAlphabet | components/admin-category-form.tsx:36-39 | a generated slug has no white space and only a-z, 0-9, `_` and `-` |
| AdminCategoryForm.SlugIdempotent | components/admin-category-form.tsx:36-39 | generating a slug from a generated slug changes nothing |
| AdminCategoryForm.SlugCharsAreFixed | components/admin-category-form.tsx:36-39 | a string of slug characters (digits and `_` included) is its own slug |
| AdminCategoryForm.WhitespaceRunBecomesHyphen | components/admin-category-form.tsx:38 | each maximal white-space run becomes exactly one hyphen |
| AdminCategoryForm.TwoWordsSlug | components/admin-category-form.tsx:36-39 | two slug words joined by a space give the words joined by a hyphen ("washing machines" to "washing-machines") |
| AdminCategoryForm.ChangeField | components/admin-category-form.tsx:31-44 | editing `name_en` while the slug is empty also sets the slug to the generated one; any other change sets only its field |
| AdminCategoryForm.FinalCategory | components/admin-category-form.tsx:64-76 | the form's fields, the preview URL when there is one, and the edited category's id |
| AdminCategoryForm.SubmitUntouched | components/admin-category-form.tsx:21-76 | opening a category and submitting it untouched gives that category back |
| AdminCategoryForm.CategoryForm.constructor | components/admin-category-form.tsx:21-29 | the initial form, no preview, not loading |
| AdminCategoryForm.CategoryForm.HandleChange | components/admin-category-form.tsx:31-44 | the form becomes `ChangeField` of the old form |
| AdminCategoryForm.CategoryForm.HandleImageChange | components/admin-category-form.tsx:46-57 | a chosen file sets the preview; no file leaves it |
| AdminCategoryForm.CategoryForm.HandleSubmit | components/admin-category-form.tsx:59-97 | returns `FinalCategory` of the form; loading ends cleared |
| AdminProductForm.WithField | components/admin-product-form.tsx:63-70 | each change handler sets the named field only |
| AdminProductForm.InitialForm | components/admin-product-form.tsx:32-41 | fields from the product or "", `category_id` as the decimal text `NumberToString` of the id, which parses back to it; the product's image when non-empty, else the placeholder |
| AdminProductForm.FinalProduct | components/admin-product-form.tsx:85-124 | text fields copied; `category_id` is `ParseInt` of the field, NaN exactly when the string has no leading digits; preview URL preferred; id of the edited product |
| AdminProductForm.SubmitUntouched | components/admin-product-form.tsx:32-102 | opening a product and submitting it untouched gives that product back |
| AdminProductForm.SelectedCategorySubmitted | components/admin-product-form.tsx:156 | choosing a category in the select submits a `category_id` equal to its id |
| AdminProductForm.NoCategoryIsNaN | components/admin-product-form.tsx:100 | with no category chosen the submission carries NaN, which matches no category |
| AdminProductForm.ProductForm.constructor | components/admin-product-form.tsx:32-45 | the initial form, no categories, no preview, not loading |
| AdminProductForm.ProductForm.FetchCategories | components/admin-product-form.tsx:48-57 | an error keeps the list; otherwise the rows (null as []) |
| AdminProductForm.ProductForm.HandleChange | components/admin-product-form.tsx:63-70 | the form becomes `WithField` of the old form |
| AdminProductForm.ProductForm.HandleImageChange | components/admin-product-form.tsx:72-83 | a chosen file sets the preview; no file leaves it |
| AdminProductForm.ProductForm.HandleSubmit | components/admin-product-form.tsx:85-124 | returns `FinalProduct` of the form; loading ends cleared |
| ProductsApi.CategoryBySlug | app/api/products/route.ts:13 | a category row exactly when one category has the slug |
| ProductsApi.Get | app/api/products/route.ts:4-31 | 500 on a product query error; all products for a falsy slug, a failed slug lookup (its error is discarded) or an unresolved slug; else the products of the resolved category |
| ProductsApi.ResolvedSlugListsItsProducts | app/api/products/route.ts:11-17 | a resolved slug lists exactly the products whose `category_id` is the category's id |
| ProductsApi.UnknownSlugListsEverything | app/api/products/route.ts:13-17 | a slug that names no category lists every product |
| ProductsApi.StampedRecord | app/api/products/route.ts:43-49 | the body's members plus `created_at` |
| ProductsApi.Post | app/api/products/route.ts:33-60 | 500 for no body; 400 and no insert for a falsy required field; else the stamped record is inserted, then the first returned row; 500 when the insert fails or returns no row |
| ProductsApi.FalsyFieldRefused | app/api/products/route.ts:39-41 | an empty name or a `category_id` of 0 is refused with 400 and nothing is inserted |
| ProductsApi.AcceptedBodyStoredWhole | app/api/products/route.ts:43-49 | an accepted body is inserted with all its members plus `created_at` |
| ProductsApiMongo.Get | awwalu-saif/app/api/products/route.ts:4-23 | 500 on error; every document for an absent or empty category; else exactly the documents whose category matches |
| ProductsApiMongo.ListingKeepsOrder | awwalu-saif/app/api/products/route.ts:11-16 | listing by category keeps the collection order |
| ProductsApiMongo.Stamped | awwalu-saif/app/api/products/route.ts:37-40 | the stored document is the body plus `createdAt`, no member dropped |
| ProductsApiMongo.Answer | awwalu-saif/app/api/products/route.ts:42-45 | the answer has every body member, and the new id unless the body has its own |
| ProductsApiMongo.Post | awwalu-saif/app/api/products/route.ts:25-50 | 500 for no body; 400 and nothing stored for a falsy required member; else stored and answered, or 500 |
| ProductsApiMongo.FalsyFieldRefused | awwalu-saif/app/api/products/route.ts:33-35 | a missing or falsy required member is refused with 400 and nothing is stored |
| ProductsApiMongo.BodyIdWins | awwalu-saif/app/api/products/route.ts:42-45 | a body's own `id` replaces the inserted id in the answer |
| SearchDialog.BlankIffWhitespace | components/search-dialog.tsx:32-35 | a query is blank exactly when it is all white space |
| SearchDialog.ProductLookup | components/search-dialog.tsx:40-44 | the first min(5, matches) matching products in table order, each a row of the table |
| SearchDialog.CategoryLookup | components/search-dialog.tsx:47-51 | the first min(3, matches) matching categories in table order, each a row of the table |
| SearchDialog.FewProductMatchesAllFound | components/search-dialog.tsx:40-44 | when at most 5 products match, every matching product is returned |
| SearchDialog.FewCategoryMatchesAllFound | components/search-dialog.tsx:47-51 | when at most 3 categories match, every matching category is returned |
| SearchDialog.SomeProductMatchFound | components/search-dialog.tsx:40-44 | when any product matches, the lookup returns at least one row |
| SearchDialog.Combine | components/search-dialog.tsx:54-57 | the product hits tagged as products, then the category hits tagged as categories, each in returned order; null as empty |
| SearchDialog.SearchResultsBounded | components/search-dialog.tsx:40-57 | at most 8 results, products first, every result matching the query |
| SearchDialog.FoldTwice | components/search-dialog.tsx:43 | case folding is idempotent |
| SearchDialog.MatchIgnoresQueryCase | components/search-dialog.tsx:43 | the match ignores the case of the query |
| SearchDialog.ResultRoute | components/search-dialog.tsx:77-86 | a category goes to `/products/<slug>`, a product to `/products/product/<id>` |
| SearchDialog.CategoryRouteIsNotProductRoute | components/search-dialog.tsx:77-86 | a category whose slug has no `/` never routes to a product page |
| SearchDialog.ProductRoutesDistinct | components/search-dialog.tsx:77-86 | products with different ids route to different pages |
| SearchDialog.Dialog.constructor | components/search-dialog.tsx:22-27 | empty query and results, not loading |
| SearchDialog.Dialog.PerformSearch | components/search-dialog.tsx:31-65 | a blank query clears the results and sends nothing; otherwise the untrimmed query is sent and the merged results shown, loading cleared |
| SearchDialog.Dialog.HandleResultClick | components/search-dialog.tsx:77-86 | pushes `ResultRoute`, closes the dialog and clears the query |
| Language.Dir | contexts/language-context.tsx:224 | "rtl" exactly for "ar", else "ltr" |
| Language.T | contexts/language-context.tsx:234-236 | the entry when present and non-empty, else the key; a language without a table throws |
| Language.LookupTotalForSiteLanguages | contexts/language-context.tsx:234-236 | `t` never throws for "ar" or "en", and a missing key shows itself |
| Language.SampleLookups | contexts/language-context.tsx:16-127 | sample entries of both tables, and the key fallback |
| Language.UncheckedPreferenceBreaksLookup | contexts/language-context.tsx:216-219 | an adopted preference other than "ar", "en" or an inherited member name makes every lookup throw |
| Language.Toggle | components/header.tsx:161 | "ar" goes to "en", anything else to "ar" |
| Language.ToggleTwice | components/header.tsx:180 | two toggles restore a site language, and one flips the direction |
| Language.LanguageProvider.constructor | contexts/language-context.tsx:211-212 | language "ar", direction "rtl" |
| Language.LanguageProvider.Sync | contexts/language-context.tsx:222-232 | the direction is derived; the document gets the language and the direction from before; the language is saved |
| Language.LanguageProvider.Settle | contexts/language-context.tsx:222-232 | after the effect settles, the document carries the derived direction and storage the language |
| Language.LanguageProvider.SetLanguage | contexts/language-context.tsx:211-232 | the new language, its direction, saved under "language" |
| Language.LanguageProvider.Mount | contexts/language-context.tsx:214-232 | a truthy saved preference is adopted unchecked, else the default stays; it is saved back |
| Language.LanguageProvider.ToggleLanguage | components/header.tsx:161 | the toggled language and its direction, saved |
| Slides.StepsStayInRange | awwalu-saif/components/hero-section.tsx:50-56 | next and prev stay in range on a non-empty show and undo each other |
| Slides.NextIsModular | awwalu-saif/components/hero-section.tsx:50-52 | next is the successor modulo the slide count |
| Slides.NextTimesClimbs | awwalu-saif/components/hero-section.tsx:50-52 | below the last slide, k presses of next count up by k |
| Slides.NextTimesAdd | awwalu-saif/components/hero-section.tsx:50-52 | presses of next compose |
| Slides.FullCycle | awwalu-saif/components/hero-section.tsx:50-52 | n presses of next return to the starting slide |
| Slides.EmptyListEscapes | awwalu-saif/components/hero-slider.tsx:26-32 | with no slides, next gives 1 and prev gives -1, and next keeps counting |
| Slides.RunStaysInRange | awwalu-saif/components/hero-section.tsx:13-123 | from a slide, any sequence of next, prev, dot clicks and ticks ends on a slide |
| Slides.SectionOffset | awwalu-saif/components/hero-section.tsx:62 | the index times 100 for "rtl", times -100 otherwise |
| Slides.SliderOffset | awwalu-saif/components/hero-slider.tsx:46 | the index times 100 whatever the direction |
| Slides.SectionOffsetsMirror | awwalu-saif/components/hero-section.tsx:62 | the two directions' offsets are opposite |
| Slides.HeroSection.constructor | awwalu-saif/components/hero-section.tsx:13 | starts on slide 0 |
| Slides.HeroSection.NextSlide | awwalu-saif/components/hero-section.tsx:50-52 | the index becomes `NextIndex` of the old one and stays in range |
| Slides.HeroSection.PrevSlide | awwalu-saif/components/hero-section.tsx:54-56 | the index becomes `PrevIndex` of the old one and stays in range |
| Slides.HeroSection.SelectDot | awwalu-saif/components/hero-section.tsx:116-123 | a dot click sets the index to the dot's slide |
| Slides.HeroSection.Tick | awwalu-saif/components/hero-section.tsx:42-48 | a tick is a press of next |
| Slides.HeroSlider.constructor | awwalu-saif/components/hero-slider.tsx:24 | starts on slide 0 of the given list |
| Slides.HeroSlider.NextSlide | awwalu-saif/components/hero-slider.tsx:26-28 | `NextIndex` over the list length; in range stays in range |
| Slides.HeroSlider.PrevSlide | awwalu-saif/components/hero-slider.tsx:30-32 | `PrevIndex` over the list length; in range stays in range |
| Slides.HeroSlider.SelectDot | awwalu-saif/components/hero-slider.tsx:90-97 | a dot click sets the index to the dot's slide |
| Slides.HeroSlider.Tick | awwalu-saif/components/hero-slider.tsx:34-40 | a tick is a press of next |
| Totals.ReduceIsSum | app/checkout/page.tsx:42 | the `reduce` fold adds the sum of price times quantity to its start |
| Totals.SumAppend | awwalu-saif/app/cart/page.tsx:39 | adding a line adds its amount to the subtotal |
| Totals.Shipping | app/checkout/page.tsx:43 | 0 exactly above 500, 50 otherwise |
| Totals.Summarize | app/checkout/page.tsx:42-44 | the subtotal is the sum of the line amounts; shipping is `Shipping` of the subtotal and the total is their sum, exceeding the subtotal by 0 exactly above 500 and by 50 otherwise |
| Totals.ThresholdIsStrict | awwalu-saif/app/cart/page.tsx:40 | a subtotal of exactly 500 pays 50; 501 ships free |
| Totals.SampleCartTotals | app/checkout/page.tsx:19-44 | the sample cart's subtotal and total are 7797, shipping 0 |
| Totals.AddingLineNeverRaisesShipping | awwalu-saif/app/cart/page.tsx:39-41 | a line of positive price and quantity never raises shipping, nor lowers the total by more than the 50 saved |
| Totals.AddingLineCanLowerTotal | awwalu-saif/app/cart/page.tsx:39-41 | crossing the threshold can lower the total: 530 becomes 510 |
| Totals.Label | app/checkout/page.tsx:184 | the shipping label reads free exactly when shipping is 0 |
| Totals.FreeLabelIffAboveThreshold | awwalu-saif/app/cart/page.tsx:121 | the label reads free exactly when the subtotal is above 500 |
| Totals.CheckoutLines | app/checkout/page.tsx:167-169 | each checkout line shows quantity, price and price times quantity |
| Totals.ShownAmountsAddUp | app/checkout/page.tsx:169 | the shown line amounts add up to the subtotal |
| Totals.ShowLine | awwalu-saif/app/cart/page.tsx:70 | the unit-price breakdown appears exactly when the quantity exceeds 1 |
| Totals.Cart | awwalu-saif/app/cart/page.tsx:47-160 | the empty-cart view exactly when there are no items; else every line and the summary |
| Totals.EmptyCartHidesSummary | awwalu-saif/app/cart/page.tsx:149-160 | an empty cart shows the empty view, not the 50-riyal summary it would compute |
| AuthApi.AdminLookup | app/api/auth/route.ts:11 | a row exactly when no error occurs and one admin has the name |
| AuthApi.Secret | app/api/auth/route.ts:22 | the configured secret when set, else the fallback |
| AuthApi.SubmittedName | app/api/auth/route.ts:7 | the submitted name when it is a string |
| AuthApi.Post | app/api/auth/route.ts:5-32 | 500 for an unreadable body; 401 without a row; a one-day admin token when the row's hash is non-empty, else 401 |
| AuthApi.TokenOnlyForStoredAdmin | app/api/auth/route.ts:11-24 | every token is for the one stored admin with the submitted name and a non-empty hash |
| AuthApi.PasswordIgnored | app/api/auth/route.ts:17-24 | requests differing only in the password get the same answer |
| AuthApi.AnyPasswordAccepted | app/api/auth/route.ts:20-24 | a stored admin with a hash gets a token for any password |
| AuthApi.UnknownUserRefused | app/api/auth/route.ts:11-15 | an unknown name or a lookup error is refused with 401 |
| AuthApi.EmptyHashRefused | app/api/auth/route.ts:20-27 | an admin with an empty or missing hash is refused with 401 |
| AuthApiHardcoded.Post | awwalu-saif/app/api/auth/route.ts:4-24 | a one-day admin token, signed with the configured secret or "secret", exactly for "admin" / "admin123"; 401 for anything else; 500 for an unreadable body |
| AuthApiHardcoded.OnlyTheHardcodedPair | awwalu-saif/app/api/auth/route.ts:12-19 | for two strings: a token exactly for the fixed pair, otherwise 401 "Invalid credentials" |
| AuthApiHardcoded.OnlyTheTwoMembersCount | awwalu-saif/app/api/auth/route.ts:6-12 | no other member of the body affects the answer |
| AuthApiHardcoded.StrictComparison | awwalu-saif/app/api/auth/route.ts:12 | a non-string password or a differently cased name is refused |
| AdminLogin.SessionOf | app/admin/login/page.tsx:39-40 | authenticated exactly when a non-empty `adminToken` is stored, as the stored name |
| AdminLogin.SignedIn | app/admin/login/page.tsx:39-40 | the demo token and the name are stored; nothing else changes |
| AdminLogin.SignedOut | awwalu-saif/app/admin/dashboard/page.tsx:72-75 | both keys removed; nothing else changes |
| AdminLogin.SignInAuthenticates | app/admin/login/page.tsx:37-48 | a login authenticates as the submitted name from any session |
| AdminLogin.SignOutEndsSession | awwalu-saif/app/admin/dashboard/page.tsx:72-75 | logout ends any session; a later login starts a fresh one; logout undoes a login |
| AdminLogin.FoundRowSucceeds | app/admin/login/page.tsx:29-37 | the name check repeats the lookup, so a login succeeds exactly when a row is found |
| AdminLogin.ResultToast | app/admin/login/page.tsx:42-57 | the success or failure toast, in Arabic for "ar" and English otherwise |
| AdminLogin.AdminLoginPage.constructor | app/admin/login/page.tsx:19-21 | empty fields, not loading |
| AdminLogin.AdminLoginPage.HandleSubmit | app/admin/login/page.tsx:23-61 | success stores the demo token and the name and goes to the dashboard; failure changes no storage and stays; loading ends cleared; the password plays no part |

## Left out

- Numbers in request bodies and rows are integers or NaN only. A fractional value such as `category_id: 1.5` is not representable, and neither are infinities or negative zero.
- The database clients, the document-store client and the JWT library. Tables are sequences of rows. Query errors and inserted ids are parameters. A token is the request to sign it: claims, secret and lifetime.
- Toasts in the dashboard and the two forms, `confirm()` dialogs, object-URL previews and file uploads. Confirmation and previews are boolean or `Option` parameters.
- Timers and async coordination: the 300 ms search debounce, the 5-second slide interval and its stale closure in the slider. A tick is modelled as the step it performs.
- The interleaving of the delete-category guard with concurrent inserts. This is concurrency.
- PostgREST filter-string parsing and ILIKE wildcards. The search lookups and the lemmas about them require a plain query: no `%`, `_`, `*`, backslash, `,`, parentheses or double quote. `SearchDialog.Dialog.PerformSearch` takes the lookups' rows as parameters, so it needs no such requirement.
- Postgrest.Fold: folds ASCII letters only. The database's `lower()` also folds other scripts.
- Js.ToLowerCase: covers ASCII, the Kelvin sign and U+0130 only. Other characters are kept unchanged; slug generation strips them anyway.
- Js.ParseInt: reads decimal integers of any size. Precision beyond 2^53 and exponent notation are not modelled.
- AdminProductForm.InitialForm: a null `category_id` renders as "" through `?.toString()`. The model's `category_id` is always a number or NaN.
- The HTML `required` attributes of the form inputs. Submission is modelled without them, as the handlers themselves do no checking.
- The database's row order for `limit`. The search lookups take the first matching rows in table order.
- DOM rendering and the dashboard's active tab.
- Prototype keys in `t`: a key such as "constructor" would find an inherited member. The same holds for a saved language named after an inherited member ("constructor", "toString", "__proto__" and the like): `translations[language]` is then that member and `t` returns the key instead of throwing. `Language.UncheckedPreferenceBreaksLookup` excludes these names.
- The full translation tables. `t` is modelled over a map, with a few sample entries of each table.
- AuthApi.SubmittedName: a user name that is not a string is taken to match no row. The database client would send it as text.
- AdminDashboard.Dashboard.AddProduct: an insert that reports no error but returns no rows makes the page append `data[0]`, which is `undefined`, then close the form and show the success toast. The model's lists hold products only, so the reply cannot express this case; `InsertReply` is a stored row or an error.
- AdminDashboard.Dashboard.AddCategory: likewise, an error-free insert that returns no rows appends `undefined` to the category list and reports success. The model does not represent this.
- AdminLogin.AdminLoginPage.HandleSubmit: `isLoading` is true while the lookup runs. The model states only that it ends false, because the method runs the attempt in one step.
- The login page's lookup shares `AuthApi.AdminLookup` with the login route. The dashboard's logout states its effect on storage directly; `AdminLogin.SignedOut` is the same map operation.
