# Al-Azeem fish feed site: a verified model of its core

This project models the decision logic of the Al-Azeem fish-feed web site in Dafny and proves properties of it. The site has:

- a public catalogue, a pincode deliverability check and a two-step WhatsApp order wizard;
- public order-enquiry and dealer-application forms;
- a password-protected admin area for categories, products, pincodes, orders and dealer applications.

The database is replaced by an in-memory store (`Store.Database`): one table per entity, rows kept in insertion order, ids handed out on insert. Each server route is modelled in two parts:

- a pure decision function (`DecideCreate`, `DecideInquiry`, `CheckPincode`, `GetStats`, `Precheck`, …) that states the route's status codes, messages and the record it builds;
- a method on the database that writes exactly that record, or nothing.

Each browser page is a class whose fields are the page's state (`form`, `editing`, `showModal`, `toast`, the loaded lists, the selection). Its methods are the page's handlers. What a handler learns from the outside is passed in as a parameter: the outcome of a `fetch`, the answer to `confirm()`, the follow-up list request, the clock.

Shared modules:

- `Js`: JavaScript values, truthiness, `Number(...)`, `String(n)`, `trim`, `toLowerCase`, `includes`, `startsWith`, `join`.
- `Seqs`: `filter`, counting, `find`, `slice` and query ordering.
- `Http` and `Client`: responses, requests, toasts.

Besides each operation's own contract, the lemmas relate the pages to the routes they call:

- the body a dialog sends is accepted or refused by the route exactly as stated;
- opening a record and saving it unchanged sends a PUT to that record carrying its own fields, up to the normalisations named in the lemma;
- each uploader never holds back a file that the upload route would accept;
- the pincode page's active count equals the dashboard's counter.

## Model

| member | source | states |
|---|---|---|
| Store.Table.Insert | app/api/inquire/route.ts:26-39 | `create` appends exactly one row under the next id; ids stay positive, increasing and unique |
| Store.Database.CreateCategory | app/api/admin/categories/route.ts:34-41 | adds exactly one category row and keeps every product's category reference valid |
| Store.Database.CreateProduct | app/api/admin/products/route.ts:34-46 | adds exactly one product row, only under an existing category, keeping the foreign keys valid |
| Store.Database.CreatePincode | app/api/admin/pincodes/route.ts:21-23 | adds exactly one pincode row, only for a code not yet stored, keeping codes unique |
| Store.Database.CreateInquiry | app/api/inquire/route.ts:26-39 | adds exactly one enquiry row, only for an existing product |
| Store.Database.CreateDealerApplication | app/api/dealer/route.ts:13-22 | adds exactly one application row |
| InquireRoute.ChosenProductIndex | app/api/inquire/route.ts:14-24 | the first product, in store order, whose name contains the requested name; else the first product; none only when there are no products |
| InquireRoute.AbsentNameChoosesFirst | app/api/inquire/route.ts:14-16 | an absent or empty product name matches the first product |
| InquireRoute.DecideInquiry | app/api/inquire/route.ts:4-45 | 400 "Required fields missing" iff one of the six required fields is falsy; 400 "No products found in database" with no products; 500 "Failed to save inquiry" on a non-JSON body or a store failure; otherwise a PENDING enquiry for the chosen product with the six fields verbatim, quantity defaulting to "Not specified" and notes to "" |
| InquireRoute.Post | app/api/inquire/route.ts:26-41 | on success exactly one enquiry is added and `{ success: true, id }` carries its id; on any refusal the table is unchanged |
| DealerRoute.DecideApplication | app/api/dealer/route.ts:4-28 | 400 iff name, phone or details is falsy; 500 "Failed to save application" for a bad body or a store failure; otherwise a PENDING application with name, phone, details verbatim and business and city defaulting to "" |
| DealerRoute.Post | app/api/dealer/route.ts:13-24 | on success exactly one application is added and its id is returned with success true; otherwise nothing is stored |
| CheckPincodeRoute.CheckPincode | app/api/check-pincode/route.ts:4-25 | an absent code, a lookup failure, or a missing or inactive record give not-available; available iff the record with that code is active, with that record's area |
| CheckPincodeRoute.DeliverableIffActiveRecord | app/api/check-pincode/route.ts:13-18 | with unique codes, a stored code is deliverable exactly when its record is active, and the answer carries that record's area |
| CheckPincodeRoute.UnknownCodeNotAvailable | app/api/check-pincode/route.ts:17-20 | a code no record has is not deliverable |
| AdminCategoriesRoute.ListCategories | app/api/admin/categories/route.ts:17-20 | every category exactly once, ascending by display order, each with its linked-product count |
| AdminCategoriesRoute.Get | app/api/admin/categories/route.ts:13-22 | 401 without a session; otherwise 200 with the listing, one entry per category |
| AdminCategoriesRoute.DecideCreate | app/api/admin/categories/route.ts:25-43 | 401 without a session; 500 for a non-JSON body; 400 "Category name is required" iff the name is absent or only whitespace; otherwise the trimmed, non-blank name, a falsy image URL as null, and `Number(display_order)` with NaN as 0 |
| AdminCategoriesRoute.FreshCategoryHasNoProducts | app/api/admin/categories/route.ts:34-42 | no product can reference the id a new category receives, so its count is 0 |
| AdminCategoriesRoute.Post | app/api/admin/categories/route.ts:34-42 | on success one category is added and 201 returns it with a product count of 0; otherwise the table is unchanged |
| AdminProductsRoute.WithCategory | app/api/admin/products/route.ts:16-19 | a product with the category its foreign key names |
| AdminProductsRoute.ListProducts | app/api/admin/products/route.ts:16-19 | every product once, active or not, newest first, each with its own category |
| AdminProductsRoute.Get | app/api/admin/products/route.ts:12-21 | 401 without a session; otherwise 200 with every product |
| AdminProductsRoute.StoredPrice | app/api/admin/products/route.ts:41 | a falsy price is stored as null, any other as `Number(price)` |
| AdminProductsRoute.DecideCreate | app/api/admin/products/route.ts:23-49 | 401; 500 for a non-JSON body; 400 "Name and category are required" iff name or category id is falsy; 500 when the id is not a number or names no category; otherwise the fields copied, the id numeric, the price per `StoredPrice`, active unless exactly `false` |
| AdminProductsRoute.Post | app/api/admin/products/route.ts:34-48 | on success one product is added and 201 returns it with its category; otherwise the table is unchanged |
| AdminPincodesRoute.ListPincodes | app/api/admin/pincodes/route.ts:10 | every pincode once, newest first |
| AdminPincodesRoute.Get | app/api/admin/pincodes/route.ts:6-12 | 401 without a session; otherwise 200 with every pincode |
| AdminPincodesRoute.DecideCreate | app/api/admin/pincodes/route.ts:14-25 | 401; 500 for a non-JSON body; 400 "Code required" iff the code is falsy; 500 for a code already stored; otherwise the code, the area or "", active unless exactly `false` |
| AdminPincodesRoute.Post | app/api/admin/pincodes/route.ts:21-24 | on success one pincode is added and 201 returns it; codes stay unique; otherwise the table is unchanged |
| StatsRoute.GetStats | app/api/admin/stats/route.ts:6-19 | 401 without a session; otherwise the sizes of the product, enquiry and dealer tables, the number of active pincodes and of PENDING enquiries, with pendingOrders ≤ orders |
| StatsRoute.NoPendingMeansNonePending | app/api/admin/stats/route.ts:15 | the pending counter is 0 exactly when no enquiry is PENDING |
| Auth.SignedIn | lib/auth.ts:30-34 | the user object has name = email = username and an id that reads back as the admin's id |
| Auth.Authorize | lib/auth.ts:17-35 | null without username or password (no lookup); null for an unknown username or a failed hash comparison; otherwise the signed-in admin with that username |
| Auth.AuthorizeKnownAdmin | lib/auth.ts:21-34 | for a stored admin, the result depends only on the hash comparison, so an unknown user and a wrong password are indistinguishable |
| Auth.Token.constructor | lib/auth.ts:42 | a token with the given id |
| Auth.SessionUser.constructor | lib/auth.ts:48 | a session user with the given name and no id |
| Auth.AuthSession.constructor | lib/auth.ts:48 | a session with the given (possibly absent) user |
| Auth.Jwt | lib/auth.ts:42-47 | `token.id` is set from the user only when a user is present; otherwise the token is unchanged |
| Auth.Session | lib/auth.ts:48-53 | `session.user.id` is copied from the token only when both exist; nothing else changes |
| Auth.SignIn | lib/auth.ts:17-53 | after a successful sign-in the session's user id is the admin's id as a string; after a failed one the token is untouched |
| UploadRoute.Precheck | app/api/admin/upload/route.ts:13-42 | the checks in order: 401 without a session, 400 "No file provided", 400 for a type outside the five allowed, 400 for more than 5 MiB; passes iff all four hold |
| UploadRoute.Upload | app/api/admin/upload/route.ts:44-63 | the upload is attempted only after the checks pass; success returns the hosted URL and id, and a failed upload gives 500 "Upload failed" |
| UploadRoute.AllowedTypesAreImages | app/api/admin/upload/route.ts:28 | every allowed type starts with `image/` |
| UploadRoute.SizeLimitInclusive | app/api/admin/upload/route.ts:37-42 | exactly 5 MiB passes and one byte more is refused as too large |
| Storefront.EmojiFor | app/page.tsx:26-33 | the emoji of the first key, in declaration order, whose lowercased first word occurs in the lowercased name; "🐟" when none does |
| Storefront.GetEmoji | app/page.tsx:151-156 | the loop with early return computes `EmojiFor`; the catalog page's copy is identical |
| Storefront.EmojiIgnoresCase | app/page.tsx:153 | the lookup does not depend on the case of the product name |
| Storefront.SizeClause | app/page.tsx:147 | the size clause is empty iff the size is falsy |
| Storefront.PriceClause | app/page.tsx:147 | the price clause is empty iff the price is falsy |
| Storefront.InterestMessage | app/page.tsx:147 | the message starts with the greeting and the product name and is made of the greeting, the name, the size and price clauses and the closing |
| Storefront.BareMessageIffNoClauses | app/page.tsx:146-149 | the message equals the one with size and price dropped iff both are falsy |
| Storefront.WhatsAppLink | app/page.tsx:146-149 | the link is the WhatsApp base URL followed by the message |
| HomePage.ResultFor | app/page.tsx:126-142 | success iff the code is deliverable, naming the area or else the pincode; otherwise an error naming the pincode; a failed check gives "Unable to check. Please try again." |
| HomePage.Page.constructor | app/page.tsx:96-104 | empty pincode, no result, empty top lists |
| HomePage.Page.CategoriesLoaded | app/page.tsx:108-112 | the top categories are the first (at most) four returned |
| HomePage.Page.ProductsLoaded | app/page.tsx:114-117 | the top products are the first (at most) four returned |
| HomePage.Page.EditPincode | app/page.tsx:452-455 | the pincode keeps only the digits typed and the previous result is cleared |
| HomePage.Page.CheckPincode | app/page.tsx:120-144 | nothing happens for fewer than six digits; otherwise the result is `ResultFor` the lookup |
| CatalogPage.InitialSelection | app/products/page.tsx:41-43 | `Number(categoryId)` when the parameter is present, else no selection |
| CatalogPage.LinkSelectsCategory | app/products/page.tsx:41-43 | a link carrying a category's id selects exactly that category |
| CatalogPage.SelectedName | app/products/page.tsx:76 | the name of the first category with the selected id, none when no category has it |
| CatalogPage.Filtered | app/products/page.tsx:75-77 | without a selection every product; otherwise exactly the products whose category name equals the selected category's name, in order |
| CatalogPage.ChosenCategoryShowsItsProducts | app/products/page.tsx:75-77 | with unique ids, choosing a category shows exactly the products in a category of that name |
| CatalogPage.Page.constructor | app/products/page.tsx:39-43 | empty lists and the selection from the query parameter |
| CatalogPage.Page.ParamChanged | app/products/page.tsx:47-51 | a present parameter replaces the selection; an absent one leaves it |
| CatalogPage.Page.SelectAll | app/products/page.tsx:143 | no selection, so every product is shown |
| CatalogPage.Page.SelectCategory | app/products/page.tsx:151 | the clicked category's id becomes the selection |
| CatalogPage.Page.ProductsLoaded | app/products/page.tsx:58-65 | the product list is replaced by a successful answer and kept otherwise |
| CatalogPage.Page.CategoriesLoaded | app/products/page.tsx:67-73 | the category list is replaced by a successful answer and kept otherwise |
| OrderModal.NotAvailableMessage | app/components/OrderModal.tsx:64 | the refusal message contains "not available" |
| OrderModal.OtherErrorsLackMarker | app/components/OrderModal.tsx:51 | the invalid-pincode and lookup-failure messages do not contain "not available", so only a refusal offers the WhatsApp link |
| OrderModal.KeptLines | app/components/OrderModal.tsx:75-89 | dropping empty lines keeps the seven fixed lines and the three product lines exactly when they are set |
| OrderModal.SummaryHasRequiredLines | app/components/OrderModal.tsx:75-89 | the summary always contains the product, quantity, name, phone, address and pincode lines |
| OrderModal.Dialog.constructor | app/components/OrderModal.tsx:19-33 | closed, step 1, everything empty |
| OrderModal.Dialog.Open | app/components/OrderModal.tsx:36-46 | becoming open resets to step 1 with empty pincode, error, area and form; opening a dialog that is already open keeps every field |
| OrderModal.Dialog.Close | app/components/OrderModal.tsx:46 | a closed dialog renders nothing |
| OrderModal.Dialog.EditPincode | app/components/OrderModal.tsx:134-137 | the pincode keeps only digits and every edit clears the error |
| OrderModal.Dialog.CheckPincode | app/components/OrderModal.tsx:48-70 | a length other than 6 sets the error and does no lookup; available moves to step 2 with the area or the pincode; unavailable and failure set different errors and stay at step 1; the WhatsApp link shows iff the code was refused |
| OrderModal.Dialog.ChangePincode | app/components/OrderModal.tsx:175 | "Change" returns to step 1 and keeps the pincode |
| OrderModal.Dialog.EditDetails | app/components/OrderModal.tsx:185-221 | the detail fields are replaced as typed |
| OrderModal.Dialog.Submit | app/components/OrderModal.tsx:72-95 | the URL is the order base followed by the summary, contains the pincode line, and the dialog closes |
| CategoriesPage.UploaderPrecheck | app/admin/categories/page.tsx:33-34 | a non-`image/` type or more than 5 MB is refused with its message and no request |
| CategoriesPage.UploaderPassesWhatServerAccepts | app/admin/categories/page.tsx:33-34 | a file the upload route accepts always passes the uploader's checks |
| CategoriesPage.ImageUploader.constructor | app/admin/categories/page.tsx:28 | no error |
| CategoriesPage.ImageUploader.Upload | app/admin/categories/page.tsx:30-47 | a request only after the checks pass; the route's error or "Upload failed." on refusal; "Network error — please try again." on failure; the URL handed over on success |
| CategoriesPage.EditForm | app/admin/categories/page.tsx:205-213 | name copied, a missing image URL as "", the display order as text that reads back as the same number |
| CategoriesPage.RequestBody | app/admin/categories/page.tsx:219-223 | trimmed name, "" image URL as null, display order `Number(text)` or 0 |
| CategoriesPage.ServerStoresDialogBody | app/admin/categories/page.tsx:219-238 | the create route refuses the dialog's body with 400 iff the name is blank, and otherwise stores the trimmed name, the image URL and the display order the dialog sent |
| CategoriesPage.EditFormRoundTrip | app/admin/categories/page.tsx:205-223 | opening a category and saving it unchanged sends its own name, image URL and display order |
| CategoriesPage.AddFormSendsListLength | app/admin/categories/page.tsx:199-203 | the add dialog's default display order reaches the route as the number of listed categories |
| Client.SaveRequest | app/admin/categories/page.tsx:226-238 | PUT to the edited record's id exactly when a record is being edited, otherwise POST to the collection, with the dialog's body unchanged either way; the products and pincodes pages send the same shape |
| CategoriesPage.Page.constructor | app/admin/categories/page.tsx:177-182 | empty list, closed dialog, empty form, no toast |
| CategoriesPage.Page.Refresh | app/admin/categories/page.tsx:189-192 | the list is replaced only by a successful answer |
| CategoriesPage.Page.OpenAdd | app/admin/categories/page.tsx:199-203 | not editing, empty name and image, display order the number of listed categories |
| CategoriesPage.Page.OpenEdit | app/admin/categories/page.tsx:205-213 | editing the category, with the form from `EditForm` |
| CategoriesPage.Page.ImageChosen | app/admin/categories/page.tsx:551 | the uploaded URL replaces the image field only |
| CategoriesPage.Page.ShowSaveOutcome | app/admin/categories/page.tsx:240-250 | success shows "added"/"updated", closes the dialog and reloads; a refusal shows the route's error or "Failed to save." and keeps the dialog and list; a network failure shows the retry message |
| CategoriesPage.Page.Submit | app/admin/categories/page.tsx:215-252 | sends `Client.SaveRequest` with the edited id and the dialog's body; success closes the dialog, shows the success toast and reloads; a refusal shows the route's error or "Failed to save." and keeps the dialog; a network failure shows the retry message |
| CategoriesPage.Page.Delete | app/admin/categories/page.tsx:254-267 | a category with products is refused on the page with no request; otherwise, only after confirmation, the DELETE; success toasts and reloads, a refusal shows the route's error or "Delete failed." |
| ProductsPage.UploaderPassesWhatServerAccepts | app/admin/products/page.tsx:74-80 | a file the upload route accepts always passes the uploader's type check |
| ProductsPage.ImageUploader.constructor | app/admin/products/page.tsx:47 | no error |
| ProductsPage.ImageUploader.HandleFile | app/admin/products/page.tsx:49-80 | a non-image file is refused with "Please select an image file." and no upload; otherwise the route's error or "Upload failed", "Network error during upload.", or the URL |
| ProductsPage.EditForm | app/admin/products/page.tsx:252-265 | absent optional fields become "", a falsy price becomes "", the category id and price as text that read back as the same numbers |
| ProductsPage.RequestBody | app/admin/products/page.tsx:271-275 | the text fields copied, category id as a number (NaN written as null), price "" as null and any other price as `Number(price)` (NaN written as null), the active flag as a boolean |
| ProductsPage.StoredFormPrice | app/admin/products/page.tsx:271-275 | what the store ends up with for a price field: a non-zero number or null |
| ProductsPage.ServerDecisionForForm | app/admin/products/page.tsx:271-275 | the create route gives 400 iff the name is empty or the category id is empty, 0 or not a number; 500 for an id with no category; otherwise the product as typed |
| ProductsPage.EditFormRoundTrip | app/admin/products/page.tsx:252-282 | opening a product and saving it unchanged sends a PUT to that product's id carrying its own name, description, category id, protein, size, price, image URL and active flag, except that absent text fields are sent as "" and a falsy price as null |
| ProductsPage.Page.constructor | app/admin/products/page.tsx:214-220 | empty lists, closed dialog, empty form, no toast |
| ProductsPage.Page.Refresh | app/admin/products/page.tsx:232-239 | the products list is replaced by its answer; the categories list is replaced by its answer only once the products answer has been read, and an unreadable products answer keeps both lists |
| ProductsPage.Page.OpenAdd | app/admin/products/page.tsx:246-250 | not editing, the empty form with the active flag set |
| ProductsPage.Page.OpenEdit | app/admin/products/page.tsx:252-265 | editing the product, with the form from `EditForm` |
| ProductsPage.Page.ImageChosen | app/admin/products/page.tsx:459 | the uploaded URL replaces the image field only |
| ProductsPage.Page.Submit | app/admin/products/page.tsx:267-301 | sends `Client.SaveRequest` with the edited id and the dialog's body; success closes the dialog and reloads; a refusal shows "Failed to save product." and a failure "Network error.", both keeping the dialog |
| ProductsPage.Page.Delete | app/admin/products/page.tsx:303-310 | no request without confirmation; the toast and reload only after a successful DELETE |
| OrdersPage.StatusOptionsListEachOnce | app/admin/orders/page.tsx:22 | the options are exactly the four enquiry statuses, each once |
| OrdersPage.TabCount | app/admin/orders/page.tsx:99 | the number of enquiries with the tab's status |
| OrdersPage.Filtered | app/admin/orders/page.tsx:76 | "ALL" is every enquiry; a status tab holds exactly the enquiries with that status, as many as its count |
| OrdersPage.TabCountsSum | app/admin/orders/page.tsx:93-99 | the four tab counts add up to the total |
| OrdersPage.Page.constructor | app/admin/orders/page.tsx:33-36 | empty list, "ALL" tab, no selection, no toast |
| OrdersPage.Page.Shown | app/admin/orders/page.tsx:76 | the whole list on the ALL tab; on a status tab exactly the orders with that status, as many as the tab count |
| OrdersPage.Page.Refresh | app/admin/orders/page.tsx:43-46 | the list becomes the returned one |
| OrdersPage.Page.SetFilter | app/admin/orders/page.tsx:97 | the clicked tab becomes the filter |
| OrdersPage.Page.Select | app/admin/orders/page.tsx:132 | the clicked enquiry, or none, becomes the selection |
| OrdersPage.Page.UpdateStatus | app/admin/orders/page.tsx:48-59 | a failed update changes nothing; a successful one toasts, reloads and changes the selected enquiry's status only when its id matches |
| OrdersPage.Page.DeleteOrder | app/admin/orders/page.tsx:61-69 | no request without confirmation; a successful delete toasts, reloads and clears the selection; a failed one changes nothing |
| DealersPage.StatusOptionsListEachOnce | app/admin/dealers/page.tsx:18 | the options are exactly the four application statuses, each once |
| DealersPage.PendingCount | app/admin/dealers/page.tsx:70 | the number of PENDING applications, at most the total |
| DealersPage.NoPendingIffNoneListed | app/admin/dealers/page.tsx:70 | the header reads 0 pending iff no application is PENDING |
| DealersPage.NewApplicationCounted | app/admin/dealers/page.tsx:70 | a new PENDING application raises the count by exactly one |
| DealersPage.Page.constructor | app/admin/dealers/page.tsx:29-31 | empty list, no selection, no toast |
| DealersPage.Page.Refresh | app/admin/dealers/page.tsx:38-41 | the list becomes the returned one |
| DealersPage.Page.Select | app/admin/dealers/page.tsx:103 | the clicked application, or none, becomes the selection |
| DealersPage.Page.UpdateStatus | app/admin/dealers/page.tsx:43-54 | a failed update changes nothing; a successful one toasts, reloads and changes the selected application's status only when its id matches |
| PincodesPage.EditForm | app/admin/pincodes/page.tsx:46-50 | code and active flag copied, a missing area as "" |
| PincodesPage.FormBody | app/admin/pincodes/page.tsx:52-66 | the body is the form's three fields |
| PincodesPage.ServerStoresForm | app/admin/pincodes/page.tsx:52-66 | the create route gives 400 iff the code is empty, 500 for a code already stored, and otherwise stores exactly the form |
| PincodesPage.EditFormRoundTrip | app/admin/pincodes/page.tsx:46-62 | opening a pincode and saving it unchanged sends a PUT to that pincode's id carrying its own code, area (absent as "") and active flag |
| PincodesPage.TypedCodeStoredAsDigits | app/admin/pincodes/page.tsx:199 | a typed code is stored as exactly its digits |
| PincodesPage.Filtered | app/admin/pincodes/page.tsx:101-103 | keeps a pincode iff its code contains the search or its lowercased area contains the lowercased search |
| PincodesPage.EmptySearchShowsAll | app/admin/pincodes/page.tsx:101-103 | an empty search shows the whole list |
| PincodesPage.SearchFindsOwnCode | app/admin/pincodes/page.tsx:101-103 | searching a pincode's own code finds it |
| PincodesPage.ActiveCount | app/admin/pincodes/page.tsx:118 | the number of active pincodes, at most the total |
| PincodesPage.ActiveCountMatchesDashboard | app/admin/pincodes/page.tsx:118 | the header's active count over the listed pincodes equals the dashboard's pincode counter |
| PincodesPage.Page.constructor | app/admin/pincodes/page.tsx:17-23 | empty list, closed dialog, empty active form, no toast, empty search |
| PincodesPage.Page.Shown | app/admin/pincodes/page.tsx:101-103 | exactly the rows whose code contains the search or whose area contains it ignoring case; the whole list for an empty search |
| PincodesPage.Page.Refresh | app/admin/pincodes/page.tsx:30-33 | the list becomes the returned one |
| PincodesPage.Page.SetSearch | app/admin/pincodes/page.tsx:125 | the search text as typed |
| PincodesPage.Page.OpenAdd | app/admin/pincodes/page.tsx:40-44 | not editing, empty code and area, active |
| PincodesPage.Page.OpenEdit | app/admin/pincodes/page.tsx:46-50 | editing the pincode, with the form from `EditForm` |
| PincodesPage.Page.EditCode | app/admin/pincodes/page.tsx:199 | the code keeps only the digits typed |
| PincodesPage.Page.EditArea | app/admin/pincodes/page.tsx:210 | the area as typed |
| PincodesPage.Page.EditActive | app/admin/pincodes/page.tsx:219 | the checkbox sets the active flag |
| PincodesPage.Page.Submit | app/admin/pincodes/page.tsx:52-81 | sends `Client.SaveRequest` with the edited id and the dialog's body; success closes the dialog and reloads; a refusal shows "Failed to save pincode." and a failure "Network error." |
| PincodesPage.Page.Delete | app/admin/pincodes/page.tsx:83-90 | no request without confirmation; the toast and reload only after a successful DELETE |
| PincodesPage.Page.ToggleActive | app/admin/pincodes/page.tsx:92-99 | PUT of the same record with the active flag negated, then a reload whatever the answer |
| AdminSidebar.IsActive | app/admin/components/AdminSidebar.tsx:28-29 | exact items match the pathname exactly; the others match any pathname starting with their href |
| AdminSidebar.OnlyDashboardIsExact | app/admin/components/AdminSidebar.tsx:8-15 | only the Dashboard entry is exact |
| AdminSidebar.SectionHighlightsSubpages | app/admin/components/AdminSidebar.tsx:10-14 | every other entry is active on any path beginning with its href |
| AdminSidebar.DashboardOnlyOnItsOwnPath | app/admin/components/AdminSidebar.tsx:9 | Dashboard is highlighted only on `/admin` itself, not on `/admin/orders` |
| AdminSidebar.RedirectTarget | app/admin/components/AdminSidebar.tsx:22-26 | an unauthenticated status on any path except `/admin/login` redirects to `/admin/login` |
| Js.NumberOfString | app/products/page.tsx:42 | `Number(String(n)) === n` for whole numbers |
| Js.DigitsOnly | app/components/OrderModal.tsx:135 | `replace(/\D/g, "")` keeps only digits, and leaves a string of digits unchanged |
| Js.TrimEmptyIffBlank | app/api/admin/categories/route.ts:30 | the trimmed string is empty iff the string is all whitespace |
| Js.TrimIdempotent | app/api/admin/categories/route.ts:36 | trimming twice is trimming once |
| Js.Join | app/components/OrderModal.tsx:89 | `join` with a separator |
| Js.JoinContains | app/components/OrderModal.tsx:89 | each joined part occurs in the result |
| Seqs.SortBy | app/api/admin/categories/route.ts:18 | a query's ascending `orderBy`: sorted, and the same rows |
| Seqs.CountPermutation | app/api/admin/stats/route.ts:13 | a count does not depend on the order of the rows |

## Left out

- Real I/O is not modelled: the database driver, `fetch`, `Promise.all`, toast timers, `confirm()`, router navigation and `window.open`. Their results are parameters of the methods: fetch outcomes, confirmation answers, follow-up list answers, the clock.
- Session resolution (`getServerSession`, JWT signing) is an optional session parameter.
- The bcrypt comparison is an arbitrary `passwordMatches` function. Because of that, a store exception during `authorize`'s lookup is not modelled.
- Cloudinary configuration and the upload stream are outside the model; the upload's outcome is a parameter.
- `encodeURIComponent` is not applied. The WhatsApp messages are modelled before URL encoding, and the transport link's own text is not composed.
- Prices and other numbers are whole numbers. `Number(...)` is modelled for "" (0), decimal digits optionally preceded by `-`, and everything else as NaN. Not modelled: decimal fractions, exponents, surrounding whitespace, a leading `+`, the `0x`/`0b`/`0o` radix forms and `Infinity`/`-Infinity`. The model maps these to NaN, where JavaScript gives a number; a request that sends, say, `"display_order": "+5"` straight to the categories route is stored with 0 here but with 5 by the handler. The pages' number inputs do not produce these forms.
- `toLowerCase` folds ASCII letters only.
- Typing into the categories and products dialogs' fields (name, image URL and display order; name, description, category, protein, size, price and active flag) is not a method of its own. The dialog state is the form `OpenAdd`, `OpenEdit` and `ImageChosen` produce, and the lemmas about the request body hold for every form.
- Loading and saving flags, drag-and-drop, image previews and `maxLength` on inputs are not modelled. They only affect rendering or what a browser lets the user type.
- The per-id PUT and DELETE routes and the server-side delete protection are not part of this model. The pages' requests to them are modelled; the routes' effects are not.
- The public list routes, the admin orders and dealers list routes, the login page, the dashboard page, static pages and the seed script are not part of this model.
- Concurrency between admin sessions (last writer wins) is not modelled.
- Request text fields (names, phone numbers, codes, areas and the like) are modelled as strings or absent only. A JSON number, boolean or object in such a field is not modelled; the handlers answer 500 for it (a `trim()` on a non-string throws, or the store refuses the column value).
- The product-name filter `contains` is modelled as a case-sensitive substring test: the handler asks for no case-insensitive mode. A database whose collation ignores case would match more names.
- A duplicate pincode code is refused with 500, because the store's unique-constraint error is not caught; there is no 400 conflict answer.
- A display order may be negative, and a NaN category id or price is passed through, as the handlers do.
- ProductsPage.Page.Refresh: the page stores whatever JSON comes back without checking `res.ok`, so an error body such as a 401 `{error}` would replace a list with a non-list. The model's lists are typed, and an answer that is not a list is modelled as no answer (the list is kept).
- OrdersPage.Page.Refresh: likewise, an error body is not stored in place of the list, as the page would do without checking `res.ok`.
- DealersPage.Page.Refresh: likewise, an error body is not stored in place of the list, as the page would do without checking `res.ok`.
- PincodesPage.Page.Refresh: likewise, an error body is not stored in place of the list, as the page would do without checking `res.ok`.
- Store.Database.CreateProduct: the foreign-key check is a precondition (the route refuses a missing category with 500 before calling it), not a thrown error.
- CheckPincodeRoute.CheckPincode: a lookup failure is a boolean parameter; which store errors cause it is not modelled.
