# Flowmerce core, modelled in Dafny

Flowmerce is an inventory and order dashboard. A React client lists, filters,
sorts and pages products. It adds and edits products and orders, and it holds
an assistant chat and an admin page for pending subscriptions. A Django
backend gates every request on the user's subscription and has permission
classes and model-level computed fields.

This project models the logic of those pieces and proves what they promise:

- Product list (`Products`): category options, filter, sort, pages and delete.
- Order forms (`OrderRows` for the row editor both order pages share, plus
  `CreateOrder` and `EditOrder`): row edits, suggestions, valid rows, the
  footer total, the request bodies and the update sequence.
- Product forms (`ProductForm` for the record and handlers both product pages
  share, plus `AddProduct` and `EditProduct`): change handlers, tag toggle,
  the "other" category rule, custom category creation, form-data
  serialisation and error messages.
- Backend: the subscription middleware (`SubscriptionMiddleware`), the
  permission classes (`Permissions`) and the model logic (`Models`).
- Small client state machines: the authentication redirect (`AuthRedirect`),
  the chat log (`Reports`) and the approval list (`AdminSubscription`).

Code made of expressions is modelled as functions and lemmas. Code that
updates state step by step is modelled as classes and methods: the order form's
rows, the chat, the approval page, the middleware and the model saves. Each
method's `ensures` ties the new state to a specification function, and lemmas
prove that function's properties.

JavaScript values are a `Value` datatype with `Truthy` and `||` (`Or`). An
object whose key order matters is a sequence of key/value pairs, and
`ProductForm.Assign` models the spread update. `Number(...)` is `Num`:
`Finite(n)` or `NaN`. Each server call is a `Reply`, success with its data
or failure with the error's fields. Replies, the clock and the file chooser are
parameters.

## Model

| member | source | states |
|---|---|---|
| Common.TrimEmptyIffAllSpace | frontend/Flowmerce/src/pages/Reports.jsx:18 | `s.trim()` is empty exactly when every character of `s` is JavaScript white space |
| Common.BeforeFirst | backend/flowmerce/core/models.py:52 | `split(c)[0]`: a prefix of the text free of `c`, and either the whole text or followed by `c` |
| Common.SlugFacts | frontend/Flowmerce/src/components/AddProduct.jsx:138 | the new category's slug has no white space and no upper-case ASCII letter, is no longer than its text, and is just the lower-cased text when that has no white space |
| Common.DashSpaceRunsSplit | frontend/Flowmerce/src/components/AddProduct.jsx:138 | `replace(/\s+/g, "-")` turns each maximal run of white space into exactly one "-", and rewrites the text before and after the run on its own, keeping its other characters in order |
| Common.DashSpaceRunsAppend | frontend/Flowmerce/src/components/AddProduct.jsx:138 | text that does not end inside a run of white space is rewritten independently of what follows it |
| Common.SlugSplit | frontend/Flowmerce/src/components/EditProduct.jsx:165 | in the slug, a maximal run of white space becomes exactly one "-" between the slugs of the text before and after it |
| Common.DecimalString | frontend/Flowmerce/src/pages/Products.jsx:60 | `String(n)` of a whole number: non-empty, made of digits and a minus sign |
| Products.ProductsOf | frontend/Flowmerce/src/pages/Products.jsx:80-82 | the product list is a bare array, else `results`, else `data`, else empty |
| Products.AfterFetchProducts | frontend/Flowmerce/src/pages/Products.jsx:75-94 | a fetch stores the list or the error message, and loading ends either way |
| Products.AsOptions | frontend/Flowmerce/src/pages/Products.jsx:58-63 | every fetched category becomes an option with its id as decimal text and its title, in order |
| Products.CategoriesAfterFetch | frontend/Flowmerce/src/pages/Products.jsx:28-73 | the sixteen defaults come first, followed by the fetched categories, or the defaults alone when the fetch fails |
| Products.FilterProductsSpec | frontend/Flowmerce/src/pages/Products.jsx:106-121 | the filtered list is a subsequence of the products; a product is in it exactly when it matches the search on title, category title or status and both selectors (empty = any, category compared as text); kept products keep their multiplicity |
| Products.EmptyFiltersKeepTitled | frontend/Flowmerce/src/pages/Products.jsx:106-121 | with no search and no selector every product with a title is shown |
| Products.RequestSort | frontend/Flowmerce/src/pages/Products.jsx:123-129 | the new key is the clicked one; the direction is descending exactly when the same key was ascending |
| Products.RequestSortAlternates | frontend/Flowmerce/src/pages/Products.jsx:123-129 | repeated clicks on one column alternate the direction with period two |
| Products.ComparatorAgrees | frontend/Flowmerce/src/pages/Products.jsx:131-139 | where both values are present, `compare(a, b) <= 0` exactly when `a` may precede `b` in the chosen direction |
| Products.UnsortedComparesEqual | frontend/Flowmerce/src/pages/Products.jsx:131-139 | with no key chosen the comparator returns 0 for every pair |
| Products.PrecedesTotal | frontend/Flowmerce/src/pages/Products.jsx:131-139 | any two products are ordered one way or the other |
| Products.PrecedesTrans | frontend/Flowmerce/src/pages/Products.jsx:131-139 | the order the sort uses is transitive |
| Products.SortProductsSpec | frontend/Flowmerce/src/pages/Products.jsx:131-139 | the sorted copy is a permutation of the filtered list and is ordered by the chosen column and direction |
| Products.UnsortedKeepsOrder | frontend/Flowmerce/src/pages/Products.jsx:131-139 | with no key chosen the stable sort keeps the filtered order |
| Products.PageContents | frontend/Flowmerce/src/pages/Products.jsx:141-146 | page `p` holds the sorted items at indices `(p-1)*20` up to `p*20-1`, so at most twenty |
| Products.PageCountBounds | frontend/Flowmerce/src/pages/Products.jsx:19 | `ceil(n/20)` pages cover `n` items and the last one is not empty |
| Products.PagesPartition | frontend/Flowmerce/src/pages/Products.jsx:141-146 | pages 1 to `ceil(n/20)`, laid end to end, are the sorted list itself |
| Products.PageButtons | frontend/Flowmerce/src/pages/Products.jsx:19 | page buttons numbered 1 to `ceil(n/20)` are shown only when there are more than twenty products |
| Products.CurrentProductsKept | frontend/Flowmerce/src/pages/Products.jsx:106-146 | every product shown is a fetched product that passes the filter |
| Products.AfterDeleteSpec | frontend/Flowmerce/src/pages/Products.jsx:149-156 | a successful delete drops every product with that id and keeps every other product in order, as often as it occurred; a failed one changes nothing |
| OrderRows.ToNumberOfDecimal | frontend/Flowmerce/src/components/CreateOrder.jsx:41-44 | `Number(String(n))` is `n` for every whole number |
| OrderRows.WriteField | frontend/Flowmerce/src/components/CreateOrder.jsx:41-47 | the edited field takes the value, as a number for quantity and price; the loading flag is raised for an sku or title longer than two characters; nothing else changes |
| OrderRows.SearchResults | frontend/Flowmerce/src/components/CreateOrder.jsx:54-56 | the suggestions are a bare array, else `results`, else empty |
| OrderRows.AfterSearch | frontend/Flowmerce/src/components/CreateOrder.jsx:60-72 | a search reply stores its suggestions and a failed one only clears the loading flag; loading is off either way |
| OrderRows.Select | frontend/Flowmerce/src/components/CreateOrder.jsx:162-175 | choosing a suggestion copies its id, title, sku and price into the row and clears the suggestions; the quantity is kept |
| OrderRows.WithoutIndex | frontend/Flowmerce/src/components/CreateOrder.jsx:92-94 | row `index` is removed and the others keep their order; an index out of range changes nothing |
| OrderRows.WithBlankRow | frontend/Flowmerce/src/components/CreateOrder.jsx:77-90 | one blank row is appended and the others are untouched |
| OrderRows.OrderForm.constructor | frontend/Flowmerce/src/components/CreateOrder.jsx:20-33 | the form starts with one blank row, no date and status "Pending" |
| OrderRows.OrderForm.UpdateOrderItem | frontend/Flowmerce/src/components/CreateOrder.jsx:38-51 | row `index` is rewritten in place by `WriteField`; the search it starts is reported |
| OrderRows.OrderForm.ApplySearchReply | frontend/Flowmerce/src/components/CreateOrder.jsx:52-73 | the search reply lands on row `index` only |
| OrderRows.OrderForm.AddOrderItem | frontend/Flowmerce/src/components/CreateOrder.jsx:77-90 | the rows become `WithBlankRow` of the old rows |
| OrderRows.OrderForm.RemoveOrderItem | frontend/Flowmerce/src/components/CreateOrder.jsx:92-94 | the rows become `WithoutIndex` of the old rows |
| OrderRows.OrderForm.SelectSuggestion | frontend/Flowmerce/src/components/CreateOrder.jsx:162-175 | row `index` becomes `Select` of itself; no other row changes |
| OrderRows.ValidItemsSpec | frontend/Flowmerce/src/components/CreateOrder.jsx:100-102 | the valid items are, in order, exactly the rows with a product, a positive quantity and a positive price; there are none exactly when no row is valid |
| OrderRows.TotalIsAmountSum | frontend/Flowmerce/src/components/CreateOrder.jsx:157-160 | the footer total is the sum of price times quantity when every row holds numbers, and NaN otherwise |
| OrderRows.BlankRowAddsNothing | frontend/Flowmerce/src/components/CreateOrder.jsx:77-90 | adding a blank row leaves the total unchanged |
| OrderRows.LinesOf | frontend/Flowmerce/src/components/CreateOrder.jsx:120-127 | one line item per valid row, in order, carrying its product, quantity, title, price and sku |
| OrderRows.OrderDateField | frontend/Flowmerce/src/components/CreateOrder.jsx:117-119 | a chosen day is sent as midnight UTC, and no day as the current time |
| CreateOrder.SavePayload | frontend/Flowmerce/src/components/CreateOrder.jsx:100-128 | no payload exactly when no row is valid; otherwise the payload carries the status and the date field |
| CreateOrder.SavePayloadSpec | frontend/Flowmerce/src/components/CreateOrder.jsx:100-128 | the save is refused exactly when every row is invalid; the payload's items correspond field by field to the valid rows |
| EditOrder.RowOf | frontend/Flowmerce/src/components/EditOrder.jsx:50-58 | a fetched item becomes a row with its fields renamed, not loading and with no suggestions |
| EditOrder.RowsOf | frontend/Flowmerce/src/components/EditOrder.jsx:49-59 | one row per fetched item, in order |
| EditOrder.LoadedStatus | frontend/Flowmerce/src/components/EditOrder.jsx:43 | the fetched status, or "Pending" when it is missing or empty |
| EditOrder.LoadedDate | frontend/Flowmerce/src/components/EditOrder.jsx:45-47 | the day part before "T" of a fetched date; with no date the input keeps its value |
| EditOrder.LoadOrder | frontend/Flowmerce/src/components/EditOrder.jsx:38-64 | a fetched order replaces the status, the date and the rows; a failed fetch leaves the form as it was |
| EditOrder.ReloadRoundTrip | frontend/Flowmerce/src/components/EditOrder.jsx:49-59 | a fetched row is valid exactly when its item is; saving a fetched order unchanged posts back its own line items in order |
| EditOrder.HandleUpdateOrder | frontend/Flowmerce/src/components/EditOrder.jsx:139-186 | nothing is sent without a valid row; otherwise the PATCH comes first, the DELETE of the items only after it succeeds, then one POST per valid row in order; a failure at any step ends the update as failed |
| EditOrder.PostsCarryValidRows | frontend/Flowmerce/src/components/EditOrder.jsx:160-173 | the `i`-th POST carries the `i`-th valid row's product, quantity, title, price and sku |
| ProductForm.Lookup | frontend/Flowmerce/src/components/EditProduct.jsx:73-85 | `obj[k]` is `undefined` for a missing key |
| ProductForm.LookupEntry | frontend/Flowmerce/src/components/AddProduct.jsx:148-151 | in an object with unique keys, each entry's value is what looking up its key gives |
| ProductForm.Assign | frontend/Flowmerce/src/components/AddProduct.jsx:81-87 | `{...r, [k]: v}`: an existing key keeps its place, a new key is appended, `k` reads `v` and every other key reads as before |
| ProductForm.AssignUnique | frontend/Flowmerce/src/components/AddProduct.jsx:148-151 | the spread update keeps keys unique |
| ProductForm.TagsOf | frontend/Flowmerce/src/components/AddProduct.jsx:53-57 | the tags are a bare array, else `data`, else empty |
| ProductForm.RawOptions | frontend/Flowmerce/src/components/AddProduct.jsx:59-66 | every fetched category becomes an option with its numeric id and title, in order |
| ProductForm.MergeCategories | frontend/Flowmerce/src/components/AddProduct.jsx:59-68 | the defaults come first, followed by the fetched categories, or the defaults alone when the fetch fails |
| ProductForm.HandleChange | frontend/Flowmerce/src/components/AddProduct.jsx:81-87 | the named field takes the text and no other field changes |
| ProductForm.HandleCategoryChange | frontend/Flowmerce/src/components/AddProduct.jsx:89-99 | "other" shows the custom input and clears the category; any other value becomes the category, hides the input and clears its text |
| ProductForm.HandleCustomCategoryChange | frontend/Flowmerce/src/components/AddProduct.jsx:101-104 | only the custom category text changes |
| ProductForm.HandleFileChange | frontend/Flowmerce/src/components/AddProduct.jsx:106-113 | a chosen file becomes the image; no file leaves the form as it was |
| ProductForm.Without | frontend/Flowmerce/src/components/AddProduct.jsx:117-118 | removing a tag drops all its occurrences and keeps the other tags' counts and order |
| ProductForm.ToggleSpec | frontend/Flowmerce/src/components/AddProduct.jsx:115-122 | toggling flips the tag's membership and leaves every other tag's count unchanged; an absent tag is appended |
| ProductForm.ToggleTwice | frontend/Flowmerce/src/components/AddProduct.jsx:115-122 | toggling twice restores membership, and restores the list exactly when the tag was absent |
| ProductForm.HandleTagToggle | frontend/Flowmerce/src/components/EditProduct.jsx:144-151 | the record's tags are toggled and no other field changes |
| ProductForm.NewCategoryRequest | frontend/Flowmerce/src/components/AddProduct.jsx:134-139 | a category is created exactly when the custom input shows and its text is not blank; its title is the text as typed and its slug the slugged text |
| ProductForm.FormValueOf | frontend/Flowmerce/src/components/AddProduct.jsx:157-161 | a file is stored as the file, anything else as its `String` |
| ProductForm.TagEntries | frontend/Flowmerce/src/components/EditProduct.jsx:183-185 | one "tags" entry per id, in order, with the id as decimal text |
| ProductForm.AppendTags | frontend/Flowmerce/src/components/EditProduct.jsx:183-185 | the loop appends exactly the tag entries to the buffer |
| ProductForm.KeyedAppend | frontend/Flowmerce/src/components/AddProduct.jsx:148-164 | the entries under a key of two buffers laid end to end are those of the first, then those of the second |
| AddProduct.OtherOpensCustomInput | frontend/Flowmerce/src/components/AddProduct.jsx:29-46 | the sixteenth default, "Other", opens the custom input and no other default does |
| AddProduct.LoadInitialData | frontend/Flowmerce/src/components/AddProduct.jsx:48-76 | the tags are fetched first; if that fails the error is set and the categories stay the defaults; otherwise the categories are merged with the defaults |
| AddProduct.PairEntries | frontend/Flowmerce/src/components/AddProduct.jsx:151-163 | every entry one pair contributes carries that pair's key |
| AddProduct.PairEntriesSpec | frontend/Flowmerce/src/components/AddProduct.jsx:151-163 | tags add one entry per id, the image is added only when truthy, numbers are sent as decimal text, text as itself, and null or undefined adds nothing |
| AddProduct.AppendPair | frontend/Flowmerce/src/components/AddProduct.jsx:151-163 | one loop step appends exactly what its pair contributes |
| AddProduct.Serialise | frontend/Flowmerce/src/components/AddProduct.jsx:148-164 | the `forEach` builds the entries of every pair in key order |
| AddProduct.SerialisedKeyed | frontend/Flowmerce/src/components/AddProduct.jsx:148-164 | in a record with unique keys, the entries under a key are exactly what that key's value contributes |
| AddProduct.SubmittedEntries | frontend/Flowmerce/src/components/AddProduct.jsx:131-164 | the submission sends the resolved category id under "category" and every other field's own contribution under its key |
| AddProduct.ErrorMessage | frontend/Flowmerce/src/components/AddProduct.jsx:177-181 | the server's `detail`, else its `message`, else the fixed text; never empty |
| AddProduct.HandleSubmit | frontend/Flowmerce/src/components/AddProduct.jsx:124-185 | a custom category is posted first and its failure aborts with its error; otherwise the record, with the category replaced by the new id or kept, is serialised and posted, and a failure sets the error |
| EditProduct.NoOptionOpensCustomInput | frontend/Flowmerce/src/components/EditProduct.jsx:30-47 | no listed option, default ("Other" is "16") or fetched, opens the custom category input |
| EditProduct.Defaulted | frontend/Flowmerce/src/components/EditProduct.jsx:73-85 | the loaded record has exactly the keys of the defaults, in their order |
| EditProduct.DefaultedSpec | frontend/Flowmerce/src/components/EditProduct.jsx:73-85 | each field is the fetched value when truthy and the default otherwise; the image is null; other keys are absent |
| EditProduct.LoadedProductSpec | frontend/Flowmerce/src/components/EditProduct.jsx:73-85 | the loaded product has the initial record's keys; each field is the fetched value or its initial value; the image is null |
| EditProduct.LoadInitialData | frontend/Flowmerce/src/components/EditProduct.jsx:58-109 | if the tags or the product cannot be fetched, the error is set and the categories are the defaults; otherwise the product is defaulted and the categories are merged |
| EditProduct.FixedEntries | frontend/Flowmerce/src/components/EditProduct.jsx:170-177 | the eight fixed fields are sent in order as text, the category as the resolved id |
| EditProduct.ImageEntries | frontend/Flowmerce/src/components/EditProduct.jsx:179-181 | the image is sent only when truthy |
| EditProduct.BuildFormData | frontend/Flowmerce/src/components/EditProduct.jsx:170-185 | the form data is the fixed fields, then the image when set, then one entry per tag |
| EditProduct.FormDataKeyed | frontend/Flowmerce/src/components/EditProduct.jsx:170-185 | under "tags" exactly one entry per tag, under "image" only the image, and eight entries besides |
| EditProduct.ErrorMessage | frontend/Flowmerce/src/components/EditProduct.jsx:197-202 | the server's `detail`, else its `message`, else the error's own message, else the fixed text; never empty |
| EditProduct.HandleSubmit | frontend/Flowmerce/src/components/EditProduct.jsx:153-205 | a custom category is posted first and its failure ends the submission with its error; then the form data, built with the new id or the record's category, is patched |
| SubscriptionMiddleware.BlockedResponse | backend/flowmerce/core/middleware/subscription_middleware.py:79-86 | every refusal is a 402 with code SUBSCRIPTION_REQUIRED and the given message |
| SubscriptionMiddleware.BypassSpec | backend/flowmerce/core/middleware/subscription_middleware.py:8-35 | anonymous users, staff, superusers and the four whitelisted URL names go downstream without touching any subscription; an unresolvable path is not whitelisted |
| SubscriptionMiddleware.RefusalsSpec | backend/flowmerce/core/middleware/subscription_middleware.py:38-77 | a request goes downstream exactly when it is bypassed or its subscription is neither blocked nor inactive; refusals attach nothing |
| SubscriptionMiddleware.CheckOrder | backend/flowmerce/core/middleware/subscription_middleware.py:38-57 | no subscription, then blocked (status untouched), then inactive (EXPIRED saved), in that order |
| SubscriptionMiddleware.WarningSpec | backend/flowmerce/core/middleware/subscription_middleware.py:59-77 | on the pass path the warning is on and the days are attached exactly when five or fewer days remain; EXPIRING is saved only when not already set |
| SubscriptionMiddleware.ExpiringIdempotent | backend/flowmerce/core/middleware/subscription_middleware.py:59-72 | a second pass over the subscription the first one left saves nothing more and decides the same |
| SubscriptionMiddleware.Middleware.Call | backend/flowmerce/core/middleware/subscription_middleware.py:20-77 | the response, the saves, the request attributes and the downstream calls are exactly those `Gate` decides |
| Permissions.ShadowedRuleIsStricter | backend/flowmerce/core/permissions.py:3-9 | the second `IsAdminUser` replaces the first and differs from it only by refusing unauthenticated admins |
| Permissions.IsAdminOrReadOnlySpec | backend/flowmerce/core/permissions.py:12-19 | a request that is not from staff or a superuser is allowed only with a safe method; staff and superusers are allowed every method |
| Permissions.HasActiveSubscriptionSpec | backend/flowmerce/core/permissions.py:22-33 | a user who is not staff or a superuser passes only when `is_active()` answers true, so a lookup that raises refuses them; staff and superusers pass whatever the lookup does |
| Models.SetDefault | backend/flowmerce/core/models.py:18-19 | `setdefault` adds the key with the default only when absent and changes nothing else |
| Models.CreationFieldsSpec | backend/flowmerce/core/models.py:17-25 | `is_staff` and `is_superuser` default to false for `create_user` and to true for `create_superuser`; passed values win; other fields pass through |
| Models.UserManager.CreateUserRecord | backend/flowmerce/core/models.py:7-15 | a missing or empty email raises "The Email field must be set" and saves nothing; otherwise exactly one user with that email and those fields is saved |
| Models.UserManager.CreateUser | backend/flowmerce/core/models.py:17-25 | both creators save the user with the defaulted fields, or raise on a missing email |
| Models.ShortName | backend/flowmerce/core/models.py:51-52 | the name when non-empty, otherwise the email's text before its first "@" |
| Models.SlugOnSave | backend/flowmerce/core/models.py:88-91 | a non-empty slug is kept and an empty one becomes the slug of the title |
| Models.SlugOnSaveStable | backend/flowmerce/core/models.py:88-91 | once a save has set the slug, later saves keep it |
| Models.ProductRow.Save | backend/flowmerce/core/models.py:88-91 | the slug becomes `SlugOnSave` of the old slug; title, price and status are unchanged |
| Models.AmountOnSave | backend/flowmerce/core/models.py:122-125 | with the product loaded, the amount is quantity times the product's price when the quantity is not zero, and otherwise unchanged |
| Models.OrderRow.Save | backend/flowmerce/core/models.py:105-125 | an order with no product linked raises `RelatedObjectDoesNotExist` and nothing is written; otherwise the amount becomes `AmountOnSave` of the old state and the row is written; product and quantity are unchanged |
| Models.AmountOnSaveIdempotent | backend/flowmerce/core/models.py:122-125 | saving twice computes the amount saving once did |
| Models.TotalPrice | backend/flowmerce/core/models.py:137-139 | an item's `total_price` is zero exactly when its quantity or its price is, and is at least the unit price otherwise |
| Models.FooterMatchesItemTotals | backend/flowmerce/core/models.py:137-139 | when every row of an order form is valid, every line item it sends can be stored, and the footer total is the sum of `total_price` over those items |
| Models.ChoiceSets | backend/flowmerce/core/models.py:76-109 | the edit-product status options are exactly the model's product choices; both order forms offer the same statuses, and none of them is among the model's lower-case order choices |
| AuthRedirect.EffectRun | frontend/Flowmerce/src/App.jsx:21-25 | a navigation happens exactly when there is no token and the path is neither /login nor /register, and it always goes to /login replacing the history entry |
| AuthRedirect.NavigationsSpec | frontend/Flowmerce/src/App.jsx:17-27 | over any renders, every navigation goes to /login with replace, at most one per render, and none when a token is always present or the path is always public |
| AuthRedirect.PathChangeRechecks | frontend/Flowmerce/src/App.jsx:26 | a render on an unchanged path adds no navigation; a new path without a token on a protected page adds exactly one |
| Reports.ReplyContent | frontend/Flowmerce/src/pages/Reports.jsx:30-31 | the reply when truthy, else the fixed fallback; never empty |
| Reports.AnswerOf | frontend/Flowmerce/src/pages/Reports.jsx:30-44 | one assistant message: the reply's content on success, the fixed error text on failure |
| Reports.Chat.constructor | frontend/Flowmerce/src/pages/Reports.jsx:6-14 | the log starts with exactly the assistant's greeting; no input and not loading |
| Reports.Chat.Type | frontend/Flowmerce/src/pages/Reports.jsx:106 | typing replaces the input; the log and the loading flag stay as they were |
| Reports.Chat.BeginSend | frontend/Flowmerce/src/pages/Reports.jsx:18-26 | blank input changes nothing; otherwise one user message with the trimmed text is appended, the input is cleared and loading is set |
| Reports.Chat.FinishSend | frontend/Flowmerce/src/pages/Reports.jsx:28-47 | exactly one assistant message is appended to the log and loading is cleared, whatever the outcome |
| Reports.Chat.HandleSend | frontend/Flowmerce/src/pages/Reports.jsx:16-48 | a send appends a user and an assistant message, clears the input and ends loading; blank input changes nothing, neither the log, the input nor the loading flag; the earlier log is kept as a prefix |
| Reports.LogGrows | frontend/Flowmerce/src/pages/Reports.jsx:20-47 | over any number of sends, earlier messages are never removed or altered, and each non-blank send adds exactly two |
| AdminSubscription.WithoutId | frontend/Flowmerce/src/components/AdminSubscription.jsx:32 | no row with the id is left, the rows kept are in their order, nothing is added, and with no such row the list is unchanged |
| AdminSubscription.WithoutIdCounts | frontend/Flowmerce/src/components/AdminSubscription.jsx:32 | every row without the id stays as often as it occurred, and a row is left exactly when it was there and has another id |
| AdminSubscription.DisabledSpec | frontend/Flowmerce/src/components/AdminSubscription.jsx:85 | while `id` is being approved the disabled buttons are exactly those of rows with that id; otherwise none is disabled |
| AdminSubscription.Page.constructor | frontend/Flowmerce/src/components/AdminSubscription.jsx:8-10 | the page starts with no rows, loading, and no approval under way |
| AdminSubscription.Page.Fetch | frontend/Flowmerce/src/components/AdminSubscription.jsx:12-21 | a fetch replaces the list with the response, a failed one keeps it, and loading ends either way |
| AdminSubscription.Page.Approve | frontend/Flowmerce/src/components/AdminSubscription.jsx:27-38 | `approvingId` is the id during the call and cleared afterwards; success removes the id's rows, failure keeps the list |

## Left out

- Rendering, styling, icons, toasts, `console` output, and navigation after a page's submission are not modelled. Only the authentication redirect's navigation is.
- The 300 ms search debounce in `Products.jsx` is left out. The model filters on the search term once it has settled.
- Concurrency is left out. Overlapping awaits (`Promise.all`) and interleaved replies are not modelled. Each reply is a parameter, and a chat send assumes nothing is typed while its request is pending.
- Floating point is left out. Prices are whole numbers, as the backend stores them, and the `toFixed` display is not modelled. `ToNumber` reads only integer numerals, and any other text becomes NaN.
- The `isSubmitting`, `isLoading` and `isFetching` spinner flags are left out. So are the edit-order page's product-list fetch and the create-order page's JSON error toast.
- Products.SortProducts: two members model the sort. A stable insertion sort on a total order places missing values first. `Products.ComparatorAgrees` ties it to the source's comparator only where both values are present: that comparator calls a missing field neither smaller nor larger, so it is not a consistent order. The sortable columns are never null in the backend, so `None` stands only for a missing field.
- OrderRows.OrderForm.UpdateOrderItem: requires a row index in range. The source only calls it with an existing row, and an index out of range would throw. Row objects are modelled as values, so the in-place write to a shared row object is not modelled as aliasing.
- Permissions.HasActiveSubscription: requires a user to be set. The source reads the user's flags outside its `try`, so a missing user would raise.
- Django internals are not modelled: `normalize_email`, `set_password`, `slugify` (its result is a parameter of `Save`), `resolve` (a path it rejects is `None`), `timezone.now` and ORM saves (a save is an append to a log of saved values).
- The `Subscription` model is not part of this model. `is_blocked`, `is_active()` and `days_remaining()` are opaque inputs.
- Models.User.get_full_name is not modelled. It only returns the stored name.
- `Order.save` takes the product's price as an input. `None` stands for an order with no product linked, on which reading `self.product` raises. The database lookup of the product is not modelled.

- Products.FilterProductsSpec: matching lower-cases only the ASCII letters. `toLowerCase` folds every cased letter, so a search for "éc" that the page would match against "École" is not matched here.
- Products.ComparatorAgrees: text is compared character by character on Unicode scalar values. JavaScript's `<` compares UTF-16 code units, so the two orders differ when a character above U+FFFF meets one from U+E000 to U+FFFF.
- OrderRows.WriteField: the "longer than two characters" test counts Unicode scalar values. `value.length` counts UTF-16 code units, so a character above U+FFFF counts once here and twice on the page.
- Common.SlugFacts: the slug lower-cases only the ASCII letters, where `toLowerCase` folds every cased letter. Lengths count Unicode scalar values, not UTF-16 code units.
- Models.CreationFieldsSpec: extra fields are modelled as booleans only. A field of another type, such as a name passed to `create_user`, cannot be expressed.

- Reports.AnswerOf: a `Success` reply carries `res.data.reply`. A 2xx response without a body throws on that read and takes the catch branch, so it is passed as a `Failure`.

- EditProduct.HandleSubmit: requires the record's `tags` to be a list of ids, as the backend's many-to-many `tags` field (backend/flowmerce/core/models.py:75) serves them. A reply with `tags` of another truthy type makes the page throw in `forEach`, and that path is not modelled.

## Observations

- The edit-product page lists "Other" with id "16", not "other". Choosing it never opens the custom category input (`EditProduct.NoOptionOpensCustomInput`). The add-product page's "other" does open it (`AddProduct.OtherOpensCustomInput`).
- The order forms send the statuses "Pending", "Completed" and "Cancelled". The backend's choices are lower case, so no status a form sends is among them (`Models.ChoiceSets`).
