# Storefront core in Dafny

This project models the logic at the core of a small clothing storefront. The
storefront has a Flask backend and React pages. The model covers five pieces:

- **Chat assistant router** (`Chatbot`, backend/chatbot.py). The message is
  lower-cased, then six keyword rules are tried in a fixed order. A rule fires
  when one of its keywords occurs as a substring of the message, and the first
  rule that fires picks the answer list. The random choice is a `pick`
  parameter.
- **Product and order tables** (`Backend`, backend/app.py). A `Database`
  object holds maps from id to row, plus the order-item table. It has the
  create, get, list and partial-update handlers for products, and
  `create_order`. That handler commits the order row before it adds any item.
  A missing JSON member gives a 500 (`Err(ServerError)`), and `get_or_404`
  gives `Err(NotFound)`.
- **Product listing page** (`Catalog`, frontend/src/pages/ProductDisplayPage.js).
  This covers the category buttons (`'all'`, then the distinct categories in
  first-seen order) and the filter-then-sort pipeline under its four sort keys.
  The sort is stable. The page is a class whose handlers keep the shown list in
  sync with products, category and sort key.
- **Checkout page** (`Checkout`, frontend/src/pages/CheckoutPage.js).
  `handleChange` updates the form. The order payload is built from the form and
  the cart lines. `handleSubmit` orders its effects so that the cart is cleared,
  and the page navigates home, only after the order request succeeded. A
  separate lemma carries the payload over to the backend's `create_order`.
- **Admin inventory page** (`Admin`, frontend/src/pages/AdminInventoryPage.js).
  The product form is a state machine over `productForm`, `editingProduct` and
  `showProductForm`. Save sends PUT for the edited product and POST otherwise.
  Delete is guarded by the confirmation. The stats panel shows three counts.

`Records` holds the shared values: `Option`, `Result`, the HTTP errors and the
JSON shapes of a product and an order summary.

The cart store that the pages import is a collaborator whose code is not part
of this model. Adding to the cart and clearing it appear only as effects that
the pages record. HTTP requests, toasts and navigation are effects too. They
are appended to an `effects` trace on each page object. Each request's outcome,
and the answer to a confirmation dialog, is a parameter of the handler.

## Model

| member | source | states |
|---|---|---|
| Chatbot.Responses | backend/chatbot.py:8-16 | every category has at least one answer, and every category except the greeting has exactly one |
| Chatbot.Lower | backend/chatbot.py:19 | lower-casing keeps the length, maps each upper-case ASCII letter to its lower-case letter at the same position, keeps every other character, and leaves no upper-case ASCII letter |
| Chatbot.Keywords | backend/chatbot.py:21-32 | the fallback has no keywords and every other rule has some; every keyword is non-empty and already lower-case |
| Chatbot.Contains | backend/chatbot.py:21 | `word in text` needs the word to be no longer than the text, and holds for the empty word; ContainsIffOccurs states it in full |
| Chatbot.MentionsAny | backend/chatbot.py:21-32 | `any(...)` over no words is false, and it is true whenever the empty word is among them |
| Chatbot.IntentOf | backend/chatbot.py:18-34 | the chosen rule has a keyword occurring in the lower-cased message, and no earlier rule has one |
| Chatbot.Choose | backend/chatbot.py:22 | `random.choice` returns an element of the list, and the only element of a one-element list |
| Chatbot.Reply | backend/chatbot.py:18-34 | the reply is an element of the answer list of the selected category, and it is fixed for every non-greeting category |
| Chatbot.ChatbotMessage | backend/chatbot.py:36-50 | the handler fails exactly when `message` is not a string; otherwise it returns the four suggestions in order; an absent message gets the fallback answer, and a text gets an answer of its category |
| Chatbot.ContainsIffOccurs | backend/chatbot.py:21 | `word in text` holds exactly when the word occurs at some index of the text |
| Chatbot.ContainsTransitive | backend/chatbot.py:21-26 | a substring of a substring of the message is a substring of the message |
| Chatbot.IntentIgnoresCase | backend/chatbot.py:19 | messages that differ only in letter case get the same category |
| Chatbot.IntentOfLowered | backend/chatbot.py:19 | lower-casing a message before it is sent does not change its category |
| Chatbot.ShipMentionGreets | backend/chatbot.py:21-26 | a message mentioning "ship" or "shipping" always gets a greeting, because "hi" occurs in both |
| Chatbot.ShippingOnlyViaDelivery | backend/chatbot.py:21-26 | the shipping answer is given exactly when "delivery" occurs and neither a greeting nor an hours keyword does |
| Chatbot.DefaultIffNoKeyword | backend/chatbot.py:33-34 | the fallback answer is given exactly when no keyword of any rule occurs |
| Chatbot.EmptyMessageIsDefault | backend/chatbot.py:39 | the empty message, which an absent `message` becomes, falls through to the fallback |
| Chatbot.OnlyGreetingVaries | backend/chatbot.py:9-15 | two calls can answer differently only for a greeting |
| Backend.NewProductRow | backend/app.py:66-75 | a row is built exactly when all eight members are present, and each column holds its member unchanged |
| Backend.Patched | backend/app.py:84-86 | name, price and stock take the body's value when present and keep the old one otherwise; the other five columns never change |
| Backend.ProductJson | backend/app.py:51-61 | the record carries the id and every column of the row verbatim |
| Backend.OrderJson | backend/app.py:119-126 | the summary carries the id, user, total, status, creation time and address of the row |
| Backend.PendingOrder | backend/app.py:94-100 | the new order row copies user, total, address and payment method, and its status is always "pending" |
| Backend.ItemRows | backend/app.py:104-111 | the item rows fail exactly when some item lacks a member; otherwise there is one row per item, in order, with the order id and the item's product, quantity and price |
| Backend.ProductsFrom | backend/app.py:35-46 | the scan lists every product row in the id range exactly as stored, and nothing else, by ascending id |
| Backend.OrdersFrom | backend/app.py:118-126 | the scan lists every order row in the id range as its summary, and nothing else, by ascending id |
| Backend.Database.GetProducts | backend/app.py:33-46 | one record per stored product, each equal to its row, by ascending id |
| Backend.Database.GetProduct | backend/app.py:48-61 | the record of the row when the id is stored, and 404 exactly when it is not |
| Backend.Database.GetAllOrders | backend/app.py:116-126 | one summary per stored order, by ascending id |
| Backend.Database.CreateProduct | backend/app.py:63-78 | with a complete body the row is stored under a fresh id, which `GetProduct` then returns; an incomplete body gives a 500 and changes nothing |
| Backend.Database.UpdateProduct | backend/app.py:80-88 | an unknown id gives 404 and changes nothing; otherwise only that row changes, to the patched row |
| Backend.Database.CreateOrder | backend/app.py:91-114 | a complete header stores a pending order under a fresh id before the items are read; the items are appended, one row per element in order, only when all are complete; otherwise the order stays without items and the answer is a 500 |
| Backend.PatchIdempotent | backend/app.py:84-86 | applying the same update twice has the effect of applying it once |
| Backend.GetProductIsListed | backend/app.py:33-61 | a product that `get_product` returns is also in the `get_products` listing |
| Catalog.Distinct | frontend/src/pages/ProductDisplayPage.js:28 | the result holds exactly the elements of the input, each once |
| Catalog.DistinctKeepsFirstSeenOrder | frontend/src/pages/ProductDisplayPage.js:28 | the distinct elements appear in the order of their first occurrence |
| Catalog.CategoryOptionsSpec | frontend/src/pages/ProductDisplayPage.js:28 | the buttons are "all", then each product category exactly once, in order of first appearance |
| Catalog.CategoryOptions | frontend/src/pages/ProductDisplayPage.js:28 | the buttons start with "all" and every other button is a product category; CategoryOptionsSpec gives uniqueness, completeness and order |
| Catalog.WithCategory | frontend/src/pages/ProductDisplayPage.js:40 | the filter never lengthens the list; its contents are in WithCategoryKeeps and its order in WithCategoryAppend |
| Catalog.WithCategoryKeeps | frontend/src/pages/ProductDisplayPage.js:40 | the filter keeps every product of the category, as often as it occurs, and no other product |
| Catalog.WithCategoryAppend | frontend/src/pages/ProductDisplayPage.js:40 | the filter keeps the input order: filtering a concatenation is the concatenation of the filtered parts |
| Catalog.Filtered | frontend/src/pages/ProductDisplayPage.js:37-41 | "all" keeps every product; any other selection is the order-keeping category filter, so it keeps exactly the products of that category, and nothing is added |
| Catalog.LocaleCompare | frontend/src/pages/ProductDisplayPage.js:50 | the comparison answers -1, 0 or 1; its order properties are LocaleCompareFlips, LocaleCompareZero and LocaleCompareTransitive |
| Catalog.LocaleCompareFlips | frontend/src/pages/ProductDisplayPage.js:50 | swapping the two names negates the comparison |
| Catalog.LocaleCompareZero | frontend/src/pages/ProductDisplayPage.js:50 | two names compare equal exactly when they are the same string |
| Catalog.LocaleCompareTransitive | frontend/src/pages/ProductDisplayPage.js:50 | the name comparison is transitive |
| Catalog.SortKeyOf | frontend/src/pages/ProductDisplayPage.js:44-52 | the key is the featured order exactly when the select value is none of "price-low", "price-high" and "name" |
| Catalog.Compare | frontend/src/pages/ProductDisplayPage.js:43-54 | the featured order, and every unknown key, ties every pair, and every key ties a product with itself |
| Catalog.CompareFlips | frontend/src/pages/ProductDisplayPage.js:43-54 | the comparator is antisymmetric under each sort key |
| Catalog.CompareTransitive | frontend/src/pages/ProductDisplayPage.js:43-54 | the comparator is transitive under each sort key |
| Catalog.SortProducts | frontend/src/pages/ProductDisplayPage.js:43-54 | the sort keeps the length; SortPermutes, SortSorts and SortIsStable state the rest |
| Catalog.SortPermutes | frontend/src/pages/ProductDisplayPage.js:43-54 | sorting only reorders: the result is a permutation of the filtered list |
| Catalog.SortSorts | frontend/src/pages/ProductDisplayPage.js:43-54 | the sorted list is ordered by the comparator |
| Catalog.SortIsStable | frontend/src/pages/ProductDisplayPage.js:43-54 | products that the comparator ties keep their relative input order |
| Catalog.PriceLowAscending | frontend/src/pages/ProductDisplayPage.js:45-46 | "price-low" gives non-decreasing prices |
| Catalog.PriceHighDescending | frontend/src/pages/ProductDisplayPage.js:47-48 | "price-high" gives non-increasing prices |
| Catalog.NameAscending | frontend/src/pages/ProductDisplayPage.js:49-50 | "name" gives names that are non-decreasing under the string comparison |
| Catalog.FeaturedKeepsOrder | frontend/src/pages/ProductDisplayPage.js:51-52 | "featured", and any unknown key, keeps the fetched order |
| Catalog.Displayed | frontend/src/pages/ProductDisplayPage.js:36-57 | the shown list is never longer than the product list; DisplayedSpec states its contents and order |
| Catalog.DisplayedSpec | frontend/src/pages/ProductDisplayPage.js:36-57 | the shown list is a permutation of the selected products and is ordered by the comparator; the shown products that tie with any product are exactly the selected products among those tied in the fetched list, in fetched order; under the featured order the shown list is the filtered list |
| Catalog.TiedWithCategory | frontend/src/pages/ProductDisplayPage.js:40-54 | picking the products tied with a product commutes with the category filter |
| Catalog.ProductDisplayPage.constructor | frontend/src/pages/ProductDisplayPage.js:8-12 | the page starts with no products, category "all" and sort key "featured", and the empty shown list is in sync |
| Catalog.ProductDisplayPage.FilterAndSortProducts | frontend/src/pages/ProductDisplayPage.js:36-57 | the shown list becomes the filtered and sorted copy; the product list itself is not changed |
| Catalog.ProductDisplayPage.FetchProducts | frontend/src/pages/ProductDisplayPage.js:23-34 | on success, products and category buttons are replaced and the shown list is recomputed; on failure only the error toast is added |
| Catalog.ProductDisplayPage.ReceiveProducts | frontend/src/pages/ProductDisplayPage.js:26-29 | the fetched list and its category buttons are stored, and the shown list is back in sync with them |
| Catalog.ProductDisplayPage.SelectCategory | frontend/src/pages/ProductDisplayPage.js:19-21 | selecting a category keeps the shown list in sync and changes nothing else |
| Catalog.ProductDisplayPage.SelectSort | frontend/src/pages/ProductDisplayPage.js:19-21 | choosing a sort key keeps the shown list in sync and changes nothing else |
| Catalog.ProductDisplayPage.HandleAddToCart | frontend/src/pages/ProductDisplayPage.js:59-62 | the product goes to the cart, then the "<name> added to cart!" toast is shown |
| Checkout.NewValue | frontend/src/pages/CheckoutPage.js:38 | a checkbox stores its `checked` flag, and any other input its `value` |
| Checkout.Changed | frontend/src/pages/CheckoutPage.js:34-40 | only the named field changes; every other field keeps its value |
| Checkout.UserIdOf | frontend/src/pages/CheckoutPage.js:46-49 | an unparsable stored user aborts; otherwise the user id is the stored id when present and non-zero, else 1, and never 0 |
| Checkout.ShippingAddress | frontend/src/pages/CheckoutPage.js:51 | no contract of its own; PayloadOfWellFormedForm states the joined form and ChangeElsewhereKeepsAddress which fields it depends on |
| Checkout.OrderPayload | frontend/src/pages/CheckoutPage.js:48-58 | no contract of its own; PayloadOfWellFormedForm and PostedPayload state its members |
| Checkout.OrderItems | frontend/src/pages/CheckoutPage.js:53-57 | one item per cart line, in order, with the line's id, quantity and price |
| Checkout.RequestBody | frontend/src/pages/CheckoutPage.js:48-60 | the body sent carries no status, and has a payment method exactly when the payload defines one |
| Checkout.SubmitEffects | frontend/src/pages/CheckoutPage.js:42-69 | no contract of its own; ClearCartOnlyAfterPost, FailureOnlyToasts and PostedPayload state the order of the effects |
| Checkout.CheckoutPage.constructor | frontend/src/pages/CheckoutPage.js:12-27 | the form starts as the initial form, with no effects |
| Checkout.CheckoutPage.HandleChange | frontend/src/pages/CheckoutPage.js:34-40 | the form becomes the old form with the named field updated |
| Checkout.CheckoutPage.HandleSubmit | frontend/src/pages/CheckoutPage.js:42-69 | the effects of a submission are appended in the order the handler performs them |
| Checkout.InitialFormDefaults | frontend/src/pages/CheckoutPage.js:12-27 | the initial form has country "US", payment method "credit-card", the checkbox unticked and every other field empty |
| Checkout.ChangeKeepsWellFormed | frontend/src/pages/CheckoutPage.js:34-40 | an event from a rendered input keeps a text in every text field and a flag in the checkbox |
| Checkout.ChangeIdempotent | frontend/src/pages/CheckoutPage.js:34-40 | repeating the same event changes nothing more |
| Checkout.ChangeElsewhereKeepsAddress | frontend/src/pages/CheckoutPage.js:51 | editing any field other than address, city, state or zip code leaves the shipping address unchanged |
| Checkout.PayloadOfWellFormedForm | frontend/src/pages/CheckoutPage.js:48-52 | the address is address, city, state and zip joined by ", ", ", " and " "; the payment method is the form's; user and total are carried over |
| Checkout.ClearCartOnlyAfterPost | frontend/src/pages/CheckoutPage.js:60-66 | the cart is cleared and the page goes home exactly when the user parses and the order request succeeds, and both come after the request |
| Checkout.FailureOnlyToasts | frontend/src/pages/CheckoutPage.js:65-68 | a failed submission ends with the error toast and never touches the cart or the route |
| Checkout.PostedPayload | frontend/src/pages/CheckoutPage.js:46-58 | an order is posted exactly when the stored user parses; its items are the cart lines, its user id is non-zero, and its address is the form's |
| Checkout.CheckoutOrderIsStored | frontend/src/pages/CheckoutPage.js:48-60 | `create_order` accepts a checkout from a well-formed form; it stores a pending order with the page's user, address and payment method, and one item row per cart line in cart order |
| Admin.FormOf | frontend/src/pages/AdminInventoryPage.js:84-93 | the edit form has exactly the eight product members |
| Admin.WithField | frontend/src/pages/AdminInventoryPage.js:52-57 | only the named field changes, to the input's text |
| Admin.SaveRequest | frontend/src/pages/AdminInventoryPage.js:63-73 | PUT to the edited product's id exactly when a product is being edited, POST otherwise, and either carries the form |
| Admin.SaveEffects | frontend/src/pages/AdminInventoryPage.js:59-80 | no contract of its own; SaveSendsOneRequest, RefreshOnlyAfterSave and HandleAddProduct state the effects |
| Admin.DeleteEffects | frontend/src/pages/AdminInventoryPage.js:97-110 | no contract of its own; DeleteOnlyWhenConfirmed and HandleDeleteProduct state the effects |
| Admin.LowStock | frontend/src/pages/AdminInventoryPage.js:329 | the filter keeps every product with stock below 10, as often as it occurs, and no other product; a product is listed exactly when it is in the list with stock below 10 |
| Admin.StatsOf | frontend/src/pages/AdminInventoryPage.js:317-331 | the totals are the list lengths, and the low-stock count is the number of positions whose product has stock strictly below 10, at most the product total |
| Admin.AdminInventoryPage.constructor | frontend/src/pages/AdminInventoryPage.js:8-21 | empty lists, hidden form, nothing being edited, all eight fields empty |
| Admin.AdminInventoryPage.FetchProducts | frontend/src/pages/AdminInventoryPage.js:28-38 | the list is replaced on success; a failure only adds the error toast |
| Admin.AdminInventoryPage.FetchOrders | frontend/src/pages/AdminInventoryPage.js:40-50 | the list is replaced on success; a failure only adds the error toast |
| Admin.AdminInventoryPage.ShowAddForm | frontend/src/pages/AdminInventoryPage.js:144 | the "Add Product" button shows the form and keeps its contents and the product being edited |
| Admin.AdminInventoryPage.HandleProductFormChange | frontend/src/pages/AdminInventoryPage.js:52-57 | an event from one of the eight inputs sets that field and keeps the form to the eight product members |
| Admin.AdminInventoryPage.HandleEditProduct | frontend/src/pages/AdminInventoryPage.js:82-95 | the product is being edited, the form is its eight members, and the form is shown |
| Admin.AdminInventoryPage.ResetProductForm | frontend/src/pages/AdminInventoryPage.js:112-125 | every field is empty, nothing is being edited, and the form is hidden |
| Admin.AdminInventoryPage.HandleAddProduct | frontend/src/pages/AdminInventoryPage.js:59-80 | the save request is sent; on success the toast and re-fetch follow and the form is reset; on failure only the error toast is added and the form state is kept |
| Admin.AdminInventoryPage.HandleDeleteProduct | frontend/src/pages/AdminInventoryPage.js:97-110 | the effects of a delete are appended in order, and there are none without confirmation |
| Admin.FormChangeKeepsFields | frontend/src/pages/AdminInventoryPage.js:52-57 | changing one of the eight fields keeps the form to exactly the eight members |
| Admin.EditCopiesProduct | frontend/src/pages/AdminInventoryPage.js:84-93 | each of the eight fields holds the product's member |
| Admin.FormOfInjective | frontend/src/pages/AdminInventoryPage.js:84-93 | two products give the same edit form exactly when they agree on everything but the id |
| Admin.SaveSendsOneRequest | frontend/src/pages/AdminInventoryPage.js:63-73 | a save sends exactly one request, first, and it is the PUT or POST for the editing state |
| Admin.RefreshOnlyAfterSave | frontend/src/pages/AdminInventoryPage.js:75-78 | the product list is re-fetched exactly when the save succeeded |
| Admin.DeleteOnlyWhenConfirmed | frontend/src/pages/AdminInventoryPage.js:98-101 | a delete request is sent exactly when the confirmation returns true, and it is for the given product |
| Admin.LowStockCountsPositions | frontend/src/pages/AdminInventoryPage.js:329 | the Low Stock count is the number of products with stock strictly below 10 |

## Left out

- The cart store (`../contexts/CartContext`, imported at frontend/src/pages/CartPage.js:4) is not part of this model. Its add, update, remove, clear and total logic appears only as effects, or as the cart lines a page is given.
- Floating-point money is not modelled. This covers the subtotal, shipping, tax and total of the checkout page, the revenue card, and `toFixed` formatting. Prices are exact reals, and the checkout `total` is a parameter.
- Chatbot.Lower: folds only the ASCII letters. Python's `str.lower` also folds other Unicode letters.
- Catalog.LocaleCompare: `localeCompare` is taken as the lexicographic order on code points. The locale's collation is not modelled.
- The random distribution of `random.choice` is not modelled. The choice is the caller's `pick`.
- HTTP transport, JWT headers, `localStorage` and routing are not modelled. A request outcome is a parameter, a stored user is a `StoredUser` value, and a URL is a product id.
- JSON values are typed. A member of the wrong type, such as a string price, is not modelled. Neither is a request body that is not JSON at all, which makes `request.json` null.
- Checkout.RequestBody: requires that the payment method is text. A boolean payment method would only arise from a checkbox named `paymentMethod`, and the page renders none.
- backend/models.py is not part of this model. Columns are taken as non-null, and `created_at` is the `now` parameter of `CreateOrder`.
- Backend ids come from one counter per table. The database's own id allocation and its transactions are not modelled. Item rows that are added before a failure are not committed, so they are absent.
- `updateOrderStatus` and the status select of the admin page are not modelled. The backend shown has no `PUT /api/orders/<id>` route to pair them with.
- Backend.ProductsFrom, Backend.OrdersFrom: list rows by ascending id. The queries at backend/app.py:35 and backend/app.py:118 have no ORDER BY, so the database may return another order; the model takes ascending id.
- `console.error` logging in the catch blocks of the pages is not modelled; it has no visible effect on the page.
- The admin page's delete reaches `/api/products/<id>` with DELETE. The backend shown has no such route, so the outcome is a parameter.
- React's scheduling is not modelled. The `filterAndSortProducts` effect runs right after the state change that triggers it. Un-awaited `fetchProducts()` calls are recorded as `RefreshProducts` effects.
- The rendered markup, styling, the login page, the home page, the navigation bar and the chat widget are not modelled.
