# Restaurant storefront and back office, modelled in Dafny

This project models the behaviour of a restaurant web application. Shoppers
browse a menu and search it, keep favourites, fill a cart and check out.
Administrators filter orders and products, keep an income/expense ledger, and
manage deliveries, reservations, table status, the kitchen-order strip and the
product form. A request middleware guards the admin routes.

What is modelled, by module:

- `CartProvider` is the cart ledger: its storage load and save under
  `"cart-items"`, add/remove/update/clear, and the subtotal, tax and total.
- `FavoritesProvider` is the favourites list and its storage under
  `"favorites"`.
- `MenuProvider` covers the category strip with per-category counts and the
  filtered menu.
- `Middleware` is the route decision over the auth cookies and the path.
- `SearchPage` covers the search filters, the sort orders, the typed search,
  the filter reset and the active-filter badge.
- `AdminOrders`, `CustomerOrders` and `AdminProducts` are the list filters of
  those pages.
- `Accounting`, `Delivery`, `Reservation`, `TableServices` and `Footer` are the
  back-office lists, each with its own submit rules:
  - form validation: `Accounting`, `Delivery`, `Reservation` and `TableServices`;
  - a new record with the fresh id `max(0, ids) + 1`: `Accounting` (in
    front), `Delivery` and `Reservation` (at the end);
  - update of the selected record by id: `Delivery`, `Reservation`,
    `TableServices` and `Footer` (the footer only rewrites the selected
    order's status, with no validation).
- `AddProductModal` covers the product form's ingredient list, its dotted
  field names, validation, and the saved product.
- `Checkout` is the checkout flow of the cart panel.
- `SidebarNav` decides which navigation links a role sees and which are
  highlighted.
- `RelatedProducts` and `FeaturedProducts` are the "first four" product strips.

`Lists`, `Text`, `Records`, `Catalog` and `Wrappers` hold the shared vocabulary:

- `Array.prototype.filter`, `includes`, `new Set` order, `findIndex`, `map`
  over matching ids, `Math.max`;
- ASCII `toLowerCase` and `trim`;
- numeric-id records;
- the product catalog;
- `Option`/`Result`.

State that the source changes step by step is modelled as classes whose
methods are tied to the specification functions:

- the cart and favourites providers, the menu provider, the back-office pages,
  the product dialog and the cart panel;
- the category-count loop and the search page's filter-then-sort effect are
  methods.

Pure code is modelled as functions and lemmas.

Money is modelled as exact `real` arithmetic. The following are passed in as
parameters:

- local storage is a `map<string, string>`;
- `JSON.parse` and `JSON.stringify` are functions;
- the clock (`Date.now()`, `toLocaleTimeString`);
- `parseInt` and `parseFloat` (as functions that may yield NaN).

The menu search in components/providers/menu-provider.tsx:81-86 tests
whether the lower-cased type contains the lower-cased query as a substring.
A search for "veg" therefore also matches dishes of type "Non Veg", and
`MenuProvider.VegSearchExample` shows both kinds of dish returned.

## Model

| member | source | states |
|---|---|---|
| CartProvider.LoadCart | components/providers/cart-provider.tsx:31-42 | Outside a browser, or with no or an empty `"cart-items"` value, the cart starts empty. A value that fails to parse also gives the empty cart. Otherwise the cart is the parsed list. |
| CartProvider.SaveCart | components/providers/cart-provider.tsx:49-58 | The store afterwards holds the serialised items under `"cart-items"`, and every other key is unchanged. |
| CartProvider.CartStorageRoundTrip | components/providers/cart-provider.tsx:31-58 | Loading what was saved gives back the same items, whenever the parser inverts the serialiser. |
| CartProvider.Subtotal | components/providers/cart-provider.tsx:62 | The reduce of price·quantity over the lines; its behaviour under append, update and partition is stated by the three `Subtotal…` lemmas below. |
| CartProvider.Tax | components/providers/cart-provider.tsx:63 | 5% of the subtotal; related to the total by `TotalIsSubtotalWithTax`. |
| CartProvider.Total | components/providers/cart-provider.tsx:64 | Subtotal plus tax; shown to be 105% of the subtotal by `TotalIsSubtotalWithTax`. |
| CartProvider.TotalIsSubtotalWithTax | components/providers/cart-provider.tsx:61-69 | total = subtotal · 1.05, and tax = total − subtotal. |
| CartProvider.SubtotalAppend | components/providers/cart-provider.tsx:62 | The reduce over an appended line adds price·quantity of that line. |
| CartProvider.SubtotalUpdate | components/providers/cart-provider.tsx:62 | Replacing one line changes the subtotal by the difference of the two line totals. |
| CartProvider.SubtotalSplit | components/providers/cart-provider.tsx:62 | The subtotals of the two sides of a partition add up to the whole subtotal. |
| CartProvider.SubtotalNonNegative | components/providers/cart-provider.tsx:62 | With non-negative prices and quantities of at least 1, the subtotal is non-negative. |
| CartProvider.AddedToCart | components/providers/cart-provider.tsx:71-89 | The list keeps its length or gains exactly the new line `{ ...item, quantity: 1 }` at the end, and some line carries the added id afterwards. |
| CartProvider.RemovedFromCart | components/providers/cart-provider.tsx:91-97 | No line with the removed id is left. |
| CartProvider.IndexOfId | components/providers/cart-provider.tsx:74 | `findIndex` gives the first line with the id, or −1 exactly when no line has it. |
| CartProvider.QuantityUpdated | components/providers/cart-provider.tsx:99-111 | If q ≤ 0 the result is `removeFromCart(id)`. If q > 0 the length is kept, matching lines get quantity q, and the other lines are unchanged. |
| CartProvider.AddExistingIncrements | components/providers/cart-provider.tsx:74-80 | For an id already present, that line's quantity goes up by exactly 1, the length and other lines are unchanged, and the subtotal rises by the line price. |
| CartProvider.AddNewAppends | components/providers/cart-provider.tsx:81-84 | A new id appends `{...item, quantity: 1}` at the end, and the subtotal rises by its price. |
| CartProvider.AddKeepsWellFormed | components/providers/cart-provider.tsx:71-89 | Adding keeps ids unique and quantities at least 1. |
| CartProvider.RemoveKeepsOthers | components/providers/cart-provider.tsx:91-97 | Exactly the lines with another id remain, in order. Removal is a no-op for an absent id. The subtotal drops by the removed lines' total. |
| CartProvider.UniqueLineWithId | components/providers/cart-provider.tsx:93 | In a well-formed cart, exactly one line carries a present id. |
| CartProvider.RemovePresentSubtotal | components/providers/cart-provider.tsx:91-97 | Removing a present line lowers the subtotal by exactly that line's total. |
| CartProvider.UpdateKeepsWellFormed | components/providers/cart-provider.tsx:99-111 | Updating a quantity keeps ids unique and quantities at least 1. |
| CartProvider.AddTwiceExample | components/providers/cart-provider.tsx:61-84 | Adding a 10.00 item twice gives one line of quantity 2, subtotal 20, tax 1 and total 21. |
| CartProvider.CartLedger.constructor | components/providers/cart-provider.tsx:31-42 | The initial items are `LoadCart` of the store. |
| CartProvider.CartLedger.AddToCart | components/providers/cart-provider.tsx:71-89 | The new items are `AddedToCart(old items, item)`, and the ledger invariant is kept. |
| CartProvider.CartLedger.RemoveFromCart | components/providers/cart-provider.tsx:91-97 | The new items are `RemovedFromCart(old items, id)`, no line has the id, and the invariant is kept. |
| CartProvider.CartLedger.UpdateQuantity | components/providers/cart-provider.tsx:99-111 | The new items are `QuantityUpdated(old items, id, q)`, and the invariant is kept. |
| CartProvider.CartLedger.ClearCart | components/providers/cart-provider.tsx:113-116 | The items are empty, so the subtotal, tax and total are all 0. |
| FavoritesProvider.LoadFavorites | components/providers/favorites-provider.tsx:26-32 | No value or an empty `"favorites"` value gives `Ok([])`. A value that parses gives `Ok` of the parsed list. A value that does not parse is an error. |
| FavoritesProvider.SaveFavorites | components/providers/favorites-provider.tsx:34-37 | The store holds the serialised list under `"favorites"`, and every other key is unchanged. |
| FavoritesProvider.FavoritesStorageRoundTrip | components/providers/favorites-provider.tsx:26-37 | Loading what was saved gives back the same list. |
| FavoritesProvider.AddedFavorite | components/providers/favorites-provider.tsx:39-44 | The id is a favourite afterwards, the old list is kept as a prefix, and at most one id is added. |
| FavoritesProvider.RemovedFavorite | components/providers/favorites-provider.tsx:46-48 | The id is no favourite afterwards, and exactly the other ids remain. |
| FavoritesProvider.IsFavorite | components/providers/favorites-provider.tsx:50-52 | `includes`: list membership; used by the contracts of the rows around it. |
| FavoritesProvider.FavoriteItems | components/providers/favorites-provider.tsx:55 | Exactly the products whose id is a favourite. |
| FavoritesProvider.AddFavoriteIdempotent | components/providers/favorites-provider.tsx:39-44 | A present id leaves the list unchanged, and a new id is appended. Adding twice equals adding once. Duplicate-freedom is kept, and the id is a favourite afterwards. |
| FavoritesProvider.RemoveFavoriteKeepsOthers | components/providers/favorites-provider.tsx:46-48 | Exactly the other ids remain, in order. Removal is a no-op for an absent id, the id is no longer a favourite, and duplicate-freedom is kept. |
| FavoritesProvider.FavoriteItemsAreCatalogJoin | components/providers/favorites-provider.tsx:50-55 | `favoriteItems` is exactly the products whose id is a favourite, in catalog order, and it is empty when there are no favourites. |
| FavoritesProvider.Favorites.constructor | components/providers/favorites-provider.tsx:24 | The list starts empty. |
| FavoritesProvider.Favorites.Load | components/providers/favorites-provider.tsx:26-32 | The result is `LoadFavorites`. On `Ok` the list becomes the loaded one; on an error it is unchanged. |
| FavoritesProvider.Favorites.AddToFavorites | components/providers/favorites-provider.tsx:39-44 | The new list is `AddedFavorite(old, id)`, and `isFavorite(id)` holds afterwards. |
| FavoritesProvider.Favorites.RemoveFromFavorites | components/providers/favorites-provider.tsx:46-48 | The new list is `RemovedFavorite(old, id)`, and `isFavorite(id)` is false afterwards. |
| MenuProvider.CategoryTable | components/providers/menu-provider.tsx:44-69 | One entry more than there are distinct categories; its contents are stated by `CategoryTableShape`. |
| MenuProvider.CategoryTableShape | components/providers/menu-provider.tsx:44-69 | The first entry is "All" with the catalog size. It is followed by the distinct categories in first-appearance order, each with its item count. An entry is active iff its label is the selected category. |
| MenuProvider.CategoryCountsSumToCatalogSize | components/providers/menu-provider.tsx:46-58 | The per-category counts sum to the catalog length. |
| MenuProvider.TallyLabels | components/providers/menu-provider.tsx:47-50 | One more item adds its category to the end of the label list exactly when the category has not been seen before. |
| MenuProvider.AbsentCountsZero | components/providers/menu-provider.tsx:48 | A category not yet seen has count zero, the `|| 0` default. |
| MenuProvider.TallyCounts | components/providers/menu-provider.tsx:47-50 | One more item adds one to the count of its own category and leaves every other count alone. |
| MenuProvider.TallyInvariant | components/providers/menu-provider.tsx:47-50 | One `forEach` round keeps the map's keys equal to the labels in first-insertion order and each value equal to that category's item count. |
| MenuProvider.Tally | components/providers/menu-provider.tsx:46-50 | The `forEach` leaves a map whose keys, in insertion order, are the distinct categories in first-appearance order and whose values are the per-category item counts. |
| MenuProvider.BuildCategories | components/providers/menu-provider.tsx:44-69 | The `forEach`/`Map` loop produces exactly `CategoryTable(items, selected)`. |
| MenuProvider.VisibleItems | components/providers/menu-provider.tsx:72-89 | The category step then the title/type step, each skipped for "All" or an empty query; characterised by `VisibleItemsSpec`. |
| MenuProvider.VisibleItemsSpec | components/providers/menu-provider.tsx:72-89 | The filtered items are the catalog items that are in the selected category (unless "All") and whose title or type contains the query. They form an order-preserving subsequence. |
| MenuProvider.AllAndEmptyQueryShowsCatalog | components/providers/menu-provider.tsx:73-88 | "All" with an empty query shows the whole catalog in order. |
| MenuProvider.VegSearchExample | components/providers/menu-provider.tsx:76-86 | A category selects only its items. A "veg" query also matches a "Non Veg" dish. |
| MenuProvider.Menu.constructor | components/providers/menu-provider.tsx:37-69 | The items are the initial ones, the query is empty and the category is "All". The filtered items are the whole catalog, and the categories are the table for "All". |
| MenuProvider.Menu.RunFilterEffect | components/providers/menu-provider.tsx:72-89 | The filtered items become `VisibleItems` of the current category and query. |
| MenuProvider.Menu.SetSearchQuery | components/providers/menu-provider.tsx:72-89 | The query is set and the filtered items are recomputed. |
| MenuProvider.Menu.SetSelectedCategory | components/providers/menu-provider.tsx:40-89 | The category is set, and both the category table and the filtered items are recomputed. |
| Middleware.Decide | middleware.ts:4-36 | The request goes to "/admin" exactly when a signed-in admin opens "/", to "/" exactly when an admin route is opened by anyone else, and passes in every other case. |
| Middleware.AdminHomeRedirects | middleware.ts:16-18 | A token with role "ADMIN" on "/" redirects to "/admin". |
| Middleware.NonAdminPathPasses | middleware.ts:9-23 | Any path not exactly an admin route passes, apart from the case above. |
| Middleware.AdminSubPathUnguarded | middleware.ts:9-23 | "/admin/products/1" passes whatever the cookies are. |
| Middleware.AdminRouteWithoutToken | middleware.ts:26-28 | An admin route without a token redirects to "/". |
| Middleware.AdminRouteWrongRole | middleware.ts:31-33 | An admin route with a token but a role other than "ADMIN" redirects to "/". |
| Middleware.AdminRouteAdminPasses | middleware.ts:35 | An admin route with a token and role "ADMIN" passes. |
| Middleware.RedirectTargets | middleware.ts:16-35 | The only redirect targets are "/" and "/admin". "/admin" is reached exactly from "/" by a signed-in admin, and "/" only from an admin route. |
| Catalog.CategoryOptions | app/search/page.tsx:32 | "all" followed by the distinct categories in first-appearance order, exactly those that occur, without repeats. The admin product filter builds its choices the same way (app/admin/products/page.tsx:23). |
| SearchPage.EffectivePrice | app/search/page.tsx:60 | The discounted price used by the range filter; characterised by `EffectivePriceSpec`. |
| SearchPage.Filtered | app/search/page.tsx:36-62 | The four filter steps as one chain; characterised by `FilteredSpec`. |
| SearchPage.EffectivePriceSpec | app/search/page.tsx:60-68 | Without a discount the price is unchanged. With one it is price·(100 − d)/100, and for a discount in 0..100 it stays between 0 and the price. |
| SearchPage.FilteredSpec | app/search/page.tsx:36-62 | The filter chain yields exactly the catalog products that pass the query (title, category or type, ignoring case), the exact category and type filters unless "all", and the inclusive price range, in catalog order. |
| SearchPage.NarrowSteps | app/search/page.tsx:36-62 | Reassigning the list through the query, category, type and price steps, each skipped when its setting is empty or "all", gives exactly the filter chain `Filtered`. |
| SearchPage.Insert | app/search/page.tsx:65-79 | Inserting into a list adds exactly that product to its multiset. |
| SearchPage.InsertSorted | app/search/page.tsx:65-79 | Inserting into a list sorted by a key keeps it sorted. |
| SearchPage.InsertBound | app/search/page.tsx:65-79 | Inserting a product that cannot precede some key bound, into a list that respects that bound, keeps every element within the bound. |
| SearchPage.SortBy | app/search/page.tsx:65-79 | The sort result is a permutation of its input and is sorted by the key in the chosen direction. |
| SearchPage.FilterEffect | app/search/page.tsx:35-82 | The results are a permutation of the filtered list and hold exactly the passing products. "price-low" sorts by effective price ascending and "price-high" descending. "discount" sorts by discount descending, with a missing discount counted as 0. Any other order keeps catalog order. |
| SearchPage.SearchByText | app/search/page.tsx:84-100 | `handleSearch` keeps exactly the products whose title, category or type contains the typed text, in order, and ignores the other filters. |
| SearchPage.SearchByEmptyTextKeepsAll | app/search/page.tsx:92-97 | An empty typed query keeps the whole catalog. |
| SearchPage.ClearFilters | app/search/page.tsx:102-107 | Category and type go back to "all", the range to 0..50 and the order to "relevance". |
| SearchPage.ActiveFiltersCount | app/search/page.tsx:109-113 | The badge is at most 4, and 0 exactly when category and type are "all", the order is "relevance" and the range covers 0..50. |
| SearchPage.ActiveFiltersCountSpec | app/search/page.tsx:109-113 | The badge is at most 4. It is 0 exactly when every setting is at its default, and it is 0 after `clearFilters`. |
| AdminOrders.FilteredOrders | app/admin/orders/page.tsx:101-109 | An order is kept iff its id, customer or email contains the query ignoring case, and, unless the filter is "all", its status equals the filter ignoring case. The result is an order-preserving subsequence. |
| AdminOrders.EmptySearchShowsAll | app/admin/orders/page.tsx:101-107 | An empty query with "all" shows every order. |
| AdminOrders.AllStatusesIsSearchOnly | app/admin/orders/page.tsx:107 | The "all" filter is the search alone. |
| AdminOrders.UpdateStatus | app/admin/orders/page.tsx:129-138 | Without a selection nothing changes. With one the dialog closes. The orders are never changed. |
| AdminOrders.TaxRow | app/admin/orders/page.tsx:305 | The tax row is 5% of the total, between 0 and the total for a non-negative total. |
| AdminOrders.GrandTotalRow | app/admin/orders/page.tsx:312 | The grand total row, 105% of the order total; see `GrandTotalIsSubtotalPlusTax`. |
| AdminOrders.GrandTotalIsSubtotalPlusTax | app/admin/orders/page.tsx:299-312 | total·1.05 equals the subtotal row plus the tax row. |
| CustomerOrders.SomeItemMatchesSpec | app/orders/page.tsx:103 | `items.some(...)` holds iff some item name contains the query ignoring case. |
| CustomerOrders.FilteredOrders | app/orders/page.tsx:100-109 | An order is kept iff its id or an item name matches the query. "processing" and "delivered" also require that exact status. The result keeps history order. |
| CustomerOrders.OtherTabsSearchOnly | app/orders/page.tsx:105-108 | Tab "all", and any tab other than "processing" or "delivered", apply the search only. |
| CustomerOrders.EmptySearchShowsTab | app/orders/page.tsx:100-109 | With an empty query the tab alone decides: "processing" lists exactly the orders with status "Processing", "delivered" those with "Delivered", and any other tab the whole history, each in order. |
| AdminProducts.FilteredProducts | app/admin/products/page.tsx:25-33 | A product is kept iff its title or id contains the query ignoring case, and, unless the filter is "all", its category equals the filter. The result keeps catalog order. |
| AdminProducts.EmptySearchShowsAll | app/admin/products/page.tsx:25-33 | An empty query with "all" lists the whole catalog. |
| AdminProducts.DeleteProduct | app/admin/products/page.tsx:35-40 | The delete handler only announces the deletion: the catalog afterwards is the catalog before. |
| Records.FreshId | app/accounting/page.tsx:106 | The fresh id is at least 1, larger than every id in use, one more than 0 or than an id in use, and 1 for an empty list. |
| Records.FreshIdIsMaxPlusOne | app/accounting/page.tsx:106 | The fresh id is exactly `max(0, ids) + 1`: one more than the value that bounds 0 and every id and is 0 or an id. |
| Records.PrependFresh | app/accounting/page.tsx:107-117 | One record with the fresh id goes in front, the old list follows unchanged, and ids stay unique. |
| Records.AppendFresh | app/delivery/page.tsx:126-128 | One record with the fresh id goes at the end, the old list precedes it unchanged, and ids stay unique. |
| Records.ReplaceInfo | app/delivery/page.tsx:118-120 | The length and every id are kept. Records with the id get the new fields and the others are unchanged. Ids stay unique. |
| Records.ReplaceAbsentIsNoOp | app/reservation/page.tsx:111-113 | Editing an id that no record has changes nothing. |
| Accounting.OfKind | app/accounting/page.tsx:128-130 | Exactly the transactions of the given type are kept, each as often as it occurs in the ledger. |
| Accounting.TotalIncome | app/accounting/page.tsx:128 | The summed amounts of the "income" transactions; see `TotalsCons`. |
| Accounting.TotalExpenses | app/accounting/page.tsx:130 | The summed amounts of the "expense" transactions; see `TotalsCons`. |
| Accounting.NetProfit | app/accounting/page.tsx:132 | Income minus expenses; equal to the signed sum by `SignedSumIsNetProfit`. |
| Accounting.ValidForm | app/accounting/page.tsx:96 | A description and a positive amount; `AccountingPage.HandleSubmit` accepts exactly these forms. |
| Accounting.TotalsCons | app/accounting/page.tsx:128-130 | One more transaction adds its amount to the income or the expense total according to its type. |
| Accounting.SignedSumIsNetProfit | app/accounting/page.tsx:128-139 | When every type is income or expense, the signed sum equals income minus expenses. |
| Accounting.Categories | app/accounting/page.tsx:135 | The category of each transaction, position by position. |
| Accounting.CategoryNames | app/accounting/page.tsx:135 | The distinct categories, exactly those that occur, without repeats, ordered by the position of their first transaction. |
| Accounting.CategoryData | app/accounting/page.tsx:135-142 | There is one point per distinct category, ordered by the position of the category's first transaction. Each amount is that category's sum of +income and −other. |
| Accounting.CategoryDataSumsToNetProfit | app/accounting/page.tsx:128-142 | The chart amounts sum to the signed sum of the ledger, and so to the net profit when every type is income or expense. |
| Accounting.AccountingPage.HandleSubmit | app/accounting/page.tsx:94-125 | A submit is accepted iff the description is non-empty and the amount is positive. A rejection leaves the list unchanged. An acceptance prepends one transaction with a fresh id. Unique ids are kept. |
| Accounting.SubmitMovesTotals | app/accounting/page.tsx:107-132 | A valid submit moves the income or the expense total by exactly the new amount. |
| Delivery.ValidForm | app/delivery/page.tsx:109 | Customer, address and phone filled in; `DeliveryPage.HandleSubmit` accepts exactly these forms. |
| Delivery.FilteredDeliveries | app/delivery/page.tsx:138-144 | "active" is exactly the status ≠ "Delivered" records, and any other tab exactly the "Delivered" ones, in order. |
| Delivery.TabsPartition | app/delivery/page.tsx:138-144 | The two views together hold every delivery exactly once, in both count and multiset. |
| Delivery.DeliveryPage.HandleNewDelivery | app/delivery/page.tsx:72-85 | The selection is cleared and the form is blank. |
| Delivery.DeliveryPage.HandleEditDelivery | app/delivery/page.tsx:87-100 | The delivery is selected and its fields are copied into the form. |
| Delivery.DeliveryPage.HandleSubmit | app/delivery/page.tsx:107-136 | A submit is accepted iff customer, address and phone are filled in. A rejection leaves the list unchanged. An edit replaces the selected id's fields. A create appends with a fresh id. Unique ids are kept. |
| Reservation.ValidForm | app/reservation/page.tsx:102 | Name, time, phone and table filled in; `ReservationPage.HandleSubmit` accepts exactly these forms. |
| Reservation.BlankForm | app/reservation/page.tsx:44-64 | The blank form is dated today with 2 guests, and its text fields are empty. |
| Reservation.WithoutId | app/reservation/page.tsx:81-82 | Exactly the reservations with another id remain, in order, each as often as before. |
| Reservation.DeleteAbsentIsNoOp | app/reservation/page.tsx:81-82 | Deleting an absent id changes nothing. |
| Reservation.DeletePresentRemovesOne | app/reservation/page.tsx:81-82 | With unique ids, deleting a present id removes exactly one reservation, and ids stay unique. |
| Reservation.ReservationPage.HandleNewReservation | app/reservation/page.tsx:55-66 | The selection is cleared and the form is blank and dated today. |
| Reservation.ReservationPage.HandleEditReservation | app/reservation/page.tsx:68-79 | The reservation is selected and its fields are copied into the form. |
| Reservation.ReservationPage.HandleDeleteReservation | app/reservation/page.tsx:81-87 | The list becomes `WithoutId(old, id)`, and unique ids are kept. |
| Reservation.ReservationPage.HandleDateChange | app/reservation/page.tsx:94-98 | An undefined date leaves the form unchanged. A date replaces only the form's date. |
| Reservation.ReservationPage.HandleSubmit | app/reservation/page.tsx:100-129 | A submit is accepted iff name, time, phone and table are filled in. A rejection leaves the list unchanged. An edit replaces the selected id's fields. A create appends with a fresh id. Unique ids are kept. |
| TableServices.ValidForm | app/table-services/page.tsx:58 | An "Available" table, or a customer name; `TableServicesPage.HandleSubmit` rejects exactly the other forms. |
| TableServices.NewTime | app/table-services/page.tsx:74-77 | "Available" gives no time. Otherwise the time is the form's time, or the current time when that is empty. |
| TableServices.Apply | app/table-services/page.tsx:69-78 | The id and number are kept, and status, customer and time are overwritten. |
| TableServices.UpdatedTables | app/table-services/page.tsx:67-81 | The count and order are kept. Only tables with the selected id change, and the other tables are unchanged. |
| TableServices.UpdateKeepsIds | app/table-services/page.tsx:67-81 | The ids are unchanged and stay unique. |
| TableServices.TableServicesPage.HandleTableClick | app/table-services/page.tsx:42-50 | The table is selected and its customer, status and time are copied into the form. |
| TableServices.TableServicesPage.HandleSubmit | app/table-services/page.tsx:57-89 | A status other than "Available" with no customer is rejected and the tables are unchanged. With no selected table the handler fails and the tables are unchanged. Otherwise the tables become `UpdatedTables`. |
| Footer.WithStatus | components/footer.tsx:25 | The length and order are kept. Orders with the id get the status and keep all other fields, and the others are unchanged. |
| Footer.WithStatusTwice | components/footer.tsx:25 | Setting a status twice keeps only the second. |
| Footer.WithSameStatusIsNoOp | components/footer.tsx:25 | Setting the status an order already has changes nothing. |
| Footer.FooterStrip.HandleOrderClick | components/footer.tsx:17-20 | The order is selected and the list is unchanged. |
| Footer.FooterStrip.HandleStatusChange | components/footer.tsx:22-28 | Without a selection nothing happens. Otherwise the orders become `WithStatus(old, selected id, status)`. |
| AddProductModal.BeforeDot | components/AddProductModal.jsx:90 | `split(".")[0]` holds no dot and is the prefix up to the first dot. |
| AddProductModal.SecondPart | components/AddProductModal.jsx:90 | `split(".")[1]` holds no dot and follows the first dot. |
| AddProductModal.InputChanged | components/AddProductModal.jsx:86-104 | "parent.child" sets only `child` in the parent group and keeps the group's other entries and every other field. An undotted name sets that text field. |
| AddProductModal.WithoutIndexInside | components/AddProductModal.jsx:130-133 | Dropping an index in range removes that entry alone and keeps the order. |
| AddProductModal.WithoutIndexOutside | components/AddProductModal.jsx:130-133 | Dropping an index out of range changes nothing. |
| AddProductModal.NonBlank | components/AddProductModal.jsx:154 | The saved ingredients are exactly the entries whose trim is non-empty, in order, and a repeated entry is kept as often as it occurs. |
| AddProductModal.NonBlankSpec | components/AddProductModal.jsx:154 | The saved ingredients equal the list filtered by "has a non-space character", so they are exactly those entries, with their repeats, in order. |
| AddProductModal.Finalized | components/AddProductModal.jsx:149-161 | The saved id is the form's id when non-empty, else "prod-" followed by the timestamp. The price is `parseFloat` of the price text. A discount exists iff the field is truthy. The ingredients are the non-blank ones. |
| AddProductModal.ProductModal.constructor | components/AddProductModal.jsx:52-53 | The ingredients start as `[""]` and the form as the defaults. |
| AddProductModal.ProductModal.OnOpen | components/AddProductModal.jsx:57-84 | A closed dialog changes nothing. Edit mode takes the product's fields, and its ingredients when it has any, else `[""]`. A new product gets the blank form and `[""]`. |
| AddProductModal.ProductModal.HandleInputChange | components/AddProductModal.jsx:86-104 | The form becomes `InputChanged(old, name, value)` and the ingredients are unchanged. |
| AddProductModal.ProductModal.HandleSelectChange | components/AddProductModal.jsx:106-111 | The named field becomes the chosen text. |
| AddProductModal.ProductModal.HandleFeaturedChange | components/AddProductModal.jsx:113-118 | `featured` becomes the checkbox value. |
| AddProductModal.ProductModal.HandleIngredientChange | components/AddProductModal.jsx:120-124 | Index i gets the value. The length and every other entry are unchanged. |
| AddProductModal.ProductModal.AddIngredient | components/AddProductModal.jsx:126-128 | `""` is appended. |
| AddProductModal.ProductModal.RemoveIngredient | components/AddProductModal.jsx:130-133 | An index in range is dropped and the others keep their order. Any other index changes nothing. |
| AddProductModal.ProductModal.HandleSubmit | components/AddProductModal.jsx:135-164 | Something is saved iff title, price, type and category are all truthy, and what is saved is `finalProduct`. |
| Checkout.HasPayment | components/cart.tsx:32 | A payment method has been chosen; `CartPanel.HandleCheckout` does nothing without one. |
| Checkout.CartPanel.constructor | components/cart.tsx:13-15 | The panel and dialog start closed, with no payment method. |
| Checkout.CartPanel.ToggleCart | components/cart.tsx:61 | The panel flag flips. |
| Checkout.CartPanel.SetPaymentMethod | components/cart.tsx:14 | The payment method is set and nothing else changes. |
| Checkout.CartPanel.HandlePlaceOrder | components/cart.tsx:18-29 | An empty cart leaves the dialog as it was, and a non-empty cart opens it. The dialog only opens from a non-empty cart, and the cart is unchanged. |
| Checkout.CartPanel.HandleCheckout | components/cart.tsx:31-53 | Without a payment method nothing changes. With one, the cart is emptied (total 0), the method is reset and both panels close. |
| SidebarNav.NavItems | components/sidebar-nav.tsx:28-54 | Admin links are shown iff the role is exactly "admin"; otherwise the customer links are shown. |
| SidebarNav.IsActive | components/sidebar-nav.tsx:115 | Exact match, or a raw prefix match for any link but "/"; characterised by the two lemmas below. |
| SidebarNav.HomeActiveOnlyAtHome | components/sidebar-nav.tsx:115 | "/" is active only on "/". |
| SidebarNav.OtherLinksMatchPrefix | components/sidebar-nav.tsx:115 | Any other link is active iff the path starts with it, with no segment boundary. |
| SidebarNav.DashboardActiveOnProducts | components/sidebar-nav.tsx:115 | On "/admin/products", "/admin" and "/admin/products" are both active. |
| SidebarNav.ActiveCount | components/sidebar-nav.tsx:114-115 | The number of highlighted links is at most the number of links, and it is 0 exactly when no link's test holds. |
| RelatedProducts.Qualifying | components/related-products.tsx:14-16 | Exactly the catalog products of the category other than the current one. |
| RelatedProducts.Related | components/related-products.tsx:14-18 | There are at most 4 related products, each of the category and not the current product. They are the first qualifying ones in catalog order, min(4, count) of them, and there are none iff no product qualifies. |
| FeaturedProducts.AllFeatured | components/featured-products.tsx:13 | Exactly the featured products are kept, each as often as it occurs in the catalog. |
| FeaturedProducts.Featured | components/featured-products.tsx:13 | The strip holds the first min(4, count) featured products, in catalog order, each one featured. |
| FeaturedProducts.FeaturedOmittedOnlyAfterFour | components/featured-products.tsx:13 | A featured product is left out only if four featured products precede it. |

## Left out

- Storage and JSON: local storage, `JSON.parse` and `JSON.stringify` are abstract parameters. No JSON text is modelled, and neither is the `typeof window` check beyond a flag.
- Floating point: money is exact `real`. `toFixed`, float sums and the rounding of the 5% tax are not modelled.
- Text: `toLowerCase` and `trim` are modelled on ASCII only; Unicode case folding and Unicode white space are not.
- CartProvider.CartLedger.AddToCart: the source increments `quantity` in place on an element shared with the previous state (components/providers/cart-provider.tsx:80). Under React strict mode's double call of the updater this can add 2. The model gives the intended single increment on a fresh list.
- Effect scheduling: the totals, category and filter effects are run as direct method calls or functions of the state. React's batching and ordering are not modelled.
- Storage writes: `CartProvider.SaveCart` and `FavoritesProvider.SaveFavorites` are stand-alone functions over a store. `CartLedger` and `Favorites` hold no store and never call them, so the model does not tie a store write to each change of the list.
- MenuProvider.Menu.constructor: the source's categories start as `[]` until the mount effect runs. The model starts with the table the effect produces.
- Category labels: the `${count} Items` text and the icons of the category strip are kept as a number and not modelled.
- SearchPage.SortBy: `Array.prototype.sort` works in place with a comparator. It is modelled as a functional sort, and only sortedness and permutation are stated; the order of ties is not.
- SearchPage.SearchByText: the URL update through `history.pushState` and `useSearchParams` is not modelled. The URL query is a parameter.
- Presentation flags: dialog open/close flags, toasts and animations are not modelled, except in the checkout flow.
- Admin orders: the `handleViewOrder` selection is not modelled.
- Form input handlers: the generic `handleInputChange` of the accounting, delivery, reservation and table-services pages writes raw input strings into the form by field name. Their forms are modelled with typed fields that the submit handlers read. `handleNewTransaction` of the accounting page is likewise not modelled; the submitted form is a parameter there.
- Accounting.AccountingPage.HandleSubmit: the amount is taken as a number already. The string-to-number coercion of `formData.amount <= 0` and `Number.parseFloat` is not modelled.
- AddProductModal.InputChanged: when the parent field of a dotted name holds text, the page spreads its characters as indexed keys. The model starts the group empty in that case.
- AddProductModal.ProductModal.HandleIngredientChange: the index is required to be in range. The page only passes indices of existing entries, and an index past the end would leave holes in the JavaScript array.
- AddProductModal.ProductModal.OnOpen: the conversion of a product being edited into form text (`toString` of price, discount and nutrition) is taken as given in `EditProduct.fields`.
- AddProductModal.Finalized: `Date.now()` is the `stamp` parameter, already written out. `parseInt` and `parseFloat` are parameters that may return NaN.
- TableServices.NewTime: `toLocaleTimeString` is the `now` parameter.
- Network and authentication: the network calls in service/api.js, service/auth.tsx and service/product.tsx, and the profile fetch of the auth provider, are not part of this model.
- Middleware: the `config.matcher` list that restricts which paths reach the middleware is not modelled. The decision is stated for every path.
