# poldo_frontend stores, modelled in Dafny

poldo_frontend is the Vue/Pinia web client of a school canteen ordering
service. Students, teachers and staff pick a pickup shift (*turno*), fill a
per-shift cart and confirm it as an order. Staff views list the day's class
and professor orders and mark them as prepared. This project models the
client-side logic of that application and proves properties of it:

- the per-shift cart store (`src/stores/cart.ts`), a class whose map of carts
  is changed in place;
- the navigation guard and route table (`src/router/index.ts`), as a pure
  decision function;
- the shift store (`src/stores/turno.ts`) and the session store
  (`src/stores/auth.ts`), as classes whose methods step their fields;
- the order-management store (`src/stores/Gestione/ordini.ts`): date
  formatting, order totals, display names, the user-profile cache, the
  professor-order loop and the re-fetch dispatch after "mark prepared";
- the request helper and response coercion of `src/stores/Gestione/ordiniUtility.ts`
  and `src/utils/arrayHelpers.js`;
- the product catalogue (`src/stores/products.ts`).

Nothing is sent over the network. Each request's outcome is a parameter:
a reply datatype per store, or a settled promise (`Fetch.Settled`) where the
store goes through a request helper. JavaScript values that the stores read
without a fixed shape are modelled by `Js.JsValue`, with truthiness, property
access, `||`, object spread and `String(v)` written out in `js.dfy`. The files
are:

| file | modules |
|---|---|
| `text.dfy` | `Wrappers` (Option), `Text` (decimal digits, padding, trim, lower case, substring search) |
| `js.dfy` | `Js` (JavaScript values), `Fetch` (responses, settled promises, the base URL) |
| `array_helpers.dfy` | `ArrayHelpers` |
| `ordini_utility.dfy` | `OrdiniUtility` |
| `turni.dfy` | `Turni` |
| `cart.dfy` | `Cart` |
| `auth.dfy` | `Auth` |
| `router.dfy` | `Router` |
| `ordini.dfy` | `Ordini` |
| `products.dfy` | `Products` |

Three points of the order store that the model states explicitly:

- `markOrderAsPrepared` and `markProductAsPrepared` flip no `preparato` flag
  locally; they send the request and then re-fetch.
  `Ordini.OrdiniStore.MarkOrderAsPrepared` and `MarkProductAsPrepared` state
  that a failed request changes nothing.
- Only shift 2 re-fetches the professor orders; every other shift re-fetches
  only the class orders.
- The product endpoint is `prodotti/<id>/prepara`, with no shift in it.

## Model

| member | source | states |
|---|---|---|
| ArrayHelpers.EnsureArray | src/utils/arrayHelpers.js:2-10 | a list comes back unchanged, error entries included; an object with a truthy `error` gives `[]` and any other object `[object]`; null, undefined and primitives give `[]` |
| ArrayHelpers.EnsureArrayIdempotent | src/utils/arrayHelpers.js:4-9 | coercing an already coerced list changes nothing |
| OrdiniUtility.NormalizeEndpoint | src/stores/Gestione/ordiniUtility.ts:11 | the endpoint gains a leading `/` exactly when it has none |
| OrdiniUtility.RequestUrl | src/stores/Gestione/ordiniUtility.ts:11 | the URL is the base URL and the endpoint joined by exactly one `/`: an endpoint starting with `/` is appended as it is, any other after a `/` |
| OrdiniUtility.RequestUrlJoins | src/stores/Gestione/ordiniUtility.ts:11 | every URL starts with the base URL and a `/`, and ends with the endpoint |
| OrdiniUtility.NormalizeIdempotent | src/stores/Gestione/ordiniUtility.ts:11 | normalising twice is normalising once; `x` and `/x` reach the same URL exactly when `x` has no leading `/` |
| OrdiniUtility.HandleRequest | src/stores/Gestione/ordiniUtility.ts:12-35 | 404 resolves to `[]` before the ok test; any other non-ok status rejects with `errorMsg: errorMsg: <status> — <text>`; ok JSON resolves to the parsed body, ok JSON that fails to parse rejects with `errorMsg: <parse message>`, and ok non-JSON resolves to `{}`; every rejection starts with `errorMsg: `; a network error is re-prefixed once |
| OrdiniUtility.EnsureArray | src/stores/Gestione/ordiniUtility.ts:41-48 | the same four cases as the arrayHelpers copy |
| OrdiniUtility.EnsureArrayCopiesAgree | src/stores/Gestione/ordiniUtility.ts:41-48 | the two copies of ensureArray (the other is src/utils/arrayHelpers.js:2-10) agree on every input |
| Turni.ForDay | src/stores/turno.ts:32-34 | a shift is kept exactly when it is in the list and its `giorno`, lower-cased, equals the token |
| Turni.ForDayAppend | src/stores/turno.ts:32-34 | the day filter keeps order: filtering a concatenation filters each part |
| Turni.Rename | src/stores/turno.ts:36-43 | `n` and `nome` are copied and the four time fields are renamed |
| Turni.RenameAll | src/stores/turno.ts:36-43 | the mapping keeps length and order |
| Turni.LoadedShiftsAreTheDays | src/stores/turno.ts:32-43 | every loaded shift is one of the day's raw shifts renamed, and every such shift is loaded |
| Turni.FindTurno | src/stores/turno.ts:52 | the shift at the least index with that number, or None exactly when no shift has it |
| Turni.TurnoStore.constructor | src/stores/turno.ts:15-18 | no shift selected (-1), no shifts, not loading, no error |
| Turni.TurnoStore.FetchTurni | src/stores/turno.ts:20-49 | on success `turni` is the day's shifts renamed and the error is cleared; on 404, non-ok, network or unreadable body the error holds the thrown message and `turni` keeps its value; `loading` is false on every path |
| Turni.TurnoStore.SelectTurno | src/stores/turno.ts:51-59 | a known number becomes the selection; an unknown one keeps the selection and sets the error to `Turno non trovato` |
| Cart.NumericKeysAreNotReset | src/stores/cart.ts:80-82 | no shift number's key is `primo` or `secondo` |
| Cart.ToLines | src/stores/cart.ts:97-100 | the order lines are the cart lines in order, `id` as `idProdotto` and `selectedQuantity` as `quantita` |
| Cart.FromLines | src/stores/cart.ts:46-49 | the cart lines are the order lines in order, `idProdotto` as `id` and `quantita` as `selectedQuantity` |
| Cart.SyncedLinesMayRepeatIds | src/stores/cart.ts:46-49 | the server's lines are copied as they are, so a reply repeating an `idProdotto` gives a cart with that id on two lines |
| Cart.LinesRoundTrip | src/stores/cart.ts:97-100 | what confirmCart sends reads back, through the mapping of lines 46-49, as the same cart, and the other way round |
| Cart.IndexOfId | src/stores/cart.ts:61 | the first line with the id, or None exactly when no line has it |
| Cart.AddQuantity | src/stores/cart.ts:59-67 | a present id has only its first line's quantity raised, length unchanged; an absent id gets one new line at the end |
| Cart.AddQuantityKeepsIdsUnique | src/stores/cart.ts:61-66 | find-or-append keeps every product id on at most one line of the cart |
| Cart.AddQuantityCounts | src/stores/cart.ts:59-67 | the product's total quantity rises by the amount, with no bound, and every other product's total is unchanged |
| Cart.WithoutId | src/stores/cart.ts:70-74 | a line survives exactly when it was there and has another id |
| Cart.WithoutIdKeepsIdsUnique | src/stores/cart.ts:70-74 | removal keeps every product id on at most one line |
| Cart.WithoutIdAppend | src/stores/cart.ts:71-73 | removal keeps the order of the remaining lines |
| Cart.WithoutIdIdempotent | src/stores/cart.ts:70-74 | removing twice is removing once |
| Cart.WithoutIdKeepsClean | src/stores/cart.ts:70-74 | a cart with no line of the id is left unchanged |
| Cart.WithoutIdCounts | src/stores/cart.ts:70-74 | the product's total becomes 0 and every other product's total is unchanged |
| Cart.JudgeConfirm | src/stores/cart.ts:107-132 | ok exactly when the reply is 2xx JSON, not null and without a truthy `error`; the error value or the generic message otherwise; the network message when no body can be read |
| Cart.CartStore.constructor | src/stores/cart.ts:20-23 | one empty cart per loaded shift number, and no other key |
| Cart.CartStore.GetItems | src/stores/cart.ts:84-86 | the active shift's list, or None when it has none |
| Cart.CartStore.UpdateQuantity | src/stores/cart.ts:59-68 | only the active cart changes, by increment-or-append; a missing cart is the TypeError path and changes nothing |
| Cart.CartStore.RemoveFromCart | src/stores/cart.ts:70-74 | only the active cart changes, losing every line of the product |
| Cart.CartStore.ClearCart | src/stores/cart.ts:76-78 | only the active cart changes, to empty |
| Cart.CartStore.ClearAllCarts | src/stores/cart.ts:80-82 | the map becomes `{primo: [], secondo: []}`, so no shift number has a cart any more |
| Cart.CartStore.ConfirmCart | src/stores/cart.ts:88-133 | an empty cart gives `Carrello vuoto` with no request; otherwise the body is `{nTurno, prodotti}` in cart order, and only an accepted reply clears the active cart, nothing else changing |
| Cart.CartStore.GetOrdineByTurno | src/stores/cart.ts:25-55 | true exactly when a 2xx reply has a first order with products; then only the active cart is overwritten with them; otherwise nothing changes |
| Auth.UserFrom | src/stores/auth.ts:36-40 | the user copies `nome`, `foto_url` as `foto` and `ruolo`, with no id |
| Auth.LogoutSession | src/stores/auth.ts:50-51 | logout forgets the user and keeps `loading` and `isAuthenticated` |
| Auth.Check | src/stores/auth.ts:17-48 | true exactly when a 2xx JSON body is not null, and then the user is built from it; `loading` stays true on every path that does not read the body; `isAuthenticated` becomes true once the body is read and is never reset |
| Auth.AuthenticatedSticks | src/stores/auth.ts:33-34 | after any series of checks `isAuthenticated` holds exactly when it held before or some check read a body |
| Auth.FailureAfterSuccess | src/stores/auth.ts:26-30 | a failed check after a successful one leaves the store authenticated, loading and without a user |
| Auth.AuthStore.constructor | src/stores/auth.ts:13-15 | no user, loading, not authenticated |
| Auth.AuthStore.Logout | src/stores/auth.ts:50-54 | only the user changes, to none |
| Auth.AuthStore.CheckAuth | src/stores/auth.ts:17-48 | the answer and the new fields are those of `Auth.Check` on the old fields |
| Router.RoleOf | src/router/index.ts:115 | the user's `ruolo`, or undefined when there is no user |
| Router.Guard | src/router/index.ts:92-136 | a route needing a shift with none selected goes home before any auth check; auth is checked exactly for authenticated routes past that test; a failed check or an undefined role under a role list goes to login; an unlisted role goes home; admission holds exactly when every test passes |
| Router.FindMeta | src/router/index.ts:19-88 | a route's meta is found exactly when the table has that name, and it is that route's meta |
| Router.FindMetaAt | src/router/index.ts:19-88 | the meta found for a name is that of the first route with that name |
| Router.MetaOf | src/router/index.ts:19-88 | the named route's meta is defined exactly for the names in the table |
| Router.UtentiIsOpen | src/router/index.ts:83-87 | `/utenti` admits every visitor without an auth check, since the guard never reads `requiresAdmin` |
| Router.QrRefusesStudente | src/router/index.ts:43-47 | `/qr` sends a logged-in `studente` home and admits `admin`, `prof`, `segreteria` and `paninaro` |
| Router.ShiftRoutesAreAuthenticated | src/router/index.ts:37-47 | every route that needs a shift also needs authentication |
| Router.MissingRoleGoesToLogin | src/router/index.ts:114-126 | a successful check whose body has no `ruolo` still sends a role-gated route to login |
| Ordini.Pad2Reads | src/stores/Gestione/ordini.ts:99-100 | a number from 1 to 99 pads to two digits that read back as the number |
| Ordini.FormatDate | src/stores/Gestione/ordini.ts:97-102 | `${year}-${month}-${day}` with month and day padded to two digits; what the fields hold is stated by `Ordini.FormatDateFields` |
| Ordini.FormatDateFields | src/stores/Gestione/ordini.ts:97-102 | the date is the year, a dash, the month as two digits that read back as the zero-based month plus 1, a dash, and the day as two digits that read back as the day |
| Ordini.ReduceTotal | src/stores/Gestione/ordini.ts:266-270 | the reduce, left to right, stopping where a product cannot be read; its value is stated by `Ordini.ReduceIsSum` |
| Ordini.ReduceIsSum | src/stores/Gestione/ordini.ts:266-270 | the left-to-right reduce is the sum of price times quantity, and throws exactly when a product is null or undefined |
| Ordini.SumLinesAppend | src/stores/Gestione/ordini.ts:266-270 | the total of two product lists is the sum of their totals |
| Ordini.CalculateOrderTotal | src/stores/Gestione/ordini.ts:263-271 | the TypeError (None) for a null or undefined order; 0 without a product list; otherwise the sum of price times quantity with a missing price or quantity counted as 0, or the TypeError when a product is null or undefined |
| Ordini.GetOrderUserName | src/stores/Gestione/ordini.ts:274-279 | a name exactly when the order is not null or undefined (otherwise the TypeError); which name is stated by the four lemmas below |
| Ordini.UserNameWithBothNames | src/stores/Gestione/ordini.ts:275-277 | a profile with a `cognome` and a `nome`, whatever its other fields, gives exactly `cognome nome` |
| Ordini.UserNameWithNomeOnly | src/stores/Gestione/ordini.ts:275-277 | a `nome` with a falsy `cognome` gives the `nome` alone, the leading space trimmed |
| Ordini.UserNameWithCognomeOnly | src/stores/Gestione/ordini.ts:275-277 | a `cognome` with a falsy `nome` gives the `cognome` alone, the trailing space trimmed |
| Ordini.UserNameFallback | src/stores/Gestione/ordini.ts:274-278 | without a name (no user data, a null profile after a failed lookup, or falsy `nome` and `cognome`), a falsy user gives `Utente #N/A`, a positive numeric id `Utente #<id>` and a non-empty string id `Utente #<id>` |
| Ordini.CachedUser | src/stores/Gestione/ordini.ts:105-119 | a truthy cache entry is returned with no request; otherwise a request is made; a success is stored and returned; a failure returns null and leaves the cache |
| Ordini.CachedUserExtends | src/stores/Gestione/ordini.ts:105-119 | the cache only grows and a truthy entry is never replaced |
| Ordini.SecondLookupIsCached | src/stores/Gestione/ordini.ts:105-114 | after a successful lookup the same id is answered from the cache, whatever the server would say |
| Ordini.ProfessorOrders | src/stores/Gestione/ordini.ts:139-141 | an order is kept exactly when it is truthy and its `oraRitiro` is neither null nor undefined |
| Ordini.ProfessorOrdersAppend | src/stores/Gestione/ordini.ts:139-141 | the filter keeps order |
| Ordini.ProdottiList | src/stores/Gestione/ordini.ts:148 | a list of products is kept and anything else becomes `[]` |
| Ordini.ProcessProfOrder | src/stores/Gestione/ordini.ts:146-159 | the order's other fields are copied; `prodotti` is a list, `userRole` is `prof`, `classe` and `oraRitiro` are copied; `userData` is the profile when one was found; the keys are exactly the spread's plus `prodotti`, `classe`, `userRole`, `oraRitiro`, and `userData` only for a truthy profile |
| Ordini.ProcessOne | src/stores/Gestione/ordini.ts:144-161 | one iteration: the user's profile through the cache when the order names a user, the request (if sent) being the next one of the fetch with its own answer, then the processed order; its shape is stated by `Ordini.ProcessOneShape` |
| Ordini.ProcessOrders | src/stores/Gestione/ordini.ts:142-165 | the loop over the filtered orders, in order, threading the cache and the count of profile requests, so each request settles on its own; its shape is stated by `Ordini.ProcessOrdersShape` and its retry by `Ordini.RetryAfterFailedLookup` |
| Ordini.ProcessOrdersShape | src/stores/Gestione/ordini.ts:142-165 | one processed order per filtered order, in order, each `prof` with its products and pickup time; the cache only grows; at most one profile request per order |
| Ordini.ProcessOneShape | src/stores/Gestione/ordini.ts:144-161 | one iteration marks its order `prof`, keeps its products and pickup time, and only grows the cache; an order naming a user gets the cached or fetched profile (when truthy) and counts a request exactly when one was sent; an order naming none leaves the cache and the count alone and keeps its `userData` |
| Ordini.RetryAfterFailedLookup | src/stores/Gestione/ordini.ts:105-118 | a failed profile request caches nothing, so the next order naming that user sends a second request; when that one succeeds its profile is shown and cached |
| Ordini.ProcessOrdersStep | src/stores/Gestione/ordini.ts:144-161 | the loop processes the first order and continues with the cache and request count it leaves |
| Ordini.ShownProfOrdersHavePickup | src/stores/Gestione/ordini.ts:139-152 | every professor order the store shows has a pickup time and is marked `prof` |
| Ordini.ProfFetch | src/stores/Gestione/ordini.ts:122-175 | the fetch fails exactly when the request does, and then the list is empty and the cache unchanged; otherwise the list and cache are the loop's over the professor orders of the coerced reply |
| Ordini.ProfFetchShape | src/stores/Gestione/ordini.ts:122-165 | a successful fetch shows one order per professor order of the reply, each `prof` with its products and a pickup time, and only grows the cache |
| Ordini.ClassOrder | src/stores/Gestione/ordini.ts:195-201 | the order's own fields are copied by the spread and no other key is added; `prodotti` is a list and `classe`, `confermato` and `preparato` are copied |
| Ordini.ClassOrders | src/stores/Gestione/ordini.ts:195-201 | one mapped order per entry, in order |
| Ordini.ClassFetch | src/stores/Gestione/ordini.ts:177-209 | a failed fetch leaves an empty list; the rest is stated by `Ordini.ClassFetchShape` |
| Ordini.ClassFetchShape | src/stores/Gestione/ordini.ts:177-209 | the class fetch fails exactly when the request fails or an entry is null or undefined; otherwise every coerced entry is mapped, in order |
| Ordini.WrittenRequestUrl | src/stores/Gestione/ordini.ts:48 | the URL as written: `String(undefined)` followed by the normalised endpoint; stated by `Ordini.WrittenUrlMissesServer` |
| Ordini.WrittenUrlMissesServer | src/stores/Gestione/ordini.ts:48 | as written, every URL of this store starts with `undefined/` and never with the server's base URL |
| Ordini.OrdersQuery | src/stores/Gestione/ordini.ts:126 | the query of one date's orders for one shift, the date as both start and end |
| Ordini.RefetchesProf | src/stores/Gestione/ordini.ts:221 | which collection a mark re-fetches: professors' exactly for shift 2 |
| Ordini.OrdiniStore.constructor | src/stores/Gestione/ordini.ts:89-94 | empty lists, no error, not loading, empty cache, today's date formatted |
| Ordini.OrdiniStore.FetchUserById | src/stores/Gestione/ordini.ts:105-119 | the profile, the new cache and whether a request was made are those of `Ordini.CachedUser` |
| Ordini.OrdiniStore.ProcessOneOrder | src/stores/Gestione/ordini.ts:145-161 | one loop iteration equals `Ordini.ProcessOne`: it looks up the user only when the order names one and counts the request it sends |
| Ordini.OrdiniStore.ProcessProfessorOrders | src/stores/Gestione/ordini.ts:142-165 | the loop's list, cache and request count are those of `Ordini.ProcessOrders` from a count of 0 |
| Ordini.OrdiniStore.FetchProfOrders | src/stores/Gestione/ordini.ts:122-175 | the query always uses shift 2; `profOrders` and the cache become the processed fetch; a failure empties the list and sets the error, a success keeps the error; class orders are untouched; `loading` ends false |
| Ordini.OrdiniStore.FetchClassOrders | src/stores/Gestione/ordini.ts:177-209 | the query uses the given shift; `classOrders` becomes the mapped fetch, or `[]` with the error set; professor orders and the cache are untouched |
| Ordini.OrdiniStore.MarkOrderAsPrepared | src/stores/Gestione/ordini.ts:212-232 | true exactly when the request succeeds; then shift 2 re-fetches professor orders and any other shift class orders; a failure changes nothing |
| Ordini.OrdiniStore.MarkProductAsPrepared | src/stores/Gestione/ordini.ts:235-255 | the same dispatch on `prodotti/<id>/prepara` |
| Products.ImageUrl | src/stores/products.ts:79 | the image URL is the server's `/prodotti/image/` folder followed by the product id |
| Products.ImageUrlInjective | src/stores/products.ts:79 | two different product ids never share an image URL |
| Products.MapProduct | src/stores/products.ts:82-94 | fields are copied or renamed; `imageSrc` is the server image when it exists, else `/bevanda.svg` when `bevanda` is 1, else `/cibo.svg`; `isActive` and `bevanda` hold exactly when the raw field is 1 |
| Products.MapProducts | src/stores/products.ts:78-95 | the mapped list keeps the raw list's length and order |
| Products.EveryProductHasAnImage | src/stores/products.ts:87 | every product's image is the server's or one of the two local drawings |
| Products.AddAll | src/stores/products.ts:53-57 | the Set insertion loop: a value is appended only when not yet present; stated by `Products.AddAllIsFirstOccurrences` |
| Products.FirstOccurrencesMembers | src/stores/products.ts:52-58 | the distinct list holds exactly the values of the list |
| Products.FirstOccurrencesDistinct | src/stores/products.ts:52-58 | the distinct list has no duplicates |
| Products.AddAllIsFirstOccurrences | src/stores/products.ts:53-57 | adding values to a Set one by one gives the first occurrences in order |
| Products.FirstIndex | src/stores/products.ts:53-57 | the index is where the value first occurs |
| Products.FirstIndexOfPrefix | src/stores/products.ts:53-57 | adding a value at the end does not move earlier first occurrences |
| Products.FirstIndexOfNew | src/stores/products.ts:53-57 | a new value first occurs at the end |
| Products.FirstOccurrencesOrdered | src/stores/products.ts:52-58 | the distinct list follows first-occurrence order |
| Products.Flatten | src/stores/products.ts:54-56 | a value is in the flattened list exactly when it is in one of the lists |
| Products.DistinctOfLists | src/stores/products.ts:52-66 | the Set built from all lists has no duplicates, is their union and follows first-occurrence order |
| Products.AllIngredients | src/stores/products.ts:52-58 | the ingredients of every product through one Set; stated by `Products.AllIngredientsProperties` |
| Products.AllTags | src/stores/products.ts:60-66 | the tags of every product through one Set; stated by `Products.AllTagsProperties` |
| Products.AllIngredientsProperties | src/stores/products.ts:52-58 | `allIngredients` has no duplicates, is the union of all products' ingredients and follows first-occurrence order |
| Products.AllTagsProperties | src/stores/products.ts:60-66 | `allTags` has the same three properties over tags |
| Products.GetProductById | src/stores/products.ts:117-119 | the first product with that id, or None exactly when there is none |
| Products.ProductsStore.constructor | src/stores/products.ts:113-115 | the store loads the catalogue at once; a failed first load leaves it empty |
| Products.ProductsStore.InitializeProducts | src/stores/products.ts:69-100 | the list becomes the mapped catalogue, or the failure is rethrown and the list is kept |

## Findings

| source | as written | input that shows it | evidently intended | confidence | as-written member | corrected member |
|---|---|---|---|---|---|---|
| src/stores/Gestione/ordini.ts:48 | the request helper of the order store reads `API_CONFIG.baseURL`, but the configuration in src/utils/api.ts:5-8 only defines `BASE_URL`, so the URL prefix is the string `undefined` | endpoint `ordini/classi?startDate=2025-01-10&endDate=2025-01-10&nTurno=2` gives the relative URL `undefined/ordini/classi?...` instead of `http://figliolo.it:5006/v1/ordini/classi?...` | the base-URL join of src/stores/Gestione/ordiniUtility.ts:11 | high; not executed | Ordini.WrittenUrlMissesServer | OrdiniUtility.RequestUrl |

The store methods of `Ordini.OrdiniStore` return the URL built by the
corrected join.

## Left out

- Requests, headers, credentials, CORS, JSON parsing and console logging. Every reply is a parameter, and `ok` is taken as a status from 200 to 299.
- The stores `src/stores/gestioni.ts`, `src/stores/Admin/gestioni.ts`, `src/stores/cartClasse.ts` and `src/stores/qr.ts`. They fetch and assign or rename fields, with no logic beyond copying.
- `src/utils/api.ts`, and the private request helpers of `src/stores/Gestione/ordini.ts:43-85` and `src/stores/products.ts:19-43`. Their outcome reaches `Ordini` as a `Fetch.Settled` parameter and `Products` as a `Products.CatalogReply`. Only the URL prefix of the ordini.ts copy is modelled, for the finding above.
- The clock and locale: the weekday token of `fetchTurni` and the date parts of the default `selectedDate` are parameters.
- Floating point. Prices and quantities are integers, so `calculateOrderTotal` works over whole units, such as cents. `parseFloat` on prices is not modelled: `Products.Product.price` keeps the server's text.
- Ordini.Amount: a truthy price or quantity that is not a number counts as 0, where JavaScript would coerce it (`"3" * 2` is 6).
- Ordini.GetOrderUserName: `String(v)` of objects is `[object Object]`, and arrays are joined with commas. Other conversions (Symbol, functions, number formatting of non-integers) are not modelled.
- Persistence through the pinia `persist` plugin and `localStorage`, and the redirect to `/login` that `logout` performs through `window.location`.
- Async interleaving: two overlapping fetches that race to write the same field, and the parallel image probing of `initializeProducts` (`Promise.all`). The probing is summarised by the `imageExists` parameter, and each method runs to completion in turn.
- Vue and Pinia reactivity (`ref`, `computed`). `allIngredients` and `allTags` are functions of the product list.
- Object spread of strings and arrays: `Js.Spread` copies only an object's own fields, not index keys.
- Text.ToLower lowers ASCII and Latin-1 letters only. Weekday names are ASCII.
- `setSelectedDate` and `resetError` in src/stores/Gestione/ordini.ts, which assign one field each.
- The per-order `try/catch` in `fetchProfOrders`: nothing in its body can throw once the filter has kept only truthy orders, so it is not modelled.
- Cart.CartStore.ConfirmCart: the request URL and headers are not part of the result; only the body it posts is.
- Cart.SyncBody: the order lines of the /ordini/me reply are typed `OrderLine` values, so a malformed line is not modelled: `prodotti: [null]` makes `item.idProdotto` throw at src/stores/cart.ts:46-49, and the catch at :51-53 returns false with the cart unchanged.
- Cart.CartStore.GetOrdineByTurno: the server's lines are copied as they are, so a reply that repeats an `idProdotto` leaves a cart where that product is on two lines; `Cart.SyncedLinesMayRepeatIds` exhibits it. Only `UpdateQuantity` and `RemoveFromCart` are proved to keep ids unique.
- Products.RawProduct: catalogue items are typed records. `ingredienti: null` or `tags: null`, which make `allIngredients` and `allTags` throw at src/stores/products.ts:54 and :62, cannot be expressed; nor can `attivo` or `bevanda` values such as `true` or `"1"`, for which `=== 1` at :92-93 is false. `Products.AllIngredientsProperties` and `Products.AllTagsProperties` hold for these well-typed items only.
- Products.ProductsStore.InitializeProducts: a catalogue body that is not a list makes `raw.map` throw, and it is folded into the failure case with its message.
