# BookVerse storefront client, modelled in Dafny

BookVerse is a single-page bookshop: customers browse the catalogue, keep a
shopping cart, place orders and follow them, and ask an assistant for
recommendations; administrators manage the catalogue and move orders through
their statuses. This project models the client's own logic:

- the cart provider and the checkout page;
- the session kept in browser storage, the bearer header, the reply handling
  of the REST client, and the authentication provider;
- the route table and its two guards;
- the sign-up and sign-in forms and the book editor;
- the back-office catalogue page;
- the recommendation chat;
- the order history and dashboard pages of both roles.

Each React component whose state changes step by step is a `class`. Its
fields are the component's `useState` variables, and each event handler or
effect is a `method`. Each `method` is specified by pure functions on
sequences and maps. The properties the pages rely on are proved as lemmas
about those functions: the cart's unique entries and its totals, the guard
decisions, form round trips, the filtering of orders and the totals computed
from them, and the shape of the chat log.

Every call to the backend is an input of type `Response<T>`: `Ok(data)` or
`Failed(message)`. A handler receives the reply it would await and returns
what it sent, where it navigates and the error text it shows. Browser storage
is a `map` from keys to stored values.

Files and modules:

| file | module | source |
|---|---|---|
| common.dfy | `Common` | JavaScript string behaviour (`trim`, `\|\|`, `length`, `toString`, `join`) |
| api.dfy | `Api` | src/lib/api.ts |
| auth_context.dfy | `AuthContext` | src/contexts/AuthContext.tsx |
| cart_context.dfy | `CartContext` | src/contexts/CartContext.tsx |
| cart_page.dfy | `CartPage` | src/pages/Cart.tsx |
| app_routes.dfy | `AppRoutes` | src/App.tsx |
| register_page.dfy | `RegisterPage` | src/pages/Register.tsx |
| login_page.dfy | `LoginPage` | src/pages/Login.tsx |
| admin_book_form.dfy | `AdminBookForm` | src/components/admin/AdminBookForm.tsx |
| admin_books.dfy | `AdminBooks` | src/pages/admin/AdminBooks.tsx (lines 414 on) |
| ai_search_chat.dfy | `AISearchChat` | src/components/books/AISearchChat.tsx |
| admin_dashboard.dfy | `AdminDashboard` | src/pages/admin/AdminDashboard.tsx |
| customer_dashboard.dfy | `CustomerDashboard` | src/pages/CustomerDashboard.tsx |
| my_orders.dfy | `MyOrders` | src/pages/MyOrders.tsx |
| orders_page.dfy | `OrdersPage` | src/pages/Orders.tsx |
| admin_orders.dfy | `AdminOrders` | src/pages/admin/AdminOrders.tsx |

Three facts about the code shape the model:

- The client never renews tokens. `authHeaders` (`src/lib/api.ts` lines
  26-29) only attaches the stored access token, and `handleResponse`
  (lines 31-37) turns every non-ok reply into an error. The refresh token is
  stored and erased but never read. The model has no renewal.
- `src/pages/Orders.tsx` is not mounted by the route table in `src/App.tsx`
  (lines 69-127). It is modelled as written; `/my-orders` shows
  `src/pages/MyOrders.tsx`.
- A profile reply without `data` is stored by `setStoredUser(undefined)` as
  the text "undefined" (`src/contexts/AuthContext.tsx` lines 53-55). The login
  page's `JSON.parse` then throws, so it shows an error and stays, with the new
  tokens stored. At the next start-up `getStoredUser()` throws before loading
  ends. The model follows both paths.

## Model

| member | source | states |
|---|---|---|
| Common.OrElse | src/pages/Cart.tsx:41 | `s \|\| fallback` on strings: the string itself unless it is empty, then the fallback; never empty when the fallback is not |
| Common.IsWhitespace | src/components/books/AISearchChat.tsx:34 | definition: the characters `trim()` removes (ECMAScript white space and line terminators); used by `Common.Trim` and `Common.TrimCutsOnlyWhitespace` |
| Common.IsBlank | src/components/books/AISearchChat.tsx:34 | definition: every character is whitespace; `Common.Trim` is empty exactly on blank text, and `Common.TrimCutsOnlyWhitespace` says only blank text is cut |
| Common.Trim | src/components/books/AISearchChat.tsx:34 | `trim()` leaves no whitespace at either end, and is empty exactly when the input is blank |
| Common.TrimCutsOnlyWhitespace | src/components/books/AISearchChat.tsx:39 | the trimmed text is a slice of the input, and everything cut off before and after it is whitespace |
| Common.TrimIdempotent | src/components/books/AISearchChat.tsx:39 | trimming an already trimmed question changes nothing |
| Common.Utf16Length | src/pages/Register.tsx:27 | `length` counts UTF-16 code units: at least the number of characters, at most twice it, and equal to it for text in the Basic Multilingual Plane |
| Common.Digits | src/components/admin/AdminBookForm.tsx:20-21 | the decimal digits of a natural number, never empty and with no leading zero except for 0; its value is `Common.DigitsValue` |
| Common.DecimalValue | src/components/admin/AdminBookForm.tsx:20-21 | definition: the number a string of decimal digits denotes, most significant first; used by `Common.DigitsValue` and `Common.NumTextValue` |
| Common.NumText | src/components/admin/AdminBookForm.tsx:20-21 | an integer's `toString()` is a minus sign exactly for negative numbers followed by decimal digits |
| Common.DigitsValue | src/components/admin/AdminBookForm.tsx:20-21 | the decimal digits written for a natural number read back as that number |
| Common.NumTextValue | src/components/admin/AdminBookForm.tsx:20-21 | `toString()` writes the number's magnitude in decimal with no leading zero (except for 0 itself), after a minus sign for negative numbers |
| Common.Join | src/components/admin/AdminBookForm.tsx:23 | `join(sep)` is empty for no parts, the part itself for one, and otherwise the parts' lengths plus one separator between each pair |
| Common.JoinAppend | src/components/admin/AdminBookForm.tsx:23 | joining one more part appends the separator and that part to the join of the others |
| Common.OrEmpty | src/pages/admin/AdminDashboard.tsx:26-27 | `data \|\| []`: the list the server sent, or the empty list when it sent none |
| Common.Take | src/pages/admin/AdminDashboard.tsx:41 | `slice(0, n)` keeps the first `n` elements in order, or all of them when there are fewer |
| Api.HasAdminRole | src/contexts/AuthContext.tsx:68 | definition of `roles?.includes('ADMIN')`: roles are present and contain "ADMIN"; its properties are stated by `AuthContext.AdminIsAuthenticated` and `LoginPage.RedirectAfterLogin` |
| Api.Token | src/lib/api.ts:4 | definition of `getToken()`: the text under "accessToken"; its properties are stated by `Api.WithTokens`, `Api.WithoutSession` and `Api.AuthHeaders` |
| Api.RefreshToken | src/lib/api.ts:5 | definition of `getRefreshToken()`: the text under "refreshToken"; its properties are stated by `Api.WithTokens` and `Api.WithoutSession` |
| Api.StoredUser | src/lib/api.ts:16-19 | definition of the profile `getStoredUser()` returns; its properties are stated by `Api.WithStoredUser`, `Api.WithProfile` and `Api.WithoutSession` |
| Api.StoredUserThrows | src/lib/api.ts:16-19 | definition: `getStoredUser()` throws exactly on non-empty text that does not parse; its properties are stated by `Api.WithUndefinedUser`, `Api.WithProfile` and `LoginPage.RedirectAfterLogin` |
| Api.TextAt | src/lib/api.ts:4-5 | `getItem` returns a value exactly when the key holds text, and it is that text |
| Api.WithTokens | src/lib/api.ts:6-9 | after `setTokens` both tokens read back as written; the cached profile and every other key are untouched |
| Api.WithoutSession | src/lib/api.ts:10-14 | `clearTokens` removes exactly the access token, refresh token and profile keys and keeps all others |
| Api.WithStoredUser | src/lib/api.ts:21-23 | after `setStoredUser` the profile reads back as the given user and `getStoredUser` no longer throws; both tokens and all other keys are untouched |
| Api.WithUndefinedUser | src/lib/api.ts:21-23 | `setStoredUser(undefined)` stores the text "undefined": no profile reads back and `getStoredUser` throws; both tokens and all other keys are untouched |
| Api.WithProfile | src/lib/api.ts:21-23 | storing a profile reply's data: a profile reads back as itself, and `getStoredUser` throws exactly when the data was missing; only the profile key changes |
| Api.SetTokensOverwrites | src/lib/api.ts:6-9 | storing tokens twice leaves only the second pair |
| Api.ClearTokensIdempotent | src/lib/api.ts:10-14 | clearing the session twice equals clearing it once |
| Api.AuthHeaders | src/lib/api.ts:26-29 | the request carries an `Authorization: Bearer <token>` header exactly when a non-empty access token is stored, and no other header |
| Api.AuthHeadersFollowSession | src/lib/api.ts:6-14 | after storing a non-empty token the next request carries it; after clearing the session no request carries a token |
| Api.HandleResponse | src/lib/api.ts:31-37 | an ok reply yields its body; any other reply fails with the server's message, or "An error occurred" when the message is empty |
| Api.FormGet | src/components/admin/AdminBookForm.tsx:38-47 | reading a field of a multipart body finds nothing exactly when no entry has that name; otherwise it finds the value of an entry with that name |
| Api.FormGetAt | src/components/admin/AdminBookForm.tsx:38-47 | a lookup returns the first entry with the name |
| Api.FormGetAppend | src/components/admin/AdminBookForm.tsx:38-47 | entries appended later never hide an earlier entry with the same name |
| Api.FormData.Append | src/pages/admin/AdminBooks.tsx:530 | `append` adds one entry at the end and keeps the earlier entries |
| Api.TokenStore.SetTokens | src/lib/api.ts:6-9 | the browser storage becomes `WithTokens` of what it held |
| Api.TokenStore.ClearTokens | src/lib/api.ts:10-14 | the browser storage becomes `WithoutSession` of what it held |
| Api.TokenStore.SetStoredUser | src/lib/api.ts:21-23 | the browser storage becomes `WithProfile` of what it held |
| AuthContext.IsAuthenticated | src/contexts/AuthContext.tsx:67 | definition of `!!user`; its properties are stated by `AuthContext.AdminIsAuthenticated` and `AppRoutes.GuardedPagesNeedSession` |
| AuthContext.IsAdmin | src/contexts/AuthContext.tsx:68 | definition of `user?.roles?.includes('ADMIN') \|\| false`; its properties are stated by `AuthContext.AdminIsAuthenticated` and the contract of `AppRoutes.AdminRoute` |
| AuthContext.HasSavedSession | src/contexts/AuthContext.tsx:22-26 | definition of `token && storedUser` at start-up; `AuthContext.AuthProvider.InitAuth` requests the profile exactly when it holds |
| AuthContext.AdminIsAuthenticated | src/contexts/AuthContext.tsx:67-68 | every administrator is signed in; a missing user or missing roles is never an administrator |
| AuthContext.AuthProvider.constructor | src/contexts/AuthContext.tsx:17-18 | the provider starts with no user and loading |
| AuthContext.AuthProvider.InitAuth | src/contexts/AuthContext.tsx:21-41 | an unparsable cached profile makes start-up throw first: nothing is requested or changed and loading never ends. Otherwise, with no stored token and profile nothing is requested or changed, and else the profile is requested with the stored bearer token; a returned profile replaces the user and the cache, an empty reply keeps the cached user, and a failure clears the session and signs the user out. Loading ends on every such path |
| AuthContext.AuthProvider.Login | src/contexts/AuthContext.tsx:46-56 | a rejected login changes nothing and passes the error on; otherwise the tokens are stored before the profile request, which carries the new token; the reply's data, present or missing, becomes the user and is cached through `setStoredUser`; a failed profile request leaves the tokens stored and the user unchanged; loading is untouched |
| AuthContext.AuthProvider.Register | src/contexts/AuthContext.tsx:58-60 | the request carries each argument under its own name (email, password, first name, last name), the server's answer is passed through, and no state changes |
| AuthContext.AuthProvider.Logout | src/contexts/AuthContext.tsx:62-65 | logout erases the session keys and signs the user out |
| CartContext.Incremented | src/contexts/CartContext.tsx:28-32 | definition of the `map` in `addToCart`; its properties are stated by `CartContext.IncrementedAt` and `CartContext.IncrementedTotals` |
| CartContext.AddedToCart | src/contexts/CartContext.tsx:24-36 | definition of the updater in `addToCart`; its properties are stated by `CartContext.AddToCartEffect`, `CartContext.AddToCartKeepsIdsUnique`, `CartContext.AddToCartKeepsPositive` and `CartContext.AddToCartTotals` |
| CartContext.RemovedFromCart | src/contexts/CartContext.tsx:38-40 | definition of the `filter` in `removeFromCart`; its properties are stated by `CartContext.RemovedMembers`, `CartContext.RemovedOfConcat`, `CartContext.RemoveAbsentIsNoOp` and `CartContext.RemovedTotals` |
| CartContext.QuantitySet | src/contexts/CartContext.tsx:47-51 | definition of the `map` in `updateQuantity`; its properties are stated by `CartContext.QuantitySetAt` and `CartContext.UpdateQuantityEffect` |
| CartContext.UpdatedQuantity | src/contexts/CartContext.tsx:42-52 | definition of `updateQuantity`'s effect; its properties are stated by `CartContext.UpdateQuantityEffect` and `CartContext.UpdateQuantityKeepsInvariants` |
| CartContext.TotalItems | src/contexts/CartContext.tsx:58 | definition of the `reduce` summing quantities; its properties are stated by `CartContext.TotalsOfConcat`, `CartContext.AddToCartTotals`, `CartContext.RemovedTotals` and `CartContext.TotalItemsAtLeastEntries` |
| CartContext.TotalPrice | src/contexts/CartContext.tsx:59-62 | definition of the `reduce` summing price times quantity; its properties are stated by `CartContext.TotalsOfConcat`, `CartContext.AddToCartTotals` and `CartContext.RemovedTotals` |
| CartContext.Find | src/contexts/CartContext.tsx:26 | the entry found belongs to the cart and has the book id; nothing is found only when no entry has the id |
| CartContext.AddToCartEffect | src/contexts/CartContext.tsx:24-36 | adding a book already in the cart keeps the cart's length, adds the quantity to that book's entry and leaves the other entries alone; a new book is appended as `{book, quantity}` after the unchanged entries |
| CartContext.AddToCartKeepsIdsUnique | src/contexts/CartContext.tsx:24-36 | adding keeps at most one entry per book, and the book is in the cart afterwards |
| CartContext.AddToCartKeepsPositive | src/contexts/CartContext.tsx:24-36 | adding a positive quantity keeps every quantity positive |
| CartContext.AddToCartTotals | src/contexts/CartContext.tsx:24-62 | adding `q` copies raises the item count by exactly `q` and the price by `q` times the entry's unit price |
| CartContext.IncrementedAt | src/contexts/CartContext.tsx:28-32 | the `map` of `addToCart` changes only the quantity of the entries for the book |
| CartContext.IncrementedTotals | src/contexts/CartContext.tsx:28-62 | in a cart with unique ids, incrementing a present entry changes the totals by that entry's share; an absent id changes nothing |
| CartContext.TotalsOfConcat | src/contexts/CartContext.tsx:58-62 | both totals are sums over the entries: the totals of two carts together are the sums of their totals |
| CartContext.RemovedMembers | src/contexts/CartContext.tsx:38-40 | removal keeps exactly the entries for other books and never grows the cart |
| CartContext.RemovedOfConcat | src/contexts/CartContext.tsx:38-40 | removal is a filter that keeps the order of the remaining entries |
| CartContext.RemoveAbsentIsNoOp | src/contexts/CartContext.tsx:38-40 | removing a book that is not in the cart changes nothing |
| CartContext.RemovedTotals | src/contexts/CartContext.tsx:38-62 | removing a present book drops exactly one entry, and its quantity and line price leave the totals |
| CartContext.RemoveKeepsIdsUnique | src/contexts/CartContext.tsx:38-40 | removal keeps ids unique, and the book is gone afterwards |
| CartContext.RemovedUnique | src/contexts/CartContext.tsx:38-40 | a filter of a cart with unique ids has unique ids |
| CartContext.RemoveKeepsPositive | src/contexts/CartContext.tsx:38-40 | removal keeps every quantity positive |
| CartContext.QuantitySetAt | src/contexts/CartContext.tsx:47-51 | the `map` of `updateQuantity` sets only the quantity of the entries for the book |
| CartContext.UpdateQuantityEffect | src/contexts/CartContext.tsx:42-52 | a quantity of zero or less is a removal; a positive one sets that book's quantity and changes nothing else; an absent book changes nothing |
| CartContext.UpdateQuantityKeepsInvariants | src/contexts/CartContext.tsx:42-52 | whatever quantity is asked for, all quantities stay positive and ids stay unique |
| CartContext.EmptyCartTotals | src/contexts/CartContext.tsx:58-62 | the empty cart has no items and costs nothing |
| CartContext.TotalItemsAtLeastEntries | src/contexts/CartContext.tsx:58 | with positive quantities the item count is at least the number of entries |
| CartContext.CartProvider.constructor | src/contexts/CartContext.tsx:22 | the cart starts empty |
| CartContext.CartProvider.AddToCart | src/contexts/CartContext.tsx:24-36 | the cart becomes `AddedToCart` of the old one, ids stay unique, and the item count grows by the quantity (1 by default) |
| CartContext.CartProvider.RemoveFromCart | src/contexts/CartContext.tsx:38-40 | the cart becomes `RemovedFromCart` of the old one, ids stay unique, and the book is gone |
| CartContext.CartProvider.UpdateQuantity | src/contexts/CartContext.tsx:42-52 | the cart becomes `UpdatedQuantity` of the old one; ids stay unique and positive quantities stay positive |
| CartContext.CartProvider.ClearCart | src/contexts/CartContext.tsx:54-56 | the cart becomes empty, with both totals zero |
| CartPage.OrderedQuantity | src/pages/Cart.tsx:31-34 | definition: the copies a payload orders; `CartPage.OrderLinesQuantity` equates it with the cart's item count |
| CartPage.OrderLines | src/pages/Cart.tsx:31-34 | the order payload has one line per cart entry, in cart order, with that entry's book id and quantity |
| CartPage.OrderLinesQuantity | src/pages/Cart.tsx:31-34 | the payload orders exactly as many copies as the cart's item count |
| CartPage.CartView.constructor | src/pages/Cart.tsx:15 | the page starts with no order in flight |
| CartPage.CartView.PlaceOrder | src/pages/Cart.tsx:17-45 | signed out: nothing is sent, the cart is kept, and the page goes to `/login`. Empty cart: nothing is sent. Otherwise the cart's lines are sent; acceptance empties the cart and goes to `/my-orders`, and a failure keeps the cart and shows the server's message or "Failed to place order" |
| CartPage.CartView.Decrement | src/pages/Cart.tsx:120 | the minus button asks for quantity - 1, so an entry of quantity 1 leaves the cart |
| CartPage.CartView.Increment | src/pages/Cart.tsx:131 | the plus button asks for quantity + 1 |
| CartPage.CartView.Remove | src/pages/Cart.tsx:142 | the trash button removes the book |
| AppRoutes.ProtectedRoute | src/App.tsx:26-42 | a spinner exactly while loading; then the guarded page exactly for a signed-in user, and a redirect to `/login` otherwise |
| AppRoutes.AdminRoute | src/App.tsx:44-64 | a spinner exactly while loading; then a signed-out visitor goes to `/login`, a signed-in non-administrator to `/dashboard`, and only an administrator sees the page |
| AppRoutes.AdminRouteImpliesProtected | src/App.tsx:26-64 | whatever the administrator guard lets through, the customer guard lets through, and both wait for the same loading flag |
| AppRoutes.PageAt | src/App.tsx:69-127 | definition of the route match; its properties are stated by `AppRoutes.PathsRoundTrip`, `AppRoutes.NotFoundExactlyOffTable` and `AppRoutes.RouteTable` |
| AppRoutes.GuardView | src/App.tsx:26-64 | definition: what a page's guard shows; its properties are stated by `AppRoutes.GuardedPagesNeedSession` and `AppRoutes.RedirectsSettle` |
| AppRoutes.Render | src/App.tsx:66-127 | definition: the screen for a path, its guard first; its properties are stated by `AppRoutes.GuardedPagesNeedSession` and `AppRoutes.RedirectsSettle` |
| AppRoutes.GuardOf | src/App.tsx:75-124 | the three back-office pages are the only pages behind the administrator guard, and cart, order history and dashboard the only pages behind the customer guard |
| AppRoutes.PathOf | src/App.tsx:69-124 | every page except "not found" has a declared path that leads back to it |
| AppRoutes.PathsRoundTrip | src/App.tsx:69-124 | each declared path names one page and is shadowed by no earlier route |
| AppRoutes.NotFoundExactlyOffTable | src/App.tsx:69-127 | the catch-all route applies exactly to the paths the table does not declare |
| AppRoutes.RouteTable | src/App.tsx:69-124 | four open pages, three customer pages and three back-office pages, each at its own path |
| AppRoutes.GuardedPagesNeedSession | src/App.tsx:26-127 | no back-office page is ever shown to anyone but a signed-in administrator, and no customer page to a signed-out visitor or while loading; open pages always show |
| AppRoutes.RedirectsSettle | src/App.tsx:26-127 | every redirect of a guard lands on a page that shows without a further redirect |
| RegisterPage.RegisterError | src/pages/Register.tsx:22-30 | "Please fill in all fields" exactly when a field is empty, otherwise "Password must be at least 5 characters" exactly when the password has fewer than 5 UTF-16 code units, and otherwise no complaint |
| RegisterPage.PasswordLengthBounds | src/pages/Register.tsx:27 | five characters always pass the length check and fewer than three never do |
| RegisterPage.RegisterForm.constructor | src/pages/Register.tsx:16 | the form starts not loading |
| RegisterPage.RegisterForm.HandleSubmit | src/pages/Register.tsx:20-42 | the request is sent exactly when the checks pass, and it carries the typed e-mail, password, first name and last name each in its own field; success goes to `/login`, and failure shows the server's message or "Registration failed"; loading ends on every path |
| LoginPage.LoginError | src/pages/Login.tsx:20-23 | no complaint exactly when both fields are non-empty |
| LoginPage.RedirectAfterLogin | src/pages/Login.tsx:29-34 | parsing the cached profile fails exactly when it is unreadable text; otherwise the page goes to `/admin` exactly when the cached profile has the ADMIN role, and to `/books` otherwise, including when no profile is cached |
| LoginPage.RedirectFollowsProfile | src/pages/Login.tsx:27-34 | right after a login the destination depends only on the profile reply: its roles choose the page, and a missing profile makes the parse fail |
| LoginPage.LoginForm.constructor | src/pages/Login.tsx:14 | the form starts not loading |
| LoginPage.LoginForm.HandleSubmit | src/pages/Login.tsx:18-40 | empty fields send nothing and change nothing; a rejected login shows its message or "Login failed" and changes nothing; a failed profile request shows its error with the new tokens stored and the user unchanged; a complete login signs the user in, caches the profile and goes to `/admin` exactly for administrators, else `/books`; a profile reply without data ends in the parse error without navigating; the provider's loading flag is untouched and the form's ends on every path |
| AdminBookForm.InitialFields | src/components/admin/AdminBookForm.tsx:18-23 | a new book starts with every field empty; an existing book's fields are its own values, numbers in decimal, a missing stock figure empty, tags joined by ", " |
| AdminBookForm.TextEntries | src/components/admin/AdminBookForm.tsx:38-44 | definition of the six text appends; its properties are stated by `AdminBookForm.TitleAuthorRead`, `AdminBookForm.PriceQuantityRead`, `AdminBookForm.DescriptionTagsRead` and `AdminBookForm.NoImageAmongText` |
| AdminBookForm.ImageEntries | src/components/admin/AdminBookForm.tsx:45-47 | definition of the conditional image append; its property is the lemma `AdminBookForm.FormEntriesRead` |
| AdminBookForm.FormEntries | src/components/admin/AdminBookForm.tsx:38-47 | definition of the whole body; its properties are stated by `AdminBookForm.FormEntriesRead` and `AdminBookForm.UneditedFormResendsBook` |
| AdminBookForm.SubmitError | src/components/admin/AdminBookForm.tsx:31-34 | the save is refused exactly when the title or the author is blank |
| AdminBookForm.TitleAuthorRead | src/components/admin/AdminBookForm.tsx:39-40 | the form body reads back the title and author as typed |
| AdminBookForm.PriceQuantityRead | src/components/admin/AdminBookForm.tsx:41-42 | the form body reads back price and quantity, with "0" for an empty field |
| AdminBookForm.DescriptionTagsRead | src/components/admin/AdminBookForm.tsx:43-44 | the form body reads back description and tags as typed |
| AdminBookForm.NoImageAmongText | src/components/admin/AdminBookForm.tsx:39-44 | the text fields never supply an image |
| AdminBookForm.FormEntriesRead | src/components/admin/AdminBookForm.tsx:38-47 | the whole body reads back every field as typed, numbers defaulted to "0", and an image exactly when one was picked |
| AdminBookForm.UneditedFormResendsBook | src/components/admin/AdminBookForm.tsx:18-47 | saving an existing book without edits sends its own title, price and tags back, and quantity "0" when it had no stock figure |
| AdminBookForm.BookDialog.constructor | src/components/admin/AdminBookForm.tsx:18-25 | the dialog opens with the initial fields, no image, not loading |
| AdminBookForm.BookDialog.Edit | src/components/admin/AdminBookForm.tsx:82-149 | the inputs and the file picker replace the fields and the image |
| AdminBookForm.BookDialog.BuildFormData | src/components/admin/AdminBookForm.tsx:38-47 | the appended body is exactly `FormEntries` of the fields and the image |
| AdminBookForm.BookDialog.HandleSubmit | src/components/admin/AdminBookForm.tsx:28-65 | nothing is sent exactly when title or author is blank; otherwise the body goes to `update` for an existing book and to `create` for a new one. The dialog reports a save exactly when the reply holds data; it shows the reply's message when the reply holds none, and a save error when the request failed. Loading ends on every path |
| AdminBooks.FieldPairs | src/pages/admin/AdminBooks.tsx:459-466 | definition of `Object.entries(formData)` in declaration order; its properties are stated by `AdminBooks.NumbersSentAsTyped` and `AdminBooks.TextFieldsSentAsTyped` |
| AdminBooks.DialogEntries | src/pages/admin/AdminBooks.tsx:529-531 | definition of the dialog's body; its properties are stated by `AdminBooks.NumbersSentAsTyped`, `AdminBooks.TextFieldsSentAsTyped`, `AdminBooks.ImageSentWhenPicked` and `AdminBooks.UneditedDialogQuantity` |
| AdminBooks.EditFields | src/pages/admin/AdminBooks.tsx:510-522 | the edit dialog starts from the book's values: numbers in decimal, a missing stock figure empty, tags joined by ", " |
| AdminBooks.DialogsAgreeWithBookForm | src/pages/admin/AdminBooks.tsx:496-522 | the page's create and edit dialogs start from the same values as the stand-alone book form |
| AdminBooks.AsEntries | src/pages/admin/AdminBooks.tsx:530 | each field pair becomes one text entry, in order |
| AdminBooks.NumbersSentAsTyped | src/pages/admin/AdminBooks.tsx:529-531 | price and quantity are sent exactly as typed, empty or not |
| AdminBooks.TextFieldsSentAsTyped | src/pages/admin/AdminBooks.tsx:529-531 | title, author, description and tags are sent exactly as typed |
| AdminBooks.ImageSentWhenPicked | src/pages/admin/AdminBooks.tsx:531 | the body holds the image exactly when one was picked |
| AdminBooks.UneditedDialogQuantity | src/pages/admin/AdminBooks.tsx:510-531 | saving an unedited book sends its price back, and for a book without a stock figure sends quantity "" where the stand-alone form sends "0" |
| AdminBooks.DeleteTarget | src/pages/admin/AdminBooks.tsx:551 | a delete is sent exactly when a non-empty id is pending, and for that id |
| AdminBooks.AdminBooksPage.constructor | src/pages/admin/AdminBooks.tsx:450-467 | the page starts with no books, loading, no search, no pending delete, and the dialog closed with an empty form |
| AdminBooks.AdminBooksPage.LoadBooks | src/pages/admin/AdminBooks.tsx:473-482 | a reply replaces the list, a missing list reading as empty; a failure keeps it and shows "Failed to load books"; loading ends |
| AdminBooks.AdminBooksPage.HandleSearch | src/pages/admin/AdminBooks.tsx:484-494 | a blank query reloads the whole catalogue; any other query is searched as typed; a reply replaces the list, and a failure keeps it with the matching error text |
| AdminBooks.AdminBooksPage.OpenCreateDialog | src/pages/admin/AdminBooks.tsx:496-508 | the dialog opens for a new book with empty fields and no image |
| AdminBooks.AdminBooksPage.OpenEditDialog | src/pages/admin/AdminBooks.tsx:510-522 | the dialog opens for the book with `EditFields` of it and no image |
| AdminBooks.AdminBooksPage.EditForm | src/pages/admin/AdminBooks.tsx:624-701 | the inputs change only the form and the image |
| AdminBooks.AdminBooksPage.SetDialogOpen | src/pages/admin/AdminBooks.tsx:604 | the dialog's open flag changes and nothing else |
| AdminBooks.AdminBooksPage.BuildFormData | src/pages/admin/AdminBooks.tsx:529-531 | the loop appends every field in declaration order, then the image: exactly `DialogEntries` |
| AdminBooks.AdminBooksPage.HandleSubmit | src/pages/admin/AdminBooks.tsx:524-548 | the body goes to `update` when a book is being edited and to `create` otherwise; success closes the dialog and starts a reload; failure keeps the dialog open and shows "Failed to save book" |
| AdminBooks.AdminBooksPage.RequestDelete | src/pages/admin/AdminBooks.tsx:803 | the trash button makes the book's id the pending delete |
| AdminBooks.AdminBooksPage.CancelDelete | src/pages/admin/AdminBooks.tsx:818 | dismissing the confirmation clears the pending delete |
| AdminBooks.AdminBooksPage.HandleDelete | src/pages/admin/AdminBooks.tsx:550-561 | without a pending id nothing is sent; success clears the pending id and starts a reload; failure keeps it and shows "Delete failed" |
| AISearchChat.Exchange | src/components/books/AISearchChat.tsx:36-60 | definition: the trimmed question and its answer appended by one send; its properties are stated by `AISearchChat.ExchangeKeepsLogWellFormed` and `AISearchChat.QuestionsAreAnswered` |
| AISearchChat.WellFormedLog | src/components/books/AISearchChat.tsx:15-21 | definition of the log's shape: the greeting, then questions and answers alternating; it holds for the initial log (`AISearchChat.ChatLog.constructor`) and is kept by `AISearchChat.ExchangeKeepsLogWellFormed` |
| AISearchChat.ReplyContent | src/components/books/AISearchChat.tsx:46-60 | the answer is the reply's text, or the "no recommendations" apology when the text is missing or empty, or the "something went wrong" apology when the request failed; never empty |
| AISearchChat.ExchangeKeepsLogWellFormed | src/components/books/AISearchChat.tsx:33-64 | sending a non-blank question keeps the log well formed: greeting first, questions and answers alternating, no empty message, no question with whitespace at its ends |
| AISearchChat.QuestionsAreAnswered | src/components/books/AISearchChat.tsx:33-64 | in a well-formed log every question is followed by an answer |
| AISearchChat.ChatLog.constructor | src/components/books/AISearchChat.tsx:16-24 | the log starts with the greeting alone, an empty input, not loading |
| AISearchChat.ChatLog.SetInput | src/components/books/AISearchChat.tsx:142 | typing changes only the input |
| AISearchChat.ChatLog.HandleSend | src/components/books/AISearchChat.tsx:33-64 | a blank input or a request in flight changes nothing; otherwise the trimmed input is asked, the input is cleared, and the question and its answer are appended to the unchanged earlier log |
| AISearchChat.ChatLog.HandleKeyDown | src/components/books/AISearchChat.tsx:66-71 | Enter without Shift sends; every other key changes nothing |
| AdminDashboard.Revenue | src/pages/admin/AdminDashboard.tsx:29 | definition of the `reduce` summing `totalCost`; its properties are stated by `AdminDashboard.RevenueOfConcat`, `AdminDashboard.RevenueBounds` and `CustomerDashboard.SpentPartitionsRevenue` |
| AdminDashboard.RevenueOfConcat | src/pages/admin/AdminDashboard.tsx:29 | revenue is additive over lists of orders |
| AdminDashboard.RevenueBounds | src/pages/admin/AdminDashboard.tsx:29 | with no negative totals, revenue is never negative and no order's total exceeds it |
| AdminDashboard.Pending | src/pages/admin/AdminDashboard.tsx:30-32 | the pending orders are exactly the listed orders with status "PENDING PAYMENT" |
| AdminDashboard.PendingOfOne | src/pages/admin/AdminDashboard.tsx:30-32 | a single order is kept exactly when it awaits payment |
| AdminDashboard.PendingOfConcat | src/pages/admin/AdminDashboard.tsx:30-32 | the filter works piece by piece, so it keeps the server's order and the multiplicity of each order |
| AdminDashboard.DashboardStats | src/pages/admin/AdminDashboard.tsx:29-39 | the cards count the books and orders, sum the order totals, and count the pending orders, which never exceed the orders |
| AdminDashboard.AdminDashboardPage.constructor | src/pages/admin/AdminDashboard.tsx:7-13 | the cards start at zero with no recent orders |
| AdminDashboard.AdminDashboardPage.LoadDashboardData | src/pages/admin/AdminDashboard.tsx:19-45 | if either request fails nothing changes; otherwise the cards come from both lists and the first five orders are listed |
| MyOrders.OwnedBy | src/pages/MyOrders.tsx:31 | definition of the filter's test by owner id or e-mail; its properties are stated by `MyOrders.SignedInSeesOwnOrders` and `OrdersPage.CompareWithOrderHistory` |
| MyOrders.UserOrders | src/pages/MyOrders.tsx:30-32 | the user's orders are exactly the listed orders the user owns by id or e-mail |
| MyOrders.UserOrdersOfConcat | src/pages/MyOrders.tsx:30-32 | the filter keeps the server's order |
| MyOrders.UserOrdersIdempotent | src/pages/MyOrders.tsx:30-32 | filtering again removes nothing |
| MyOrders.SignedInSeesOwnOrders | src/pages/MyOrders.tsx:30-32 | a signed-in user sees only orders whose populated owner matches that user's id or e-mail |
| MyOrders.GetStatusConfig | src/pages/MyOrders.tsx:41-43 | definition of `statusConfig[status] \|\| statusConfig['PENDING PAYMENT']`; its properties are stated by `MyOrders.StatusConfigDistinguishesStatuses` and `OrdersPage.SameStatusesAsBackOffice` |
| MyOrders.StatusConfigDistinguishesStatuses | src/pages/MyOrders.tsx:9-43 | the table covers exactly the five statuses, and only a pending or unknown status shows the clock |
| MyOrders.LinePrice | src/pages/MyOrders.tsx:122 | a line costs price times quantity, and nothing when its book is gone |
| MyOrders.ItemTitle | src/pages/MyOrders.tsx:120 | a line shows its book's title when the book exists and the title is non-empty, and exactly "Unknown Book" otherwise; never empty |
| MyOrders.MyOrdersPage.constructor | src/pages/MyOrders.tsx:18-19 | the page starts with no orders, loading |
| MyOrders.MyOrdersPage.LoadOrders | src/pages/MyOrders.tsx:26-39 | a reply replaces the list with the user's orders; a failure keeps it; loading ends |
| CustomerDashboard.CustomerStats | src/pages/CustomerDashboard.tsx:21-29 | the cards count the user's orders and sum only their totals |
| CustomerDashboard.SpentPartitionsRevenue | src/pages/CustomerDashboard.tsx:21-29 | what the user spent plus what all other orders cost is the store's whole revenue |
| CustomerDashboard.BadgeClass | src/pages/CustomerDashboard.tsx:141-147 | green exactly for paid, blue exactly for shipped, amber for every other status |
| CustomerDashboard.BadgeMatchesBackOffice | src/pages/CustomerDashboard.tsx:141-147 | the badge matches the back office's colours for pending, paid and shipped, and shows all other statuses in the pending colour |
| CustomerDashboard.CustomerDashboardPage.constructor | src/pages/CustomerDashboard.tsx:11-12 | the page starts with no orders and zero cards |
| CustomerDashboard.CustomerDashboardPage.LoadDashboardData | src/pages/CustomerDashboard.tsx:18-33 | a reply lists the user's first three orders and their cards; a failure changes nothing |
| OrdersPage.OwnerKey | src/pages/Orders.tsx:49 | definition: the owner object's `_id`, or the raw owner value; used by `OrdersPage.BelongsTo` |
| OrdersPage.BelongsTo | src/pages/Orders.tsx:49-50 | definition of the filter's test; its properties are stated by `OrdersPage.MatchingOfOne` and `OrdersPage.CompareWithOrderHistory` |
| OrdersPage.GetStatusColor | src/pages/Orders.tsx:12-27 | the neutral colour is used exactly for a status outside the five known ones |
| OrdersPage.CustomerOrders | src/pages/Orders.tsx:48-51 | no list reads as empty; otherwise exactly the listed orders whose owner id is the user's id |
| OrdersPage.Matching | src/pages/Orders.tsx:48-51 | the filter keeps exactly the orders owned by the user's id |
| OrdersPage.MatchingOfOne | src/pages/Orders.tsx:48-51 | a single order is kept exactly when its owner id is the user's |
| OrdersPage.MatchingOfConcat | src/pages/Orders.tsx:48-51 | the filter works piece by piece, so it keeps the server's order and the multiplicity of each order |
| OrdersPage.CompareWithOrderHistory | src/pages/Orders.tsx:48-51 | for a populated owner, a match here implies a match in the order history; for a bare owner id the history never matches a signed-in user, but this page matches by id |
| OrdersPage.SameStatusesAsBackOffice | src/pages/Orders.tsx:12-27 | this page falls back to its neutral colour exactly where the order history falls back to the pending style for a status that is not pending |
| OrdersPage.OrdersView.constructor | src/pages/Orders.tsx:30-31 | the page starts with no orders, loading |
| OrdersPage.OrdersView.Effect | src/pages/Orders.tsx:36-57 | signed out: the page goes to `/login`, nothing is fetched, and the spinner stays; otherwise a reply replaces the list with the user's orders, a failure keeps it and shows "Failed to load orders", and loading ends |
| AdminOrders.StatusOptions | src/pages/admin/AdminOrders.tsx:22-28 | definition of the option table; its properties are stated by `AdminOrders.StatusOptionsOrder` and `AdminOrders.KnownStatusColors` |
| AdminOrders.StatusOptionsOrder | src/pages/admin/AdminOrders.tsx:22-28 | the selector lists the five statuses in order: pending payment, paid, shipped, delivered, cancelled |
| AdminOrders.FindOption | src/pages/admin/AdminOrders.tsx:68 | the option found is an option with that value; nothing is found exactly when no option has it |
| AdminOrders.KnownStatusColors | src/pages/admin/AdminOrders.tsx:22-68 | an option exists exactly for the five known statuses, and each has a non-empty colour other than the neutral one |
| AdminOrders.GetStatusColor | src/pages/admin/AdminOrders.tsx:67-69 | the colour is never empty, and is the neutral one exactly for an unknown status |
| AdminOrders.StatusColorsOfCommonStatuses | src/pages/admin/AdminOrders.tsx:23-69 | pending is amber, paid green and shipped blue |
| AdminOrders.SelectedAfterUpdate | src/pages/admin/AdminOrders.tsx:57-59 | an open dialog for the updated order shows the new status; a dialog for any other order, or none, is unchanged |
| AdminOrders.AdminOrdersPage.constructor | src/pages/admin/AdminOrders.tsx:31-34 | the page starts with no orders, loading, no dialog, no update in flight |
| AdminOrders.AdminOrdersPage.LoadOrders | src/pages/admin/AdminOrders.tsx:40-49 | a reply replaces the list, a missing list reading as empty; a failure keeps it; loading ends |
| AdminOrders.AdminOrdersPage.SetSelectedOrder | src/pages/admin/AdminOrders.tsx:161-174 | the eye button opens the order's dialog and closing clears it; nothing else changes |
| AdminOrders.AdminOrdersPage.HandleStatusChange | src/pages/admin/AdminOrders.tsx:51-65 | success starts a reload and updates the open dialog per `SelectedAfterUpdate`; failure shows the server's message or "Failed to update status" and keeps the dialog; no update is in flight afterwards |

## Left out

- Network I/O: each request is an input reply. A reply's contents are taken as given: the model does not check them against what was sent.
- JSON encoding: a stored profile is kept as a value, so a round trip through storage is the identity. Text under the profile key stands for text that does not parse; the only such text this client writes is "undefined". Valid JSON that is not a profile, written by other code, is not modelled.
- Token renewal: the code never uses the refresh token (see above). Expired-token replies are ordinary failures.
- Money: prices and totals are integers. Fractional prices, floating-point sums and the `toFixed(2)` display are left out.
- Numbers in forms are the typed text. The conversion the backend applies to "price" and "quantity" is not part of this client.
- React scheduling: each handler runs atomically on the state it starts from. Stale closures, interleaved handlers and the `Promise.all` ordering of the back-office overview are not modelled.
- AdminBooks.AdminBooksPage.HandleSubmit: the reload after a save is reported as `reloadStarted`; its result is a later `LoadBooks` call.
- AdminBooks.AdminBooksPage.HandleDelete: the reload after a delete is reported as `reloadStarted` in the same way.
- AdminBooks.AdminBooksPage.HandleDelete: the model follows the handler alone. In the page the confirmation button also closes the dialog, whose `onOpenChange` clears the pending id (`src/pages/admin/AdminBooks.tsx` lines 815-818), so a failed delete does not stay pending.
- AdminOrders.AdminOrdersPage.HandleStatusChange: the reload after a status change is reported as `reloadStarted`; its result is a later `LoadOrders` call. The `isUpdating` flag that disables the selector while a call is in flight is a `requires`, not an observable intermediate state.
- CartPage.CartView.PlaceOrder: the `isPlacingOrder` flag that disables the button is a `requires` and is false again afterwards. The intermediate state while the request is out is not observable in this model.
- AISearchChat.ChatLog.HandleKeyDown: its Enter branch does not restate the `isLoading` postcondition, which `HandleSend` already states.
- AuthContext.AuthProvider.Login: the login reply is assumed to hold its data. A reply without `data`, which makes the destructuring throw, is not modelled.
- AppRoutes.PageAt: paths are compared exactly. The router's case-insensitive matching and trailing-slash handling are not modelled.
- MyOrders.UserOrders: an order whose `userId` is null makes `order.userId._id` throw, so the whole list fails to load (`src/pages/MyOrders.tsx` lines 30-32, and likewise `src/pages/CustomerDashboard.tsx` line 22 for CustomerDashboard.CustomerStats). Every order is assumed to carry an owner.
- MyOrders.GetStatusConfig: a status equal to an inherited property name of a JavaScript object (such as "constructor") is not modelled. It would find that property instead of falling back.
- Message ids from `Date.now()`, toast notifications, the chat's scroll effect, and HTML `required` attributes on inputs are presentation only.
- Error texts from `getErrorMessage` and other helpers outside the named files are not part of this model.
- Presentational components (cards, sidebars, navigation bars, list views), `src/pages/Books.tsx`, `src/pages/Index.tsx` and the commented-out first version of `src/pages/admin/AdminBooks.tsx` (lines 1-412) are not part of this model.
