# Realms storefront and admin: a Dafny model

This project models the client-side logic of the Realms storefront and its admin
area, a Next.js application backed by Supabase, and proves properties of it:

- **Cart** (contexts/CartContext.tsx). The line-item list and its transforms:
  `addItem`, `removeItem`, `updateQuantity`, `clearCart` and the two totals.
  The `CartProvider` is a class whose fields are the React state (`items`,
  `isHydrated`) and the browser's storage slot under `beyond-realms-cart`. Its
  methods run the load effect, the save effect and the handlers.
- **Access control**:
  - the edge gate of middleware.ts;
  - the admin layout's own check, with its `checking` and `mounted` flags (app/admin/layout.tsx);
  - the auth provider's `user`, `profile` and `isLoading` state (contexts/AuthContext.tsx);
  - the sign-in page's role-based routing (app/signin/page.tsx).

  A cross-module section relates the four role checks.
- **Admin write path**. The blog form and the `blog_posts` row it builds
  (app/admin/Blog/page.tsx). The `products` row built by the goods page
  (app/admin/goods/page.tsx). The slug both derive from a title.
- **List pages**:
  - the catalogue filter of app/products/page.tsx;
  - the category filter and newsletter form of app/blog/page.tsx;
  - the user search of app/admin/users/page.tsx;
  - the status filter, status colours, summary counts and per-order display of app/admin/orders/page.tsx.

Modelling conventions:

- Every backend call of the pages and providers is an input of type `Call<T>`: `Done(value)`, or `Threw(message)` for a rejected promise. The middleware's two calls are the exception: `EdgeGate.Decide` takes their settled values.
- A router navigation is recorded in a `navigation` field or returned as a value.
- Prices are whole cents (`int`).
- JavaScript's `\s` is an explicit set of characters, and `toLowerCase` lowers the ASCII letters only.
- Each asynchronous handler runs as one atomic step.

The module files are:
wrappers.dfy, seqs.dfy, text.dfy, slug.dfy, cart.dfy, cart_store.dfy,
identity.dfy, edge_gate.dfy, admin_layout.dfy, auth.dfy, signin.dfy,
access_policy.dfy, blog_admin.dfy, goods_admin.dfy, catalogue.dfy,
blog_page.dfy, users_admin.dfy, orders_admin.dfy.

`replace(/\s+/g, '-')` replaces each run of whitespace with one hyphen, so
`"Hello   World!"` becomes `"hello-world!"` (`Slug.HelloWorldSlug`).

## Model

| member | source | states |
|---|---|---|
| Text.Lower | app/products/page.tsx:87 | `toLowerCase` keeps the length and lowers each character independently |
| Text.StartsWith | middleware.ts:65 | `startsWith` holds exactly when the prefix fits and agrees with the string character by character |
| Text.Includes | app/products/page.tsx:87 | the empty needle is always included, and a needle longer than the string never is |
| Text.LowerIdempotent | app/products/page.tsx:87 | lowering twice is lowering once |
| Text.IncludesIffOccurs | app/products/page.tsx:87 | `includes` holds exactly when the needle occurs at some position |
| Text.Take | app/admin/orders/page.tsx:117 | `substring(0, n)` is a prefix of min(n, length) code points |
| Slug.CollapseSpaces | app/admin/Blog/page.tsx:65 | `replace(/\s+/g, '-')` never lengthens, leaves no whitespace, and adds only hyphens |
| Slug.Slugify | app/admin/goods/page.tsx:38 | the slug of a title is never longer than it, is empty only for an empty title, and holds no whitespace |
| Slug.CollapseNonEmpty | app/admin/Blog/page.tsx:65 | replacing whitespace runs empties only the empty string |
| Slug.SlugCharacters | app/admin/Blog/page.tsx:65 | a slug holds no whitespace, only hyphens and lowered title characters, and is no longer than the title |
| Slug.CollapseWithoutSpaces | app/admin/Blog/page.tsx:65 | a title without whitespace is left as it is |
| Slug.CollapseJoin | app/admin/Blog/page.tsx:65 | one whitespace run between two pieces becomes exactly one hyphen |
| Slug.CollapseTwoWords | app/admin/Blog/page.tsx:65 | two words separated by a whitespace run are joined by a single hyphen |
| Slug.CollapseKeepsText | app/admin/Blog/page.tsx:65 | the non-space, non-hyphen characters of the slug are those of the input, in order |
| Slug.SlugifyIdempotent | app/admin/goods/page.tsx:38 | deriving a slug from a slug changes nothing |
| Slug.HelloWorldSlug | app/admin/Blog/page.tsx:65 | `"Hello   World!"` becomes `"hello-world!"` |
| Cart.Find | contexts/CartContext.tsx:60 | `find` returns the first entry with the id, and finds one exactly when some entry carries it |
| Cart.IncrementWhere | contexts/CartContext.tsx:64-66 | every entry with the id is raised by one, all others kept, length kept |
| Cart.SetQuantityWhere | contexts/CartContext.tsx:84-88 | every entry with the id takes the quantity, all others kept, length kept |
| Cart.AddItem | contexts/CartContext.tsx:58-72 | a present id is incremented in place; a new id is appended with quantity 1 |
| Cart.RemoveItem | contexts/CartContext.tsx:74-76 | the result is an order-preserving subsequence holding exactly the other ids' entries with their multiplicities; an absent id leaves the cart as it is |
| Cart.UpdateQuantity | contexts/CartContext.tsx:78-89 | a quantity of zero or less removes the id; otherwise entries with the id take the quantity and nothing is added or dropped |
| Cart.TotalItems | contexts/CartContext.tsx:99-101 | the item count is zero for an empty cart and at least the number of entries when every quantity is positive |
| Cart.TotalPrice | contexts/CartContext.tsx:95-97 | the price total is zero for an empty cart |
| Cart.TotalPriceNonNegative | contexts/CartContext.tsx:95-97 | the price total is never negative when no price or quantity is |
| Cart.IncrementTotalItems | contexts/CartContext.tsx:99-101 | incrementing an id adds one item per entry carrying it |
| Cart.IncrementTotalPrice | contexts/CartContext.tsx:95-97 | incrementing an id adds that id's unit prices to the total |
| Cart.DistinctOccurrences | contexts/CartContext.tsx:60 | with distinct ids an id occurs at most once, and the found entry's price is that id's price |
| Cart.TotalsAppend | contexts/CartContext.tsx:95-101 | both totals are additive over concatenation |
| Cart.AddItemTotals | contexts/CartContext.tsx:58-72 | `addItem` raises the item count by one and the price total by the item's unit price |
| Cart.AddItemKeepsDistinct | contexts/CartContext.tsx:58-72 | `addItem` keeps ids distinct |
| Cart.RemoveItemKeepsDistinct | contexts/CartContext.tsx:74-76 | `removeItem` keeps ids distinct |
| Cart.UpdateQuantityKeepsDistinct | contexts/CartContext.tsx:78-89 | `updateQuantity` keeps ids distinct |
| Cart.SubseqKeepsDistinct | contexts/CartContext.tsx:75 | filtering a list with distinct ids keeps them distinct |
| Cart.AddItemKeepsPositive | contexts/CartContext.tsx:58-72 | `addItem` keeps every quantity at least one |
| Cart.RemoveItemKeepsPositive | contexts/CartContext.tsx:74-76 | `removeItem` keeps every quantity at least one |
| Cart.UpdateQuantityKeepsPositive | contexts/CartContext.tsx:78-89 | `updateQuantity` keeps every quantity at least one |
| Cart.AddTimesFromEmpty | contexts/CartContext.tsx:58-72 | adding the same item n times to an empty cart gives one entry of quantity n |
| CartStore.Restored | contexts/CartContext.tsx:33-45 | a stored array is adopted; a non-array value gives an empty cart; a missing or unparseable value keeps the current items |
| CartStore.RestoreOnMount | contexts/CartContext.tsx:33-45 | on mount the cart is the stored array, or empty for any other stored value |
| CartStore.RestoredExample | contexts/CartContext.tsx:33-45 | a restored two-entry array yields the totals of its quantities and prices |
| CartStore.CartProvider.constructor | contexts/CartContext.tsx:29-30 | the provider starts empty and not hydrated, over the slot's initial value |
| CartStore.CartProvider.LoadEffect | contexts/CartContext.tsx:33-45 | the load effect adopts the stored value as `Restored` says and always sets `isHydrated` |
| CartStore.CartProvider.SaveEffect | contexts/CartContext.tsx:48-56 | the slot is written with the items only once hydrated and when the write succeeds |
| CartStore.CartProvider.Mount | contexts/CartContext.tsx:33-56 | after mounting, the items are restored from the initial slot, which then holds them |
| CartStore.CartProvider.AddItem | contexts/CartContext.tsx:58-72 | the items become `Cart.AddItem` of the old items, then the save effect runs |
| CartStore.CartProvider.RemoveItem | contexts/CartContext.tsx:74-76 | the items become `Cart.RemoveItem` of the old items, then the save effect runs |
| CartStore.CartProvider.UpdateQuantity | contexts/CartContext.tsx:78-89 | the items become `Cart.UpdateQuantity` of the old items, then the save effect runs |
| CartStore.CartProvider.ClearCart | contexts/CartContext.tsx:91-93 | the cart becomes empty with zero totals, and the slot holds the empty array once hydrated |
| CartStore.CartProvider.GetTotalItems | contexts/CartContext.tsx:99-101 | `getTotalItems` is the item count of the current list, at least one per entry when quantities are positive |
| CartStore.CartProvider.GetTotalPrice | contexts/CartContext.tsx:95-97 | `getTotalPrice` is the price total of the current list, zero for an empty cart |
| CartStore.MountExample | contexts/CartContext.tsx:33-56 | a provider mounted over a saved array serves that array and keeps it saved |
| CartStore.AddBeforeHydration | contexts/CartContext.tsx:48-56 | a change before hydration never reaches storage |
| EdgeGate.Decide | middleware.ts:65-94 | only `/admin…` paths are gated; no user goes to sign-in with the path as `returnTo`; a user without an admin row goes home; access is allowed exactly for a user whose row has role `admin` |
| EdgeGate.ErrorFlagIgnored | middleware.ts:80-86 | a profile lookup error is only logged and never changes the decision |
| EdgeGate.GoodsScenarios | middleware.ts:65-91 | `/admin/goods` without a session, as a customer, and as an admin |
| AdminLayout.Check | app/admin/layout.tsx:15-51 | access exactly for a user with an error-free admin row; a lookup error denies; a throw goes to bare `/signin`; every other denial to sign-in returning to `/admin` |
| AdminLayout.AdminLayoutView.constructor | app/admin/layout.tsx:11-14 | the layout starts checking, mounted and not navigated |
| AdminLayout.AdminLayoutView.View | app/admin/layout.tsx:62-79 | the checking screen shows exactly while `checking` holds |
| AdminLayout.AdminLayoutView.Unmount | app/admin/layout.tsx:57-59 | the cleanup clears `mounted` |
| AdminLayout.AdminLayoutView.RunCheck | app/admin/layout.tsx:15-55 | a denial replaces the route, and `checking` clears on every outcome if still mounted |
| AdminLayout.DeniedWhileMounted | app/admin/layout.tsx:42-79 | after a denial on a mounted layout the admin shell renders while the replace is pending |
| AdminLayout.UnmountedStaysChecking | app/admin/layout.tsx:53-68 | a layout unmounted before the check ends keeps the checking screen |
| Auth.LoadedProfile | contexts/AuthContext.tsx:30-66 | the loaded profile is the row only for an error-free, non-empty lookup, and none on error, no row or a throw |
| Auth.AuthProvider.constructor | contexts/AuthContext.tsx:26-28 | no user, no profile, loading |
| Auth.AuthProvider.LoadUserProfile | contexts/AuthContext.tsx:30-66 | `profile` becomes `LoadedProfile` of the lookup |
| Auth.AuthProvider.RefreshAuth | contexts/AuthContext.tsx:68-87 | user taken from `getUser` and its profile loaded; both cleared on a throw; loading ends; no profile without a user |
| Auth.AuthProvider.OnAuthStateChange | contexts/AuthContext.tsx:94-108 | the session's user is taken and its profile loaded; loading ends |
| Auth.AuthProvider.SignOut | contexts/AuthContext.tsx:116-124 | a successful sign-out clears user, profile and admin rights; a thrown one changes nothing |
| Auth.AuthProvider.IsAdmin | contexts/AuthContext.tsx:126 | `isAdmin` holds exactly when the loaded profile has role `admin`, and then a user is signed in |
| Auth.LoadedAdmin | contexts/AuthContext.tsx:126 | `isAdmin` after a load holds exactly for an error-free lookup returning an admin row |
| Auth.AdminSessionEnds | contexts/AuthContext.tsx:116-126 | an admin who signs out is no longer an admin |
| SignIn.RoleHome | app/signin/page.tsx:55-59 | `/admin` exactly for the `admin` and `manager` roles, `/` otherwise |
| SignIn.ThrownMessage | app/signin/page.tsx:62 | a thrown error's message, or `An error occurred during sign in` when it is empty |
| SignIn.Submit | app/signin/page.tsx:30-66 | a service error is shown; a signed-in user is routed by role; no user and no error stays; a throw of the sign-in call or of the role lookup shows its message or the default |
| SignIn.SignInPage.constructor | app/signin/page.tsx:12-19 | empty email and password, unchecked `remember`, no error, not loading |
| SignIn.SignInPage.HandleChange | app/signin/page.tsx:21-28 | the named field takes `checked` for a checkbox and `value` otherwise; the error clears |
| SignIn.SignInPage.HandleSubmit | app/signin/page.tsx:30-66 | the error and navigation follow `Submit`; loading ends on every path |
| AccessPolicy.GatesAgree | middleware.ts:85-91 | with an error-free lookup, the edge gate, the layout check and `isAdmin` agree |
| AccessPolicy.GatesDifferOnLookupError | middleware.ts:80-91 | with an errored lookup that still returns an admin row, the edge gate allows and the layout denies |
| AccessPolicy.ManagerRoutedToAdminThenTurnedAway | app/signin/page.tsx:55-59 | a manager is routed to `/admin` after sign-in, then sent home by the edge gate and back to sign-in by the layout |
| AccessPolicy.OnlyAdminRoleEntersAdmin | app/admin/users/page.tsx:116-118 | of the assignable roles, only `admin` passes both gates |
| BlogAdmin.SetField | app/admin/Blog/page.tsx:40-44 | the named field takes the value; every other field is kept |
| BlogAdmin.ExcerptOf | app/admin/Blog/page.tsx:66 | a given excerpt is kept; otherwise the first 150 code points of the content |
| BlogAdmin.BlogRecord | app/admin/Blog/page.tsx:63-74 | the row copies title, content, category and image; derives the slug; defaults the excerpt and, for an empty author, sets it to `Admin`; has no tags; is published, with the timestamp, exactly for status `published` |
| BlogAdmin.ShortContentExcerpt | app/admin/Blog/page.tsx:66 | short content with no excerpt is its own excerpt |
| BlogAdmin.InitialFormIsDraft | app/admin/Blog/page.tsx:8-16 | the initial form inserts an unpublished post by `Admin` |
| BlogAdmin.BlogAdminPage.constructor | app/admin/Blog/page.tsx:6-17 | the initial form, no preview, loading |
| BlogAdmin.BlogAdminPage.HandleChange | app/admin/Blog/page.tsx:40-44 | only the named field changes |
| BlogAdmin.BlogAdminPage.HandleAddBlog | app/admin/Blog/page.tsx:58-94 | the row sent is `BlogRecord` of the form; a successful insert resets form and preview, a failed one keeps them; loading ends |
| GoodsAdmin.ProductRecord | app/admin/goods/page.tsx:36-48 | name and category copied; slug derived; description and images defaulted; in stock exactly for status `Active`; never featured; no division; tags kept only for a list |
| GoodsAdmin.SlugSharedWithBlog | app/admin/goods/page.tsx:38 | a product and a post with the same title get the same slug |
| Catalogue.FilterProducts | app/products/page.tsx:85-89 | an order-preserving subsequence holding each product that passes both the category and the search test as often as the catalogue does, and no other |
| Catalogue.MatchesCategory | app/products/page.tsx:86 | `All Products` matches every product; any other category matches exactly the products carrying it |
| Catalogue.MatchesSearch | app/products/page.tsx:87 | a product matches exactly when the lowered query occurs in its lowered name; an empty query matches every product |
| Catalogue.UnfilteredCatalogue | app/products/page.tsx:82-89 | `All Products` with an empty search lists the whole catalogue |
| Catalogue.SearchIsCaseInsensitiveSubstring | app/products/page.tsx:87 | the search matches exactly when the lowered query occurs in the lowered name, whatever the case of either |
| Catalogue.TradeListsNothing | app/products/page.tsx:13-79 | `Trade & Logistics` is offered but matches no listed product, whatever the search |
| BlogPage.FilterPosts | app/blog/page.tsx:64-66 | every post under `All`; otherwise an order-preserving subsequence holding each post of that category as often as the list does, and no other |
| BlogPage.BusinessListsNothing | app/blog/page.tsx:14-66 | `Business` is offered but matches no listed post |
| BlogPage.BlogPageState.constructor | app/blog/page.tsx:60-62 | category `All`, empty email, idle status |
| BlogPage.BlogPageState.SelectCategory | app/blog/page.tsx:127 | a category button selects that category |
| BlogPage.BlogPageState.NewsletterSubmit | app/blog/page.tsx:68-73 | a submit always reports success and clears the email |
| BlogPage.BlogPageState.Visible | app/blog/page.tsx:64-66 | every post is on screen under `All`; otherwise each post of the selected category, as often as the list holds it, and no other |
| UsersAdmin.FilterUsers | app/admin/users/page.tsx:66-70 | an order-preserving subsequence holding each user whose name or role contains the search, ignoring case, as often as the list does, and no other |
| UsersAdmin.MatchesUser | app/admin/users/page.tsx:66-70 | a user matches exactly when the lowered search occurs in the lowered full name (when there is one) or in the lowered role; an empty search matches everyone |
| UsersAdmin.EmptySearchListsAll | app/admin/users/page.tsx:66-70 | an empty search lists everyone |
| UsersAdmin.NamelessMatchesOnRole | app/admin/users/page.tsx:68-69 | a user without a name is found exactly on the role |
| UsersAdmin.ShownOrNA | app/admin/users/page.tsx:108 | a missing or empty value shows as `N/A`; a cell is never blank |
| OrdersAdmin.StatusColor | app/admin/orders/page.tsx:54-63 | gray exactly for a status outside the five known ones |
| OrdersAdmin.StatusColorsDistinct | app/admin/orders/page.tsx:54-63 | the five known statuses get five different classes |
| OrdersAdmin.StatusTest | app/admin/orders/page.tsx:19-21 | no status test for `all`, otherwise equality with the filter |
| OrdersAdmin.FilteredOrders | app/admin/orders/page.tsx:14-26 | all orders for `all`; otherwise an order-preserving subsequence holding each order with that status as often as the input does, and no other |
| OrdersAdmin.CountIsTally | app/admin/orders/page.tsx:177 | each summary count is the number of orders with exactly that status |
| OrdersAdmin.CountStatus | app/admin/orders/page.tsx:177 | a status count never exceeds the number of orders, and is zero exactly when no order has that status |
| OrdersAdmin.TalliesBounded | app/admin/orders/page.tsx:172-189 | counts for three different statuses add up to at most the number of orders |
| OrdersAdmin.SummaryCountsBounded | app/admin/orders/page.tsx:172-189 | the pending, processing and delivered cards add up to at most the total card |
| OrdersAdmin.OtherCountsZeroUnderFilter | app/admin/orders/page.tsx:19-21 | under a status filter, every other status's card reads zero |
| OrdersAdmin.ItemCount | app/admin/orders/page.tsx:121 | the number of nested items, or 0 when they are missing |
| OrdersAdmin.DisplayId | app/admin/orders/page.tsx:117 | the first eight characters of the id, or all of a shorter id |
| OrdersAdmin.PaymentClass | app/admin/orders/page.tsx:137-141 | green exactly for `paid`, yellow otherwise |

## Left out

- Supabase. Every query, insert, update, delete, auth call and auth subscription is an abstract input (`Call<T>`); the backend's ordering and row-level security are not modelled.
- The middleware's cookie adapter and `config.matcher`, and the Supabase client setup of lib/supabase.ts. Only the decision of middleware.ts is modelled.
- EdgeGate.Decide: the middleware's `getUser` and profile lookup are taken as settled values. A rejected await there makes the middleware throw instead of redirecting; that path is not modelled.
- `handleDeleteGood` and the tail of `handleAddGood` (the insert, the list refresh and the success or failure alert) on app/admin/goods/page.tsx: backend calls and browser dialogs. Only the row `handleAddGood` builds is modelled.
- `fetchBlogs`, `fetchProducts`, `fetchUsers` and `handleDeleteBlog`, as well as `handleDelete`, `handleRoleChange` and `updateOrderStatus`. These only forward to the backend and re-fetch; the lists they produce are inputs to the filters.
- `handleImageUpload` (FileReader data URLs). The preview and image are plain strings set by the caller.
- The goods page's `price` and `compare_at_price`, and the orders page's `total_amount` display. These use `parseFloat`, floating-point multiplication and `toFixed`, which are not modelled.
- Dates. `new Date().toISOString()` is an opaque `now` string, and `toLocaleDateString` is not modelled.
- Text.LowerChar: lowers the ASCII letters only. Full Unicode `toLowerCase` (case mappings beyond ASCII, length-changing mappings) is not modelled.
- Text.Take: lengths and cut points count Unicode code points, where JavaScript's `length` and `substring` count UTF-16 code units. Text outside the Basic Multilingual Plane (emoji, for instance) is therefore cut at a different place, and the model never splits a surrogate pair. `OrdersAdmin.DisplayId` agrees with the code whenever the id is ASCII, as a UUID is.
- BlogAdmin.ExcerptOf: the fallback keeps 150 code points of the content, where `substring(0, 150)` keeps 150 UTF-16 code units; content with characters outside the Basic Multilingual Plane gets a longer excerpt in the model, and a cut there never leaves a lone surrogate.
- Text.IsSpace: a fixed set of 25 characters standing for JavaScript's `\s` class.
- JSON and `localStorage`. A stored value is an abstract `StoredValue` (absent, unparseable, not an array, an array of items), and the empty string counts as absent, as in the code. Validation of restored entries is absent in the code and in the model.
- Asynchronous interleaving. Each handler or effect runs as one atomic step, so races between overlapping handlers (a second submit, an auth event during `refreshAuth`) are not captured. `CartProvider` mutations run the save effect at once rather than after a re-render.
- Presentational components, the contact page, the product detail page, the API routes, the header, sidebar and topbar: outside the modelled core.
- The sign-in page's `showPassword` toggle, and the users page's and orders page's `loading` flags: rendering only.
