# Prompt marketplace storefront — verified model of its local logic

This project models, in Dafny, the logic of a bilingual storefront for AI prompts that runs in the
application itself, not in its hosted database or auth provider:

- the client cart store, a flat duplicate-free list of product ids (`CartStore`);
- browser key-value storage behind an availability check (`StorageClient`), and the repositories and
  the service that keep whole lists or tables in it: listings (`PromptRepositoryLocal`), purchases
  (`PurchaseRepositoryLocal`), per-listing reviews (`ReviewRepositoryLocal`) and sales figures
  (`SalesDataService`);
- the record mappers of the database-backed repositories (`PromptRepositorySupabase`,
  `PurchaseRepositorySupabase`);
- the Schema.org Product, Organization and BreadcrumbList builders (`StructuredData`);
- the OAuth callback's redirect choice (`AuthCallback`), the middleware chain's response choice
  (`Proxy`), the site-URL fallbacks (`SeoUtils`) and the auth hook's user projection and name split
  (`AuthStore`).

`Wrappers` (Option, Result), `Seqs` (`find`, `findIndex`, `filter`) and `Text` (`startsWith`,
`split`, `join`, blank test) model the JavaScript built-ins that the core uses.

Stateful parts are classes. `LocalStorageClient` has a constant `available` flag and a map
`items`. Each repository holds a reference to the one shared client, and its methods say what the
stored value becomes and that every other key stays the same. Foreign calls are inputs:
`Math.random()` values (`Draw`), the database's `{ data, error }` replies (`Reply`, or the `insert`
function), the session exchange (`exchangeSucceeds`), `new URL` validity (`isValidUrl`), the
environment and the request headers.

The cart sync component (`components/cart-user-sync.tsx:15-18`) reads a `setUser` member from the
cart store and calls it with the signed-in user's id, and its comment speaks of a cart per user.
The store's interface (`features/cart/store/cartStore.ts:6-11`) has no such member: it keeps one
flat `cartItems` list with `addToCart`, `removeFromCart` and `clearCart`. The model keeps that flat
list.

## Model

| member | source | states |
|---|---|---|
| CartStore.Cart.constructor | features/cart/store/cartStore.ts:16 | the cart starts empty |
| CartStore.AddedItems | features/cart/store/cartStore.ts:17-23 | the id is in the result; an id already present leaves the list unchanged; an absent id is appended at the end and every earlier item keeps its place |
| CartStore.RemovedItems | features/cart/store/cartStore.ts:24-27 | the id is gone, and every other id is in the result exactly when it was in the list |
| CartStore.Cart.AddToCart | features/cart/store/cartStore.ts:17-23 | `cartItems` becomes `AddedItems(old cartItems, id)`; a duplicate-free cart stays duplicate-free |
| CartStore.Cart.RemoveFromCart | features/cart/store/cartStore.ts:24-27 | `cartItems` becomes `RemovedItems(old cartItems, id)`; a duplicate-free cart stays duplicate-free |
| CartStore.Cart.ClearCart | features/cart/store/cartStore.ts:28 | `cartItems` becomes empty |
| CartStore.AddIdempotent | features/cart/store/cartStore.ts:18-22 | adding an id twice gives the same list as adding it once |
| CartStore.AddKeepsNoDuplicates | features/cart/store/cartStore.ts:17-23 | adding to a duplicate-free list gives a duplicate-free list |
| CartStore.RemoveAbsentIsNoOp | features/cart/store/cartStore.ts:24-27 | removing an id that is not in the cart returns the same list |
| CartStore.RemoveKeepsOrder | features/cart/store/cartStore.ts:24-27 | removal distributes over concatenation, so the other items keep their relative order |
| CartStore.AddThenRemoveRestores | features/cart/store/cartStore.ts:17-27 | for an id not in the cart, adding it and then removing it restores the list exactly |
| Seqs.FindIndex | features/prompts/repositories/PromptRepository.local.ts:60 | the result is -1 exactly when no element matches; otherwise it is the first matching index |
| Seqs.Find | features/prompts/repositories/PromptRepository.local.ts:36 | `None` exactly when nothing matches; otherwise the element at the first matching index |
| Seqs.Filter | features/prompts/repositories/PromptRepository.local.ts:72 | every kept element passes, every passing element is kept, and nothing else appears |
| Seqs.FilterConcat | features/cart/store/cartStore.ts:26 | filtering a concatenation is the concatenation of the filtered parts (order kept) |
| Seqs.FilterKeepsAll | features/cart/store/cartStore.ts:26 | a filter that rejects nothing returns its input |
| Seqs.FilterSubMultiset | features/cart/store/cartStore.ts:26 | the filtered list holds no element more often than the input does |
| Seqs.FilterNoDuplicates | features/cart/store/cartStore.ts:26 | filtering a duplicate-free list gives a duplicate-free list |
| StorageClient.LocalStorageClient.Get | shared/lib/storage/StorageClient.ts:20-35 | `null` when storage is unavailable, the key was never set or its text does not parse; otherwise the decoded value |
| StorageClient.LocalStorageClient.Set | shared/lib/storage/StorageClient.ts:37-48 | no change without storage; otherwise `get(key)` returns the value and every other key reads as before |
| StorageClient.LocalStorageClient.Remove | shared/lib/storage/StorageClient.ts:50-60 | no change without storage; otherwise the key reads `null` and every other key reads as before |
| StorageClient.LocalStorageClient.Clear | shared/lib/storage/StorageClient.ts:62-72 | no change without storage; every key reads `null` afterwards |
| PromptRepositoryLocal.StoredPrompts | features/prompts/repositories/PromptRepository.local.ts:27-29 | nothing stored gives `[]`; a stored listing list is returned as it is |
| PromptRepositoryLocal.PromptRepository.GetAll | features/prompts/repositories/PromptRepository.local.ts:27-29 | `[]` when nothing is stored under `admin_prompts` |
| PromptRepositoryLocal.PromptRepository.GetById | features/prompts/repositories/PromptRepository.local.ts:34-37 | `null` exactly when no listing has the id; otherwise the first listing with it |
| PromptRepositoryLocal.PromptRepository.SaveAll | features/prompts/repositories/PromptRepository.local.ts:42-44 | with storage available, `getAll()` afterwards returns the saved list; other keys unchanged |
| PromptRepositoryLocal.PromptRepository.Create | features/prompts/repositories/PromptRepository.local.ts:49-53 | the stored list becomes the old one with the listing appended; other keys unchanged |
| PromptRepositoryLocal.PromptRepository.Update | features/prompts/repositories/PromptRepository.local.ts:58-65 | no matching id: storage is not touched at all; otherwise only the first match is replaced by its merge with the update |
| LocalRecords.Merge | features/prompts/repositories/PromptRepository.local.ts:62 | every property the update carries replaces the listing's, and every property it does not carry keeps the listing's value |
| PromptRepositoryLocal.PromptRepository.Delete | features/prompts/repositories/PromptRepository.local.ts:70-74 | the stored list becomes the old one without any listing of that id, order kept |
| PromptRepositoryLocal.UpdateTouchesOnlyMatch | features/prompts/repositories/PromptRepository.local.ts:60-62 | the updated list has the same length, the merge at the first match, and every other position unchanged |
| PromptRepositoryLocal.DeleteAbsentIsNoOp | features/prompts/repositories/PromptRepository.local.ts:70-74 | deleting an id that no listing has leaves the list as it is |
| PromptRepositoryLocal.DeleteKeepsOrder | features/prompts/repositories/PromptRepository.local.ts:72 | deletion distributes over concatenation, so the remaining listings keep their order |
| LocalRecords.MergeNoChanges | features/prompts/repositories/PromptRepository.local.ts:62 | an update that carries no property leaves the listing unchanged |
| LocalRecords.MergeIdempotent | features/prompts/repositories/PromptRepository.local.ts:62 | applying the same update twice equals applying it once |
| LocalRecords.MergeFullPatch | features/prompts/repositories/PromptRepository.local.ts:62 | an update that carries every property of `q` yields `q` |
| LocalRecords.MergeKeepsId | features/prompts/repositories/PromptRepository.local.ts:62 | the merged listing keeps its id unless the update carries one |
| PurchaseRepositoryLocal.StoredPurchases | features/purchases/repositories/PurchaseRepository.local.ts:22-24 | nothing stored gives `[]`; a stored purchase list is returned as it is |
| PurchaseRepositoryLocal.PurchaseRepository.GetAll | features/purchases/repositories/PurchaseRepository.local.ts:22-24 | `[]` when nothing is stored under `purchases` |
| PurchaseRepositoryLocal.PurchaseRepository.GetById | features/purchases/repositories/PurchaseRepository.local.ts:29-32 | `null` exactly when no purchase has the id; otherwise the first purchase with it |
| PurchaseRepositoryLocal.PurchaseRepository.SaveAll | features/purchases/repositories/PurchaseRepository.local.ts:37-39 | with storage available, `getAll()` afterwards returns the saved list; other keys unchanged |
| PurchaseRepositoryLocal.PurchaseRepository.Create | features/purchases/repositories/PurchaseRepository.local.ts:44-48 | the purchase is appended after the stored ones, and `getById` of its id then finds a purchase |
| PurchaseRepositoryLocal.FindAfterAppend | features/purchases/repositories/PurchaseRepository.local.ts:29-48 | after appending `p`, a lookup of `p.id` finds the earlier purchase with that id if there is one, else `p` |
| ReviewRepositoryLocal.StorageKey | features/reviews/repositories/ReviewRepository.local.ts:12-14 | the key starts with `reviews_` and the listing id follows it |
| ReviewRepositoryLocal.StorageKeyInjective | features/reviews/repositories/ReviewRepository.local.ts:12-14 | distinct listing ids give distinct keys |
| ReviewRepositoryLocal.StorageKeyIsNotFixedKey | features/reviews/repositories/ReviewRepository.local.ts:12-14 | no review key is `admin_prompts`, `purchases` or `sales_data` |
| ReviewRepositoryLocal.StoredReviews | features/reviews/repositories/ReviewRepository.local.ts:19-22 | nothing stored gives `[]`; a stored review list is returned as it is |
| ReviewRepositoryLocal.ReviewRepository.GetByPromptId | features/reviews/repositories/ReviewRepository.local.ts:19-22 | `[]` when no reviews are stored for the listing |
| ReviewRepositoryLocal.ReviewRepository.Create | features/reviews/repositories/ReviewRepository.local.ts:27-32 | the new review comes first, then the earlier ones in order; the count grows by one; other listings' reviews and all other keys unchanged |
| SalesDataService.EntryFor | features/prompts/services/salesDataService.ts:36-42 | monthly revenue is an integer in [0, 500000) and weekly sales an integer in [0, 50) |
| SalesDataService.Generated | features/prompts/services/salesDataService.ts:33-43 | the table the loop builds has exactly the listing ids as keys, and every figure lies in its range |
| SalesDataService.GeneratedLastWins | features/prompts/services/salesDataService.ts:35-43 | for a repeated id the entry comes from the last listing with that id |
| SalesDataService.StoredSales | features/prompts/services/salesDataService.ts:18-20 | nothing stored gives `{}`; a stored table is returned as it is |
| SalesDataService.SalesDataService.GetAll | features/prompts/services/salesDataService.ts:18-20 | `{}` when nothing is stored under `sales_data` |
| SalesDataService.SalesDataService.SaveAll | features/prompts/services/salesDataService.ts:25-27 | with storage available, `getAll()` afterwards returns the saved table; other keys unchanged |
| SalesDataService.SalesDataService.InitializeForPrompts | features/prompts/services/salesDataService.ts:32-47 | returns the generated table (keys exactly the ids, figures in range) and stores exactly that table |
| SalesDataService.SalesDataService.GetOrInitialize | features/prompts/services/salesDataService.ts:52-58 | a non-empty stored table is returned unchanged with no write; an empty one gives the generated table |
| PromptRepositorySupabase.MapRowToPrompt | features/prompts/repositories/PromptRepository.supabase.ts:82-105 | id, title, description, price, category and status are copied and `createdAt` is `created_at`; each of the ten nullable columns becomes an absent property when null and is copied otherwise; a null array becomes `[]`, a non-null one is copied |
| PromptRepositorySupabase.Nullable | features/prompts/repositories/PromptRepository.supabase.ts:118-130 | a nullable column is written exactly when its property is given, and then with that value |
| PromptRepositorySupabase.StatusColumn | features/prompts/repositories/PromptRepository.supabase.ts:125 | an empty status is written as `active`; any other status, whitespace included, is written unchanged |
| PromptRepositorySupabase.MapPromptToRow | features/prompts/repositories/PromptRepository.supabase.ts:110-133 | `id` and `created_at` are never written; title, description, price, category and the three arrays are written exactly as given; each of the ten nullable columns is written exactly when its property is given, with that value, never as `NULL`; the status column is written exactly when a status is given |
| PromptRepositorySupabase.RowRoundTrip | features/prompts/repositories/PromptRepository.supabase.ts:82-133 | for a row without null columns and with status `active` or `inactive`, writing back the listing it reads as gives the row's columns except `id` and `created_at` |
| PromptRepositorySupabase.EmptyStatusDoesNotRoundTrip | features/prompts/repositories/PromptRepository.supabase.ts:98-125 | a row with an empty status comes back with status `active`, so the round trip fails |
| PromptRepositorySupabase.NullColumnsAreNotRewritten | features/prompts/repositories/PromptRepository.supabase.ts:90-130 | for each of the ten nullable columns, a null reads as an absent property and is then not written back, and a value is written back |
| PromptRepositorySupabase.PromptRoundTrip | features/prompts/repositories/PromptRepository.supabase.ts:82-133 | a listing with every property present and a non-empty status, written and read back with the database's id and time, is the same listing |
| PurchaseRepositorySupabase.MapRow | features/purchases/repositories/PurchaseRepository.supabase.ts:37-45 | each of the five columns lands in its renamed property (`buyer_id` to `buyerId`, `payment_order_id` to `paymentOrderId`, ...) |
| PurchaseRepositorySupabase.MapRowInjective | features/purchases/repositories/PurchaseRepository.supabase.ts:37-45 | the renaming is one-to-one |
| PurchaseRepositorySupabase.MapRows | features/purchases/repositories/PurchaseRepository.supabase.ts:112 | no data gives `[]`; otherwise one mapped purchase per row, in order |
| PurchaseRepositorySupabase.InsertRows | features/purchases/repositories/PurchaseRepository.supabase.ts:96-100 | one row per listing id, in input order, each with the given buyer and payment order |
| PurchaseRepositorySupabase.CreateMany | features/purchases/repositories/PurchaseRepository.supabase.ts:91-113 | no ids gives `[]`; an error reply is a failure with the error's message, never a partial result; otherwise the mapped rows |
| PurchaseRepositorySupabase.HasPurchased | features/purchases/repositories/PurchaseRepository.supabase.ts:68-82 | an error reply is a failure; otherwise true exactly when at least one row came back |
| StructuredData.ProductUrl | components/seo/structured-data.tsx:47 | the offer url is `baseUrl + "/" + locale + "/prompt/"` followed by exactly the id |
| StructuredData.ProductUrlInjective | components/seo/structured-data.tsx:47 | for one site and locale, distinct listings have distinct offer urls |
| StructuredData.ProductImage | components/seo/structured-data.tsx:48-52 | an `http` thumbnail is used as is, another non-empty one is prefixed with the site, none gives the site's `/og-image.png` |
| StructuredData.Rating | components/seo/structured-data.tsx:75-83 | the rating block is present exactly when the rating is present and non-zero; `reviewCount` defaults to 0 |
| StructuredData.GenerateProductSchema | components/seo/structured-data.tsx:45-87 | the offer url, image and rating are as above; currency is always `KRW`; keywords are the tags joined with `", "` |
| StructuredData.SellerName | components/seo/structured-data.tsx:70-73 | the seller is the author, or `Prompt Market` when the author is empty or absent |
| Text.JoinAppend | components/seo/structured-data.tsx:85 | joining one more part appends the separator and that part |
| StructuredData.GenerateOrganizationSchema | components/seo/structured-data.tsx:92-106 | the logo defaults to `url + "/og-image.png"` and the description to the fixed Korean text |
| StructuredData.GenerateBreadcrumbSchema | components/seo/structured-data.tsx:111-122 | one list item per step, in order, at position index + 1, giving back the steps' names and urls |
| StructuredData.BreadcrumbExtends | components/seo/structured-data.tsx:115-120 | the breadcrumb of a longer path extends that of its prefix by one item |
| AuthCallback.SanitizeNext | app/auth/callback/route.ts:27-32 | the result always starts with `/`; absent gives `/`; a `/`-path is kept; anything else becomes `/` |
| AuthCallback.CallbackRedirect | app/auth/callback/route.ts:23-58 | no code or a failed exchange gives the error page on the origin; on success, development gives `origin + next`, otherwise a forwarded host gives `https://host + next` and no host gives `origin + next` |
| AuthCallback.RedirectStaysOnSite | app/auth/callback/route.ts:27-51 | every redirect is a `/`-path on the origin or on the forwarded host |
| Proxy.Proxy | proxy.ts:31-50 | a Clerk 301/302/307/308 is returned alone; else a Supabase 307/308 is returned; else the intl response |
| Proxy.ProxyRunsInOrder | proxy.ts:31-50 | the handlers that run are a prefix of Clerk, Supabase, intl, and the last one run is the one returned |
| Proxy.SupabaseMovedFallsThrough | proxy.ts:44-49 | a Supabase 301 or 302 does not short-circuit; the intl response is returned |
| Proxy.ClerkRedirectIgnoresLaterHandlers | proxy.ts:36-38 | once Clerk redirects, the Supabase status makes no difference |
| Text.IsBlank | lib/seo-utils.ts:18 | `s.trim() === ''`: true exactly when every character is JavaScript whitespace, so the empty string is blank |
| Text.OrElse | components/seo/structured-data.tsx:72 | JavaScript `||` on a possibly absent string: the value when present and non-empty, the fallback otherwise |
| Text.StartsWith | app/auth/callback/route.ts:30 | true exactly when the prefix is no longer than the string and agrees with it character by character |
| SeoUtils.GetBaseUrl | lib/seo-utils.ts:14-32 | an absent or blank value gives the default; a valid value is returned untrimmed; an invalid one gives the default |
| SeoUtils.BaseUrlIsInputOrDefault | lib/seo-utils.ts:14-32 | the result is the configured value or the default, and it is valid whenever the default is |
| SeoUtils.ParseUrl | lib/seo-utils.ts:45-52 | parsing succeeds exactly on valid URLs |
| SeoUtils.CreateSafeUrl | lib/seo-utils.ts:43-54 | a blank, absent or invalid input gives the default, or a failure when the default is itself invalid; a valid input is used |
| SeoUtils.SafeUrlIsInputOrDefault | lib/seo-utils.ts:43-54 | a successful result is always the input or the default |
| AuthStore.DisplayName | features/auth/store/authStore.ts:41 | the first non-empty value among full name, first name and username, else `""` |
| AuthStore.ProjectUser | features/auth/store/authStore.ts:37-44 | `null` exactly when there is no provider user; the email is the primary address or `""` |
| AuthStore.IsAuthenticated | features/auth/store/authStore.ts:46 | true exactly when the session is loaded and a user exists |
| Text.Split | features/auth/store/authStore.ts:57 | `split` on a one-character separator gives at least one piece, and no piece holds the separator |
| Text.Join | features/auth/store/authStore.ts:58 | no parts give `""`, one part gives that part, and the result starts with its first part |
| Text.JoinSplit | features/auth/store/authStore.ts:57-58 | joining the pieces of `split(c)` with `c` gives back the string |
| Text.SplitWithoutSeparator | features/auth/store/authStore.ts:57 | a string without the separator splits into itself alone |
| Text.SplitWithSeparator | features/auth/store/authStore.ts:57-58 | a string with the separator splits into at least two pieces |
| AuthStore.SplitName | features/auth/store/authStore.ts:57-58 | a name with no space is all first name with last name `""`; a name starting with a space is the first name in full, with the rest after that space as last name; otherwise the first name has no space and `firstName + " " + lastName == name` |
| AuthStore.UpdateProfile | features/auth/store/authStore.ts:54-61 | nothing is sent when nobody is signed in; otherwise the name split |
| AuthStore.Login | features/auth/store/authStore.ts:65-68 | always false |
| AuthStore.Register | features/auth/store/authStore.ts:70-73 | always false |

## Left out

- The `persist` wrapper of the cart store, which saves `cartItems` under `cart-storage`. The store is modelled from its initial empty state.
- A cart split per user, with `setUser`, guest keys or merging at sign-in. The store's code has none of this, so the model has none either.
- JSON text itself. Encoding and decoding are an exact round trip. An entry is either an encoded value or text that does not parse.
- StorageClient.LocalStorageClient.Get: a stored value of another shape than the caller expects reads as absent. The source's unchecked `as T` cast would return that value instead.
- StorageClient.LocalStorageClient.Set: does not model `setItem` throwing (quota or security errors), which the source catches and logs. With storage available, every write succeeds. `removeItem` and `clear` are treated the same way.
- Console logging and warnings.
- PromptRepositoryLocal.PromptRepository.Update: an update object that sets a property explicitly to `undefined` is not modelled. A property is either carried with a value or left out.
- `Date` and the clock. The `lastSale` ISO text is part of each `Draw` input. `User.createdAt` and its ISO conversion in the auth hook are not modelled.
- Floating point. Prices, counts and review ratings are integers, and listing ratings are reals. `NaN` is not modelled.
- Everything behind the database: client construction, the query methods of the database-backed repositories (filters, search, error codes, insert/update/delete), and the cart and profile repositories. Their replies are inputs.
- The session exchange, `new URL` parsing and the middleware handlers themselves. They are inputs: a success predicate, a validity predicate and response statuses.
- The `StructuredData` component's rendering and hydration guard, the other UI components, the root page redirect, the proxy's path matcher and configuration files.

## Findings

None. Where the cart sync component and the cart store disagree, the model follows the store, as
explained above.
