# Admin-page rules of the marketplace frontend

This project models the self-contained rules in two admin screens of the
marketplace's React frontend and proves properties of them in Dafny 4.11.

- **Seller orders** (`src/pages/admin/SellerOrders.tsx`). The page covers:
  - the case-insensitive search over six fields of each loaded order;
  - the badge colours for order status and payment status;
  - the local list after an order is deleted;
  - the filter parameters and URL of the order-listing request;
  - the 8-character short order id;
  - the `|| 0` fallbacks of the statistics cards, the store-name fallback and the empty-table hint.
- **Banner management** (`src/pages/admin/BannerManagement.tsx`). The page covers:
  - the banner form and `handleInputChange`;
  - the edit prefill, the default form and the form's cancel button;
  - how an uploaded image URL is resolved (absolute or relative to the API base);
  - the submit decision: abort after a failed upload, otherwise PUT to the banner being edited or POST to the collection, with `imageUrl` replaced in the body;
  - the reset after a successful save, and the error the page shows after each request;
  - the position label.

Every rule is a pure function, because React state is an immutable value that the
page replaces through its setters. Each handler is modelled as a function from the
old page state to the new one. Network answers (upload result, save result, order
counts) and clock readings (the ISO text of "now" and "thirty days later") are
parameters.

Modules, one per file:
- `Wrappers` (`wrappers.dfy`): `Option`, standing for `undefined`/`null`.
- `Text` (`text.dfy`): ASCII case mapping, `includes`, first-index, single-character `replace`, and `split('T')[0]`.
- `Collections` (`collections.dfy`): `Array.prototype.filter` and the subsequence relation.
- `SellerOrders` (`seller_orders.dfy`).
- `BannerManagement` (`banner_management.dfy`).

The banner form is a `map<string, FormValue>`. `handleInputChange` writes
`{...formData, [name]: v}` with a computed key, and that is a map update.
`WellFormed` says the form has exactly its seven fields, with `isActive` a flag and
the others text. Every modelled transition keeps it true for events that come from
the form's own inputs.

## Model

| member | source | states |
|---|---|---|
| `Text.Lower` | src/pages/admin/SellerOrders.tsx:209-215 | the lowered string has the same length, and each character is that character's lower-case form |
| `Text.Upper` | src/pages/admin/SellerOrders.tsx:493 | the upper-cased string has the same length, and each character is that character's upper-case form |
| `Text.LowerIdempotent` | src/pages/admin/SellerOrders.tsx:209 | lowering an already lowered string changes nothing |
| `Text.LowerOfUpper` | src/pages/admin/SellerOrders.tsx:175 | a string and its upper-cased form lower to the same string, so case-insensitive comparisons agree on both |
| `Text.Includes` | src/pages/admin/SellerOrders.tsx:217-222 | `s.includes(q)`, scanning for a start position; specified by `Text.IncludesIffOccurs` |
| `Text.IncludesIffOccurs` | src/pages/admin/SellerOrders.tsx:217-222 | `includes(s, q)` holds exactly when `q` occurs at some index of `s`; the empty query occurs everywhere |
| `Text.FirstIndex` | src/pages/admin/BannerManagement.tsx:476 | the result is the index of the first occurrence of the character, or the length when it does not occur; no earlier index holds it |
| `Text.ReplaceFirst` | src/pages/admin/BannerManagement.tsx:476 | `s.replace(c, d)` with a one-character pattern; specified by `Text.ReplaceFirstAtFirstIndex` |
| `Text.ReplaceFirstAtFirstIndex` | src/pages/admin/BannerManagement.tsx:476 | replacing a character changes only its first occurrence; a string without it is returned unchanged |
| `Text.DatePart` | src/pages/admin/BannerManagement.tsx:191-192 | `split('T')[0]` is the longest prefix without `T`; the next character, if any, is `T`; a text with no `T` is returned whole |
| `Collections.Filter` | src/pages/admin/SellerOrders.tsx:206 | the result is no longer than the input; it holds exactly the input's elements that satisfy the predicate, and each passing element as many times as the input holds it |
| `Collections.FilterIsSubsequence` | src/pages/admin/SellerOrders.tsx:206 | the filtered list is a subsequence of the input: same elements in the same relative order |
| `Collections.FilterKeepsAll` | src/pages/admin/SellerOrders.tsx:225 | when every element passes, the filtered list equals the input |
| `Collections.FilterIdempotent` | src/pages/admin/SellerOrders.tsx:206 | filtering twice by one predicate gives the same list as filtering once |
| `Collections.FilterCongruent` | src/pages/admin/SellerOrders.tsx:206 | two predicates that agree on the list's elements give the same filtered list |
| `SellerOrders.FullName` | src/pages/admin/SellerOrders.tsx:211 | `${first} ${last}`, the name text searched for buyer and seller; a definition, used by `SellerOrders.MatchesSearchIff` |
| `SellerOrders.StoreSearchText` | src/pages/admin/SellerOrders.tsx:215 | the lowered store name, `""` when absent; a definition, used by `SellerOrders.MatchesSearchIff` |
| `SellerOrders.SearchFields` | src/pages/admin/SellerOrders.tsx:210-215 | the contract gives only that there are six fields; their contents (id, buyer name, buyer email, seller name, seller email, store name, all lowered) are the definition |
| `SellerOrders.MatchesSearch` | src/pages/admin/SellerOrders.tsx:208-225 | the predicate given to `orders.filter`: true for an empty query, else the six `includes` tests; specified by `SellerOrders.MatchesSearchIff` |
| `SellerOrders.FilterOrders` | src/pages/admin/SellerOrders.tsx:206-226 | the shown orders; specified by `SellerOrders.FilterOrdersSpec`, `SellerOrders.FilterOrdersEmptyQuery`, `SellerOrders.FilterOrdersIdempotent` |
| `SellerOrders.MatchesSearchIff` | src/pages/admin/SellerOrders.tsx:208-222 | with a non-empty query, an order matches iff the lowered query occurs in one of the six lowered fields |
| `SellerOrders.FilterOrdersEmptyQuery` | src/pages/admin/SellerOrders.tsx:206-226 | with an empty query the shown list equals the loaded list |
| `SellerOrders.FilterOrdersSpec` | src/pages/admin/SellerOrders.tsx:206-226 | the shown list is a subsequence of the loaded list; it holds exactly the loaded orders that match the query, each matching order as many times as it was loaded |
| `SellerOrders.FilterOrdersIdempotent` | src/pages/admin/SellerOrders.tsx:206 | filtering the shown list again by the same query changes nothing |
| `SellerOrders.FilterOrdersIgnoresQueryCase` | src/pages/admin/SellerOrders.tsx:209 | two queries that lower to the same string show the same list |
| `SellerOrders.StatusBadgeColor` | src/pages/admin/SellerOrders.tsx:174-188 | each direction holds, ignoring case: delivered is green, shipped is blue, processing is yellow, cancelled is red; pending and every other status are gray |
| `SellerOrders.PaymentStatusBadgeColor` | src/pages/admin/SellerOrders.tsx:190-204 | each direction holds, ignoring case: completed is green, refunded is blue, failed and cancelled are the same red; pending and every other status are yellow |
| `SellerOrders.StatusBadgeIgnoresCase` | src/pages/admin/SellerOrders.tsx:175 | the order-status badge is unchanged when the status is lower-cased or upper-cased |
| `SellerOrders.PaymentBadgeIgnoresCase` | src/pages/admin/SellerOrders.tsx:191 | the payment badge is unchanged when the status is lower-cased or upper-cased |
| `SellerOrders.RemoveOrder` | src/pages/admin/SellerOrders.tsx:252 | `prevOrders.filter(order => order._id !== orderId)`; specified by `SellerOrders.RemoveOrderSpec` |
| `SellerOrders.RemoveOrderSpec` | src/pages/admin/SellerOrders.tsx:252 | after deleting id `x`, the list is a subsequence of the old list and holds exactly the old orders whose id is not `x`, each as many times as before; deleting an absent id changes nothing; deleting a present id shortens the list |
| `SellerOrders.FilterParams` | src/pages/admin/SellerOrders.tsx:101-103 | `status` is present iff the status filter is non-empty; `sellerId` is present iff the seller filter is non-empty; nothing else is added; `status` comes before `sellerId` |
| `SellerOrders.SerializeParams` | src/pages/admin/SellerOrders.tsx:105 | the serialised parameters are empty exactly when there are no parameters |
| `SellerOrders.OrdersUrl` | src/pages/admin/SellerOrders.tsx:98-107 | with both filters empty the URL is the bare listing path; otherwise it is the path, `?`, then the serialised parameters |
| `SellerOrders.OrdersUrlText` | src/pages/admin/SellerOrders.tsx:98-107 | the listing URL as text: `?status=s&sellerId=i`, `?status=s`, or `?sellerId=i` after the path, by which filters are set |
| `SellerOrders.BothFiltersUrl` | src/pages/admin/SellerOrders.tsx:101-107 | with both filters set the URL is the path followed by `?status=s&sellerId=i` |
| `SellerOrders.OneFilterUrl` | src/pages/admin/SellerOrders.tsx:101-107 | with exactly one filter set the URL is the path followed by that filter's single parameter |
| `SellerOrders.ApplyFilterChange` | src/pages/admin/SellerOrders.tsx:387-434 | the status select sets only the status filter; a seller row's button sets only the seller filter; "clear" empties only the seller filter |
| `SellerOrders.ReloadUrlAsWritten` | src/pages/admin/SellerOrders.tsx:418-421 | as written, the reload reads the filters from before the change; from the unfiltered state every control reloads the bare listing path |
| `SellerOrders.ReloadAsWrittenIgnoresChange` | src/pages/admin/SellerOrders.tsx:418-421 | as written, choosing "pending" from the unfiltered list reloads the bare listing path, not the one with `?status=pending` |
| `SellerOrders.ReloadUrl` | src/pages/admin/SellerOrders.tsx:93-107 | corrected reload: each control requests the listing for the filter value it has just set |
| `SellerOrders.ReloadCarriesNewFilter` | src/pages/admin/SellerOrders.tsx:162-164 | in the corrected reload the URL text holds the value just set: `?status=v` after choosing a non-empty status, `sellerId=i` after choosing a seller, and no `sellerId` after clearing it |
| `SellerOrders.ShortOrderId` | src/pages/admin/SellerOrders.tsx:493 | the short id has length min(8, \|id\|); each character is the upper-case form of the id's character at that index; it holds no lower-case letter |
| `SellerOrders.StoreLabel` | src/pages/admin/SellerOrders.tsx:498 | a present, non-empty store name is shown as is; an absent or empty one shows the fallback label |
| `SellerOrders.EmptyListNotice` | src/pages/admin/SellerOrders.tsx:544-546 | the "no orders in the system" hint appears iff the search, status and seller filters are all empty; otherwise the hint is to adjust the filters |
| `SellerOrders.Tally` | src/pages/admin/SellerOrders.tsx:321 | a missing tally or missing key counts as 0; otherwise the tally's value is shown |
| `SellerOrders.TotalOrdersShown` | src/pages/admin/SellerOrders.tsx:312 | missing counts or a missing total show 0; otherwise the total is shown |
| `SellerOrders.PendingOrdersShown` | src/pages/admin/SellerOrders.tsx:321 | missing counts show 0; otherwise the `pending` status tally is shown, 0 when absent |
| `SellerOrders.CompletedPaymentsShown` | src/pages/admin/SellerOrders.tsx:330 | missing counts show 0; otherwise the `completed` payment tally is shown, 0 when absent |
| `SellerOrders.ActiveSellersShown` | src/pages/admin/SellerOrders.tsx:339 | missing counts or a missing seller list show 0; otherwise the number of sellers is shown |
| `BannerManagement.DefaultForm` | src/pages/admin/BannerManagement.tsx:32-40 | the default form is well formed: empty title, imageUrl and link; position `home_top`; isActive true; both dates cut to the day |
| `BannerManagement.EditPrefill` | src/pages/admin/BannerManagement.tsx:184-193 | the prefilled form is well formed and carries the banner's title, imageUrl, link, position, isActive and its dates cut to the day |
| `BannerManagement.WellFormed` | src/pages/admin/BannerManagement.tsx:32-40 | the form's shape: exactly the seven fields, `isActive` a flag and the rest text; kept by `BannerManagement.HandlersKeepWellFormed` |
| `BannerManagement.HandleInputChange` | src/pages/admin/BannerManagement.tsx:75-82 | only the named field changes; a checkbox stores its `checked` flag and any other input its `value`; every other field keeps its value |
| `BannerManagement.InputChangeKeepsWellFormed` | src/pages/admin/BannerManagement.tsx:278-395 | an event from one of the form's own inputs keeps the form well formed |
| `BannerManagement.InputChangeLastWins` | src/pages/admin/BannerManagement.tsx:78-81 | two changes to the same field leave the form as the second change alone would |
| `BannerManagement.InitialPage` | src/pages/admin/BannerManagement.tsx:31-42 | the page starts with the default form, not editing, no file chosen, the form hidden and no error |
| `BannerManagement.ToggleForm` | src/pages/admin/BannerManagement.tsx:249-260 | "add banner" flips the form's visibility, leaves edit mode and resets to the default form; the chosen file and the error stay |
| `BannerManagement.CancelForm` | src/pages/admin/BannerManagement.tsx:403-409 | the form's cancel button only hides the form; edit mode, the entered values, the chosen file and the error stay |
| `BannerManagement.Edit` | src/pages/admin/BannerManagement.tsx:184-196 | editing loads the prefill, sets the editing id to the banner's id and shows the form; the chosen file and the error stay |
| `BannerManagement.ChangeInput` | src/pages/admin/BannerManagement.tsx:75-82 | a change event updates only the form; the rest of the page state stays |
| `BannerManagement.ChooseImage` | src/pages/admin/BannerManagement.tsx:84-88 | a selection with a file sets the chosen file; an empty selection keeps the previous choice |
| `BannerManagement.ResolveImageUrl` | src/pages/admin/BannerManagement.tsx:113-115 | a URL starting with `http` is used unchanged; any other URL gets the API base prefixed |
| `BannerManagement.ResolveImageUrlAbsolute` | src/pages/admin/BannerManagement.tsx:111-117 | with an absolute base, the resolved URL is absolute and ends with the returned URL; resolving it again changes nothing |
| `BannerManagement.IsEditing` | src/pages/admin/BannerManagement.tsx:142-146 | JavaScript truthiness of `editingId`: set and non-empty; used by `BannerManagement.SubmitTarget` and `BannerManagement.AfterSave` |
| `BannerManagement.SubmitTarget` | src/pages/admin/BannerManagement.tsx:142-146 | with a non-empty editing id, the target is PUT `/api/banners/<id>`; otherwise it is POST `/api/banners` |
| `BannerManagement.PlanSubmit` | src/pages/admin/BannerManagement.tsx:125-157 | submission aborts iff a file is chosen and the upload fails or resolves to `""`; a failed upload records the upload error; a sent body is the form with `imageUrl` replaced by the resolved URL, or the form itself when no file is chosen |
| `BannerManagement.SubmitSendsIffUploadUsable` | src/pages/admin/BannerManagement.tsx:132-138 | with an absolute API base, a request is made iff no file is chosen or the upload returned a URL; the sent body is well formed |
| `BannerManagement.AfterSave` | src/pages/admin/BannerManagement.tsx:160-179 | a successful save resets to the default form, clears the file, hides the form and leaves edit mode; a failed one records the update or create error, by editing id; this is the state before the list refresh answers |
| `BannerManagement.AfterRefresh` | src/pages/admin/BannerManagement.tsx:50-73 | a refresh that answers clears any earlier error; one that fails records the fetch error; nothing else changes |
| `BannerManagement.AfterDelete` | src/pages/admin/BannerManagement.tsx:198-221 | nothing changes unless the deletion was confirmed; a failed request records the delete error; a successful one changes nothing before the refresh |
| `BannerManagement.AfterToggleStatus` | src/pages/admin/BannerManagement.tsx:223-242 | a failed request records the toggle error; a successful one changes nothing before the refresh |
| `BannerManagement.SaveThenRefreshClearsError` | src/pages/admin/BannerManagement.tsx:164-177 | a successful save and then a successful refresh leave the default form, hidden, not editing, no file and no error |
| `BannerManagement.HandlersKeepWellFormed` | src/pages/admin/BannerManagement.tsx:75-82 | every modelled transition keeps the form well formed, so `PlanSubmit`'s precondition holds in every reachable state |
| `BannerManagement.PositionLabel` | src/pages/admin/BannerManagement.tsx:476 | `position.replace('_', ' ')`; specified by `BannerManagement.PositionLabelSpec` |
| `BannerManagement.PositionLabelSpec` | src/pages/admin/BannerManagement.tsx:476 | the label has the position's length; a position with no `_` is unchanged; only the first `_` becomes a space, and every other character, later `_` included, is kept |

## Findings

| source | as written | input that shows it | evidently intended | confidence | as-written member | corrected member |
|---|---|---|---|---|---|---|
| src/pages/admin/SellerOrders.tsx:418-421 | Each filter control calls its state setter and then `fetchOrders` in the same render. That closure still holds the old filter. The same happens for the seller button at 387-389 and for "clear" at 432-434. | filters both empty, status select set to `pending`: the request goes to `/api/orders/admin/all` without `?status=pending` | the reload requests the filter value just chosen | not executed | `SellerOrders.ReloadUrlAsWritten`, `SellerOrders.ReloadAsWrittenIgnoresChange` | `SellerOrders.ReloadUrl`, `SellerOrders.ReloadCarriesNewFilter` |

## Left out

- Network and storage: `fetch`, `response.json()`, the bearer token from `localStorage` and the `FormData` upload are left out. Their outcomes are parameters: `UploadResult`, the `ok` flag of `AfterSave`, `OrderCounts`, the order list.
- `fetchOrders`, `fetchOrderCounts` and `deleteOrder` are modelled only through their pure parts. The step-by-step loading, error and deleting flags, the `data.data || []` fallback and the 1.5-second modal close timer are not modelled.
- `fetchBanners`, `handleDelete` and `toggleBannerStatus` are modelled only by their effect on the page's `error` (`AfterRefresh`, `AfterDelete`, `AfterToggleStatus`). The banner list they load is not modelled, and neither is the `loading` flag.
- React rendering, effects and the i18n `t(...)` lookups are left out. Messages appear as the tags `ErrorKind` and `EmptyNotice`. An error's text suffix (`err.message`) is not modelled.
- Dates: `toISOString`, `Date.now()` plus thirty days, `toLocaleDateString` and `formatDate` are left out, and so is `totalAmount.toFixed(2)`. Only `split('T')[0]` is modelled.
- `BannerManagement.EditPrefill`: the banner's dates are taken as ISO text already. The re-normalisation by `new Date(...).toISOString()` is not modelled.
- `SellerOrders.SerializeParams`: the percent-encoding of `URLSearchParams` is not modelled, because it is library text formatting. Parameters are an ordered key/value list.
- `Text.Lower`, `Text.Upper`: only ASCII letters are mapped, because full Unicode case mapping is library behaviour.
- `SellerOrders.ShortOrderId`: a Dafny string is a sequence of Unicode scalar values, while JavaScript indexes UTF-16 code units, so `substring(0, 8)` differs on text outside the Basic Multilingual Plane.
- The chosen image is a flag, not the `File` object, because its contents only reach the upload.
- Order fields that none of the rules read are left out: items, total amount, shipping address, payment method, timestamps. So are the banner's `createdAt` and `createdBy`.
- `BannerManagement.PlanSubmit`: requires a well-formed form. Every reachable state has one (`HandlersKeepWellFormed`).
- Messaging is not modelled. The find-or-create, read state, archive and unread count belong to `server/controllers/messageController`, which is not part of this model. `server/routes/messages.js` is only routing, and `server/models/Conversation.js` is only a schema.
- `src/pages/admin/Analytics.tsx` is not modelled: it shows fixed figures. `src/pages/TrackOrder.tsx` is not modelled: its lookup always sets the same status. `src/pages/ProductSuccess.tsx` is not modelled: it is navigation only.
