# Listing row actions — a Dafny model

This project models the click-dispatch state machine of the admin dashboard's listing row menu (`src/app/dashboard/listing/listing-actions.tsx`). The machine appears twice in that file. `ListingActions` renders a four-entry dropdown: Approve, Reject, View details, Delete. The unused `Options` component renders a five-entry menu: Approve, Reject, Edit, Flag, Delete. Each menu sits over an index-keyed handler table. Each component also keeps one boolean loading flag per entry. The modal slot is closed, details or edit.

A click and the settling of the handler it started are modelled as two separate events over immutable state:

- **Click.** `Dispatch.Click` does nothing when no handler is registered for the index. Otherwise it raises the entry's flag when the entry asks for a spinner, then starts the handler. The handler issues its one mutation or sets the modal.
- **Settle.** `Dispatch.Settle` clears the flag on success and on failure alike. On success a mutation handler shows its toast. On failure `ListingActions` shows an error toast. `Options` has no `catch`, so there the rejection escapes.

Mutations and toasts are emitted `Output` values, not effects. `Trace` runs whole event sequences. It tracks the started handler invocations that have not yet settled as a multiset of entry indices, so interleavings such as two clicks on one entry are plain event sequences. `Fetch` models when the details query is enabled and which record the open modal shows.

Modules: `Wrappers` (optional values), `Menu` (menus and handler tables), `Dispatch` (one event), `Trace` (event sequences), `Fetch` (details query).

Behaviours the model keeps as written:

- **Options menu overhang.** In `Options` the five-entry menu sits over a four-entry table. The entry labelled "Flag" runs the delete mutation. The entry labelled "Delete" has no handler, so clicking it does nothing, although it asks for a spinner.
- **No de-duplication.** A second click before the first settles issues a second mutation. The first settle then clears the flag while the second request is still in flight.
- **No listing.** In either component, when `data` is absent a mutation handler fails on `const { id } = data` before sending any request. The failure then settles like a server rejection without a message: the fallback error toast in `ListingActions`, an uncaught rejection in `Options`.
- **Optional setter.** In `Options` the modal setter prop is optional. Without it, the "Edit" handler exists but does nothing.

A second click on an entry before the first settles means the first settle clears the flag while the second request is still pending (`Trace.DoubleClickQuirk`). Until some settle on its own entry, though, a raised flag stays raised through any other events (`Trace.FlagStaysRaised`). `setOpenModal` replaces the modal value directly, so details can switch straight to edit.

## Model

| member | source | states |
|---|---|---|
| Menu.HandlerAt | src/app/dashboard/listing/listing-actions.tsx:39-62 | handlers exist exactly for indices 0..3 (the `ListingActions` table at lines 39-62, the `Options` table at lines 193-216); every handler index lies inside its menu, so a flag write is always in range; "details" only in `ListingActions`, "edit" only in `Options` |
| Menu.ListingActionsLabelsMatchHandlers | src/app/dashboard/listing/listing-actions.tsx:18-62 | every `ListingActions` entry has a handler, and it is the one its label names |
| Menu.OptionsLeadingLabelsMatchHandlers | src/app/dashboard/listing/listing-actions.tsx:171-209 | in `Options` entries 0..2 run the handler their label names: approve, unpublish ("Reject") and the edit modal |
| Menu.OptionsMenuOverhangsHandlers | src/app/dashboard/listing/listing-actions.tsx:171-219 | `Options` has 5 entries over 4 handlers: "Flag" runs delete, and "Delete" has a spinner but no handler |
| Menu.RaisesFlagExactly | src/app/dashboard/listing/listing-actions.tsx:64-73 | an entry can raise its flag exactly when it has both a handler and `showLoader`: indices 0, 1 and 3 in both menus |
| Dispatch.Init | src/app/dashboard/listing/listing-actions.tsx:26-37 | on mount the modal is closed and all flags are false; there is one flag per entry (4 for `ListingActions`, 5 for `Options`); for `Options` the modal is the parent's, and starting closed is an assumption (see Left out) |
| Dispatch.SetFlag | src/app/dashboard/listing/listing-actions.tsx:68-72 | the flag update keeps the length, writes slot idx and leaves every other slot untouched |
| Dispatch.CallFor | src/app/dashboard/listing/listing-actions.tsx:40-61 | each mutation handler issues the mutation of its own kind on the listing id; publish-status carries type "unpublish" |
| Dispatch.ErrorText | src/app/dashboard/listing/listing-actions.tsx:78 | the error toast is the server message when that message is a non-empty string, otherwise "An error occurred"; it is never empty |
| Dispatch.Click | src/app/dashboard/listing/listing-actions.tsx:64-76 | a click with no handler changes nothing and emits nothing; otherwise only flag idx may change, and it is raised exactly for spinner entries; at most one output, issued exactly by a mutation handler with a listing, and it is that handler's full request (kind, listing id, and type "unpublish" for Reject); only a modal handler moves the modal |
| Dispatch.Settle | src/app/dashboard/listing/listing-actions.tsx:75-87 | settle clears flag idx for spinner entries on success and on failure, and changes no other flag and not the modal; success shows the handler's toast; failure shows `ErrorText` in `ListingActions`; it never emits a mutation |
| Dispatch.CloseModal | src/app/dashboard/listing/listing-actions.tsx:118 | the close callback returns the modal to closed and leaves the flags alone |
| Trace.Start | src/app/dashboard/listing/listing-actions.tsx:26-37 | for both components (flags of `Options` at line 191), the mount world satisfies the reachability invariant, with nothing in flight and the modal closed (for `Options` an assumption about the parent, see Left out) |
| Trace.Apply | src/app/dashboard/listing/listing-actions.tsx:64-88 | each event preserves the invariant that a raised flag belongs to a spinner entry with an invocation in flight; a click with a handler adds one invocation and a settle retires one; a handler-less click or a stray settle is a no-op |
| Trace.Run | src/app/dashboard/listing/listing-actions.tsx:218-240 | in both components (the `ListingActions` click handler at lines 64-88, the `Options` copy at lines 218-240), every event sequence preserves the invariant: one flag per entry, and no raised flag without an invocation in flight |
| Trace.MutationsMatchClicks | src/app/dashboard/listing/listing-actions.tsx:39-61 | over any event sequence, the number of mutations emitted equals the number of clicks on mutation entries (none without a listing); a double click issues two |
| Trace.ModalOnlyMovedByModalEvents | src/app/dashboard/listing/listing-actions.tsx:26-62 | a sequence without modal clicks and closes leaves the modal where it was |
| Trace.ClickSettleRoundTrip | src/app/dashboard/listing/listing-actions.tsx:64-88 | when nothing else is in flight on the entry, its flag is raised immediately after the click exactly when the entry has a spinner (for later interleavings see `Trace.FlagStaysRaised`); after the settle, whether success or failure, flags and in-flight set are restored |
| Trace.FlagStaysRaised | src/app/dashboard/listing/listing-actions.tsx:64-88 | a raised flag stays raised through any sequence of clicks, closes and settles that contains no settle on its own entry, since each event writes only its own entry's flag |
| Trace.ClickRaisesUntilSettle | src/app/dashboard/listing/listing-actions.tsx:67-86 | after a click on a spinner entry, its flag stays raised through every interleaving of other events until a settle on that entry |
| Trace.MutationClickOutputs | src/app/dashboard/listing/listing-actions.tsx:40-78 | in `ListingActions` a settled mutation click emits its request and then the success toast, or the error toast from the server message |
| Trace.SpinnersNeedInflight | src/app/dashboard/listing/listing-actions.tsx:19-23 | in every reachable world, entries that cannot raise a flag show no spinner; once nothing is in flight, no spinner shows at all |
| Trace.DoubleClickQuirk | src/app/dashboard/listing/listing-actions.tsx:64-88 | two quick Approve clicks issue two approve requests; the first settle clears the flag while one request is still in flight |
| Trace.OptionsFlagDeletesAndDeleteIsInert | src/app/dashboard/listing/listing-actions.tsx:171-219 | in `Options`, "Flag" issues the delete request and "Delete" changes nothing and emits nothing |
| Fetch.FetchKey | src/app/dashboard/listing/listing-actions.tsx:31 | the query key is the listing's id, or "" without a listing |
| Fetch.FetchEnabledIffKeyAndDetails | src/app/dashboard/listing/listing-actions.tsx:31-32 | the details query is enabled exactly when the key is truthy and the modal shows details |
| Fetch.Displayed | src/app/dashboard/listing/listing-actions.tsx:131 | the modal shows the fetched record once present, otherwise the summary record passed in |
| Fetch.ModalsAlongLast | src/app/dashboard/listing/listing-actions.tsx:26-55 | the modal sequence handed to the details query ends in the modal the run itself ends in, so the cache is fed the real modal history |
| Fetch.CachedNeedsEnable | src/app/dashboard/listing/listing-actions.tsx:31-35 | a details query that was never enabled never fetches, so its cached record stays as it was |
| Fetch.CachedIsAnAnswer | src/app/dashboard/listing/listing-actions.tsx:31-35 | the cached record is the initial one or one the server delivered |
| Fetch.NoDetailsWithoutViewClick | src/app/dashboard/listing/listing-actions.tsx:55 | in `ListingActions`, no event sequence without a "View details" click opens the details view |
| Fetch.ShowsSummaryUntilViewDetails | src/app/dashboard/listing/listing-actions.tsx:131 | from mount, until "View details" is clicked, the details view would show the summary record passed in, whatever the server delivers |
| Fetch.ShowsFetchedAfterViewDetails | src/app/dashboard/listing/listing-actions.tsx:31-32 | after "View details" enables the query for a listing with an id, a delivered record replaces the summary |
| Fetch.ViewDetailsTogglesFetch | src/app/dashboard/listing/listing-actions.tsx:31-55 | "View details" enables the query for a listing with an id, and a following close disables it |
| Fetch.OptionsNeverOpensDetails | src/app/dashboard/listing/listing-actions.tsx:193-216 | `Options` only opens the edit modal, so from a modal other than details no sequence of its events reaches details |
| Fetch.OptionsNeverEnablesFetch | src/app/dashboard/listing/listing-actions.tsx:31-32 | hence `Options` alone never enables the details query |

## Left out

- src/server/actions/category.ts: five thin HTTP wrappers that delegate errors to a shared handler that is not part of this model; they hold no logic of their own.
- Rendering: the popover, the modals' markup, spinners, the loading placeholder while `isLoading`, icons, class names and the modal title. These are presentation with no stateable behaviour.
- The listing hooks and the details query's caching and refetch settings belong to an external library. Each mutation is an abstract call that the environment resolves or rejects through `Settled` events. A failing details fetch is not modelled.
- Toasts and React state scheduling: toasts are emitted values, and state updates are pure functions applied in event order. Render timing is not modelled.
- Asynchrony is reduced to separate `Clicked` and `Settled` events. The source has no cancellation, so none is modelled.
- In `Options` the `modal` field stands for the parent's modal: `Options` owns no modal state and only receives the parent's setter. Its only render site is commented out and sits inside the open details modal, so the parent's modal would be "details" when `Options` mounts. `Init` and `Trace.Start` still start it closed, and that is an assumption. `Fetch.OptionsNeverOpensDetails` and `Fetch.OptionsNeverEnablesFetch` are stated for any starting modal other than details.
- The details query is modelled as a cache (`Fetch.Cached`) that starts fetching once enabled and keeps the last answer delivered. The library's refetch settings, loading state and fetch failures are not modelled.
- The details query's cache is taken to be empty when `ListingActions` mounts (`Fetch.ShowsSummaryUntilViewDetails` starts from `None`); a record already cached under the same key by an earlier mount would be shown instead.
- The listing prop `data` is held fixed over a whole run. In the source each click and its settle use the `data` captured when the click handler was created, and the parent may pass a different listing between renders.
- Listing ids are strings, and the empty string stands for every falsy id. A numeric id `0` would also be falsy in the source.
- Listings carry only their id. The rest of the record matters only to rendering.
- Server error messages are strings; the source would accept any truthy value there.
