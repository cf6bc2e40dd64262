# Lazy-loading contact lists, modelled in Dafny

The repository holds three variants of one Lightning Web Component: a contact list that grows as
the user scrolls to the bottom. Each variant is a small state machine over a few fields:

- `lazyLoadContacts` (module `OffsetPaging`): offset/limit paging. `initData` queries the total
  count, and `loadMoreData` appends one page of 10 at the watermark `loadedCount`. It is skipped
  while a load runs or when everything counted is loaded.
- `lazyLoadContactsServer` (module `ServerPaging`): offset/limit paging with a server-side search.
  A load is an append or a reset. A reset clears `offset`, `contacts` and `totalCount` and then
  replaces the list. The total is fetched lazily while it is 0. Each keystroke re-arms a debounced
  reset load.
- `lazyLoadContactsLds` (module `CursorPaging`): cursor paging through a list-view wire adapter.
  Pages are chained by `nextPageToken`. The search box filters the loaded contacts in place.

Shared modules: `Scroll` holds the bottom-of-container test (threshold 20) that all three handlers
use. `Text` holds ASCII lower-casing, `includes` and order-preserving subsequences. `Backend`
holds a LIMIT/OFFSET slice of a remote collection. `Wrappers` holds `Option` and `Settled`
(how an awaited promise ended).

Each component has two layers:

1. A value `Component` holds the component's fields, and pure step functions act on it. Every
   `async` method is split at each `await`: a start step (guard, flags, the request it sends) and
   one finish step per settled promise. A settled promise is `Fulfilled(value)` or `Rejected`.
   For the server variant, the suspended `loadContacts` call is the field `pending`. It records
   which promise the call waits for and the locals it resumes with (`reset`, `results.length`).
2. A class with the source's fields. Each handler is a method whose body performs the source's
   field updates in order. Each method is proved to produce exactly the state its step function
   gives. Each handler also keeps the class invariant `Valid()`. `LoadContacts` keeps it for a
   reset load, or for an append load whose `offset` equals the list length. All three of its
   callers meet that condition.

An event model (`Step`, `Run`) puts each component among the events that can reach it: scrolls,
promise settlements, keystrokes, timer firings and wire deliveries. The trace lemmas are proved
over any sequence of these events, or over any sequence restricted to one kind (no typing,
paging only, typing only), as each row says. Where the model needs an honest backend, a page is the
LIMIT/OFFSET slice of a remote collection and a count is that collection's size.

Behaviour the proofs bring out, as the code is written:

- `lazyLoadContacts`: at most one fetch is ever in flight, and always at the watermark. The list
  is always exactly the first `loadedCount` remote contacts, with no gap and no duplicate.
- `lazyLoadContactsServer`: a debounced search reset that fires while a load runs is dropped
  (line 21). An append load reads the search key when it starts. So typing a key and scrolling
  before the debounce fires appends a page of the new key's results to the old key's list. If
  the reset then fires while that page loads, the mix stays. `MixedKeysAfterScrollDuringDebounce`
  proves this for a concrete input.
- `lazyLoadContactsServer`: if the count query fails, the list has grown but `offset` has not, and
  `totalCount` stays 0. Scrolling then never loads more until a search resets the list.
- `lazyLoadContactsLds`: the search is destructive. A later, shorter or empty key never brings
  back a contact that an earlier search removed.

Further facts about the code that the model keeps:

- The components have no cache and no epoch mechanism, so a late result is never discarded.
- A failed fetch after a reset leaves the list cleared.
- A failed count query in the server variant leaves `totalCount` at 0, which stops scroll paging.
- A list counts as exhausted when `loadedCount >= totalCount`, when the list length is at least
  `totalCount`, or when no next-page token exists. The length of a returned page is never checked.

## Model

| member | source | states |
|---|---|---|
| `Text.LowerChar` | force-app/main/default/lwc/lazyLoadContactsLds/lazyLoadContactsLds.js:73 | only 'A'..'Z' change, and they become lower-case letters |
| `Text.Lower` | force-app/main/default/lwc/lazyLoadContactsLds/lazyLoadContactsLds.js:68 | lower-casing keeps the length and lower-cases each character in place |
| `Scroll.BottomReached` | force-app/main/default/lwc/lazyLoadContacts/lazyLoadContacts.js:39 | holds iff `scrollTop + clientHeight >= scrollHeight - 20`, that is, iff at most 20 px are left to scroll below the visible area; the same test is at lazyLoadContactsServer.js:59 and lazyLoadContactsLds.js:33 |
| `Text.LowerEmpty` | force-app/main/default/lwc/lazyLoadContactsLds/lazyLoadContactsLds.js:69 | the lowered key is empty exactly when the input is empty |
| `Text.Includes` | force-app/main/default/lwc/lazyLoadContactsLds/lazyLoadContactsLds.js:73 | `includes`: the empty key is contained in every string, and a contained key is never longer than the string |
| `Text.IncludesHasPosition` | force-app/main/default/lwc/lazyLoadContactsLds/lazyLoadContactsLds.js:73 | a successful `includes` search yields a position where the key occurs |
| `Text.PositionGivesIncludes` | force-app/main/default/lwc/lazyLoadContactsLds/lazyLoadContactsLds.js:73 | an occurrence at any position makes `includes` succeed |
| `Text.IncludesIff` | force-app/main/default/lwc/lazyLoadContactsLds/lazyLoadContactsLds.js:73 | `includes` holds iff the key is a prefix of some suffix of the name |
| `Text.SubsequenceRefl` | force-app/main/default/lwc/lazyLoadContactsLds/lazyLoadContactsLds.js:69-70 | an empty key leaves the list, which is a subsequence of itself |
| `Text.SubsequenceLength` | force-app/main/default/lwc/lazyLoadContactsLds/lazyLoadContactsLds.js:72-76 | keeping a subsequence never lengthens the list |
| `Text.SubsequenceTrans` | force-app/main/default/lwc/lazyLoadContactsLds/lazyLoadContactsLds.js:72-76 | filtering a filtered list keeps a subsequence of the original |
| `Text.SubsequenceMembers` | force-app/main/default/lwc/lazyLoadContactsLds/lazyLoadContactsLds.js:72-76 | a filtered list holds only contacts of the list it came from |
| `Backend.Slice` | force-app/main/default/lwc/lazyLoadContacts/lazyLoadContacts.js:27 | an honest page has at most `limitSize` contacts and is the collection's slice at the offset |
| `Backend.SliceExtendsPrefix` | force-app/main/default/lwc/lazyLoadContacts/lazyLoadContacts.js:28 | appending the page at offset k to the first k contacts gives the next longer prefix |
| `OffsetPaging.LoadStart` | force-app/main/default/lwc/lazyLoadContacts/lazyLoadContacts.js:22-27 | skips with no change and no fetch iff loaded >= total or loading; otherwise sets `isLoading` and fetches (offset `loadedCount`, limit 10); never touches the list |
| `OffsetPaging.LoadFinish` | force-app/main/default/lwc/lazyLoadContacts/lazyLoadContacts.js:26-34 | success appends the page in order and adds its length to `loadedCount`; failure keeps list and count; `isLoading` ends false; the list never shrinks; `loadedCount` equal to the list length is kept |
| `OffsetPaging.InitFinish` | force-app/main/default/lwc/lazyLoadContacts/lazyLoadContacts.js:17-20 | the count is stored before the first load is attempted, which then fetches iff idle and loaded < count; with no fetch, only `totalCount` changes; a rejected count does nothing |
| `OffsetPaging.ScrollStep` | force-app/main/default/lwc/lazyLoadContacts/lazyLoadContacts.js:37-44 | a scroll fetches iff at the bottom, not loading and loaded < total, and then acts as `loadMoreData` |
| `OffsetPaging.ScrollAboveBottomIsNoOp` | force-app/main/default/lwc/lazyLoadContacts/lazyLoadContacts.js:39-43 | a scroll more than 20 pixels above the bottom changes nothing and issues no fetch |
| `OffsetPaging.ConnectedInvariant` | force-app/main/default/lwc/lazyLoadContacts/lazyLoadContacts.js:6-15 | the initial fields with the count query pending satisfy the trace invariant |
| `OffsetPaging.StepInvariant` | force-app/main/default/lwc/lazyLoadContacts/lazyLoadContacts.js:17-44 | every event keeps the invariant: at most one fetch in flight exactly while loading, at the watermark; list is the remote prefix up to the watermark |
| `OffsetPaging.RunInvariant` | force-app/main/default/lwc/lazyLoadContacts/lazyLoadContacts.js:17-44 | the invariant holds after any sequence of events |
| `OffsetPaging.ReachableFacts` | force-app/main/default/lwc/lazyLoadContacts/lazyLoadContacts.js:13-44 | from start-up: at most one fetch in flight, list == first `loadedCount` remote contacts, `loadedCount` equal to the list length, list never exceeds a known total |
| `OffsetPaging.RunNeverShrinks` | force-app/main/default/lwc/lazyLoadContacts/lazyLoadContacts.js:28 | no sequence of events removes or reorders a loaded contact |
| `OffsetPaging.TwentyFiveContacts` | force-app/main/default/lwc/lazyLoadContacts/lazyLoadContacts.js:22-44 | with 25 remote contacts the list grows 10, 20, 25 and a further scroll is a no-op |
| `OffsetPaging.FailedFetchIsRetried` | force-app/main/default/lwc/lazyLoadContacts/lazyLoadContacts.js:30-34 | a failed first fetch leaves `[]` and idle; the next scroll refetches offset 0 and fills page one |
| `OffsetPaging.LazyLoadContacts.constructor` | force-app/main/default/lwc/lazyLoadContacts/lazyLoadContacts.js:6-11 | the field initialisers, page size 10 |
| `OffsetPaging.LazyLoadContacts.StartLoadMoreData` | force-app/main/default/lwc/lazyLoadContacts/lazyLoadContacts.js:22-27 | the field updates before the `await` produce `LoadStart`'s state and request |
| `OffsetPaging.LazyLoadContacts.FinishLoadMoreData` | force-app/main/default/lwc/lazyLoadContacts/lazyLoadContacts.js:28-34 | the field updates after the `await` produce `LoadFinish`'s state |
| `OffsetPaging.LazyLoadContacts.FinishInitData` | force-app/main/default/lwc/lazyLoadContacts/lazyLoadContacts.js:17-20 | storing the count then starting a load produces `InitFinish`'s state and request |
| `OffsetPaging.LazyLoadContacts.HandleScroll` | force-app/main/default/lwc/lazyLoadContacts/lazyLoadContacts.js:37-44 | the handler produces `ScrollStep`'s state and request |
| `ServerPaging.LoadStart` | force-app/main/default/lwc/lazyLoadContactsServer/lazyLoadContactsServer.js:20-35 | while loading, every call (reset too) is dropped with no change; otherwise a reset zeroes offset, list and total; the fetch uses the current key, `offset` and limit 10 |
| `ServerPaging.FetchFinish` | force-app/main/default/lwc/lazyLoadContactsServer/lazyLoadContactsServer.js:36-54 | success replaces (reset) or extends the list and sets `noResults == (list empty)`; the count is queried, with the key current now, iff the total is 0; otherwise offset advances by the page's length; a failure only clears `isLoading` and ends the call, leaving list, `noResults`, offset and total |
| `ServerPaging.CountFinish` | force-app/main/default/lwc/lazyLoadContactsServer/lazyLoadContactsServer.js:45-54 | a count success stores the total and advances the offset by the page's length; a count failure keeps both though the list grew; loading ends |
| `ServerPaging.ScrollStep` | force-app/main/default/lwc/lazyLoadContactsServer/lazyLoadContactsServer.js:57-64 | a scroll starts an append load iff at the bottom, idle and list length < `totalCount`, fetching at `offset` |
| `ServerPaging.SearchChange` | force-app/main/default/lwc/lazyLoadContactsServer/lazyLoadContactsServer.js:66-69 | the key is stored at once and a reset is scheduled; nothing else changes |
| `ServerPaging.DebounceFire` | force-app/main/default/lwc/lazyLoadContactsServer/lazyLoadContactsServer.js:72-82 | firing empties the slot; when idle it starts a reset load (loading, list cleared, offset and total 0) that requests page 0 for the current key, keeping key and `noResults`; when loading the reset is dropped |
| `ServerPaging.ScrollAboveBottomIsNoOp` | force-app/main/default/lwc/lazyLoadContactsServer/lazyLoadContactsServer.js:59-63 | a scroll more than 20 pixels above the bottom changes nothing and issues no fetch |
| `ServerPaging.RunConsistent` | force-app/main/default/lwc/lazyLoadContactsServer/lazyLoadContactsServer.js:20-82 | any sequence of events keeps the bookkeeping invariant (one suspended call exactly while loading, fetch at `offset` == list length) |
| `ServerPaging.ReachableConsistent` | force-app/main/default/lwc/lazyLoadContactsServer/lazyLoadContactsServer.js:16-82 | from start-up, whatever happens, each fetch in flight asks for the page at the list's current length |
| `ServerPaging.StepKeyedPrefix` | force-app/main/default/lwc/lazyLoadContactsServer/lazyLoadContactsServer.js:20-64 | each non-typing event keeps the list a prefix of the remote collection for the key |
| `ServerPaging.RunKeyedPrefix` | force-app/main/default/lwc/lazyLoadContactsServer/lazyLoadContactsServer.js:20-64 | the keyed-prefix invariant holds over any run without typing |
| `ServerPaging.ResetRestoresKeyedPrefix` | force-app/main/default/lwc/lazyLoadContactsServer/lazyLoadContactsServer.js:72-82 | a reset that fires while idle, from any consistent state, re-establishes the keyed-prefix invariant for the new key; `RunKeyedPrefix` then carries it through the following events |
| `ServerPaging.RunKeepsKey` | force-app/main/default/lwc/lazyLoadContactsServer/lazyLoadContactsServer.js:66-67 | only typing changes the search key |
| `ServerPaging.UnsearchedListIsPrefix` | force-app/main/default/lwc/lazyLoadContactsServer/lazyLoadContactsServer.js:16-64 | without typing, the list is the first remote contacts for the empty key and never exceeds a known total |
| `ServerPaging.Keystrokes` | force-app/main/default/lwc/lazyLoadContactsServer/lazyLoadContactsServer.js:66-68 | one input event per keystroke, in order |
| `ServerPaging.KeystrokesKeepLastKey` | force-app/main/default/lwc/lazyLoadContactsServer/lazyLoadContactsServer.js:66-82 | any burst of keystrokes leaves the last value as key and exactly one reset scheduled, nothing else changed |
| `ServerPaging.BurstThenFire` | force-app/main/default/lwc/lazyLoadContactsServer/lazyLoadContactsServer.js:66-82 | a burst then the timer gives exactly one reset request, for the last value; a second firing does nothing |
| `ServerPaging.SearchDroppedWhileLoading` | force-app/main/default/lwc/lazyLoadContactsServer/lazyLoadContactsServer.js:21 | a search whose timer fires during a load stores the key but never reloads |
| `ServerPaging.MixedKeysAfterScrollDuringDebounce` | force-app/main/default/lwc/lazyLoadContactsServer/lazyLoadContactsServer.js:31-40 | a concrete run ends idle with page 1 of the unsearched list followed by page 2 of "a" |
| `ServerPaging.LazyLoadContactsServer.constructor` | force-app/main/default/lwc/lazyLoadContactsServer/lazyLoadContactsServer.js:8-14 | the field initialisers, no load running, no reset scheduled |
| `ServerPaging.LazyLoadContactsServer.ConnectedCallback` | force-app/main/default/lwc/lazyLoadContactsServer/lazyLoadContactsServer.js:16-18 | start-up issues the first append fetch |
| `ServerPaging.LazyLoadContactsServer.LoadContacts` | force-app/main/default/lwc/lazyLoadContactsServer/lazyLoadContactsServer.js:20-35 | the field updates before the first `await` produce `LoadStart`'s state and request; `Valid()` is kept for a reset, or for an append load at the list's length |
| `ServerPaging.LazyLoadContactsServer.FinishFetch` | force-app/main/default/lwc/lazyLoadContactsServer/lazyLoadContactsServer.js:36-54 | the field updates after the fetch settles produce `FetchFinish`'s state and count query |
| `ServerPaging.LazyLoadContactsServer.FinishCount` | force-app/main/default/lwc/lazyLoadContactsServer/lazyLoadContactsServer.js:45-54 | the field updates after the count settles produce `CountFinish`'s state |
| `ServerPaging.LazyLoadContactsServer.HandleScroll` | force-app/main/default/lwc/lazyLoadContactsServer/lazyLoadContactsServer.js:57-64 | the handler produces `ScrollStep`'s state and request |
| `ServerPaging.LazyLoadContactsServer.HandleSearchChange` | force-app/main/default/lwc/lazyLoadContactsServer/lazyLoadContactsServer.js:66-69 | the handler produces `SearchChange`'s state |
| `ServerPaging.LazyLoadContactsServer.FireDebouncedSearch` | force-app/main/default/lwc/lazyLoadContactsServer/lazyLoadContactsServer.js:72-82 | the timer callback produces `DebounceFire`'s state and request |
| `CursorPaging.HasToken` | force-app/main/default/lwc/lazyLoadContactsLds/lazyLoadContactsLds.js:40 | JavaScript truthiness of the token: `!nextPageToken` holds exactly for an absent token or the empty string |
| `CursorPaging.Wired` | force-app/main/default/lwc/lazyLoadContactsLds/lazyLoadContactsLds.js:21-29 | data replaces the list with the page's records and stores the token, `done == (token absent)`; error or nothing leaves everything |
| `CursorPaging.NextPage` | force-app/main/default/lwc/lazyLoadContactsLds/lazyLoadContactsLds.js:39-50 | does nothing iff there is no next-page token; otherwise sets `isLoading` and asks for that token; keeps the token invariant |
| `CursorPaging.ScrollStep` | force-app/main/default/lwc/lazyLoadContactsLds/lazyLoadContactsLds.js:31-37 | requests the next page iff at the bottom, not loading, not done and a token exists |
| `CursorPaging.PageDelivered` | force-app/main/default/lwc/lazyLoadContactsLds/lazyLoadContactsLds.js:56-65 | data appends the records after the list and updates token and `done`; `isLoading` ends false on data, error or neither; the list never shrinks |
| `CursorPaging.Matches` | force-app/main/default/lwc/lazyLoadContactsLds/lazyLoadContactsLds.js:72-73 | the filter callback: holds iff the lower-cased key occurs at some position of the lower-cased name; the empty key matches every contact, and a match is never longer than the name |
| `CursorPaging.Filter` | force-app/main/default/lwc/lazyLoadContactsLds/lazyLoadContactsLds.js:72-74 | keeps exactly the contacts whose lower-cased name contains the key, each as many times as it occurs in the input, and drops the rest |
| `CursorPaging.FilterSubsequence` | force-app/main/default/lwc/lazyLoadContactsLds/lazyLoadContactsLds.js:72-74 | the filter keeps the contacts' order |
| `CursorPaging.FilterAllMatching` | force-app/main/default/lwc/lazyLoadContactsLds/lazyLoadContactsLds.js:72-74 | a list whose contacts all match passes the filter unchanged |
| `CursorPaging.FilterIdempotent` | force-app/main/default/lwc/lazyLoadContactsLds/lazyLoadContactsLds.js:72-76 | filtering twice by one key is filtering once |
| `CursorPaging.SearchChange` | force-app/main/default/lwc/lazyLoadContactsLds/lazyLoadContactsLds.js:67-78 | key := lowered input; empty key: `noResults` false, list kept; otherwise list := matching contacts in order, `noResults` iff none |
| `CursorPaging.SearchIdempotent` | force-app/main/default/lwc/lazyLoadContactsLds/lazyLoadContactsLds.js:67-78 | entering the same value twice equals entering it once |
| `CursorPaging.SearchIsDestructive` | force-app/main/default/lwc/lazyLoadContactsLds/lazyLoadContactsLds.js:72-76 | after a non-empty search, later searches keep a subsequence and never restore a removed contact |
| `CursorPaging.ScrollAboveBottomIsNoOp` | force-app/main/default/lwc/lazyLoadContactsLds/lazyLoadContactsLds.js:33-36 | a scroll more than 20 pixels above the bottom changes nothing and requests no page |
| `CursorPaging.RunConsistent` | force-app/main/default/lwc/lazyLoadContactsLds/lazyLoadContactsLds.js:21-78 | no sequence of events sets `done` while a next-page token exists, and `isLoading` always comes with a real requested token |
| `CursorPaging.PagingOnlyGrows` | force-app/main/default/lwc/lazyLoadContactsLds/lazyLoadContactsLds.js:31-65 | scrolls and page deliveries alone never remove or reorder a contact |
| `CursorPaging.TypingOnlyShrinks` | force-app/main/default/lwc/lazyLoadContactsLds/lazyLoadContactsLds.js:67-78 | any sequence of search inputs leaves a subsequence of the list it started from, never longer |
| `CursorPaging.LazyLoadContactsLds.constructor` | force-app/main/default/lwc/lazyLoadContactsLds/lazyLoadContactsLds.js:8-14 | the field initialisers |
| `CursorPaging.LazyLoadContactsLds.WiredContacts` | force-app/main/default/lwc/lazyLoadContactsLds/lazyLoadContactsLds.js:21-29 | the callback produces `Wired`'s state |
| `CursorPaging.LazyLoadContactsLds.HandleScroll` | force-app/main/default/lwc/lazyLoadContactsLds/lazyLoadContactsLds.js:31-37 | the handler produces `ScrollStep`'s state and request |
| `CursorPaging.LazyLoadContactsLds.LoadNextPage` | force-app/main/default/lwc/lazyLoadContactsLds/lazyLoadContactsLds.js:39-50 | the method produces `NextPage`'s state and request |
| `CursorPaging.LazyLoadContactsLds.LoadMore` | force-app/main/default/lwc/lazyLoadContactsLds/lazyLoadContactsLds.js:56-65 | the callback produces `PageDelivered`'s state |
| `CursorPaging.LazyLoadContactsLds.HandleSearchChange` | force-app/main/default/lwc/lazyLoadContactsLds/lazyLoadContactsLds.js:67-78 | the handler produces `SearchChange`'s state |

## Left out

- Apex methods and the wire adapter (`fetchContacts`, `getTotalCount`, `getListUi`): foreign calls. Their results are parameters (`Settled` values, `WireResult`s). The end-to-end lemmas assume an honest backend.
- LWC reactivity (`@track`, `@wire`) and how `$pageParams.pageToken` re-triggers the paged wire: platform machinery. `loadMore` is an event that delivers data, an error or neither, in any state.
- The direct `this.loadMore()` call in `loadNextPage` (lazyLoadContactsLds.js:52): it passes no argument, so it would throw when it destructures. `LoadNextPage` stops after setting `pageParams`.
- DOM events: scroll measurements are integers and input values are strings. Fractional scroll values are floating point.
- Timers: `setTimeout`/`clearTimeout` and the 500 ms delay. The debounce is a single pending slot plus a firing event.
- `console.error` logging.
- Interleaving inside one synchronous handler. Each start or finish step is atomic, as it is on the single JavaScript thread.
- Unicode `toLowerCase`: `Text.Lower` lowers ASCII letters only.
- The contact records' other fields: only `fields.Name.value` is read.
- Calling `connectedCallback` a second time (re-inserting the component): the event models start from one connection.
- A rejected `getTotalCount` in `initData` is an unhandled rejection. `InitFinish` models it only as "no load starts".
- `CursorPaging.PageSize` is only passed to the wire adapter. No page's length is checked, so no property depends on it.
- An honest-backend theorem for cursor paging (a token chain through a remote list) is not stated. The cursor model proves the per-step contracts, the token invariant and the growth of the list.
