# Status row interaction state

A model of `StatusRowViewModel`, the object a social-network client keeps for each status
it displays. It mirrors the status's engagement locally (favourited, reblogged, pinned and
bookmarked flags; favourite, reblog and reply counts), derives display state (spoiler shown,
filtered, where "open detail" leads), resolves a status quoted in the body, and runs the
engagement toggles. Each toggle checks that an authenticated client is attached. It then
changes the mirror optimistically and posts a request for the reblogged original, or for the
status itself when it is not a reblog. On success it reconciles the mirror from the status the
server returns; on failure it undoes the optimistic change.

Modules:

- `Wrappers`: `Option`, and `Outcome` for an awaited call that returns a value or throws.
- `Models`: `Status`, `Filtered`, `Url`.
- `Network`: the client (`server`, `isAuth`), endpoints and requests.
- `SwiftInt`: Swift's `Int(String)` and `String(Int)` on 64-bit integers.
- `Interaction`: the rules on values. These are the reblog-aware extraction, the filter,
  the spoiler, one toggle step (`Toggle`) and the request each toggle or embed lookup sends.
- `InteractionLemmas`: properties of those rules. They cover a single toggle, any sequence
  of toggles (`Run`) and the embed lookup.
- `Row`: the class `StatusRowViewModel`. Its fields are the source's stored properties. Its
  methods assign them in place, in the order the source does, and are proved against the
  functions of `Interaction`. Three caller methods show what the contracts let a caller
  conclude.

Each network call is an `Outcome` parameter of the method that makes it. The request the
method sends is its result (`None` when it sends none). Other foreign calls are parameters:
`URL(string:)`, `findStatusesURLs` on the body and `client.hasConnection(with:)`. A
`Url` carries its `absoluteString` and `lastPathComponent` as given. The router is not
modelled: `NavigateToDetail` returns the destination it would hand to the router.

The pin, unpin, bookmark and unbookmark success path calls `updateFromStatus` (for example
Packages/Status/Sources/Status/Row/StatusRowViewModel.swift:162). That call overwrites all three counts from the server's status. So these toggles leave
the counts alone only in their optimistic change and on failure, and the model follows the code.

## Model

| member | source | states |
|---|---|---|
| `Interaction.Extract` | Packages/Status/Sources/Status/Row/StatusRowViewModel.swift:43-56 | flags and counts come from the reblog when there is one, else from the status; a missing flag reads as false |
| `InteractionLemmas.ExtractIgnoresWrapper` | Packages/Status/Sources/Status/Row/StatusRowViewModel.swift:43-56 | for a reblog, the wrapper's own flags, counts and id are never read: any wrapper of the same original gives the same mirror and target id |
| `Interaction.FilterOf` | Packages/Status/Sources/Status/Row/StatusRowViewModel.swift:26-28 | present iff the reblog's filter list has a first element or the outer status's does; the reblog's first filter wins, the outer one is used only when the reblog has none |
| `Interaction.DisplaysSpoiler` | Packages/Status/Sources/Status/Row/StatusRowViewModel.swift:57 | the spoiler is shown iff the reblog-or-self spoiler text is non-empty |
| `Interaction.Optimistic` | Packages/Status/Sources/Status/Row/StatusRowViewModel.swift:107-108 | the optimistic change sets the action's flag to the requested value, moves the favourite count by +1/-1 for favourite/unfavourite and the reblog count by +1/-1 for reblog/unreblog, and changes nothing else; pin and bookmark change only their flag |
| `Interaction.Undo` | Packages/Status/Sources/Status/Row/StatusRowViewModel.swift:113-114 | the failure path sets the action's flag opposite to the requested value, moves the same count back by one, and changes nothing else |
| `Interaction.TargetId` | Packages/Status/Sources/Status/Row/StatusRowViewModel.swift:67 | the id is the reblog's id when there is a reblog, else the status's own id |
| `Interaction.ToggleRequest` | Packages/Status/Sources/Status/Row/StatusRowViewModel.swift:106-110 | a request is sent iff the client is attached and authenticated; it is a v1 post to the action's endpoint keyed by the reblog's id, or by the status's id when not a reblog |
| `Interaction.Toggle` | Packages/Status/Sources/Status/Row/StatusRowViewModel.swift:105-199 | no change without an authenticated client; on success the mirror is the extraction from the returned status; on failure the mirror is restored exactly, counts included, except that the flag ends opposite to what was asked |
| `InteractionLemmas.FailureRestoresIff` | Packages/Status/Sources/Status/Row/StatusRowViewModel.swift:112-115 | a failed toggle returns the mirror it started from iff the flag already held the failure value |
| `InteractionLemmas.FailedToggleIsIdempotent` | Packages/Status/Sources/Status/Row/StatusRowViewModel.swift:105-116 | repeating a failed toggle changes nothing further |
| `InteractionLemmas.SuccessForgetsPriorState` | Packages/Status/Sources/Status/Row/StatusRowViewModel.swift:111 | after a successful toggle the mirror depends only on the returned status, not on the action or the prior mirror |
| `InteractionLemmas.RunAppend` | Packages/Status/Sources/Status/Row/StatusRowViewModel.swift:105-199 | running two sequences of toggles one after the other equals running their concatenation |
| `InteractionLemmas.UnauthenticatedRunChangesNothing` | Packages/Status/Sources/Status/Row/StatusRowViewModel.swift:106-191 | without an authenticated client no sequence of toggles changes the mirror |
| `InteractionLemmas.FailedRunKeepsCounts` | Packages/Status/Sources/Status/Row/StatusRowViewModel.swift:112-198 | a sequence of toggles that all fail leaves all three counts where they were |
| `InteractionLemmas.CountsFollowLastSuccess` | Packages/Status/Sources/Status/Row/StatusRowViewModel.swift:105-223 | after any sequence of toggles, the counts are those of the last successful reply |
| `Interaction.Contains` | Packages/Status/Sources/Status/Row/StatusRowViewModel.swift:86 | substring containment: a contained string is no longer than the text, and every prefix and every suffix is contained |
| `Interaction.EmbedRequest` | Packages/Status/Sources/Status/Row/StatusRowViewModel.swift:72-95 | no request without a client, without found URLs, or without a connection for the first URL; a v1 fetch by id iff the URL contains the server and its last path component parses as an Int, and the id sent is `String` of that Int, which parses to the same number; otherwise a v2 search with type "statuses", offset 0, no following flag |
| `InteractionLemmas.CanonicalIdIsFetchedVerbatim` | Packages/Status/Sources/Status/Row/StatusRowViewModel.swift:86-87 | a same-server URL whose last component is a canonical decimal id is fetched by exactly that id |
| `InteractionLemmas.NumericSameServerSegmentIsFetchedById` | Packages/Status/Sources/Status/Row/StatusRowViewModel.swift:86-87 | a same-server URL whose last component is any run of digits within range, leading zeros allowed, is fetched by id, and the id sent is that number without leading zeros |
| `InteractionLemmas.ForeignUrlIsSearched` | Packages/Status/Sources/Status/Row/StatusRowViewModel.swift:86-93 | a URL not containing the server is always searched |
| `SwiftInt.ParseInt` | Packages/Status/Sources/Status/Row/StatusRowViewModel.swift:86 | `Int(s)` succeeds only on an optional sign followed by one or more digits within the 64-bit range, and its value is the digits' value, negated after a minus sign |
| `SwiftInt.ParseDigits` | Packages/Status/Sources/Status/Row/StatusRowViewModel.swift:86 | every non-empty digit run within range parses to its value, leading zeros included, bare or after `+`, and after `-` down to the smallest Int |
| `SwiftInt.NatDigits` | Packages/Status/Sources/Status/Row/StatusRowViewModel.swift:87 | the decimal digits of a natural number: non-empty, digits only, no leading zero |
| `SwiftInt.Describe` | Packages/Status/Sources/Status/Row/StatusRowViewModel.swift:87 | `String(n)` is non-empty and starts with a minus sign iff n is negative |
| `SwiftInt.ParseDescribe` | Packages/Status/Sources/Status/Row/StatusRowViewModel.swift:86-87 | parsing the printed form of a 64-bit integer gives that integer back |
| `Wrappers.First` | Packages/Status/Sources/Status/Row/StatusRowViewModel.swift:27 | `xs?.first` is present iff the list is present and non-empty, and is its first element |
| `Row.StatusRowViewModel.constructor` | Packages/Status/Sources/Status/Row/StatusRowViewModel.swift:32-60 | stores the arguments, with the source's defaults (not compact, not focused, not remote, actions shown); the mirror is the extraction from the status; spoiler and filtered flags as derived; no embed yet, loading, no client |
| `Interaction.DetailUrlText` | Packages/Status/Sources/Status/Row/StatusRowViewModel.swift:64 | the reblog's URL when there is a reblog with a URL, else the status's URL, else the empty string |
| `Row.StatusRowViewModel.NavigateToDetail` | Packages/Status/Sources/Status/Row/StatusRowViewModel.swift:62-69 | nothing when focused; the remote detail of the reblog-or-self URL when remote and the URL parses; otherwise the status detail of the reblog-or-self id |
| `Row.StatusRowViewModel.LoadEmbeddedStatus` | Packages/Status/Sources/Status/Row/StatusRowViewModel.swift:71-103 | sends the request `EmbedRequest` gives; loading ends false on every path; the embed is unchanged when nothing is sent or the request fails; it becomes the fetched status, or the first search result or none |
| `Row.StatusRowViewModel.Favourite` | Packages/Status/Sources/Status/Row/StatusRowViewModel.swift:105-116 | sends `ToggleRequest` for favourite; the mirror while the request is in flight is `Optimistic` of the mirror before the call, and the end mirror follows `Toggle`; a failed request ends unfavourited with the count as before |
| `Row.StatusRowViewModel.UnFavourite` | Packages/Status/Sources/Status/Row/StatusRowViewModel.swift:118-129 | as Favourite, with the failure ending favourited and the count as before |
| `Row.StatusRowViewModel.Reblog` | Packages/Status/Sources/Status/Row/StatusRowViewModel.swift:131-142 | as Favourite for the reblog flag and the reblog count |
| `Row.StatusRowViewModel.UnReblog` | Packages/Status/Sources/Status/Row/StatusRowViewModel.swift:144-155 | as UnFavourite for the reblog flag and the reblog count |
| `Row.StatusRowViewModel.Pin` | Packages/Status/Sources/Status/Row/StatusRowViewModel.swift:157-166 | sends `ToggleRequest` for pin; the mirror in flight is `Optimistic` of the prior mirror, and the end mirror follows `Toggle`; a failure changes nothing but the pinned flag, which ends false |
| `Row.StatusRowViewModel.UnPin` | Packages/Status/Sources/Status/Row/StatusRowViewModel.swift:168-177 | as Pin, with the failure leaving the pinned flag true |
| `Row.StatusRowViewModel.Bookmark` | Packages/Status/Sources/Status/Row/StatusRowViewModel.swift:179-188 | as Pin for the bookmarked flag |
| `Row.StatusRowViewModel.Unbookmark` | Packages/Status/Sources/Status/Row/StatusRowViewModel.swift:190-199 | as UnPin for the bookmarked flag |
| `Row.StatusRowViewModel.Delete` | Packages/Status/Sources/Status/Row/StatusRowViewModel.swift:201-206 | a delete of the outer status's id is sent iff a client is attached, authenticated or not; no field changes |
| `Row.StatusRowViewModel.UpdateFromStatus` | Packages/Status/Sources/Status/Row/StatusRowViewModel.swift:208-223 | the mirror becomes the extraction from the given status; only the seven mirrored fields may change |
| `Row.FavouriteConfirmedScenario` | Packages/Status/Sources/Status/Row/StatusRowViewModel.swift:105-111 | favouriting a status with 5 favourites leaves the row favourited with 6 while the request is pending, and still favourited with 6 once the server confirms 6 |
| `Row.FavouriteFailedScenario` | Packages/Status/Sources/Status/Row/StatusRowViewModel.swift:105-116 | a favourite that fails, twice in a row, ends unfavourited with 5 each time |
| `Row.PinReblogScenario` | Packages/Status/Sources/Status/Row/StatusRowViewModel.swift:157-161 | pinning a reblog of status 42 posts the pin for 42 |

## Left out

- Concurrency: `@MainActor`, `async`/`await`, `withAnimation` and `@Published` are not modelled. Each method is one sequential step. Each toggle returns as `pending` the mirror the object holds while its request is in flight, and its contract equates that with `Interaction.Optimistic` of the mirror before the call.
- Network client: `post`, `get`, `delete` and `hasConnection` are abstract. The outcome of each call is a parameter, and errors carry no payload because every kind is caught the same way.
- `findStatusesURLs`, `URL(string:)` and `lastPathComponent` are foreign. They are parameters, or fields of `Url`, and what they compute is not modelled.
- `Interaction.Contains`: models `String.contains` as plain substring search, so an empty server name counts as contained. The source's exact behaviour for an empty argument is not modelled. Swift compares by `Character`, under canonical equivalence; the model compares `char` by `char`.
- Count arithmetic: counts are unbounded integers. Swift traps when `+= 1` overflows `Int.max` or `-= 1` overflows `Int.min`, and neither trap is modelled.
- `Status.reblog` is `Option<Status>` here. The source has a separate reblog type without a nested reblog. The row reads only one level, so the extra nesting is never used.
- The router's state: `navigate(to:)` belongs to a collaborator outside this model, so `NavigateToDetail` returns the destination instead.
- Failure path of every toggle: the flag is set to a constant, the opposite of what the action asked for, not to the value it held before the call. The flag returns to its pre-call value only when it differed from what was asked; `InteractionLemmas.FailureRestoresIff` states exactly this. The counts are restored exactly.
- `Row.StatusRowViewModel.Pin`, `UnPin`, `Bookmark`, `Unbookmark`: the counts are unchanged only on the failure path and in the optimistic change. On success, `updateFromStatus` replaces them with the server's values, and the contracts say so through `Toggle`.
- The media preview and account header views are presentation code: layout in floating point, image loading, share sheets. They are not part of this model.
