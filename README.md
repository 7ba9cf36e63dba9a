# Vehicle dashboard: filter reconciliation and refetch controller

This project models the logic of the vehicle list page (`src/pages/Dashboard.tsx`)
in Dafny and proves properties of it. The page shows a paginated table of
vehicle records and three highlight cards with draft / pending / rejected
counts. Several independent inputs narrow the list:
- a quick-filter card (Draft, Pending Information or Rejected);
- a license-plate search box, sent on Enter;
- a date range;
- a vehicle type;
- minimum and maximum passenger capacities;
- explicit approval-status and vehicle-status selectors.

The controller merges these inputs into one flat request body. It decides what
each handler changes and what the page does with a response.

Files:

- `options.dfy`: `Option` (TypeScript's `undefined`/`null`), the `?? default` fallback, and "first defined of two".
- `payload.dfy`: the request that `fetchVehicles` sends:
  - `Filters` defines the filter object key by key; for a status key, an explicit selector wins over the quick-filter preset.
  - `BuildFilters` builds the object the way the source does: presets, then search/date/type/capacity, then selectors, each an overwriting write. It is proved to produce `Filters`.
  - `RequestBody` is `{page, size, sortBy, sortOrder, ...filters}`.
- `highlights.dfy`: the three cards and their defaulted counts.
- `controller.dfy`: the page state as a value:
  - one transition function per handler, and `Settle` for a finished fetch;
  - runs of events and the invariant they keep;
  - the effect's dependency list as a predicate (`RefetchDue`).
- `dashboard.dfy`: the component as a class. Its fields are the state and are updated in place by the handler methods. Each method is proved to match its transition in `Controller`. It also holds a short session that ends in a search.

`fetchVehicles` reads the range, type, capacities and statuses from the render's
closure, not from its parameters. The model makes that closure an explicit
`Snapshot` argument. The handler methods take that snapshot before they assign
anything, which models React applying state updates only after the handler
returns.

Where the code behaves differently from what its controls suggest, the model follows the code:

- Clear filters does not send an empty criteria set. The call at
  `src/pages/Dashboard.tsx:252` forces only the quick filter and the search to
  `""`. The range, type, capacities and explicit statuses come from the
  pre-clear closure. `ClearFiltersRequest` states what is sent, and
  `ClearFiltersCanSendStaleType` exhibits a run from a fresh page that sends
  a stale `vehicle_type`. Whenever that request carries a filter key, or a
  quick filter was selected, one of the effect's dependencies has just been
  reset, so the effect sends a second request with the cleared values
  (`ClearFiltersTriggersRefetch`). The table ends up showing whichever
  response arrives last.
- A table page or sort change fetches that page but never stores it
  (`handleTableChange` does not call `setPagination`). So in every reachable
  state the stored pagination is page 1 of 10 (`Inv`, `RunKeepsInv`). As a
  consequence, the clear-filters request does ask for page 1.
- The toggle compares the clicked card with `selectedCard`, not with `filter`.
  The two are always equal (`Inv`).
- The committed search (`searchTerm`, written at `src/pages/Dashboard.tsx:242`
  and `:327`) is never read by any request. The Enter handler, a table change
  and the effect all send the text currently in the search box (`inputValue`).
  So text typed without pressing Enter goes out with the next page, sort or
  filter change (`HandleIgnoresSearchTerm`, `RunIgnoresSearchTerm`).
- The vehicle type is any string. The code checks only that it is non-empty.

## Model

| member | source | states |
|---|---|---|
| `Payload.Filters` | src/pages/Dashboard.tsx:88-128 | the filter object holds only filter keys, each with its last-written value and absent when never written |
| `Payload.BuildFilters` | src/pages/Dashboard.tsx:87-128 | the successive conditional writes produce exactly the key-by-key filter object |
| `Payload.WritePresets` | src/pages/Dashboard.tsx:90-99 | the card block writes the card's preset status keys over whatever was there and leaves every other key alone |
| `Payload.WriteControls` | src/pages/Dashboard.tsx:101-120 | the search/date/type/capacity block writes each key whose input is present and leaves the rest alone |
| `Payload.WriteSelectors` | src/pages/Dashboard.tsx:122-128 | a defined explicit selector overwrites its status key; an undefined one leaves it |
| `Payload.EntryIsLastWrite` | src/pages/Dashboard.tsx:91-128 | each key's final value comes from the last layer that defines it: selectors over inputs over presets |
| `Payload.QuickFilterPresets` | src/pages/Dashboard.tsx:91-99 | with no selector: Draft gives approval 0 and no vehicle status; Rejected gives 3 and 0; Pending Information gives 2 and 0; any other string gives neither key |
| `Payload.ExplicitSelectorsWin` | src/pages/Dashboard.tsx:122-128 | a defined selector decides its status key whatever the card; an undefined one leaves the card's preset (or no key) |
| `Payload.RejectedWithInactiveSelector` | src/pages/Dashboard.tsx:93-128 | Rejected with vehicle status 1 asks for approval 3 and vehicle status 1 |
| `Payload.SearchKeyOnlyWhenNonEmpty` | src/pages/Dashboard.tsx:101-103 | `license_plate` is present iff the search is non-empty, and then carries the search text |
| `Payload.DateKeysOnlyWithRange` | src/pages/Dashboard.tsx:105-108 | both date keys are present iff a range is picked; each carries its bound, undefined for a cleared bound |
| `Payload.TypeAndCapacityPassThrough` | src/pages/Dashboard.tsx:110-120 | `vehicle_type` is present iff the type is non-empty; each capacity key is present iff that capacity is defined (0 included) and carries it unchanged, with no min ≤ max check |
| `Payload.NamesAreDistinct` | src/pages/Dashboard.tsx:131-137 | distinct keys have distinct property names, and no filter property name is one of page, size, sortBy, sortOrder |
| `Payload.RequestBodyFields` | src/pages/Dashboard.tsx:131-137 | the body always carries page, size, sortBy and sortOrder from the pagination and sorter; the spread adds every filter entry and cannot override those four |
| `Highlights.CountOf` | src/pages/Dashboard.tsx:257-265 | a count shows its reported value, and 0 when the response, its data or the field is missing |
| `Highlights.CardsData` | src/pages/Dashboard.tsx:255-268 | three cards in the order Draft, Pending Information, Rejected, each with its count or 0 |
| `Highlights.EveryCardSelectsAPreset` | src/pages/Dashboard.tsx:255-268 | every card's description is a quick filter whose selection (with no approval selector set) puts an approval status in the request |
| `Controller.SettleOutcome` | src/pages/Dashboard.tsx:146-157 | success replaces the records (none if absent) and sets the total (0 if absent), keeping page and size; failure changes nothing but the spinner; the spinner is off afterwards |
| `Controller.CardClickToggles` | src/pages/Dashboard.tsx:211-224 | clicking the selected card deselects it; clicking another selects it; the range and the search box are cleared and the spinner is on; nothing else changes, the committed search included |
| `Controller.CardClickTwiceClearsSelection` | src/pages/Dashboard.tsx:211-224 | clicking the same unselected card twice leaves no quick filter selected |
| `Controller.ClearFiltersResets` | src/pages/Dashboard.tsx:240-253 | all filter fields and both search texts are reset and the spinner is on; the handler sends exactly one request, built from the stored pagination, no sorter, quick filter "" and search "" |
| `Controller.ClearFiltersRequest` | src/pages/Dashboard.tsx:240-253 | that request asks for page 1 of 10 with no search and no sorter; each filter key is exactly what the pre-clear closure gives it with no quick filter (statuses from the selectors with their values, type, both date keys, capacities) |
| `Controller.ClearFiltersCanSendStaleType` | src/pages/Dashboard.tsx:240-253 | on a fresh page, choosing type Bus and then clearing sends one request, and it carries `vehicle_type` Bus |
| `Controller.ClearFiltersTriggersRefetch` | src/pages/Dashboard.tsx:186-195 | when the clear request carries any filter key, or a quick filter was selected, a dependency of the effect changed, so a second fetch follows |
| `Controller.SearchCommit` | src/pages/Dashboard.tsx:324-329 | Enter sends one request with the current filter and the uncommitted text (`license_plate` iff that text is non-empty), commits the text and turns the spinner on; any other key does nothing |
| `Controller.TableChangeRequest` | src/pages/Dashboard.tsx:202-209 | a table change sends the body built from the requested page and sort, the current quick filter, the closure and the search-box text (`license_plate` iff it is non-empty, carrying it), and leaves the stored pagination as it was |
| `Controller.HandleIgnoresSearchTerm` | src/pages/Dashboard.tsx:184-329 | every handler sends the same request, and reaches the same state up to the committed search, whatever that committed search holds |
| `Controller.RunIgnoresSearchTerm` | src/pages/Dashboard.tsx:184-329 | over any run of events, the committed search makes no difference to the requests sent |
| `Controller.TypingAloneSendsNothing` | src/pages/Dashboard.tsx:376-381 | any run of text changes and non-Enter keys sends no request and changes nothing but the uncommitted text |
| `Controller.HandleKeepsInv` | src/pages/Dashboard.tsx:211-253 | every event keeps `filter == selectedCard` and the stored page 1 of 10 |
| `Controller.RunKeepsInv` | src/pages/Dashboard.tsx:49-76 | the invariant holds after any run of events from a state that has it |
| `Controller.InitialSatisfiesInv` | src/pages/Dashboard.tsx:49-76 | the initial state has the invariant |
| `Controller.HandleSendsFullBody` | src/pages/Dashboard.tsx:131-137 | every request a handler sends carries page, size, sortBy and sortOrder |
| `Controller.RunRequestsCarryPaging` | src/pages/Dashboard.tsx:131-137 | every request in any run carries page, size, sortBy and sortOrder |
| `Controller.TypingDoesNotRefetch` | src/pages/Dashboard.tsx:186-195 | typing changes no effect dependency |
| `Controller.SearchCommitDoesNotRefetch` | src/pages/Dashboard.tsx:186-195 | committing a search changes no effect dependency, so the Enter request is the only one |
| `Controller.CardClickRefetches` | src/pages/Dashboard.tsx:186-195 | a card click always changes the quick filter, so the effect always fetches after it |
| `Controller.EditRefetchesWhenChanged` | src/pages/Dashboard.tsx:186-195 | a filter control change triggers the effect iff it changes its field's value |
| `DashboardPage.Dashboard.constructor` | src/pages/Dashboard.tsx:49-76 | the fields start at the initial state, which has the invariant |
| `DashboardPage.Dashboard.FetchVehicles` | src/pages/Dashboard.tsx:84-137 | turns the spinner on and returns the body built from the arguments and the closure snapshot |
| `DashboardPage.Dashboard.CompleteFetch` | src/pages/Dashboard.tsx:146-157 | the fields become `Settle` of the old state; keeps the invariant |
| `DashboardPage.Dashboard.HandleCardClick` | src/pages/Dashboard.tsx:211-224 | the fields become `CardClick` of the old state; keeps the invariant |
| `DashboardPage.Dashboard.HandleClearFilters` | src/pages/Dashboard.tsx:240-253 | the fields become `ClearFilters` of the old state, and the request is the one it sends |
| `DashboardPage.Dashboard.HandleInputChange` | src/pages/Dashboard.tsx:376-381 | only the uncommitted text changes |
| `DashboardPage.Dashboard.HandleSearch` | src/pages/Dashboard.tsx:324-329 | the fields and request are those of `KeyDown` on the old state |
| `DashboardPage.Dashboard.HandleTableChange` | src/pages/Dashboard.tsx:202-209 | the fields and request are those of `TableChange` on the old state |
| `DashboardPage.Dashboard.HandleFilterEdit` | src/pages/Dashboard.tsx:383-464 | each control sets its own field and nothing else |
| `DashboardPage.RejectedInactiveSearch` | src/pages/Dashboard.tsx:87-137 | on a fresh page, selecting Inactive, clicking Rejected and searching a plate sends approval 3, vehicle status 1, that plate, page 1, size 10 |

## Left out

- The network and JSON: the `fetch` calls and response parsing (`src/pages/Dashboard.tsx:139-150`) are I/O. A response is an input (`Response`).
  - The model keeps a key whose value is undefined, such as a cleared date bound or an absent sorter field, in the request object. It does not model `JSON.stringify` dropping such keys on the wire.
- The highlights fetch (`src/pages/Dashboard.tsx:161-181`) and the `highlights` state field: `CardsData` takes the last highlights response as a parameter. The count's `toString()` for display is not modelled.
- The effect at `src/pages/Dashboard.tsx:160-195`:
  - its refetches are not issued in the model, so a run lists only the requests that handlers send (for example, the follow-up fetch after clearing is stated by `ClearFiltersTriggersRefetch` but is not in the run's request list);
  - which state changes trigger it is modelled by `RefetchDue`;
  - `RefetchDue` compares values, whereas React compares `dateRange` by reference, so re-picking an identical range triggers a refetch that the model does not count.
- React scheduling: state updates take effect together after the handler. The handler methods capture the closure snapshot first instead of modelling batching.
- Overlapping fetches: settlements are events that may come in any order, but a settlement is not tied to the request that caused it. The race between responses and the shared spinner are not analysed further.
- `Number(...)` parsing of the capacity inputs and status selects (`src/pages/Dashboard.tsx:422-458`): values are integers, and NaN is not modelled.
- `HandleFilterEdit`: clearing an approval or vehicle-status select is not modelled. It stores `Number(undefined)`, which is NaN rather than undefined, so such a key would still be sent. Only Clear filters resets these selectors to undefined.
- moment/dayjs conversions and `valueOf()`: date bounds are optional integer timestamps.
- Rendering: the spinner and "No data available." early returns, the cards, inputs, the table, `columns` and the trip string.
- `console.error` diagnostics.
- `SettleOutcome`: a body whose `data.result` is present but not an array (kept by `|| []`) is not modelled; a response has either a list of records or none.
- vite.config.ts: development-server proxy settings only, no logic.
