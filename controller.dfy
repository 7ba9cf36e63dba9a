/**
 * The vehicle list page's state and its transitions, one per user action or
 * network completion, as values. Each transition that calls `fetchVehicles`
 * also yields the request body that call sends.
 */
module Controller {
  import opened Options
  import opened Payload

  datatype Trip = Trip(from: string, to: string)

  /** A vehicle record as the server reports it; the page never looks inside. */
  datatype Vehicle = Vehicle(
    id: string, approvalStatus: string, contactNumber: string, countryCode: string,
    ctime: int, driver: string, licensePlate: string, mtime: int, passengerCapacity: int,
    trips: seq<Trip>, vehicleOwner: string, vehicleStatus: string, vehicleType: string)

  /**
   * How a list fetch ends: the request or the body parsing threw, the status
   * was not ok, or the body arrived with possibly missing `data.result` and
   * `data.total`.
   */
  datatype Response = Failed | NotOk(status: int) | Ok(result: Option<seq<Vehicle>>, total: Option<int>)

  /** The component's state fields that the list controller reads and writes. */
  datatype State = State(
    inputValue: string,
    vehicles: seq<Vehicle>,
    loading: bool,
    pagination: Pagination,
    filter: string,
    selectedCard: string,
    searchTerm: string,
    dateRange: Option<DateRange>,
    vehicleType: Option<string>,
    minCapacity: Option<int>,
    maxCapacity: Option<int>,
    approvalStatus: Option<int>,
    vehicleStatus: Option<int>)

  /** The state on mount: first page of ten, nothing selected, spinner on. */
  const Initial := State("", [], true, Pagination(1, 10, None), "", "", "", None, None, None, None, None, None)

  /** The fields `fetchVehicles` reads from its closure. */
  function Closure(s: State): Snapshot {
    Snapshot(s.dateRange, s.vehicleType, s.minCapacity, s.maxCapacity, s.approvalStatus, s.vehicleStatus)
  }

  /** A transition's new state and the request it sends, if any. */
  datatype Step = Step(next: State, request: Option<Request>)

  /**
   * The synchronous part of `fetchVehicles(pagination, sorter, filter,
   * searchTerm)`: switch the spinner on and send the body built from the
   * arguments and the closure.
   */
  function Fetch(s: State, p: Pagination, sorter: Sorter, filter: string, searchTerm: string): Step {
    Step(s.(loading := true), Some(RequestBody(p, sorter, Filters(Closure(s), filter, searchTerm))))
  }

  /**
   * The rest of `fetchVehicles`, once the response is in: on success replace
   * the records and the total, defaulting to none and 0; on any failure keep
   * them; either way switch the spinner off.
   */
  function Settle(s: State, response: Response): State {
    match response
    case Ok(result, total) =>
      s.(vehicles := GetOr(result, []),
         pagination := s.pagination.(total := Some(GetOr(total, 0))),
         loading := false)
    case _ => s.(loading := false)
  }

  /**
   * `handleCardClick`: clear the range and the search box, then deselect the
   * card if it was the selected one, otherwise select it; spinner on.
   */
  function CardClick(s: State, description: string): State {
    var cleared := s.(dateRange := None, inputValue := "");
    var toggled :=
      if s.selectedCard == description then cleared.(selectedCard := "", filter := "")
      else cleared.(selectedCard := description, filter := description);
    toggled.(loading := true)
  }

  /**
   * `handleClearFilters`: reset every filter field and the search text, and
   * fetch with quick filter and search "" — but with the range, type,
   * capacities and statuses the closure still holds from before the reset.
   */
  function ClearFilters(s: State): Step {
    var issued := Fetch(s, s.pagination, EmptySorter, "", "");
    var reset := s.(inputValue := "", searchTerm := "", dateRange := None, vehicleType := None,
                    minCapacity := None, maxCapacity := None, approvalStatus := None,
                    vehicleStatus := None, filter := "", selectedCard := "", loading := true);
    Step(reset, issued.request)
  }

  /** Typing in the search box: only the uncommitted text changes. */
  function InputChange(s: State, text: string): State {
    s.(inputValue := text)
  }

  /**
   * `handleSearch`: on Enter, fetch with the current filter and the
   * uncommitted text, then commit that text; any other key does nothing.
   */
  function KeyDown(s: State, key: string): Step {
    if key == "Enter" then
      var issued := Fetch(s, s.pagination, EmptySorter, s.filter, s.inputValue);
      Step(issued.next.(searchTerm := s.inputValue), issued.request)
    else
      Step(s, None)
  }

  /**
   * `handleTableChange`: fetch the page and sort the table asks for, with the
   * uncommitted search text; the stored pagination is left as it was.
   */
  function TableChange(s: State, p: Pagination, sorter: Sorter): Step {
    Fetch(s.(loading := true), p, sorter, s.filter, s.inputValue)
  }

  /**
   * A change in one of the filter controls next to the search box. The range
   * picker, the type select and the capacity inputs can also be cleared
   * (`None`); the two status selects carry the option picked.
   */
  datatype FilterEdit =
    | RangePicked(range: Option<DateRange>)
    | TypeSelected(vehicleType: Option<string>)
    | MinCapacityEntered(min: Option<int>)
    | MaxCapacityEntered(max: Option<int>)
    | ApprovalSelected(approval: int)
    | VehicleStatusSelected(status: int)

  /** Each control sets its own field and nothing else. */
  function Edit(s: State, e: FilterEdit): State {
    match e
    case RangePicked(r) => s.(dateRange := r)
    case TypeSelected(t) => s.(vehicleType := t)
    case MinCapacityEntered(n) => s.(minCapacity := n)
    case MaxCapacityEntered(n) => s.(maxCapacity := n)
    case ApprovalSelected(a) => s.(approvalStatus := Some(a))
    case VehicleStatusSelected(v) => s.(vehicleStatus := Some(v))
  }

  /** Everything that can happen to the page. */
  datatype Event =
    | CardClicked(description: string)
    | ClearClicked
    | InputChanged(text: string)
    | KeyPressed(key: string)
    | TableChanged(pagination: Pagination, sorter: Sorter)
    | FilterEdited(edit: FilterEdit)
    | FetchSettled(response: Response)

  function Handle(s: State, e: Event): Step {
    match e
    case CardClicked(d) => Step(CardClick(s, d), None)
    case ClearClicked => ClearFilters(s)
    case InputChanged(text) => Step(InputChange(s, text), None)
    case KeyPressed(key) => KeyDown(s, key)
    case TableChanged(p, sorter) => TableChange(s, p, sorter)
    case FilterEdited(edit) => Step(Edit(s, edit), None)
    case FetchSettled(response) => Step(Settle(s, response), None)
  }

  /** The state after a run of events and the requests the handlers sent, in order. */
  datatype Trace = Trace(last: State, requests: seq<Request>)

  function Run(s: State, events: seq<Event>): Trace
    decreases |events|
  {
    if events == [] then Trace(s, [])
    else
      var step := Handle(s, events[0]);
      var rest := Run(step.next, events[1..]);
      Trace(rest.last, (if step.request.Some? then [step.request.value] else []) + rest.requests)
  }

  /**
   * What every reachable state satisfies: the card highlight and the quick
   * filter are one selection, and the stored page is the first page of ten
   * (no handler writes `current` or `pageSize`).
   */
  ghost predicate Inv(s: State) {
    s.filter == s.selectedCard && s.pagination.current == 1 && s.pagination.pageSize == 10
  }

  /**
   * The effect's dependency list: a change to any of these fields between two
   * renders makes the page fetch again (through the effect, not a handler).
   */
  predicate RefetchDue(a: State, b: State) {
    a.dateRange != b.dateRange || a.filter != b.filter
    || a.pagination.current != b.pagination.current || a.vehicleType != b.vehicleType
    || a.minCapacity != b.minCapacity || a.maxCapacity != b.maxCapacity
    || a.approvalStatus != b.approvalStatus || a.vehicleStatus != b.vehicleStatus
  }

  // Properties of the transitions.

  /**
   * On success the records become the result (none when absent) and the total
   * the reported one (0 when absent), the other pagination fields kept; on a
   * non-ok status or an error nothing but the spinner changes; the spinner is
   * off afterwards in every case.
   */
  lemma SettleOutcome(s: State, response: Response)
    ensures var t := Settle(s, response);
      && !t.loading
      && (response.Ok? ==>
            && t.vehicles == (if response.result.Some? then response.result.value else [])
            && t.pagination.total == Some(if response.total.Some? then response.total.value else 0)
            && t.pagination.current == s.pagination.current
            && t.pagination.pageSize == s.pagination.pageSize)
      && (!response.Ok? ==> t == s.(loading := false))
      && t.(vehicles := s.vehicles, pagination := s.pagination, loading := s.loading) == s
  {
  }

  /**
   * Clicking the selected card deselects it, clicking any other selects it;
   * either way the range and the search box are cleared, the spinner is on,
   * and nothing else — the committed search included — changes.
   */
  lemma CardClickToggles(s: State, description: string)
    ensures var t := CardClick(s, description);
      && (s.selectedCard == description ==> t.selectedCard == "" && t.filter == "")
      && (s.selectedCard != description ==> t.selectedCard == description && t.filter == description)
      && t.dateRange.None? && t.inputValue == "" && t.loading
      && t.searchTerm == s.searchTerm
      && t.(selectedCard := s.selectedCard, filter := s.filter, dateRange := s.dateRange,
            inputValue := s.inputValue, loading := s.loading) == s
  {
  }

  /** Clicking the same card twice leaves no quick filter selected. */
  lemma CardClickTwiceClearsSelection(s: State, description: string)
    requires s.selectedCard != description
    ensures var t := CardClick(CardClick(s, description), description);
      t.selectedCard == "" && t.filter == "" && t.dateRange.None? && t.inputValue == ""
  {
  }

  /**
   * Clearing resets the nine filter fields and the search text and sends
   * exactly one request: paging from the stored pagination (the first page of
   * ten in every reachable state), no sorter, no search and no quick-filter
   * preset, and only the keys the pre-clear range, type, capacities and
   * explicit selectors put there.
   */
  lemma ClearFiltersResets(s: State)
    ensures var step := ClearFilters(s);
      && step.next.inputValue == "" && step.next.searchTerm == ""
      && step.next.filter == "" && step.next.selectedCard == ""
      && step.next.dateRange.None? && step.next.vehicleType.None?
      && step.next.minCapacity.None? && step.next.maxCapacity.None?
      && step.next.approvalStatus.None? && step.next.vehicleStatus.None?
      && step.next.loading
      && step.request == Some(RequestBody(s.pagination, EmptySorter, Filters(Closure(s), "", "")))
  {
  }

  /** What the clear-filters request carries, key by key. */
  lemma ClearFiltersRequest(s: State)
    requires Inv(s)
    ensures var r := ClearFilters(s).request.value;
      && r[Page] == Int(1) && r[Size] == Int(10)
      && r[SortBy] == Undefined && r[SortOrder] == Undefined
      && LicensePlate !in r
      && (ApprovalStatus in r <==> s.approvalStatus.Some?)
      && (VehicleStatus in r <==> s.vehicleStatus.Some?)
      && (VehicleType in r <==> s.vehicleType.Some? && s.vehicleType.value != "")
      && (MtimeFrom in r <==> s.dateRange.Some?) && (MtimeTo in r <==> s.dateRange.Some?)
      && (s.approvalStatus.Some? ==> r[ApprovalStatus] == Int(s.approvalStatus.value))
      && (s.vehicleStatus.Some? ==> r[VehicleStatus] == Int(s.vehicleStatus.value))
      && (forall k :: k in FilterKeys ==> Lookup(r, k) == Entry(Closure(s), "", "", k))
  {
    var f := Filters(Closure(s), "", "");
    RequestBodyFields(s.pagination, EmptySorter, f);
    SearchKeyOnlyWhenNonEmpty(Closure(s), "", "");
    ExplicitSelectorsWin(Closure(s), "", "");
    TypeAndCapacityPassThrough(Closure(s), "", "");
    DateKeysOnlyWithRange(Closure(s), "", "");
  }

  /**
   * So the clear-filters request is not always free of filter keys: on a
   * fresh page, choosing a type and then clearing sends one request, and it
   * still asks for that type.
   */
  lemma ClearFiltersCanSendStaleType()
    ensures var t := Run(Initial, [FilterEdited(TypeSelected(Some("Bus"))), ClearClicked]);
      && |t.requests| == 1
      && VehicleType in t.requests[0] && t.requests[0][VehicleType] == Str("Bus")
  {
    var s := Run(Initial, [FilterEdited(TypeSelected(Some("Bus")))]).last;
    assert s == Initial.(vehicleType := Some("Bus"));
    TypeAndCapacityPassThrough(Closure(s), "", "");
    RequestBodyFields(s.pagination, EmptySorter, Filters(Closure(s), "", ""));
    var events := [FilterEdited(TypeSelected(Some("Bus"))), ClearClicked];
    assert events[1..] == [ClearClicked];
    assert events[1..][1..] == [];
  }

  /**
   * And because such a request means some dependency of the effect has just
   * been reset, the effect follows it with a second fetch using the cleared
   * values; so does a reset quick filter. Whichever response settles last is
   * what the table shows.
   */
  lemma ClearFiltersTriggersRefetch(s: State)
    ensures (exists k :: k in FilterKeys && k in ClearFilters(s).request.value) ==> RefetchDue(s, ClearFilters(s).next)
    ensures s.filter != "" ==> RefetchDue(s, ClearFilters(s).next)
  {
    var r := ClearFilters(s).request.value;
    if k :| k in FilterKeys && k in r {
      RequestBodyFields(s.pagination, EmptySorter, Filters(Closure(s), "", ""));
      assert Lookup(Filters(Closure(s), "", ""), k).Some?;
    }
  }

  /**
   * Enter sends one request built from the current filter and the uncommitted
   * text (`license_plate` exactly when that text is non-empty), commits the
   * text and turns the spinner on; any other key changes nothing and sends
   * nothing.
   */
  lemma SearchCommit(s: State, key: string)
    ensures var step := KeyDown(s, key);
      && (key == "Enter" ==>
            && step.next == s.(searchTerm := s.inputValue, loading := true)
            && step.request == Some(RequestBody(s.pagination, EmptySorter, Filters(Closure(s), s.filter, s.inputValue)))
            && (LicensePlate in step.request.value <==> s.inputValue != "")
            && (s.inputValue != "" ==> step.request.value[LicensePlate] == Str(s.inputValue)))
      && (key != "Enter" ==> step == Step(s, None))
  {
    if key == "Enter" {
      var f := Filters(Closure(s), s.filter, s.inputValue);
      RequestBodyFields(s.pagination, EmptySorter, f);
      SearchKeyOnlyWhenNonEmpty(Closure(s), s.filter, s.inputValue);
    }
  }

  /**
   * A table page or sort change asks for that page and sort with the
   * uncommitted search text, and leaves the stored pagination alone.
   */
  lemma TableChangeRequest(s: State, p: Pagination, sorter: Sorter)
    ensures var step := TableChange(s, p, sorter);
      && step.next == s.(loading := true)
      && step.request == Some(RequestBody(p, sorter, Filters(Closure(s), s.filter, s.inputValue)))
      && step.request.value[Page] == Int(p.current) && step.request.value[Size] == Int(p.pageSize)
      && step.request.value[SortBy] == sorter.field && step.request.value[SortOrder] == sorter.order
      && (LicensePlate in step.request.value <==> s.inputValue != "")
      && (s.inputValue != "" ==> step.request.value[LicensePlate] == Str(s.inputValue))
  {
    var f := Filters(Closure(s), s.filter, s.inputValue);
    RequestBodyFields(p, sorter, f);
    SearchKeyOnlyWhenNonEmpty(Closure(s), s.filter, s.inputValue);
  }

  /**
   * The committed search is written but never read: every handler sends the
   * same request, and reaches the same state up to that field, whatever it
   * holds.
   */
  lemma HandleIgnoresSearchTerm(s: State, x: string, e: Event)
    ensures Handle(s.(searchTerm := x), e).request == Handle(s, e).request
    ensures Handle(s.(searchTerm := x), e).next == Handle(s, e).next.(searchTerm := Handle(s.(searchTerm := x), e).next.searchTerm)
  {
  }

  // Properties of runs of events.

  /**
   * Hence over any run the committed search makes no difference to what is
   * sent: only the text in the search box at the moment of a request counts.
   */
  lemma {:induction false} RunIgnoresSearchTerm(s: State, x: string, events: seq<Event>)
    ensures Run(s.(searchTerm := x), events).requests == Run(s, events).requests
    decreases |events|
  {
    if events != [] {
      var y := Handle(s.(searchTerm := x), events[0]).next.searchTerm;
      HandleIgnoresSearchTerm(s, x, events[0]);
      RunIgnoresSearchTerm(Handle(s, events[0]).next, y, events[1..]);
    }
  }

  predicate IsTyping(e: Event) {
    e.InputChanged? || (e.KeyPressed? && e.key != "Enter")
  }

  /**
   * Typing, and pressing keys other than Enter, sends nothing and changes
   * nothing but the uncommitted text — in particular never the committed search.
   */
  lemma {:induction false} TypingAloneSendsNothing(s: State, events: seq<Event>)
    requires forall i :: 0 <= i < |events| ==> IsTyping(events[i])
    ensures Run(s, events).requests == []
    ensures Run(s, events).last.(inputValue := s.inputValue) == s
    decreases |events|
  {
    if events != [] {
      var step := Handle(s, events[0]);
      assert IsTyping(events[0]);
      assert step.request.None? && step.next.(inputValue := s.inputValue) == s;
      TypingAloneSendsNothing(step.next, events[1..]);
    }
  }

  /** Every handler keeps the invariant. */
  lemma HandleKeepsInv(s: State, e: Event)
    requires Inv(s)
    ensures Inv(Handle(s, e).next)
  {
  }

  /** The invariant holds on mount and after any run of events. */
  lemma {:induction false} RunKeepsInv(s: State, events: seq<Event>)
    requires Inv(s)
    ensures Inv(Run(s, events).last)
    decreases |events|
  {
    if events != [] {
      HandleKeepsInv(s, events[0]);
      RunKeepsInv(Handle(s, events[0]).next, events[1..]);
    }
  }

  lemma InitialSatisfiesInv()
    ensures Inv(Initial)
  {
  }

  /** A request a handler sends carries page, size, sortBy and sortOrder. */
  lemma HandleSendsFullBody(s: State, e: Event)
    ensures Handle(s, e).request.Some? ==> BodyKeys <= Handle(s, e).request.value.Keys
  {
    match e
    case ClearClicked =>
      RequestBodyFields(s.pagination, EmptySorter, Filters(Closure(s), "", ""));
    case KeyPressed(key) =>
      RequestBodyFields(s.pagination, EmptySorter, Filters(Closure(s), s.filter, s.inputValue));
    case TableChanged(p, sorter) =>
      RequestBodyFields(p, sorter, Filters(Closure(s), s.filter, s.inputValue));
    case _ =>
  }

  /** Every request any run sends carries page, size, sortBy and sortOrder. */
  lemma {:induction false} RunRequestsCarryPaging(s: State, events: seq<Event>)
    ensures forall i :: 0 <= i < |Run(s, events).requests| ==> BodyKeys <= Run(s, events).requests[i].Keys
    decreases |events|
  {
    if events != [] {
      var step := Handle(s, events[0]);
      HandleSendsFullBody(s, events[0]);
      RunRequestsCarryPaging(step.next, events[1..]);
    }
  }

  // Which transitions the effect answers with a fetch of its own.

  /** Typing changes no dependency, so the effect does not fetch. */
  lemma TypingDoesNotRefetch(s: State, text: string)
    ensures !RefetchDue(s, InputChange(s, text))
  {
  }

  /**
   * Committing a search changes no dependency either: the committed term is
   * not on the list, so the Enter handler's own request is the only one.
   */
  lemma SearchCommitDoesNotRefetch(s: State)
    ensures !RefetchDue(s, KeyDown(s, "Enter").next)
  {
  }

  /**
   * A card click always changes the quick filter, so the effect always
   * fetches after it (with the cleared range and search box).
   */
  lemma CardClickRefetches(s: State, description: string)
    requires Inv(s) && description != ""
    ensures RefetchDue(s, CardClick(s, description))
  {
  }

  /** A control change makes the effect fetch exactly when it changes the field's value. */
  lemma EditRefetchesWhenChanged(s: State, e: FilterEdit)
    ensures RefetchDue(s, Edit(s, e)) <==> Edit(s, e) != s
  {
  }
}
