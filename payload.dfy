/**
 * The request that `fetchVehicles` sends to the vehicle-list endpoint: the flat
 * filter object built by successive conditional writes, spread into a body that
 * always carries the paging and sorting fields.
 */
module Payload {
  import opened Options

  /** A JSON-ish value as it sits in the request object before serialisation. */
  datatype Value = Int(n: int) | Str(s: string) | Undefined

  /** The properties a request body can carry. */
  datatype Key =
    | Page | Size | SortBy | SortOrder
    | ApprovalStatus | VehicleStatus | LicensePlate | MtimeFrom | MtimeTo
    | VehicleType | CapacityMin | CapacityMax

  /** The JSON property name of each key. */
  function Name(k: Key): string {
    match k
    case Page => "page"
    case Size => "size"
    case SortBy => "sortBy"
    case SortOrder => "sortOrder"
    case ApprovalStatus => "approval_status"
    case VehicleStatus => "vehicle_status"
    case LicensePlate => "license_plate"
    case MtimeFrom => "mtime_from"
    case MtimeTo => "mtime_to"
    case VehicleType => "vehicle_type"
    case CapacityMin => "passenger_capacity_min"
    case CapacityMax => "passenger_capacity_max"
  }

  /** A request body or filter object: property to value. */
  type Request = map<Key, Value>

  /** A date range picked in the RangePicker; either bound may be cleared (null). */
  datatype DateRange = DateRange(from: Option<int>, to: Option<int>)

  /**
   * The component fields `fetchVehicles` reads from its closure rather than
   * from its parameters.
   */
  datatype Snapshot = Snapshot(
    dateRange: Option<DateRange>,
    vehicleType: Option<string>,
    minCapacity: Option<int>,
    maxCapacity: Option<int>,
    approvalStatus: Option<int>,
    vehicleStatus: Option<int>)

  /** The table's pagination config; `total` is absent until a fetch succeeds. */
  datatype Pagination = Pagination(current: int, pageSize: int, total: Option<int>)

  /** The table's sorter; the handlers pass `{}`, whose field and order are undefined. */
  datatype Sorter = Sorter(field: Value, order: Value)

  const EmptySorter := Sorter(Undefined, Undefined)

  // Quick-filter card descriptions.
  const Draft := "Draft"
  const PendingInformation := "Pending Information"
  const Rejected := "Rejected"

  const FilterKeys: set<Key> := {ApprovalStatus, VehicleStatus, LicensePlate,
    MtimeFrom, MtimeTo, VehicleType, CapacityMin, CapacityMax}

  const BodyKeys: set<Key> := {Page, Size, SortBy, SortOrder}

  /**
   * Distinct keys have distinct property names, so on the wire as in the
   * model no filter property can stand for, or override, a paging or sort field.
   */
  lemma NamesAreDistinct(j: Key, k: Key)
    ensures Name(j) == Name(k) <==> j == k
    ensures j in BodyKeys && k in FilterKeys ==> Name(j) != Name(k)
  {
  }

  /** The approval status a quick-filter card stands for, if any. */
  function PresetApproval(filter: string): Option<int> {
    if filter == Draft then Some(0)
    else if filter == Rejected then Some(3)
    else if filter == PendingInformation then Some(2)
    else None
  }

  /** The vehicle status a quick-filter card stands for, if any ("Draft" sets none). */
  function PresetVehicle(filter: string): Option<int> {
    if filter == Draft then None
    else if filter == Rejected then Some(0)
    else if filter == PendingInformation then Some(0)
    else None
  }

  function IntValue(o: Option<int>): Option<Value> {
    if o.Some? then Some(Int(o.value)) else None
  }

  /** `bound?.valueOf()`: a cleared bound still writes its key, with an undefined value. */
  function Bound(o: Option<int>): Value {
    if o.Some? then Int(o.value) else Undefined
  }

  /** What an object holds for a key: its value, or nothing when the key is absent. */
  function Lookup(m: Request, k: Key): Option<Value> {
    if k in m then Some(m[k]) else None
  }

  /**
   * The value a filter key ends up with, if any. The two status keys take
   * the explicit selector when it is defined and the quick-filter preset
   * otherwise; the other keys copy their input through when it is present.
   */
  function Entry(s: Snapshot, filter: string, searchTerm: string, k: Key): Option<Value> {
    match k
    case ApprovalStatus => IntValue(FirstDefined(s.approvalStatus, PresetApproval(filter)))
    case VehicleStatus => IntValue(FirstDefined(s.vehicleStatus, PresetVehicle(filter)))
    case LicensePlate => if searchTerm != "" then Some(Str(searchTerm)) else None
    case MtimeFrom => if s.dateRange.Some? then Some(Bound(s.dateRange.value.from)) else None
    case MtimeTo => if s.dateRange.Some? then Some(Bound(s.dateRange.value.to)) else None
    case VehicleType =>
      if s.vehicleType.Some? && s.vehicleType.value != "" then Some(Str(s.vehicleType.value)) else None
    case CapacityMin => IntValue(s.minCapacity)
    case CapacityMax => IntValue(s.maxCapacity)
    case _ => None
  }

  /** The filter object: every filter key with a value, and nothing else. */
  function Filters(s: Snapshot, filter: string, searchTerm: string): (r: Request)
    ensures r.Keys <= FilterKeys
    ensures forall k :: Lookup(r, k) == Entry(s, filter, searchTerm, k)
  {
    map k | k in FilterKeys && Entry(s, filter, searchTerm, k).Some? :: Entry(s, filter, searchTerm, k).value
  }

  /** A snapshot with every control empty. */
  const NoControls := Snapshot(None, None, None, None, None, None)

  /** The keys the quick-filter card writes, on their own. */
  function PresetLayer(filter: string, k: Key): Option<Value> {
    Entry(NoControls, filter, "", k)
  }

  /** The keys the search box, range, type and capacity inputs write, on their own. */
  function ControlLayer(s: Snapshot, searchTerm: string, k: Key): Option<Value> {
    Entry(s.(approvalStatus := None, vehicleStatus := None), "", searchTerm, k)
  }

  /** The keys the two explicit status selectors write, on their own. */
  function SelectorLayer(s: Snapshot, k: Key): Option<Value> {
    Entry(NoControls.(approvalStatus := s.approvalStatus, vehicleStatus := s.vehicleStatus), "", "", k)
  }

  /**
   * Each key's final value is that of the last of the three layers of writes
   * that defines it: selectors over inputs over presets.
   */
  lemma EntryIsLastWrite(s: Snapshot, filter: string, searchTerm: string, k: Key)
    ensures Entry(s, filter, searchTerm, k)
            == FirstDefined(SelectorLayer(s, k), FirstDefined(ControlLayer(s, searchTerm, k), PresetLayer(filter, k)))
  {
  }

  /**
   * The filter object as `fetchVehicles` builds it: presets first, then the
   * search, date, type and capacity keys, and last the explicit selectors,
   * each an overwriting property write.
   */
  method BuildFilters(s: Snapshot, filter: string, searchTerm: string) returns (filters: Request)
    ensures filters == Filters(s, filter, searchTerm)
  {
    filters := map[];
    filters := WritePresets(filters, filter);
    ghost var presets := filters;
    filters := WriteControls(filters, s, searchTerm);
    ghost var controls := filters;
    filters := WriteSelectors(filters, s);
    forall k ensures Lookup(filters, k) == Entry(s, filter, searchTerm, k) {
      assert Lookup(presets, k) == FirstDefined(PresetLayer(filter, k), None);
      assert Lookup(controls, k) == FirstDefined(ControlLayer(s, searchTerm, k), Lookup(presets, k));
      EntryIsLastWrite(s, filter, searchTerm, k);
    }
    SameLookupsSameObject(filters, Filters(s, filter, searchTerm));
  }

  /** The quick-filter block: the card's preset status keys. */
  method WritePresets(filters0: Request, filter: string) returns (filters: Request)
    ensures forall k :: Lookup(filters, k) == FirstDefined(PresetLayer(filter, k), Lookup(filters0, k))
  {
    filters := filters0;
    if filter == Draft {
      filters := filters[ApprovalStatus := Int(0)];
    } else if filter == Rejected {
      filters := filters[ApprovalStatus := Int(3)];
      filters := filters[VehicleStatus := Int(0)];
    } else if filter == PendingInformation {
      filters := filters[ApprovalStatus := Int(2)];
      filters := filters[VehicleStatus := Int(0)];
    }
  }

  /** The search, range, type and capacity block: each key only when its input is present. */
  method WriteControls(filters0: Request, s: Snapshot, searchTerm: string) returns (filters: Request)
    ensures forall k :: Lookup(filters, k) == FirstDefined(ControlLayer(s, searchTerm, k), Lookup(filters0, k))
  {
    filters := filters0;
    if searchTerm != "" {
      filters := filters[LicensePlate := Str(searchTerm)];
    }
    if s.dateRange.Some? {
      filters := filters[MtimeFrom := Bound(s.dateRange.value.from)];
      filters := filters[MtimeTo := Bound(s.dateRange.value.to)];
    }
    if s.vehicleType.Some? && s.vehicleType.value != "" {
      filters := filters[VehicleType := Str(s.vehicleType.value)];
    }
    if s.minCapacity.Some? {
      filters := filters[CapacityMin := Int(s.minCapacity.value)];
    }
    if s.maxCapacity.Some? {
      filters := filters[CapacityMax := Int(s.maxCapacity.value)];
    }
  }

  /** The explicit selector block: a defined selector overwrites the preset. */
  method WriteSelectors(filters0: Request, s: Snapshot) returns (filters: Request)
    ensures forall k :: Lookup(filters, k) == FirstDefined(SelectorLayer(s, k), Lookup(filters0, k))
  {
    filters := filters0;
    if s.approvalStatus.Some? {
      filters := filters[ApprovalStatus := Int(s.approvalStatus.value)];
    }
    if s.vehicleStatus.Some? {
      filters := filters[VehicleStatus := Int(s.vehicleStatus.value)];
    }
  }

  /** Two objects that hold the same value for every key are equal. */
  lemma SameLookupsSameObject(a: Request, b: Request)
    requires forall k :: Lookup(a, k) == Lookup(b, k)
    ensures a == b
  {
    assert forall k :: k in a <==> Lookup(a, k).Some?;
    assert forall k :: k in b <==> Lookup(b, k).Some?;
  }

  /** `{page, size, sortBy, sortOrder, ...filters}`. */
  function RequestBody(p: Pagination, sorter: Sorter, filters: Request): Request {
    map[Page := Int(p.current), Size := Int(p.pageSize),
        SortBy := sorter.field, SortOrder := sorter.order] + filters
  }

  // Properties of the filter object and the request body.

  /**
   * With no explicit selector, the status keys are exactly the card's preset:
   * "Draft" gives approval 0 and no vehicle status, "Rejected" 3 and 0,
   * "Pending Information" 2 and 0, and any other string neither key.
   */
  lemma QuickFilterPresets(s: Snapshot, filter: string, searchTerm: string)
    requires s.approvalStatus.None? && s.vehicleStatus.None?
    ensures var r := Filters(s, filter, searchTerm);
      && (filter == Draft ==>
            ApprovalStatus in r && r[ApprovalStatus] == Int(0) && VehicleStatus !in r)
      && (filter == Rejected ==>
            ApprovalStatus in r && r[ApprovalStatus] == Int(3)
            && VehicleStatus in r && r[VehicleStatus] == Int(0))
      && (filter == PendingInformation ==>
            ApprovalStatus in r && r[ApprovalStatus] == Int(2)
            && VehicleStatus in r && r[VehicleStatus] == Int(0))
      && (filter !in {Draft, Rejected, PendingInformation} ==>
            ApprovalStatus !in r && VehicleStatus !in r)
  {
  }

  /**
   * A defined explicit selector decides its status key whatever the quick
   * filter; an undefined one leaves the preset in place.
   */
  lemma ExplicitSelectorsWin(s: Snapshot, filter: string, searchTerm: string)
    ensures var r := Filters(s, filter, searchTerm);
      && (s.approvalStatus.Some? ==>
            ApprovalStatus in r && r[ApprovalStatus] == Int(s.approvalStatus.value))
      && (s.vehicleStatus.Some? ==>
            VehicleStatus in r && r[VehicleStatus] == Int(s.vehicleStatus.value))
      && (s.approvalStatus.None? ==> Lookup(r, ApprovalStatus) == IntValue(PresetApproval(filter)))
      && (s.vehicleStatus.None? ==> Lookup(r, VehicleStatus) == IntValue(PresetVehicle(filter)))
  {
  }

  /** "Rejected" with the vehicle status selector at 1 (Inactive) asks for approval 3, vehicle 1. */
  lemma RejectedWithInactiveSelector(s: Snapshot, searchTerm: string)
    requires s.approvalStatus.None? && s.vehicleStatus == Some(1)
    ensures var r := Filters(s, Rejected, searchTerm);
      ApprovalStatus in r && r[ApprovalStatus] == Int(3)
      && VehicleStatus in r && r[VehicleStatus] == Int(1)
  {
  }

  /** `license_plate` is sent exactly for a non-empty committed search, with its text. */
  lemma SearchKeyOnlyWhenNonEmpty(s: Snapshot, filter: string, searchTerm: string)
    ensures var r := Filters(s, filter, searchTerm);
      && (LicensePlate in r <==> searchTerm != "")
      && (LicensePlate in r ==> r[LicensePlate] == Str(searchTerm))
  {
  }

  /**
   * Both date keys are sent exactly when a range is picked; a cleared bound
   * inside a picked range still writes its key, with an undefined value.
   */
  lemma DateKeysOnlyWithRange(s: Snapshot, filter: string, searchTerm: string)
    ensures var r := Filters(s, filter, searchTerm);
      && (MtimeFrom in r <==> s.dateRange.Some?)
      && (MtimeTo in r <==> s.dateRange.Some?)
      && (s.dateRange.Some? ==>
            r[MtimeFrom] == Bound(s.dateRange.value.from) && r[MtimeTo] == Bound(s.dateRange.value.to))
  {
  }

  /**
   * `vehicle_type` is sent exactly for a non-empty type; each capacity key
   * exactly when that capacity is defined, 0 included, copied unchanged with
   * no check that the minimum is at most the maximum.
   */
  lemma TypeAndCapacityPassThrough(s: Snapshot, filter: string, searchTerm: string)
    ensures var r := Filters(s, filter, searchTerm);
      && (VehicleType in r <==> s.vehicleType.Some? && s.vehicleType.value != "")
      && (VehicleType in r ==> r[VehicleType] == Str(s.vehicleType.value))
      && (CapacityMin in r <==> s.minCapacity.Some?)
      && (CapacityMin in r ==> r[CapacityMin] == Int(s.minCapacity.value))
      && (CapacityMax in r <==> s.maxCapacity.Some?)
      && (CapacityMax in r ==> r[CapacityMax] == Int(s.maxCapacity.value))
  {
  }

  /**
   * The body always carries page, size, sortBy and sortOrder from the
   * pagination and sorter; a filter object over filter keys adds its own
   * entries and can never override those four.
   */
  lemma RequestBodyFields(p: Pagination, sorter: Sorter, filters: Request)
    requires filters.Keys <= FilterKeys
    ensures var r := RequestBody(p, sorter, filters);
      && r.Keys == BodyKeys + filters.Keys
      && r[Page] == Int(p.current) && r[Size] == Int(p.pageSize)
      && r[SortBy] == sorter.field && r[SortOrder] == sorter.order
      && (forall k :: k in filters ==> r[k] == filters[k])
  {
  }
}
