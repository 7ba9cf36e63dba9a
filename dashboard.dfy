/**
 * The page component as an object: its state fields, updated in place by the
 * handlers, each handler proved to do what its transition in `Controller`
 * says.
 */
module DashboardPage {
  import opened Options
  import opened Payload
  import opened Controller

  class Dashboard {
    var inputValue: string
    var vehicles: seq<Vehicle>
    var loading: bool
    var pagination: Pagination
    var filter: string
    var selectedCard: string
    var searchTerm: string
    var dateRange: Option<DateRange>
    var vehicleType: Option<string>
    var minCapacity: Option<int>
    var maxCapacity: Option<int>
    var approvalStatus: Option<int>
    var vehicleStatus: Option<int>

    /** The fields as one state value. */
    function Model(): State
      reads this
    {
      State(inputValue, vehicles, loading, pagination, filter, selectedCard, searchTerm,
            dateRange, vehicleType, minCapacity, maxCapacity, approvalStatus, vehicleStatus)
    }

    ghost predicate Valid()
      reads this
    {
      Inv(Model())
    }

    /** Mounting: every field at its initial value. */
    constructor ()
      ensures Valid() && Model() == Initial
    {
      inputValue, vehicles, loading := "", [], true;
      pagination := Pagination(1, 10, None);
      filter, selectedCard, searchTerm := "", "", "";
      dateRange, vehicleType := None, None;
      minCapacity, maxCapacity := None, None;
      approvalStatus, vehicleStatus := None, None;
    }

    /**
     * The synchronous part of `fetchVehicles`: spinner on, then the request
     * built from the arguments and the closure's snapshot of the filter fields.
     */
    method FetchVehicles(closure: Snapshot, pagination: Pagination, sorter: Sorter, filter: string, searchTerm: string)
      returns (request: Request)
      modifies this
      ensures Model() == old(Model()).(loading := true)
      ensures request == RequestBody(pagination, sorter, Filters(closure, filter, searchTerm))
    {
      loading := true;
      var filters := BuildFilters(closure, filter, searchTerm);
      request := RequestBody(pagination, sorter, filters);
    }

    /** The end of `fetchVehicles`, when the response (or the error) is in. */
    method CompleteFetch(response: Response)
      requires Valid()
      modifies this
      ensures Valid()
      ensures Model() == Settle(old(Model()), response)
    {
      if response.Ok? {
        vehicles := GetOr(response.result, []);
        pagination := pagination.(total := Some(GetOr(response.total, 0)));
      }
      loading := false;
    }

    method HandleCardClick(description: string)
      requires Valid()
      modifies this
      ensures Valid()
      ensures Model() == CardClick(old(Model()), description)
    {
      dateRange := None;
      inputValue := "";
      if selectedCard == description {
        selectedCard := "";
        filter := "";
      } else {
        selectedCard := description;
        filter := description;
      }
      loading := true;
    }

    /**
     * Clear every filter, then fetch with the values this render's closure
     * captured before the reset.
     */
    method HandleClearFilters() returns (request: Request)
      requires Valid()
      modifies this
      ensures Valid()
      ensures Model() == ClearFilters(old(Model())).next
      ensures ClearFilters(old(Model())).request == Some(request)
    {
      ghost var before := Model();
      var closure := Closure(Model());
      var current := pagination;
      inputValue := "";
      searchTerm := "";
      dateRange := None;
      vehicleType := None;
      minCapacity := None;
      maxCapacity := None;
      approvalStatus := None;
      vehicleStatus := None;
      filter := "";
      selectedCard := "";
      loading := true;
      assert Model() == ClearFilters(before).next && Valid();
      request := FetchVehicles(closure, current, EmptySorter, "", "");
      assert Some(request) == Fetch(before, current, EmptySorter, "", "").request;
    }

    /** The search box's change handler. */
    method HandleInputChange(text: string)
      requires Valid()
      modifies this
      ensures Valid()
      ensures Model() == InputChange(old(Model()), text)
    {
      inputValue := text;
    }

    method HandleSearch(key: string) returns (request: Option<Request>)
      requires Valid()
      modifies this
      ensures Valid()
      ensures Model() == KeyDown(old(Model()), key).next
      ensures request == KeyDown(old(Model()), key).request
    {
      if key == "Enter" {
        var text := inputValue;
        var sent := FetchVehicles(Closure(Model()), pagination, EmptySorter, filter, text);
        searchTerm := text;
        request := Some(sent);
      } else {
        request := None;
      }
    }

    method HandleTableChange(requested: Pagination, sorter: Sorter) returns (request: Request)
      requires Valid()
      modifies this
      ensures Valid()
      ensures Model() == TableChange(old(Model()), requested, sorter).next
      ensures TableChange(old(Model()), requested, sorter).request == Some(request)
    {
      var closure := Closure(Model());
      loading := true;
      request := FetchVehicles(closure, requested, sorter, filter, inputValue);
    }

    /** The change handlers of the range picker, the type select, the capacity inputs and the status selects. */
    method HandleFilterEdit(edit: FilterEdit)
      requires Valid()
      modifies this
      ensures Valid()
      ensures Model() == Edit(old(Model()), edit)
    {
      match edit
      case RangePicked(r) => dateRange := r;
      case TypeSelected(t) => vehicleType := t;
      case MinCapacityEntered(n) => minCapacity := n;
      case MaxCapacityEntered(n) => maxCapacity := n;
      case ApprovalSelected(a) => approvalStatus := Some(a);
      case VehicleStatusSelected(v) => vehicleStatus := Some(v);
    }
  }

  /**
   * A session on a fresh page: pick vehicle status Inactive, click
   * "Rejected", type a plate and press Enter. The request asks for approval 3
   * and vehicle status 1 (the selector beats the card's 0) and for that plate.
   */
  method RejectedInactiveSearch(plate: string) returns (request: Request)
    requires plate != ""
    ensures ApprovalStatus in request && request[ApprovalStatus] == Int(3)
    ensures VehicleStatus in request && request[VehicleStatus] == Int(1)
    ensures LicensePlate in request && request[LicensePlate] == Str(plate)
    ensures Page in request && request[Page] == Int(1)
    ensures Size in request && request[Size] == Int(10)
  {
    var page := new Dashboard();
    page.HandleFilterEdit(VehicleStatusSelected(1));
    page.HandleCardClick(Rejected);
    page.HandleInputChange(plate);
    ghost var typed := page.Model();
    var sent := page.HandleSearch("Enter");
    request := sent.value;
    var filters := Filters(Closure(typed), Rejected, plate);
    RejectedWithInactiveSelector(Closure(typed), plate);
    SearchKeyOnlyWhenNonEmpty(Closure(typed), Rejected, plate);
    RequestBodyFields(typed.pagination, EmptySorter, filters);
  }
}
