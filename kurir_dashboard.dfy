/**
 * The courier dashboard (dashboard/kurir): a courier search of three or more characters
 * fills the courier options, and "Fetch Data" loads the chosen courier's delivery list
 * and proof-of-delivery summary for a date range, after checking that all three are set.
 */
module KurirDashboard {
  import opened Remote

  const MinQueryLength: nat := 3
  const ValidationFailed: string := "Please select a courier and valid date range."

  /** A record of `/devkits/dashboard/kurirlist`; `employee_id` as the text it prints as. */
  datatype Courier = Courier(employee_id: string, username: string)

  /** A `react-select` option; `labelText` is its `label`. */
  datatype CourierOption = CourierOption(value: string, labelText: string)

  /** `` `${username} (${employee_id})` ``. */
  function CourierLabel(k: Courier): (s: string)
    ensures |s| == |k.username| + |k.employee_id| + 3
    ensures s[..|k.username|] == k.username
    ensures s[|k.username|..|k.username| + 2] == " ("
    ensures s[|k.username| + 2..|s| - 1] == k.employee_id
    ensures s[|s| - 1] == ')'
  {
    k.username + " (" + k.employee_id + ")"
  }

  /** Reading the username back from a label, given the id it ends with. */
  function LabelUsername(text: string, employeeId: string): string
    requires |text| >= |employeeId| + 3
  {
    text[..|text| - |employeeId| - 3]
  }

  /** The label determines the username once the id is known. */
  lemma LabelRoundTrip(k: Courier)
    ensures LabelUsername(CourierLabel(k), k.employee_id) == k.username
  {
    var s := CourierLabel(k);
    assert |s| - |k.employee_id| - 3 == |k.username|;
  }

  function ToOption(k: Courier): (o: CourierOption)
    ensures o.value == k.employee_id && o.labelText == CourierLabel(k)
  {
    CourierOption(k.employee_id, CourierLabel(k))
  }

  /** `data.map(kurir => ({ value, label }))`: one option per courier, in order. */
  function ToOptions(couriers: seq<Courier>): (r: seq<CourierOption>)
    ensures |r| == |couriers|
    ensures forall i :: 0 <= i < |r| ==> r[i] == ToOption(couriers[i])
  {
    if couriers == [] then [] else [ToOption(couriers[0])] + ToOptions(couriers[1..])
  }

  /** The debounced handler looks couriers up only for a query of three or more characters. */
  function LooksUp(query: string): (r: bool)
    ensures r <==> |query| >= 3
    ensures |query| <= 2 ==> !r
  {
    |query| >= MinQueryLength
  }

  /** A delivery order of `/devkits/dashboard/deliverylist`. */
  datatype Delivery = Delivery(code: string, messenger_name: string, ttl_piece: int)

  /** A proof of delivery of `/devkits/dashboard/pod`. */
  datatype Pod = Pod(code: string)

  /** `results` of `/devkits/dashboard/pod`. */
  datatype PodResults = PodResults(data: ListField<Pod>, total_received: int, total_records: int)

  /** The "List DO" panel. */
  datatype DeliveryView = Loading | ErrorShown(message: string) | NoneFound | Deliveries(rows: seq<Delivery>)

  class KurirPage {
    var kurirData: seq<CourierOption>
    var selectedKurir: Option<CourierOption>
    var deliveryList: seq<Delivery>
    var podList: seq<Pod>
    var fromDate: string
    var toDate: string
    var loadingDeliveryList: bool
    var errorDeliveryList: Option<string>
    var searchQuery: string
    var totalReceived: int
    var totalRecords: int

    /** The only error the screen ever sets is the validation message. */
    ghost predicate Valid()
      reads this
    {
      errorDeliveryList.Some? ==> errorDeliveryList.value == ValidationFailed
    }

    constructor ()
      ensures Valid()
      ensures kurirData == [] && selectedKurir == None && deliveryList == [] && podList == []
      ensures fromDate == "" && toDate == "" && !loadingDeliveryList && errorDeliveryList == None
      ensures searchQuery == "" && totalReceived == 0 && totalRecords == 0
    {
      kurirData, selectedKurir, deliveryList, podList := [], None, [], [];
      fromDate, toDate, loadingDeliveryList, errorDeliveryList := "", "", false, None;
      searchQuery, totalReceived, totalRecords := "", 0, 0;
    }

    /** `fetchKurirData`: the options are replaced only when the token and an array of couriers arrive. */
    method FetchKurirData(token: Option<string>, response: Fetch<ListField<Courier>>)
      requires Valid()
      modifies this
      ensures Valid()
      ensures Truthy(token) && response.Success? && response.value.Some? ==>
        kurirData == ToOptions(response.value.value)
      ensures !(Truthy(token) && response.Success? && response.value.Some?) ==> kurirData == old(kurirData)
      ensures selectedKurir == old(selectedKurir) && deliveryList == old(deliveryList) && podList == old(podList)
      ensures fromDate == old(fromDate) && toDate == old(toDate) && searchQuery == old(searchQuery)
      ensures loadingDeliveryList == old(loadingDeliveryList) && errorDeliveryList == old(errorDeliveryList)
      ensures totalReceived == old(totalReceived) && totalRecords == old(totalRecords)
    {
      if Truthy(token) && response.Success? && response.value.Some? {
        kurirData := ToOptions(response.value.value);
      }
    }

    /** The debounced query handler: look up a long enough query, otherwise clear the options. */
    method QueryChanged(newQuery: string, token: Option<string>, response: Fetch<ListField<Courier>>)
      requires Valid()
      modifies this
      ensures Valid()
      ensures !LooksUp(newQuery) ==> kurirData == []
      ensures LooksUp(newQuery) && Truthy(token) && response.Success? && response.value.Some? ==>
        kurirData == ToOptions(response.value.value)
      ensures LooksUp(newQuery) && !(Truthy(token) && response.Success? && response.value.Some?) ==>
        kurirData == old(kurirData)
      ensures selectedKurir == old(selectedKurir) && deliveryList == old(deliveryList) && podList == old(podList)
      ensures fromDate == old(fromDate) && toDate == old(toDate) && searchQuery == old(searchQuery)
      ensures loadingDeliveryList == old(loadingDeliveryList) && errorDeliveryList == old(errorDeliveryList)
      ensures totalReceived == old(totalReceived) && totalRecords == old(totalRecords)
    {
      if LooksUp(newQuery) {
        FetchKurirData(token, response);
      } else {
        kurirData := [];
      }
    }

    /** `handleInputChange`: the typed text is stored (the lookup follows after the debounce). */
    method HandleInputChange(newValue: string)
      requires Valid()
      modifies this
      ensures Valid()
      ensures searchQuery == newValue
      ensures kurirData == old(kurirData) && selectedKurir == old(selectedKurir)
      ensures deliveryList == old(deliveryList) && podList == old(podList)
      ensures fromDate == old(fromDate) && toDate == old(toDate)
      ensures loadingDeliveryList == old(loadingDeliveryList) && errorDeliveryList == old(errorDeliveryList)
      ensures totalReceived == old(totalReceived) && totalRecords == old(totalRecords)
    {
      searchQuery := newValue;
    }

    /** The select, the two date inputs. */
    method SetSelection(option: Option<CourierOption>, from: string, to: string)
      requires Valid()
      modifies this
      ensures Valid()
      ensures selectedKurir == option && fromDate == from && toDate == to
      ensures kurirData == old(kurirData) && deliveryList == old(deliveryList) && podList == old(podList)
      ensures searchQuery == old(searchQuery)
      ensures loadingDeliveryList == old(loadingDeliveryList) && errorDeliveryList == old(errorDeliveryList)
      ensures totalReceived == old(totalReceived) && totalRecords == old(totalRecords)
    {
      selectedKurir, fromDate, toDate := option, from, to;
    }

    /** All three of courier, start date and end date are set. */
    function ReadyToFetch(): (r: bool)
      reads this
      ensures r <==> !(fromDate == "" || toDate == "" || selectedKurir.None?)
    {
      fromDate != "" && toDate != "" && selectedKurir.Some?
    }

    /**
     * `fetchDeliveryList`. Without a courier and both dates the validation message is set and
     * no request is made. Otherwise the delivery list is stored (empty when `data` is absent),
     * then the POD list (likewise) and its two totals; a missing token or a failed request
     * stops the sequence where it is, and loading always ends. The error is never cleared.
     */
    method FetchDeliveryList(token: Option<string>, delivery: Fetch<ListField<Delivery>>, pod: Fetch<PodResults>)
      requires Valid()
      modifies this
      ensures Valid()
      ensures !old(ReadyToFetch()) ==>
        errorDeliveryList == Some(ValidationFailed) && loadingDeliveryList == old(loadingDeliveryList) &&
        deliveryList == old(deliveryList) && podList == old(podList) &&
        totalReceived == old(totalReceived) && totalRecords == old(totalRecords)
      ensures old(ReadyToFetch()) ==> !loadingDeliveryList && errorDeliveryList == old(errorDeliveryList)
      ensures old(ReadyToFetch()) && Truthy(token) && delivery.Success? ==>
        deliveryList == delivery.value.GetOr([])
      ensures old(ReadyToFetch()) && Truthy(token) && delivery.Success? && pod.Success? ==>
        podList == pod.value.data.GetOr([]) &&
        totalReceived == pod.value.total_received && totalRecords == pod.value.total_records
      ensures old(ReadyToFetch()) && !(Truthy(token) && delivery.Success?) ==> deliveryList == old(deliveryList)
      ensures old(ReadyToFetch()) && !(Truthy(token) && delivery.Success? && pod.Success?) ==>
        podList == old(podList) && totalReceived == old(totalReceived) && totalRecords == old(totalRecords)
      ensures kurirData == old(kurirData) && selectedKurir == old(selectedKurir)
      ensures fromDate == old(fromDate) && toDate == old(toDate) && searchQuery == old(searchQuery)
    {
      if !ReadyToFetch() {
        errorDeliveryList := Some(ValidationFailed);
        return;
      }
      loadingDeliveryList := true;
      if Truthy(token) && delivery.Success? {
        deliveryList := delivery.value.GetOr([]);
        if pod.Success? {
          podList := pod.value.data.GetOr([]);
          totalReceived := pod.value.total_received;
          totalRecords := pod.value.total_records;
        }
      }
      loadingDeliveryList := false;
    }

    /** The "List DO" panel: loading, then the error, then the empty notice, then the list. */
    function DeliveryPanel(): (v: DeliveryView)
      reads this
      ensures loadingDeliveryList <==> v == Loading
      ensures !loadingDeliveryList && errorDeliveryList.Some? ==> v == ErrorShown(errorDeliveryList.value)
      ensures v.Deliveries? ==> v.rows == deliveryList && deliveryList != [] && errorDeliveryList.None?
      ensures !loadingDeliveryList && errorDeliveryList.None? ==>
        v == (if deliveryList == [] then NoneFound else Deliveries(deliveryList))
    {
      if loadingDeliveryList then Loading
      else if errorDeliveryList.Some? then ErrorShown(errorDeliveryList.value)
      else if |deliveryList| == 0 then NoneFound
      else Deliveries(deliveryList)
    }

    /**
     * A validation message that is set occupies the panel once loading is over. That it is
     * never cleared is `FetchDeliveryList`'s own promise (`errorDeliveryList ==
     * old(errorDeliveryList)` on the fetching path); together they mean the list of
     * deliveries is never displayed again.
     */
    lemma ErrorIsSticky()
      requires Valid() && errorDeliveryList.Some? && !loadingDeliveryList
      ensures DeliveryPanel() == ErrorShown(ValidationFailed)
    {
    }
  }
}
