/**
 * The delivery-order detail screen (`DeliveryDetails` of dashboard/kurir/deliveryorder):
 * received and unreceived shipments merged into one list, searched by shipment code on
 * every keystroke (which also returns to page 1), paged ten at a time.
 */
module DeliveryOrder {
  import opened Text
  import opened Collections
  import opened Paging
  import opened Remote
  import opened Records

  const ItemsPerPage: nat := 10

  /** `express21.results` of `/siscos/deliverylist`. */
  datatype DeliveryResults = DeliveryResults(
    received_data: ListField<Shipment>,
    unreceived_data: ListField<Shipment>)

  /** `[...(received || []), ...(unreceived || [])]`: received first, a missing part is empty. */
  function MergeShipments(received: ListField<Shipment>, unreceived: ListField<Shipment>): (r: seq<Shipment>)
    ensures |r| == |received.GetOr([])| + |unreceived.GetOr([])|
    ensures r[..|received.GetOr([])|] == received.GetOr([])
    ensures r[|received.GetOr([])|..] == unreceived.GetOr([])
    ensures received.None? ==> r == unreceived.GetOr([])
    ensures unreceived.None? ==> r == received.GetOr([])
  {
    received.GetOr([]) + unreceived.GetOr([])
  }

  /** The shipments whose lowered code includes the (already lowered) query. */
  function SearchShipments(shipments: seq<Shipment>, query: string): (r: seq<Shipment>)
    ensures forall s :: s in r <==> s in shipments && Contains(Lower(s.shipment_code), query)
    ensures forall s :: multiset(r)[s] == if Contains(Lower(s.shipment_code), query) then multiset(shipments)[s] else 0
  {
    Filter(shipments, (s: Shipment) => Contains(Lower(s.shipment_code), query))
  }

  /** Searching with the lowered input is a case-insensitive search for the input. */
  lemma SearchShipmentsIgnoresCase(shipments: seq<Shipment>, input: string, s: Shipment)
    ensures s in SearchShipments(shipments, Lower(input)) <==>
      s in shipments && MatchesIgnoringCase(s.shipment_code, input)
  {
  }

  /** The search keeps the original order: it distributes over concatenation. */
  lemma SearchShipmentsAppend(a: seq<Shipment>, b: seq<Shipment>, query: string)
    ensures SearchShipments(a + b, query) == SearchShipments(a, query) + SearchShipments(b, query)
  {
    FilterAppend(a, b, (s: Shipment) => Contains(Lower(s.shipment_code), query));
  }

  class DeliveryDetails {
    var deliveryDetails: seq<Shipment>
    var filteredDetails: seq<Shipment>
    var loading: bool
    var error: Option<string>
    var searchQuery: string
    var currentPage: nat

    ghost predicate Valid()
      reads this
    {
      currentPage >= 1
    }

    constructor ()
      ensures Valid()
      ensures deliveryDetails == [] && filteredDetails == [] && loading && error == None
      ensures searchQuery == "" && currentPage == 1
    {
      deliveryDetails, filteredDetails := [], [];
      loading, error := true, None;
      searchQuery, currentPage := "", 1;
    }

    /** The fetch effect (run for each route `code`); the page is not reset. */
    method Load(token: Option<string>, response: Fetch<DeliveryResults>)
      requires Valid()
      modifies this
      ensures Valid() && !loading
      ensures searchQuery == old(searchQuery) && currentPage == old(currentPage)
      ensures Truthy(token) && response.Success? ==>
        var all := MergeShipments(response.value.received_data, response.value.unreceived_data);
        deliveryDetails == all && filteredDetails == all && error == old(error)
      ensures !Truthy(token) ==>
        error == Some(TokenMissing) &&
        deliveryDetails == old(deliveryDetails) && filteredDetails == old(filteredDetails)
      ensures Truthy(token) && response.Failure? ==>
        error == Some(response.message) &&
        deliveryDetails == old(deliveryDetails) && filteredDetails == old(filteredDetails)
    {
      if !Truthy(token) {
        error := Some(TokenMissing);
      } else {
        match response {
          case Success(results) =>
            var allData := MergeShipments(results.received_data, results.unreceived_data);
            deliveryDetails := allData;
            filteredDetails := allData;
          case Failure(message) =>
            error := Some(message);
        }
      }
      loading := false;
    }

    /** `handleSearch`: store the lowered query, filter, return to page 1. */
    method HandleSearch(input: string)
      requires Valid()
      modifies this
      ensures Valid()
      ensures searchQuery == Lower(input)
      ensures filteredDetails == SearchShipments(deliveryDetails, Lower(input))
      ensures currentPage == 1
      ensures deliveryDetails == old(deliveryDetails) && loading == old(loading) && error == old(error)
    {
      var query := Lower(input);
      searchQuery := query;
      filteredDetails := SearchShipments(deliveryDetails, query);
      currentPage := 1;
    }

    function TotalPages(): nat
      reads this
    {
      Paging.TotalPages(|filteredDetails|, ItemsPerPage)
    }

    method HandlePrevPage()
      requires Valid()
      modifies this
      ensures Valid()
      ensures currentPage == Prev(old(currentPage))
      ensures deliveryDetails == old(deliveryDetails) && filteredDetails == old(filteredDetails)
      ensures searchQuery == old(searchQuery) && loading == old(loading) && error == old(error)
    {
      if currentPage > 1 {
        currentPage := currentPage - 1;
      }
    }

    method HandleNextPage()
      requires Valid()
      modifies this
      ensures Valid()
      ensures currentPage == Next(old(currentPage), old(TotalPages()))
      ensures deliveryDetails == old(deliveryDetails) && filteredDetails == old(filteredDetails)
      ensures searchQuery == old(searchQuery) && loading == old(loading) && error == old(error)
    {
      if currentPage < TotalPages() {
        currentPage := currentPage + 1;
      }
    }

    /** `paginatedDetails`: `filteredDetails[startIndex .. startIndex + 10)`. */
    function PaginatedDetails(): (r: seq<Shipment>)
      reads this
      requires Valid()
      ensures |r| <= ItemsPerPage
      ensures IsPage(r, filteredDetails, currentPage, ItemsPerPage)
    {
      PageIsPage(filteredDetails, currentPage, ItemsPerPage);
      Page(filteredDetails, currentPage, ItemsPerPage)
    }

    /** The "No" column: `startIndex + index + 1` is the row's position in the filtered list. */
    function RowNumber(index: nat): (n: nat)
      reads this
      requires Valid() && index < |PaginatedDetails()|
      ensures 1 <= n <= |filteredDetails|
      ensures filteredDetails[n - 1] == PaginatedDetails()[index]
    {
      RowNumberIsPosition(PaginatedDetails(), filteredDetails, currentPage, ItemsPerPage, index);
      Paging.RowNumber(currentPage, ItemsPerPage, index)
    }

    /** While loading or after an error with a non-empty message the table is not rendered. */
    function RenderedRows(): (r: seq<Shipment>)
      reads this
      requires Valid()
      ensures loading || Truthy(error) ==> r == []
      ensures !loading && !Truthy(error) ==> r == PaginatedDetails()
    {
      if loading || Truthy(error) then [] else PaginatedDetails()
    }
  }
}
