/**
 * The fleet dashboard (dashboard/fleet): chart rows derived once from the dashboard
 * endpoints, and a table of the first page of the fleet list, whose page never changes.
 * An object's `Object.entries` are a sequence of key/value pairs in the object's order.
 */
module FleetDashboard {
  import opened Paging
  import opened Remote
  import opened Records

  const ItemsPerPage: nat := 10

  /** The page the table shows: `currentPage` starts at 1 and no handler changes it. */
  const CurrentPage: nat := 1

  /** One `[key, value]` pair of `Object.entries(results.data)`. */
  datatype Entry = Entry(key: string, value: int)

  /** A pie-chart row, `{ name, value }`. */
  datatype ChartRow = ChartRow(name: string, value: int)

  /** A bar-chart row, `{ city, count }`. */
  datatype CityRow = CityRow(city: string, count: int)

  const StatusKeys: seq<string> := ["IN", "OUT", "REPARASI"]

  /** The status chart: the entries whose key is IN, OUT or REPARASI, as rows, in entry order. */
  function StatusRows(entries: seq<Entry>): (r: seq<ChartRow>)
    ensures |r| <= |entries|
    ensures forall row :: row in r <==> Entry(row.name, row.value) in entries && row.name in StatusKeys
    ensures forall i :: 0 <= i < |r| ==> r[i].name in StatusKeys
  {
    if entries == [] then []
    else
      var e := entries[0];
      assert entries == [e] + entries[1..];
      (if e.key in StatusKeys then [ChartRow(e.key, e.value)] else []) + StatusRows(entries[1..])
  }

  /** The status rows keep entry order: they distribute over concatenation. */
  lemma {:induction false} StatusRowsAppend(a: seq<Entry>, b: seq<Entry>)
    ensures StatusRows(a + b) == StatusRows(a) + StatusRows(b)
  {
    if a == [] {
      assert a + b == b;
    } else {
      assert (a + b)[0] == a[0];
      assert (a + b)[1..] == a[1..] + b;
      StatusRowsAppend(a[1..], b);
    }
  }

  /** The city chart: one row per entry, in entry order. */
  function CityRows(entries: seq<Entry>): (r: seq<CityRow>)
    ensures |r| == |entries|
    ensures forall i :: 0 <= i < |r| ==> r[i] == CityRow(entries[i].key, entries[i].value)
  {
    if entries == [] then [] else [CityRow(entries[0].key, entries[0].value)] + CityRows(entries[1..])
  }

  /** `results` of the repair endpoint. */
  datatype RepairResults = RepairResults(reparasi_berat: int, reparasi_ringan: int)

  /** The repair chart: exactly two rows, heavy repairs first. */
  function RepairRows(results: RepairResults): (r: seq<ChartRow>)
    ensures |r| == 2
    ensures r[0] == ChartRow("Reparasi Berat", results.reparasi_berat)
    ensures r[1] == ChartRow("Reparasi Ringan", results.reparasi_ringan)
  {
    [ChartRow("Reparasi Berat", results.reparasi_berat), ChartRow("Reparasi Ringan", results.reparasi_ringan)]
  }

  /**
   * Each chart's state after its request: replaced when the guarded field is present,
   * kept (initially empty) otherwise.
   */
  function RepairDataAfter(current: seq<ChartRow>, results: Option<RepairResults>): (r: seq<ChartRow>)
    ensures results.Some? ==> r == RepairRows(results.value)
    ensures results.None? ==> r == current
  {
    if results.Some? then RepairRows(results.value) else current
  }

  function StatusDataAfter(current: seq<ChartRow>, data: Option<seq<Entry>>): (r: seq<ChartRow>)
    ensures data.Some? ==> r == StatusRows(data.value)
    ensures data.None? ==> r == current
  {
    if data.Some? then StatusRows(data.value) else current
  }

  function CityDataAfter(current: seq<CityRow>, data: Option<seq<Entry>>): (r: seq<CityRow>)
    ensures data.Some? ==> r == CityRows(data.value)
    ensures data.None? ==> r == current
  {
    if data.Some? then CityRows(data.value) else current
  }

  const RepairPalette: seq<string> := ["#FF5733", "#FFC300"]
  const StatusPalette: seq<string> := ["#FF5733", "#FFC300", "#0088FE", "#00C49F", "#FFBB28", "#A833FF", "#FF3380"]

  /** The repair slices are coloured by position: slice `index` takes palette entry `index`. */
  function RepairColour(index: nat): (c: string)
    requires index < |RepairPalette|
    ensures c == RepairPalette[index]
    ensures c in RepairPalette
  {
    RepairPalette[index]
  }

  /** The status slices cycle through the seven colours: every index has one. */
  function StatusColour(index: nat): (c: string)
    ensures c in StatusPalette
    ensures c == StatusPalette[index % |StatusPalette|]
  {
    StatusPalette[index % 7]
  }

  /** Within any seven consecutive slices no colour repeats. */
  lemma StatusColoursDistinct(i: nat, j: nat)
    requires i < j < i + 7
    ensures StatusColour(i) != StatusColour(j)
  {
    var a, b := i % 7, j % 7;
    assert a != b by {
      assert j - i == (j / 7 - i / 7) * 7 + (b - a);
    }
  }

  /** The colours repeat with period seven. */
  lemma StatusColourPeriodic(i: nat)
    ensures StatusColour(i + 7) == StatusColour(i)
  {
    assert (i + 7) % 7 == i % 7;
  }

  /** The paginate effect with the page fixed at 1: the table shows the first ten vehicles. */
  function PaginatedData(fleetData: seq<Fleet>): (r: seq<Fleet>)
    ensures r == fleetData[..Min(ItemsPerPage, |fleetData|)]
  {
    Page(fleetData, CurrentPage, ItemsPerPage)
  }
}
