/** The records shared by the forecasting service and the two route handlers:
    budget allocations, line items and proposals as the database returns them,
    and the flat historical record that the forecast consumes and the upload
    read-back produces. JavaScript numbers (amounts and years) are modelled as
    `real`; NaN is not modelled. */
module Budget {

  datatype Option<+T> = None | Some(value: T)

  /** One budget allocation: `quarter` is 1..4 for a quarter, 0 for the annual total. */
  datatype Allocation = Allocation(quarter: int, proposedAmount: real)

  /** A budget line item fetched together with its category and allocations.
      `category` is the linked category's name (None when no category is linked);
      the empty string stands for a missing department. */
  datatype LineItem = LineItem(
    description: string,
    justification: Option<string>,
    category: Option<string>,
    department: string,
    year: real,
    allocations: seq<Allocation>)

  /** A budget proposal fetched together with its line items. */
  datatype Proposal = Proposal(year: real, lineItems: seq<LineItem>)

  /** One quarter-bearing budget row: the input of the forecast and the shape of
      both the normalised upload rows and the rows read back. */
  datatype HistoricalRecord = HistoricalRecord(
    description: string,
    justification: Option<string>,
    category: string,
    department: string,
    year: real,
    q1: real, q2: real, q3: real, q4: real,
    total: real)

  /** `allocations.find(a => a.quarter === quarter)`, as the index of the match. */
  function FindQuarter(allocs: seq<Allocation>, quarter: int): (r: Option<nat>)
    ensures r.Some? ==> r.value < |allocs| && allocs[r.value].quarter == quarter
    ensures r.Some? ==> forall j :: 0 <= j < r.value ==> allocs[j].quarter != quarter
    ensures r.None? ==> forall j :: 0 <= j < |allocs| ==> allocs[j].quarter != quarter
  {
    if allocs == [] then None
    else if allocs[0].quarter == quarter then Some(0)
    else match FindQuarter(allocs[1..], quarter)
      case None => None
      case Some(i) => Some(i + 1)
  }

  /** `allocations.find(a => a.quarter === quarter)?.proposedAmount || 0`: the
      amount of the first allocation for that quarter, 0 when there is none
      (a falsy amount is 0 already). */
  function QuarterAmount(allocs: seq<Allocation>, quarter: int): real
  {
    match FindQuarter(allocs, quarter)
    case None => 0.0
    case Some(i) => allocs[i].proposedAmount
  }

  /** The lookup yields the amount of the first allocation for the quarter, and
      0 when there is none. */
  lemma QuarterAmountFirst(allocs: seq<Allocation>, quarter: int, j: nat)
    requires j < |allocs| && allocs[j].quarter == quarter
    requires forall i :: 0 <= i < j ==> allocs[i].quarter != quarter
    ensures QuarterAmount(allocs, quarter) == allocs[j].proposedAmount
  {
  }

  /** A quarter without allocations reads as 0. */
  lemma QuarterAmountAbsent(allocs: seq<Allocation>, quarter: int)
    requires forall j :: 0 <= j < |allocs| ==> allocs[j].quarter != quarter
    ensures QuarterAmount(allocs, quarter) == 0.0
  {
  }

  /** The allocations that are not for the given quarter, in their order. */
  function WithoutQuarter(allocs: seq<Allocation>, quarter: int): (r: seq<Allocation>)
    ensures forall a :: a in r <==> a in allocs && a.quarter != quarter
  {
    if allocs == [] then []
    else (if allocs[0].quarter == quarter then [] else [allocs[0]]) + WithoutQuarter(allocs[1..], quarter)
  }

  /** Dropping the allocations of one quarter does not change what any other
      quarter looks up. */
  lemma {:induction false} WithoutOtherQuarter(allocs: seq<Allocation>, dropped: int, quarter: int)
    requires dropped != quarter
    ensures QuarterAmount(WithoutQuarter(allocs, dropped), quarter) == QuarterAmount(allocs, quarter)
  {
    if allocs != [] {
      var rest := WithoutQuarter(allocs[1..], dropped);
      WithoutOtherQuarter(allocs[1..], dropped, quarter);
      QuarterAmountCons(allocs[0], allocs[1..], quarter);
      assert [allocs[0]] + allocs[1..] == allocs;
      if allocs[0].quarter == dropped {
        assert WithoutQuarter(allocs, dropped) == [] + rest == rest;
      } else {
        assert WithoutQuarter(allocs, dropped) == [allocs[0]] + rest;
        QuarterAmountCons(allocs[0], rest, quarter);
      }
    }
  }

  /** Looking up a quarter in a list with one more allocation at the front. */
  lemma QuarterAmountCons(a: Allocation, rest: seq<Allocation>, quarter: int)
    ensures QuarterAmount([a] + rest, quarter) == if a.quarter == quarter then a.proposedAmount else QuarterAmount(rest, quarter)
  {
    assert ([a] + rest)[1..] == rest;
  }
}
