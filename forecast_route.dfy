/** The `/generate/:userId` handler of the forecast route: query-parameter
    defaults, the optional department filter, the assembly of flat historical
    rows from the fetched proposals, and the calls into the forecasting service. */
module ForecastRoute {
  import opened Budget
  import opened ForecastingService

  // ---------------------------------------------------------------------------
  // Query parameters
  // ---------------------------------------------------------------------------

  /** The query string fields the handler reads; None when a field is absent. */
  datatype Query = Query(
    department: Option<string>,
    seasonalityPeriod: Option<string>,
    alpha: Option<string>,
    beta: Option<string>,
    gamma: Option<string>)

  /** The parsed forecast parameters. */
  datatype Params = Params(seasonalityPeriod: real, smoothing: Smoothing)

  /** A query field is truthy when it is present and not the empty string. */
  predicate Present(v: Option<string>)
  {
    v.Some? && v.value != ""
  }

  /** `raw ? Number(raw) : fallback`, with `Number` on strings given as `toNumber`. */
  function ParamOr(raw: Option<string>, fallback: real, toNumber: string -> real): real
  {
    if Present(raw) then toNumber(raw.value) else fallback
  }

  /** The four parsed parameters with their defaults 4, 0.5, 0.3 and 0.2. */
  function ParseParams(q: Query, toNumber: string -> real): Params
  {
    Params(
      ParamOr(q.seasonalityPeriod, 4.0, toNumber),
      Smoothing(ParamOr(q.alpha, 0.5, toNumber), ParamOr(q.beta, 0.3, toNumber), ParamOr(q.gamma, 0.2, toNumber)))
  }

  /** Absent or empty parameters take their defaults, whatever the number parser does. */
  lemma DefaultParams(q: Query, toNumber: string -> real)
    requires !Present(q.seasonalityPeriod) && !Present(q.alpha) && !Present(q.beta) && !Present(q.gamma)
    ensures ParseParams(q, toNumber) == Params(4.0, Smoothing(0.5, 0.3, 0.2))
  {
  }

  /** Each present parameter is the number its text converts to, independently
      of the others. */
  lemma GivenParams(q: Query, toNumber: string -> real)
    ensures var p := ParseParams(q, toNumber);
            && (Present(q.seasonalityPeriod) ==> p.seasonalityPeriod == toNumber(q.seasonalityPeriod.value))
            && (!Present(q.seasonalityPeriod) ==> p.seasonalityPeriod == 4.0)
            && (Present(q.alpha) ==> p.smoothing.alpha == toNumber(q.alpha.value))
            && (!Present(q.alpha) ==> p.smoothing.alpha == 0.5)
            && (Present(q.beta) ==> p.smoothing.beta == toNumber(q.beta.value))
            && (!Present(q.beta) ==> p.smoothing.beta == 0.3)
            && (Present(q.gamma) ==> p.smoothing.gamma == toNumber(q.gamma.value))
            && (!Present(q.gamma) ==> p.smoothing.gamma == 0.2)
  {
  }

  // ---------------------------------------------------------------------------
  // Historical data assembly
  // ---------------------------------------------------------------------------

  /** The filter callback: no (or an empty) department keeps everything,
      otherwise only line items of exactly that department. */
  predicate Keep(item: LineItem, department: Option<string>)
  {
    !Present(department) || item.department == department.value
  }

  /** The `.filter(...)` over one proposal's line items. */
  function SelectItems(items: seq<LineItem>, department: Option<string>): (r: seq<LineItem>)
    ensures forall x :: x in r <==> x in items && Keep(x, department)
    ensures !Present(department) ==> r == items
  {
    if items == [] then []
    else (if Keep(items[0], department) then [items[0]] else []) + SelectItems(items[1..], department)
  }

  /** Filtering a concatenation filters each part. */
  lemma {:induction false} SelectAppend(a: seq<LineItem>, b: seq<LineItem>, department: Option<string>)
    ensures SelectItems(a + b, department) == SelectItems(a, department) + SelectItems(b, department)
  {
    if a == [] {
      assert a + b == b;
    } else {
      assert (a + b)[0] == a[0];
      assert (a + b)[1..] == a[1..] + b;
      SelectAppend(a[1..], b, department);
    }
  }

  /** The category name, or "Uncategorized" when there is none or it is empty. */
  function CategoryName(category: Option<string>): (name: string)
    ensures name != ""
    ensures category.Some? && category.value != "" ==> name == category.value
  {
    if category.Some? && category.value != "" then category.value else "Uncategorized"
  }

  /** The `.map(...)` callback: one line item as a flat historical row. */
  function ToHistorical(item: LineItem): (r: HistoricalRecord)
    ensures r.total == r.q1 + r.q2 + r.q3 + r.q4
    ensures r.description == item.description && r.justification == item.justification
    ensures r.department == item.department && r.year == item.year
    ensures r.category == CategoryName(item.category)
  {
    var q1 := QuarterAmount(item.allocations, 1);
    var q2 := QuarterAmount(item.allocations, 2);
    var q3 := QuarterAmount(item.allocations, 3);
    var q4 := QuarterAmount(item.allocations, 4);
    HistoricalRecord(item.description, item.justification, CategoryName(item.category),
      item.department, item.year, q1, q2, q3, q4, q1 + q2 + q3 + q4)
  }

  /** Each quarter is the amount of the first allocation for it, 0 when there is none. */
  lemma QuarterFromFirstAllocation(item: LineItem, k: int, j: nat)
    requires 1 <= k <= 4 && j < |item.allocations| && item.allocations[j].quarter == k
    requires forall i :: 0 <= i < j ==> item.allocations[i].quarter != k
    ensures var r := ToHistorical(item);
            (if k == 1 then r.q1 else if k == 2 then r.q2 else if k == 3 then r.q3 else r.q4)
            == item.allocations[j].proposedAmount
  {
    QuarterAmountFirst(item.allocations, k, j);
  }

  /** The stored annual total (quarter 0) plays no part in the assembled row. */
  lemma QuarterZeroIgnored(item: LineItem)
    ensures ToHistorical(item.(allocations := WithoutQuarter(item.allocations, 0))) == ToHistorical(item)
  {
    WithoutOtherQuarter(item.allocations, 0, 1);
    WithoutOtherQuarter(item.allocations, 0, 2);
    WithoutOtherQuarter(item.allocations, 0, 3);
    WithoutOtherQuarter(item.allocations, 0, 4);
  }

  /** The flat rows of a list of line items, in order. */
  function ToRecords(items: seq<LineItem>): (r: seq<HistoricalRecord>)
    ensures |r| == |items|
    ensures forall i :: 0 <= i < |items| ==> r[i] == ToHistorical(items[i])
  {
    seq(|items|, i requires 0 <= i < |items| => ToHistorical(items[i]))
  }

  /** Every line item of every proposal, in proposal order and then item order. */
  function AllItems(proposals: seq<Proposal>): seq<LineItem>
  {
    if proposals == [] then [] else proposals[0].lineItems + AllItems(proposals[1..])
  }

  /** `proposals.flatMap(p => p.lineItems.filter(...).map(...))`: the same as
      filtering the concatenated line items and converting each. */
  function Assemble(proposals: seq<Proposal>, department: Option<string>): (r: seq<HistoricalRecord>)
    ensures r == ToRecords(SelectItems(AllItems(proposals), department))
  {
    if proposals == [] then []
    else
      var here := SelectItems(proposals[0].lineItems, department);
      SelectAppend(proposals[0].lineItems, AllItems(proposals[1..]), department);
      ToRecords(here) + Assemble(proposals[1..], department)
  }

  /** With a department filter, every assembled row belongs to that department. */
  lemma FilteredDepartment(proposals: seq<Proposal>, department: Option<string>)
    requires Present(department)
    ensures forall r :: r in Assemble(proposals, department) ==> r.department == department.value
  {
    var items := SelectItems(AllItems(proposals), department);
    forall r | r in Assemble(proposals, department)
      ensures r.department == department.value
    {
      var i :| 0 <= i < |items| && r == ToHistorical(items[i]);
      assert items[i] in items;
    }
  }

  /** Without a filter, every line item yields exactly one row, in order. */
  lemma UnfilteredKeepsAll(proposals: seq<Proposal>, department: Option<string>)
    requires !Present(department)
    ensures |Assemble(proposals, department)| == |AllItems(proposals)|
    ensures forall i :: 0 <= i < |AllItems(proposals)| ==>
              Assemble(proposals, department)[i] == ToHistorical(AllItems(proposals)[i])
  {
  }

  /** Assembly respects proposal order: the rows of a concatenation of proposal
      lists are the rows of the first list followed by those of the second. */
  lemma {:induction false} AssembleAppend(a: seq<Proposal>, b: seq<Proposal>, department: Option<string>)
    ensures Assemble(a + b, department) == Assemble(a, department) + Assemble(b, department)
  {
    if a == [] {
      assert a + b == b;
    } else {
      assert (a + b)[0] == a[0];
      assert (a + b)[1..] == a[1..] + b;
      AssembleAppend(a[1..], b, department);
    }
  }

  // ---------------------------------------------------------------------------
  // Handler
  // ---------------------------------------------------------------------------

  /** A seasonality period the forecast can use: a positive whole number. */
  predicate WholePeriod(p: real)
  {
    p.Floor >= 1 && p.Floor as real == p
  }

  /** The body of the `/generate/:userId` handler after the fetch: assemble,
      forecast, compare. The fetched proposals are given as a parameter. */
  method Generate(proposals: seq<Proposal>, q: Query, toNumber: string -> real, predict: Predictor)
    returns (forecasts: seq<Forecast>, variance: seq<VarianceRecord>)
    requires WholePeriod(ParseParams(q, toNumber).seasonalityPeriod)
    ensures var params := ParseParams(q, toNumber);
            var data := Assemble(proposals, q.department);
            && KeysOf(forecasts) == KeyOrder(data)
            && forall i :: 0 <= i < |forecasts| ==>
                 forecasts[i] == ForecastFor(GroupOf(data, KeyOrder(data)[i]),
                                             params.seasonalityPeriod.Floor, params.smoothing, predict)
    ensures Present(q.department) ==>
              forall i :: 0 <= i < |forecasts| ==> forecasts[i].item.department == q.department.value
    ensures variance == AnalyzeVariance(forecasts, Assemble(proposals, q.department))
  {
    var params := ParseParams(q, toNumber);
    var period := params.seasonalityPeriod.Floor;
    var data := Assemble(proposals, q.department);
    var departmentArg := if q.department.Some? then q.department.value else "undefined";
    forecasts := GenerateForecast(data, departmentArg, period, params.smoothing, predict);
    if Present(q.department) {
      FilteredDepartment(proposals, q.department);
      forall i | 0 <= i < |forecasts|
        ensures forecasts[i].item.department == q.department.value
      {
        var g := GroupOf(data, KeyOrder(data)[i]);
        assert g.item in data;
      }
    }
    variance := AnalyzeVariance(forecasts, data);
  }
}
