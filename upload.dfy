/** The upload route: spreadsheet rows are normalised through column fallback
    chains, stored as one proposal with a line item per row and up to five
    allocations per line item, and read back by `/rows/:userId` as flat rows. */
module Upload {
  import opened Budget

  // ---------------------------------------------------------------------------
  // Raw rows
  // ---------------------------------------------------------------------------

  /** A numeric-column cell as the CSV or spreadsheet reader hands it over:
      absent (`undefined`), `null`, a string, or a number. */
  datatype Cell = Missing | Null | Text(text: string) | Num(n: real)

  /** JavaScript truthiness of a cell (NaN is not modelled). */
  predicate Truthy(c: Cell)
  {
    match c
    case Text(t) => t != ""
    case Num(n) => n != 0.0
    case _ => false
  }

  /** `Number` on a string: its value, or None for NaN. */
  type Parser = string -> Option<real>

  /** `Number(c)`: None stands for NaN. */
  function ToNumber(c: Cell, parse: Parser): Option<real>
  {
    match c
    case Missing => None
    case Null => Some(0.0)
    case Text(t) => parse(t)
    case Num(n) => Some(n)
  }

  /** `Number(c) || rest`: the cell's number when it is a non-zero number. */
  function NumberOr(c: Cell, parse: Parser, rest: real): (r: real)
    ensures ToNumber(c, parse).Some? && ToNumber(c, parse).value != 0.0 ==> r == ToNumber(c, parse).value
    ensures ToNumber(c, parse).None? || ToNumber(c, parse).value == 0.0 ==> r == rest
  {
    match ToNumber(c, parse)
    case Some(n) => if n != 0.0 then n else rest
    case None => rest
  }

  /** A raw row: the text columns (description, category, ...) and the numeric
      columns (year, quarters), each keyed by its header. */
  datatype RawRow = RawRow(text: map<string, string>, cells: map<string, Cell>)

  /** `row[column]` for a text column; an absent column reads as "". */
  function TextAt(row: RawRow, column: string): string
  {
    if column in row.text then row.text[column] else ""
  }

  /** `row[column]` for a numeric column. */
  function CellAt(row: RawRow, column: string): Cell
  {
    if column in row.cells then row.cells[column] else Missing
  }

  /** `row[c1] || row[c2] || ... || fallback` over text columns. */
  function FirstText(row: RawRow, columns: seq<string>, fallback: string): (r: string)
    ensures forall j ::
              (0 <= j < |columns| && TextAt(row, columns[j]) != "" &&
               forall i :: 0 <= i < j ==> TextAt(row, columns[i]) == "")
              ==> r == TextAt(row, columns[j])
    ensures (forall j :: 0 <= j < |columns| ==> TextAt(row, columns[j]) == "") ==> r == fallback
    ensures r == "" <==> fallback == "" && forall j :: 0 <= j < |columns| ==> TextAt(row, columns[j]) == ""
  {
    if columns == [] then fallback
    else if TextAt(row, columns[0]) != "" then TextAt(row, columns[0])
    else FirstText(row, columns[1..], fallback)
  }

  /** `Number(row[c1]) || Number(row[c2]) || ... || fallback`. */
  function FirstNumber(row: RawRow, columns: seq<string>, parse: Parser, fallback: real): (r: real)
    ensures forall j ::
              (0 <= j < |columns| && NumberOr(CellAt(row, columns[j]), parse, 0.0) != 0.0 &&
               forall i :: 0 <= i < j ==> NumberOr(CellAt(row, columns[i]), parse, 0.0) == 0.0)
              ==> r == NumberOr(CellAt(row, columns[j]), parse, 0.0)
    ensures (forall j :: 0 <= j < |columns| ==> NumberOr(CellAt(row, columns[j]), parse, 0.0) == 0.0) ==> r == fallback
  {
    if columns == [] then fallback
    else NumberOr(CellAt(row, columns[0]), parse, FirstNumber(row, columns[1..], parse, fallback))
  }

  /** `Number(row.Q || row.q) || 0`: one summand of the normalised total. The
      `||` picks the first cell when it is truthy and the second otherwise,
      before any conversion. */
  function TotalPart(row: RawRow, upper: string, lower: string, parse: Parser): real
  {
    var c := if Truthy(CellAt(row, upper)) then CellAt(row, upper) else CellAt(row, lower);
    NumberOr(c, parse, 0.0)
  }

  /** The headers of quarter k's columns, in fallback order. */
  function QuarterColumns(k: int): seq<string>
  {
    if k == 1 then ["Q1", "q1", "1ST QUARTER"]
    else if k == 2 then ["Q2", "q2", "2ND QUARTER"]
    else if k == 3 then ["Q3", "q3", "3RD QUARTER"]
    else ["Q4", "q4", "4TH QUARTER"]
  }

  /** The `rows.map(...)` callback of the upload handler. `currentYear` stands
      for `new Date().getFullYear()`. */
  function Normalise(row: RawRow, parse: Parser, currentYear: real): (r: HistoricalRecord)
    ensures r.description != "" && r.category != "" && r.department != ""
    ensures r.justification.None? || r.justification.value != ""
    ensures currentYear != 0.0 ==> r.year != 0.0
  {
    var justification := FirstText(row, ["Justification", "justification"], "");
    HistoricalRecord(
      FirstText(row, ["Description", "description", "ACCOUNT CATEGORY"], "Untitled"),
      if justification == "" then None else Some(justification),
      FirstText(row, ["Category", "category"], "Uncategorized"),
      FirstText(row, ["Department", "department"], "Unknown"),
      FirstNumber(row, ["Year", "year"], parse, currentYear),
      FirstNumber(row, QuarterColumns(1), parse, 0.0),
      FirstNumber(row, QuarterColumns(2), parse, 0.0),
      FirstNumber(row, QuarterColumns(3), parse, 0.0),
      FirstNumber(row, QuarterColumns(4), parse, 0.0),
      TotalPart(row, "Q1", "q1", parse) + TotalPart(row, "Q2", "q2", parse) +
      TotalPart(row, "Q3", "q3", parse) + TotalPart(row, "Q4", "q4", parse))
  }

  /** `rows.map(...)`: one normalised row per raw row, in order. */
  function NormaliseRows(rows: seq<RawRow>, parse: Parser, currentYear: real): (r: seq<HistoricalRecord>)
    ensures |r| == |rows|
    ensures forall i :: 0 <= i < |rows| ==> r[i] == Normalise(rows[i], parse, currentYear)
  {
    seq(|rows|, i requires 0 <= i < |rows| => Normalise(rows[i], parse, currentYear))
  }

  /** The text fallbacks apply when every candidate column is empty, and
      `justification` is null exactly then. */
  lemma TextFallbacks(row: RawRow, parse: Parser, currentYear: real)
    ensures var r := Normalise(row, parse, currentYear);
            && ((TextAt(row, "Description") == "" && TextAt(row, "description") == "" &&
                 TextAt(row, "ACCOUNT CATEGORY") == "") ==> r.description == "Untitled")
            && (TextAt(row, "Category") == "" && TextAt(row, "category") == "" ==> r.category == "Uncategorized")
            && (TextAt(row, "Department") == "" && TextAt(row, "department") == "" ==> r.department == "Unknown")
            && (r.justification.None? <==> TextAt(row, "Justification") == "" && TextAt(row, "justification") == "")
  {
    var jcols := ["Justification", "justification"];
    var justification := FirstText(row, jcols, "");
    assert justification == "" <==> TextAt(row, jcols[0]) == "" && TextAt(row, jcols[1]) == "";
  }

  /** A cell whose truthiness agrees with its number: a truthy cell is a
      non-zero number and a falsy one is zero or NaN. Numbers, `null` and
      absent cells always are. */
  predicate Plain(c: Cell, parse: Parser)
  {
    Truthy(c) <==> ToNumber(c, parse).Some? && ToNumber(c, parse).value != 0.0
  }

  /** The total is computed from the `Q`/`q` columns with a different `||`
      placement from the quarters, and never from the `Nth QUARTER` columns. */
  lemma {:induction false} TotalPartMatches(row: RawRow, k: int, parse: Parser)
    requires 1 <= k <= 4
    requires Plain(CellAt(row, QuarterColumns(k)[0]), parse) && Plain(CellAt(row, QuarterColumns(k)[1]), parse)
    requires NumberOr(CellAt(row, QuarterColumns(k)[2]), parse, 0.0) == 0.0
    ensures TotalPart(row, QuarterColumns(k)[0], QuarterColumns(k)[1], parse) == FirstNumber(row, QuarterColumns(k), parse, 0.0)
  {
    var cols := QuarterColumns(k);
    assert cols[1..][1..][1..] == [];
  }

  /** When the `Q`/`q` cells are plain and the `Nth QUARTER` columns hold no
      number, the normalised total is the sum of the normalised quarters. */
  lemma TotalMatchesQuarters(row: RawRow, parse: Parser, currentYear: real)
    requires forall k :: 1 <= k <= 4 ==>
               Plain(CellAt(row, QuarterColumns(k)[0]), parse) && Plain(CellAt(row, QuarterColumns(k)[1]), parse) &&
               NumberOr(CellAt(row, QuarterColumns(k)[2]), parse, 0.0) == 0.0
    ensures var r := Normalise(row, parse, currentYear);
            r.total == r.q1 + r.q2 + r.q3 + r.q4
  {
    TotalPartMatches(row, 1, parse);
    TotalPartMatches(row, 2, parse);
    TotalPartMatches(row, 3, parse);
    TotalPartMatches(row, 4, parse);
  }

  /** A sheet laid out with `Nth QUARTER` headers only: its quarters are read,
      but its total is 0. */
  lemma TotalMayDiffer(row: RawRow, parse: Parser, currentYear: real, v: real)
    requires forall k :: 1 <= k <= 4 ==> QuarterColumns(k)[0] !in row.cells && QuarterColumns(k)[1] !in row.cells
    requires CellAt(row, "1ST QUARTER") == Num(v) && v != 0.0
    ensures var r := Normalise(row, parse, currentYear);
            r.q1 == v && r.total == 0.0
  {
    var cols := QuarterColumns(1);
    assert cols[1..][1..][0] == "1ST QUARTER";
    AbsentPart(row, "Q1", "q1", parse);
    AbsentPart(row, "Q2", "q2", parse) by { assert QuarterColumns(2)[0] == "Q2"; }
    AbsentPart(row, "Q3", "q3", parse) by { assert QuarterColumns(3)[0] == "Q3"; }
    AbsentPart(row, "Q4", "q4", parse) by { assert QuarterColumns(4)[0] == "Q4"; }
  }

  /** Absent `Q`/`q` cells contribute nothing to the total. */
  lemma AbsentPart(row: RawRow, upper: string, lower: string, parse: Parser)
    requires upper !in row.cells && lower !in row.cells
    ensures TotalPart(row, upper, lower, parse) == 0.0
  {
  }

  // ---------------------------------------------------------------------------
  // Allocations
  // ---------------------------------------------------------------------------

  /** The five candidate allocations of a row: quarters 1-4, then 0 for the total. */
  function Candidates(row: HistoricalRecord): seq<Allocation>
  {
    [Allocation(1, row.q1), Allocation(2, row.q2), Allocation(3, row.q3), Allocation(4, row.q4),
     Allocation(0, row.total)]
  }

  /** The candidates the `proposedAmount > 0` test lets through, in order. */
  function Positive(allocs: seq<Allocation>): seq<Allocation>
  {
    if allocs == [] then []
    else
      var last := allocs[|allocs| - 1];
      Positive(allocs[..|allocs| - 1]) + (if last.proposedAmount > 0.0 then [last] else [])
  }

  /** The filter keeps exactly the allocations with a positive amount. */
  lemma {:induction false} PositiveMembers(allocs: seq<Allocation>)
    ensures forall a :: a in Positive(allocs) <==> a in allocs && a.proposedAmount > 0.0
  {
    if allocs != [] {
      var prefix := allocs[..|allocs| - 1];
      PositiveMembers(prefix);
      assert allocs == prefix + [allocs[|allocs| - 1]];
    }
  }

  /** The allocations written for one row. */
  function RowAllocations(row: HistoricalRecord): seq<Allocation>
  {
    Positive(Candidates(row))
  }

  // ---------------------------------------------------------------------------
  // The store
  // ---------------------------------------------------------------------------

  /** A budget proposal row; its id is its position in the table. */
  datatype StoredProposal = StoredProposal(year: real)

  /** A budget line item row, linked to its proposal and (by name) to its category. */
  datatype StoredItem = StoredItem(
    proposalId: nat,
    description: string,
    justification: Option<string>,
    category: string,
    department: string,
    year: real)

  /** A budget allocation row, linked to its line item. */
  datatype StoredAllocation = StoredAllocation(lineItemId: nat, allocation: Allocation)

  /** Every link points at an existing row. */
  predicate Linked(proposals: seq<StoredProposal>, items: seq<StoredItem>, allocs: seq<StoredAllocation>)
  {
    && (forall i :: 0 <= i < |items| ==> items[i].proposalId < |proposals|)
    && (forall j :: 0 <= j < |allocs| ==> allocs[j].lineItemId < |items|)
  }

  /** The line item the upload creates for a row. */
  function ItemOf(row: HistoricalRecord, proposalId: nat): StoredItem
  {
    StoredItem(proposalId, row.description, row.justification, row.category, row.department, row.year)
  }

  /** The line items created for the rows, in order. */
  function ItemsFor(rows: seq<HistoricalRecord>, proposalId: nat): (r: seq<StoredItem>)
    ensures |r| == |rows|
    ensures forall i :: 0 <= i < |rows| ==> r[i] == ItemOf(rows[i], proposalId)
  {
    if rows == [] then []
    else
      var prefix := rows[..|rows| - 1];
      assert forall i :: 0 <= i < |prefix| ==> prefix[i] == rows[i];
      ItemsFor(prefix, proposalId) + [ItemOf(rows[|rows| - 1], proposalId)]
  }

  /** Allocations linked to one line item. */
  function Tag(allocs: seq<Allocation>, lineItemId: nat): seq<StoredAllocation>
  {
    if allocs == [] then []
    else Tag(allocs[..|allocs| - 1], lineItemId) + [StoredAllocation(lineItemId, allocs[|allocs| - 1])]
  }

  /** The allocations `written` gives each row, the i-th row's linked to line
      item `firstId + i`. */
  function TagRows(rows: seq<HistoricalRecord>, written: HistoricalRecord -> seq<Allocation>, firstId: nat)
    : seq<StoredAllocation>
  {
    if rows == [] then []
    else TagRows(rows[..|rows| - 1], written, firstId) + Tag(written(rows[|rows| - 1]), firstId + |rows| - 1)
  }

  /** The allocations created for the rows, the i-th row's linked to line item
      `firstId + i`. */
  function AllocationsFor(rows: seq<HistoricalRecord>, firstId: nat): seq<StoredAllocation>
  {
    TagRows(rows, RowAllocations, firstId)
  }

  /** `normalizedRows[0]?.year || currentYear`: the new proposal's year. */
  function ProposalYear(rows: seq<HistoricalRecord>, currentYear: real): real
  {
    if rows != [] && rows[0].year != 0.0 then rows[0].year else currentYear
  }

  /** With a non-zero current year every normalised row has a non-zero year, so
      the proposal takes the first row's year; only an empty upload falls back. */
  lemma ProposalYearOfUpload(rows: seq<RawRow>, parse: Parser, currentYear: real)
    requires currentYear != 0.0
    ensures var normalized := NormaliseRows(rows, parse, currentYear);
            && (rows != [] ==> ProposalYear(normalized, currentYear) == normalized[0].year)
            && (rows == [] ==> ProposalYear(normalized, currentYear) == currentYear)
  {
  }

  /** One entry of the upload response's `rows`. */
  datatype ResponseRow = ResponseRow(department: string, year: real, q1: real, q2: real, q3: real, q4: real, total: real)

  /** The upload response's `rows`: each normalised row with `department || "N/A"`
      and `year || currentYear`. */
  function Response(rows: seq<HistoricalRecord>, currentYear: real): (r: seq<ResponseRow>)
    ensures |r| == |rows|
  {
    seq(|rows|, i requires 0 <= i < |rows| =>
      var row := rows[i];
      ResponseRow(if row.department == "" then "N/A" else row.department,
                  if row.year == 0.0 then currentYear else row.year,
                  row.q1, row.q2, row.q3, row.q4, row.total))
  }

  /** Normalisation already supplies a department and (with a non-zero clock) a
      year, so the response echoes the normalised rows unchanged. */
  lemma ResponseEchoesRows(rows: seq<RawRow>, parse: Parser, currentYear: real)
    requires currentYear != 0.0
    ensures var normalized := NormaliseRows(rows, parse, currentYear);
            var response := Response(normalized, currentYear);
            forall i :: 0 <= i < |rows| ==>
              var n := normalized[i];
              response[i] == ResponseRow(n.department, n.year, n.q1, n.q2, n.q3, n.q4, n.total)
  {
  }

  /** The three tables the upload and read-back touch. Row ids are positions. */
  class BudgetStore {
    var proposals: seq<StoredProposal>
    var lineItems: seq<StoredItem>
    var allocations: seq<StoredAllocation>

    predicate Valid()
      reads this
    {
      Linked(proposals, lineItems, allocations)
    }

    constructor()
      ensures Valid()
      ensures proposals == [] && lineItems == [] && allocations == []
    {
      proposals, lineItems, allocations := [], [], [];
    }

    /** The `/upload` handler after the file is decoded: normalise the rows,
        create the proposal, then for each row create its line item and its
        allocations with a positive amount. Returns the proposal id, the
        normalised rows (their number is the response's `count`) and the
        response's `rows`. */
    method UploadRows(rows: seq<RawRow>, parse: Parser, currentYear: real)
      returns (proposalId: nat, normalized: seq<HistoricalRecord>, response: seq<ResponseRow>)
      requires Valid()
      modifies this
      ensures Valid()
      ensures normalized == NormaliseRows(rows, parse, currentYear)
      ensures proposalId == old(|proposals|)
      ensures proposals == old(proposals) + [StoredProposal(ProposalYear(normalized, currentYear))]
      ensures lineItems == old(lineItems) + ItemsFor(normalized, proposalId)
      ensures allocations == old(allocations) + AllocationsFor(normalized, old(|lineItems|))
      ensures response == Response(normalized, currentYear)
    {
      normalized := NormaliseRows(rows, parse, currentYear);
      proposalId := |proposals|;
      proposals := proposals + [StoredProposal(ProposalYear(normalized, currentYear))];
      InsertRows(normalized, proposalId);
      UploadLinked(old(proposals), old(lineItems), old(allocations), normalized, proposalId,
        ProposalYear(normalized, currentYear));
      response := Response(normalized, currentYear);
    }

    /** The outer loop of the upload: a line item per row, linked to the
        proposal, followed by that row's allocations. */
    method InsertRows(rows: seq<HistoricalRecord>, proposalId: nat)
      modifies this
      ensures proposals == old(proposals)
      ensures lineItems == old(lineItems) + ItemsFor(rows, proposalId)
      ensures allocations == old(allocations) + AllocationsFor(rows, old(|lineItems|))
    {
      for i := 0 to |rows|
        invariant proposals == old(proposals)
        invariant lineItems == old(lineItems) + ItemsFor(rows[..i], proposalId)
        invariant allocations == old(allocations) + AllocationsFor(rows[..i], old(|lineItems|))
      {
        var row := rows[i];
        var lineItemId := |lineItems|;
        ItemsForStep(rows, proposalId, i);
        AllocationsForStep(rows, old(|lineItems|), i);
        assert lineItemId == old(|lineItems|) + i;
        lineItems := lineItems + [ItemOf(row, proposalId)];
        WriteAllocations(lineItemId, row);
      }
      assert rows[..|rows|] == rows;
    }

    /** The inner loop of the upload: each candidate with a positive amount
        becomes an allocation of line item `lineItemId`. */
    method WriteAllocations(lineItemId: nat, row: HistoricalRecord)
      modifies this
      ensures proposals == old(proposals) && lineItems == old(lineItems)
      ensures allocations == old(allocations) + Tag(RowAllocations(row), lineItemId)
    {
      var candidates := Candidates(row);
      for c := 0 to |candidates|
        invariant proposals == old(proposals) && lineItems == old(lineItems)
        invariant allocations == old(allocations) + Tag(Positive(candidates[..c]), lineItemId)
      {
        var alloc := candidates[c];
        assert candidates[..c + 1][..c] == candidates[..c];
        assert candidates[..c + 1][c] == alloc;
        ghost var before := Positive(candidates[..c]);
        if alloc.proposedAmount > 0.0 {
          assert Positive(candidates[..c + 1]) == before + [alloc];
          assert (before + [alloc])[..|before|] == before;
          allocations := allocations + [StoredAllocation(lineItemId, alloc)];
        } else {
          assert Positive(candidates[..c + 1]) == before;
        }
      }
      assert candidates[..|candidates|] == candidates;
    }
  }

  /** One more row adds its line item at the end. */
  lemma ItemsForStep(rows: seq<HistoricalRecord>, proposalId: nat, i: nat)
    requires i < |rows|
    ensures |ItemsFor(rows[..i], proposalId)| == i
    ensures ItemsFor(rows[..i + 1], proposalId) == ItemsFor(rows[..i], proposalId) + [ItemOf(rows[i], proposalId)]
  {
    assert rows[..i + 1][..i] == rows[..i];
  }

  /** One more row adds its allocations at the end, linked to the next line item. */
  lemma AllocationsForStep(rows: seq<HistoricalRecord>, firstId: nat, i: nat)
    requires i < |rows|
    ensures AllocationsFor(rows[..i + 1], firstId) ==
            AllocationsFor(rows[..i], firstId) + Tag(RowAllocations(rows[i]), firstId + i)
  {
    assert rows[..i + 1][..i] == rows[..i];
  }

  /** Every allocation of `TagRows(rows, written, firstId)` links to one of
      the line items `firstId .. firstId + |rows| - 1`. */
  lemma {:induction false} TagRowsIds(rows: seq<HistoricalRecord>, written: HistoricalRecord -> seq<Allocation>, firstId: nat)
    ensures forall a :: a in TagRows(rows, written, firstId) ==> firstId <= a.lineItemId < firstId + |rows|
  {
    if rows != [] {
      TagRowsIds(rows[..|rows| - 1], written, firstId);
      TagIds(written(rows[|rows| - 1]), firstId + |rows| - 1);
    }
  }

  /** Tagged allocations all link to the given line item. */
  lemma {:induction false} TagIds(allocs: seq<Allocation>, lineItemId: nat)
    ensures forall a :: a in Tag(allocs, lineItemId) ==> a.lineItemId == lineItemId
  {
    if allocs != [] {
      TagIds(allocs[..|allocs| - 1], lineItemId);
    }
  }

  /** The tables an upload leaves behind are linked. */
  lemma UploadLinked(proposals: seq<StoredProposal>, items: seq<StoredItem>, allocs: seq<StoredAllocation>,
                     rows: seq<HistoricalRecord>, proposalId: nat, year: real)
    requires Linked(proposals, items, allocs) && proposalId == |proposals|
    ensures Linked(proposals + [StoredProposal(year)], items + ItemsFor(rows, proposalId),
                   allocs + AllocationsFor(rows, |items|))
  {
    var allocs' := allocs + AllocationsFor(rows, |items|);
    TagRowsIds(rows, RowAllocations, |items|);
    forall j | 0 <= j < |allocs'|
      ensures allocs'[j].lineItemId < |items| + |rows|
    {
      if j >= |allocs| {
        assert allocs'[j] in AllocationsFor(rows, |items|);
      }
    }
  }

  // ---------------------------------------------------------------------------
  // Read-back
  // ---------------------------------------------------------------------------

  /** The allocations linked to line item `id`, in table order. */
  function AllocationsOf(table: seq<StoredAllocation>, id: nat): seq<Allocation>
  {
    if table == [] then []
    else
      var last := table[|table| - 1];
      AllocationsOf(table[..|table| - 1], id) + (if last.lineItemId == id then [last.allocation] else [])
  }

  /** A stored line item as fetched with its category and allocations. */
  function ItemView(item: StoredItem, allocs: seq<Allocation>): LineItem
  {
    LineItem(item.description, item.justification, Some(item.category), item.department, item.year, allocs)
  }

  /** The line items of proposal `proposalId`, in table order, each fetched
      with its allocations. */
  function FetchItems(items: seq<StoredItem>, table: seq<StoredAllocation>, proposalId: nat): seq<LineItem>
  {
    if items == [] then []
    else
      var id := |items| - 1;
      FetchItems(items[..id], table, proposalId) +
      (if items[id].proposalId == proposalId then [ItemView(items[id], AllocationsOf(table, id))] else [])
  }

  /** The `/rows/:userId` callback for one line item of a proposal of year
      `year`; None when the line item has no category (`item.category.name`
      throws). */
  function ReadItem(year: real, item: LineItem): (r: Option<HistoricalRecord>)
    ensures r.Some? <==> item.category.Some?
    ensures r.Some? ==> r.value.year == year && r.value.department != ""
  {
    match item.category
    case None => None
    case Some(category) =>
      var q1 := QuarterAmount(item.allocations, 1);
      var q2 := QuarterAmount(item.allocations, 2);
      var q3 := QuarterAmount(item.allocations, 3);
      var q4 := QuarterAmount(item.allocations, 4);
      var total := match FindQuarter(item.allocations, 0)
        case Some(j) => item.allocations[j].proposedAmount
        case None => q1 + q2 + q3 + q4;
      Some(HistoricalRecord(item.description, item.justification, category,
        if item.department == "" then "N/A" else item.department, year, q1, q2, q3, q4, total))
  }

  /** The total read back is the first annual-total allocation's amount, and
      the sum of the quarters when the line item has none. */
  lemma ReadItemTotal(year: real, item: LineItem)
    requires item.category.Some?
    ensures var r := ReadItem(year, item).value;
            && ((forall j :: 0 <= j < |item.allocations| ==> item.allocations[j].quarter != 0) ==>
                  r.total == r.q1 + r.q2 + r.q3 + r.q4)
            && forall j ::
                 (0 <= j < |item.allocations| && item.allocations[j].quarter == 0 &&
                  forall i :: 0 <= i < j ==> item.allocations[i].quarter != 0)
                 ==> r.total == item.allocations[j].proposedAmount
  {
    var r := ReadItem(year, item).value;
    match FindQuarter(item.allocations, 0)
    case None =>
    case Some(k) =>
      forall j | 0 <= j < |item.allocations| && item.allocations[j].quarter == 0 &&
                 (forall i :: 0 <= i < j ==> item.allocations[i].quarter != 0)
        ensures r.total == item.allocations[j].proposedAmount
      {
        assert j == k;
      }
  }

  /** The `.map(...)` over one proposal's line items; None when any of them fails. */
  function ReadItems(year: real, items: seq<LineItem>): (r: Option<seq<HistoricalRecord>>)
    ensures r.Some? <==> forall i :: 0 <= i < |items| ==> items[i].category.Some?
    ensures r.Some? ==> |r.value| == |items|
    ensures r.Some? ==> forall i :: 0 <= i < |items| ==> Some(r.value[i]) == ReadItem(year, items[i])
  {
    if items == [] then Some([])
    else match ReadItem(year, items[0])
      case None => None
      case Some(row) =>
        match ReadItems(year, items[1..])
        case None => None
        case Some(rest) => Some([row] + rest)
  }

  /** `proposals.flatMap(...)` of `/rows/:userId`: every proposal's rows, in order. */
  function ReadRows(proposals: seq<Proposal>): Option<seq<HistoricalRecord>>
  {
    if proposals == [] then Some([])
    else match ReadItems(proposals[0].year, proposals[0].lineItems)
      case None => None
      case Some(here) =>
        match ReadRows(proposals[1..])
        case None => None
        case Some(rest) => Some(here + rest)
  }

  // ---------------------------------------------------------------------------
  // Round trip
  // ---------------------------------------------------------------------------

  /** What reading back a stored row yields: the row itself, except that the
      year is the proposal's, an empty department reads "N/A", and a
      non-positive total is replaced by the sum of the quarters. */
  function ReadBack(row: HistoricalRecord, year: real): HistoricalRecord
  {
    row.(department := if row.department == "" then "N/A" else row.department,
         year := year,
         total := if row.total > 0.0 then row.total else row.q1 + row.q2 + row.q3 + row.q4)
  }

  /** The written allocations of a row with non-negative quarters give back its
      quarters, and the total allocation exists exactly when the total is positive. */
  lemma RowAllocationsRead(row: HistoricalRecord)
    requires row.q1 >= 0.0 && row.q2 >= 0.0 && row.q3 >= 0.0 && row.q4 >= 0.0
    ensures var allocs := RowAllocations(row);
            && QuarterAmount(allocs, 1) == row.q1
            && QuarterAmount(allocs, 2) == row.q2
            && QuarterAmount(allocs, 3) == row.q3
            && QuarterAmount(allocs, 4) == row.q4
            && (FindQuarter(allocs, 0).Some? <==> row.total > 0.0)
            && (FindQuarter(allocs, 0).Some? ==> allocs[FindQuarter(allocs, 0).value].proposedAmount == row.total)
  {
    var allocs := RowAllocations(row);
    var c := Candidates(row);
    PositiveMembers(c);
    forall a | a in allocs
      ensures a.quarter == 1 ==> a.proposedAmount == row.q1
      ensures a.quarter == 2 ==> a.proposedAmount == row.q2
      ensures a.quarter == 3 ==> a.proposedAmount == row.q3
      ensures a.quarter == 4 ==> a.proposedAmount == row.q4
      ensures a.quarter == 0 ==> a.proposedAmount == row.total
    {
      assert a in c;
    }
    QuarterRead(allocs, 1, row.q1);
    QuarterRead(allocs, 2, row.q2);
    QuarterRead(allocs, 3, row.q3);
    QuarterRead(allocs, 4, row.q4);
    assert Allocation(0, row.total) in c;
  }

  /** When every allocation for a quarter carries the same amount v >= 0, and
      one exists whenever v > 0, the lookup yields v. */
  lemma QuarterRead(allocs: seq<Allocation>, k: int, v: real)
    requires v >= 0.0
    requires forall a :: a in allocs && a.quarter == k ==> a.proposedAmount == v
    requires v > 0.0 ==> Allocation(k, v) in allocs
    ensures QuarterAmount(allocs, k) == v
  {
    match FindQuarter(allocs, k)
    case Some(j) =>
      assert allocs[j] in allocs;
    case None =>
      assert Allocation(k, v) !in allocs;
  }

  /** Writing one row and reading its line item back. */
  lemma RowRoundTrip(row: HistoricalRecord, proposalId: nat, year: real)
    requires row.q1 >= 0.0 && row.q2 >= 0.0 && row.q3 >= 0.0 && row.q4 >= 0.0
    ensures ReadItem(year, ItemView(ItemOf(row, proposalId), RowAllocations(row))) == Some(ReadBack(row, year))
  {
    RowAllocationsRead(row);
  }

  /** Allocation lookup distributes over appending to the table. */
  lemma {:induction false} AllocationsOfAppend(a: seq<StoredAllocation>, b: seq<StoredAllocation>, id: nat)
    ensures AllocationsOf(a + b, id) == AllocationsOf(a, id) + AllocationsOf(b, id)
  {
    if b == [] {
      assert a + b == a;
    } else {
      var b' := b[..|b| - 1];
      assert (a + b)[..|a + b| - 1] == a + b';
      assert (a + b)[|a + b| - 1] == b[|b| - 1];
      AllocationsOfAppend(a, b', id);
    }
  }

  /** A line item that no allocation links to has none. */
  lemma {:induction false} AllocationsOfUnlinked(table: seq<StoredAllocation>, id: nat)
    requires forall a :: a in table ==> a.lineItemId != id
    ensures AllocationsOf(table, id) == []
  {
    if table != [] {
      var prefix := table[..|table| - 1];
      assert forall a :: a in prefix ==> a in table;
      assert table[|table| - 1] in table;
      AllocationsOfUnlinked(prefix, id);
    }
  }

  /** Looking up the tagged allocations gives them back, in order. */
  lemma {:induction false} AllocationsOfTag(allocs: seq<Allocation>, id: nat)
    ensures AllocationsOf(Tag(allocs, id), id) == allocs
  {
    if allocs != [] {
      var prefix := allocs[..|allocs| - 1];
      AllocationsOfTag(prefix, id);
      AllocationsOfAppend(Tag(prefix, id), [StoredAllocation(id, allocs[|allocs| - 1])], id);
      assert [StoredAllocation(id, allocs[|allocs| - 1])][..0] == [];
      assert allocs == prefix + [allocs[|allocs| - 1]];
    }
  }

  /** Looking up line item `firstId + i` gives back what was written for the
      i-th row. */
  lemma {:induction false} TagRowsOf(rows: seq<HistoricalRecord>, written: HistoricalRecord -> seq<Allocation>,
                                     firstId: nat, i: nat)
    requires i < |rows|
    ensures AllocationsOf(TagRows(rows, written, firstId), firstId + i) == written(rows[i])
  {
    var last := |rows| - 1;
    assert rows[..last] + [rows[last]] == rows;
    if i == last {
      TagRowsOfLast(rows[..last], rows[last], written, firstId);
    } else {
      TagRowsOf(rows[..last], written, firstId, i);
      TagRowsOfEarlier(rows[..last], rows[last], written, firstId, i);
    }
  }

  /** The row written last is found under the last line item. */
  lemma TagRowsOfLast(prefix: seq<HistoricalRecord>, row: HistoricalRecord,
                      written: HistoricalRecord -> seq<Allocation>, firstId: nat)
    ensures AllocationsOf(TagRows(prefix + [row], written, firstId), firstId + |prefix|) == written(row)
  {
    var id := firstId + |prefix|;
    var earlier := TagRows(prefix, written, firstId);
    assert (prefix + [row])[..|prefix|] == prefix;
    assert TagRows(prefix + [row], written, firstId) == earlier + Tag(written(row), id);
    AllocationsOfAppend(earlier, Tag(written(row), id), id);
    TagRowsIds(prefix, written, firstId);
    AllocationsOfUnlinked(earlier, id);
    AllocationsOfTag(written(row), id);
    assert [] + written(row) == written(row);
  }

  /** Writing one more row leaves the lookup of earlier line items unchanged. */
  lemma TagRowsOfEarlier(prefix: seq<HistoricalRecord>, row: HistoricalRecord,
                         written: HistoricalRecord -> seq<Allocation>, firstId: nat, i: nat)
    requires i < |prefix|
    ensures AllocationsOf(TagRows(prefix + [row], written, firstId), firstId + i) ==
            AllocationsOf(TagRows(prefix, written, firstId), firstId + i)
  {
    var id := firstId + i;
    var earlier := TagRows(prefix, written, firstId);
    var tagged := Tag(written(row), firstId + |prefix|);
    assert (prefix + [row])[..|prefix|] == prefix;
    assert TagRows(prefix + [row], written, firstId) == earlier + tagged;
    AllocationsOfAppend(earlier, tagged, id);
    TagIds(written(row), firstId + |prefix|);
    AllocationsOfUnlinked(tagged, id);
    assert AllocationsOf(earlier, id) + [] == AllocationsOf(earlier, id);
  }

  /** A proposal that no line item links to has no line items. */
  lemma {:induction false} FetchUnlinked(items: seq<StoredItem>, table: seq<StoredAllocation>, proposalId: nat)
    requires forall i :: 0 <= i < |items| ==> items[i].proposalId != proposalId
    ensures FetchItems(items, table, proposalId) == []
  {
    if items != [] {
      FetchUnlinked(items[..|items| - 1], table, proposalId);
    }
  }

  /** Line items appended for a fresh proposal are exactly what fetching it
      returns, the i-th with the allocations of line item `|items| + i`. */
  lemma {:induction false} FetchAppended(items: seq<StoredItem>, added: seq<StoredItem>, table: seq<StoredAllocation>, proposalId: nat)
    requires forall i :: 0 <= i < |items| ==> items[i].proposalId != proposalId
    requires forall i :: 0 <= i < |added| ==> added[i].proposalId == proposalId
    ensures |FetchItems(items + added, table, proposalId)| == |added|
    ensures forall i :: 0 <= i < |added| ==>
              FetchItems(items + added, table, proposalId)[i] == ItemView(added[i], AllocationsOf(table, |items| + i))
  {
    if added == [] {
      assert items + added == items;
      FetchUnlinked(items, table, proposalId);
    } else {
      var prefix := added[..|added| - 1];
      FetchAppended(items, prefix, table, proposalId);
      FetchAppendedStep(items, added, table, proposalId);
    }
  }

  /** Fetching after one more appended line item of the proposal adds its view at the end. */
  lemma FetchAppendedStep(items: seq<StoredItem>, added: seq<StoredItem>, table: seq<StoredAllocation>, proposalId: nat)
    requires added != [] && added[|added| - 1].proposalId == proposalId
    ensures FetchItems(items + added, table, proposalId)
         == FetchItems(items + added[..|added| - 1], table, proposalId)
            + [ItemView(added[|added| - 1], AllocationsOf(table, |items| + |added| - 1))]
  {
    var prefix := added[..|added| - 1];
    assert (items + added)[..|items + added| - 1] == items + prefix;
    assert (items + added)[|items + added| - 1] == added[|added| - 1];
  }

  /** The allocations of an uploaded line item, looked up in the whole table. */
  lemma UploadedAllocations(allocs: seq<StoredAllocation>, rows: seq<HistoricalRecord>, firstId: nat, i: nat)
    requires forall a :: a in allocs ==> a.lineItemId < firstId
    requires i < |rows|
    ensures AllocationsOf(allocs + AllocationsFor(rows, firstId), firstId + i) == RowAllocations(rows[i])
  {
    TableRowsOf(allocs, rows, RowAllocations, firstId, i);
  }

  /** Rows written after allocations of earlier line items are looked up unaffected by them. */
  lemma TableRowsOf(allocs: seq<StoredAllocation>, rows: seq<HistoricalRecord>,
                    written: HistoricalRecord -> seq<Allocation>, firstId: nat, i: nat)
    requires forall a :: a in allocs ==> a.lineItemId < firstId
    requires i < |rows|
    ensures AllocationsOf(allocs + TagRows(rows, written, firstId), firstId + i) == written(rows[i])
  {
    var id, tagged := firstId + i, TagRows(rows, written, firstId);
    assert AllocationsOf(allocs + tagged, id) == AllocationsOf(tagged, id) by {
      assert forall a :: a in allocs ==> a.lineItemId != id;
      LookupPastUnlinked(allocs, tagged, id);
    }
    assert AllocationsOf(tagged, id) == written(rows[i]) by {
      TagRowsOf(rows, written, firstId, i);
    }
  }

  /** Allocations of other line items in front of a table do not change a lookup in it. */
  lemma LookupPastUnlinked(allocs: seq<StoredAllocation>, tagged: seq<StoredAllocation>, id: nat)
    requires forall a :: a in allocs ==> a.lineItemId != id
    ensures AllocationsOf(allocs + tagged, id) == AllocationsOf(tagged, id)
  {
    AllocationsOfAppend(allocs, tagged, id);
    AllocationsOfUnlinked(allocs, id);
    assert [] + AllocationsOf(tagged, id) == AllocationsOf(tagged, id);
  }

  /** Every uploaded line item's allocations, looked up in the whole table,
      are those written for its row. */
  lemma UploadedTable(allocs: seq<StoredAllocation>, rows: seq<HistoricalRecord>, firstId: nat)
    requires forall a :: a in allocs ==> a.lineItemId < firstId
    ensures forall i :: 0 <= i < |rows| ==>
              AllocationsOf(allocs + AllocationsFor(rows, firstId), firstId + i) == RowAllocations(rows[i])
  {
    forall i | 0 <= i < |rows|
      ensures AllocationsOf(allocs + AllocationsFor(rows, firstId), firstId + i) == RowAllocations(rows[i])
    {
      UploadedAllocations(allocs, rows, firstId, i);
    }
  }

  /** A proposal as `/rows/:userId` fetches it: its year and its line items. */
  function FetchProposal(proposals: seq<StoredProposal>, items: seq<StoredItem>, table: seq<StoredAllocation>, proposalId: nat): Proposal
    requires proposalId < |proposals|
  {
    Proposal(proposals[proposalId].year, FetchItems(items, table, proposalId))
  }

  /** The rows `ReadBack` predicts for uploaded rows read back under `year`. */
  function ReadBacks(rows: seq<HistoricalRecord>, year: real): (r: seq<HistoricalRecord>)
    ensures |r| == |rows|
    ensures forall i :: 0 <= i < |rows| ==> r[i] == ReadBack(rows[i], year)
  {
    seq(|rows|, i requires 0 <= i < |rows| => ReadBack(rows[i], year))
  }

  /** Reading line items each of which reads back as predicted. */
  lemma ReadItemsPredicted(year: real, views: seq<LineItem>, rows: seq<HistoricalRecord>)
    requires |views| == |rows|
    requires forall i :: 0 <= i < |views| ==> ReadItem(year, views[i]) == Some(ReadBack(rows[i], year))
    ensures ReadItems(year, views) == Some(ReadBacks(rows, year))
  {
    var r := ReadItems(year, views);
    assert r.Some?;
    assert r.value == ReadBacks(rows, year);
  }

  /** The line items fetched for the fresh proposal are the uploaded rows'. */
  lemma FetchUploaded(items: seq<StoredItem>, rows: seq<HistoricalRecord>, table: seq<StoredAllocation>, proposalId: nat)
    requires forall i :: 0 <= i < |items| ==> items[i].proposalId < proposalId
    ensures var fetched := FetchItems(items + ItemsFor(rows, proposalId), table, proposalId);
            && |fetched| == |rows|
            && forall i :: 0 <= i < |rows| ==>
                 fetched[i] == ItemView(ItemOf(rows[i], proposalId), AllocationsOf(table, |items| + i))
  {
    FetchAppended(items, ItemsFor(rows, proposalId), table, proposalId);
  }

  /** Reading back the line items fetched for a fresh proposal, from any table
      that links the i-th uploaded line item to the allocations of the i-th row. */
  lemma ReadFetchedFrom(items: seq<StoredItem>, rows: seq<HistoricalRecord>, table: seq<StoredAllocation>,
                        proposalId: nat, year: real)
    requires forall i :: 0 <= i < |items| ==> items[i].proposalId < proposalId
    requires forall i :: 0 <= i < |rows| ==>
               rows[i].q1 >= 0.0 && rows[i].q2 >= 0.0 && rows[i].q3 >= 0.0 && rows[i].q4 >= 0.0
    requires forall i :: 0 <= i < |rows| ==> AllocationsOf(table, |items| + i) == RowAllocations(rows[i])
    ensures ReadItems(year, FetchItems(items + ItemsFor(rows, proposalId), table, proposalId)) == Some(ReadBacks(rows, year))
  {
    var views := FetchItems(items + ItemsFor(rows, proposalId), table, proposalId);
    FetchUploaded(items, rows, table, proposalId);
    forall i | 0 <= i < |views|
      ensures ReadItem(year, views[i]) == Some(ReadBack(rows[i], year))
    {
      RowRoundTrip(rows[i], proposalId, year);
    }
    ReadItemsPredicted(year, views, rows);
  }

  /** Reading back the line items fetched for a fresh proposal. */
  lemma ReadFetched(items: seq<StoredItem>, allocs: seq<StoredAllocation>, rows: seq<HistoricalRecord>,
                    proposalId: nat, year: real)
    requires forall i :: 0 <= i < |items| ==> items[i].proposalId < proposalId
    requires forall a :: a in allocs ==> a.lineItemId < |items|
    requires forall i :: 0 <= i < |rows| ==>
               rows[i].q1 >= 0.0 && rows[i].q2 >= 0.0 && rows[i].q3 >= 0.0 && rows[i].q4 >= 0.0
    ensures ReadItems(year, FetchItems(items + ItemsFor(rows, proposalId), allocs + AllocationsFor(rows, |items|), proposalId))
            == Some(ReadBacks(rows, year))
  {
    UploadedTable(allocs, rows, |items|);
    ReadFetchedFrom(items, rows, allocs + AllocationsFor(rows, |items|), proposalId, year);
  }

  /** Reading a single proposal reads its line items. */
  lemma ReadRowsSingle(p: Proposal)
    ensures ReadRows([p]) == ReadItems(p.year, p.lineItems)
  {
    assert [p][1..] == [];
    match ReadItems(p.year, p.lineItems)
    case None =>
    case Some(here) =>
      assert here + [] == here;
  }

  /** In linked tables every allocation links to an existing line item. */
  lemma LinkedAllocations(items: seq<StoredItem>, allocs: seq<StoredAllocation>)
    requires forall j :: 0 <= j < |allocs| ==> allocs[j].lineItemId < |items|
    ensures forall a :: a in allocs ==> a.lineItemId < |items|
  {
  }

  /** Uploading rows with non-negative quarters and reading the new proposal
      back yields one row per uploaded row, in order, each as `ReadBack`
      describes, with the proposal's year. */
  lemma UploadRoundTrip(proposals: seq<StoredProposal>, items: seq<StoredItem>, allocs: seq<StoredAllocation>,
                        rows: seq<HistoricalRecord>, proposalId: nat, year: real)
    requires Linked(proposals, items, allocs) && proposalId == |proposals|
    requires forall i :: 0 <= i < |rows| ==>
               rows[i].q1 >= 0.0 && rows[i].q2 >= 0.0 && rows[i].q3 >= 0.0 && rows[i].q4 >= 0.0
    ensures ReadRows([FetchProposal(proposals + [StoredProposal(year)], items + ItemsFor(rows, proposalId),
                                    allocs + AllocationsFor(rows, |items|), proposalId)])
            == Some(ReadBacks(rows, year))
  {
    LinkedAllocations(items, allocs);
    ReadFetched(items, allocs, rows, proposalId, year);
    ReadRowsSingle(FetchProposal(proposals + [StoredProposal(year)], items + ItemsFor(rows, proposalId),
                                 allocs + AllocationsFor(rows, |items|), proposalId));
  }
}
