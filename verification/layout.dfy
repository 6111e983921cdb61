/**
  The report layout shared by both export handlers: entries are written one per
  row from a start row, and a total row with a SUMPRODUCT formula goes two rows
  below the last entry; the row between keeps its template contents.
 */
module ReportLayout {
  import opened Wrappers
  import opened Sheet
  import opened Decimal
  import opened Literals

  /** One report line: product name (column A), quantity (column B), unit price (column C). */
  datatype Entry = Entry(name: string, quantity: int, price: int)

  /** The value entry `e` puts in column `col` of its row. */
  function EntryCell(e: Entry, col: nat): Cell
    requires 1 <= col <= 3
  {
    if col == 1 then Text(e.name) else if col == 2 then Num(e.quantity) else Num(e.price)
  }

  /** One step of the row-filling loop: the three cells of row `row`. */
  function WriteEntry(cells: map<Pos, Cell>, row: nat, e: Entry): map<Pos, Cell> {
    cells[Pos(row, 1) := Text(e.name)][Pos(row, 2) := Num(e.quantity)][Pos(row, 3) := Num(e.price)]
  }

  /** The grid after `entries` were written in order, entry `i` into row `start + i`. */
  function FillFrom(cells: map<Pos, Cell>, start: nat, entries: seq<Entry>): map<Pos, Cell>
    decreases |entries|
  {
    if entries == [] then cells
    else
      var n := |entries| - 1;
      WriteEntry(FillFrom(cells, start, entries[..n]), start + n, entries[n])
  }

  /** Columns A to C of the `n` data rows from `start`. */
  predicate InDataBlock(p: Pos, start: nat, n: nat) {
    start <= p.row < start + n && 1 <= p.col <= 3
  }

  /** The row of the total: one row after the loop's final counter `start + n`. */
  function TotalRow(start: nat, n: nat): nat {
    start + n + 1
  }

  /** Every cell a report of `n` entries from `start` writes. */
  predicate Written(p: Pos, start: nat, n: nat) {
    InDataBlock(p, start, n) || p == Pos(TotalRow(start, n), 1) || p == Pos(TotalRow(start, n), 3)
  }

  /** One loop step creates or changes exactly the three cells of its row. */
  lemma WriteEntryCells(cells: map<Pos, Cell>, row: nat, e: Entry)
    ensures forall p :: p in WriteEntry(cells, row, e) <==> p in cells || (p.row == row && 1 <= p.col <= 3)
    ensures forall p: Pos :: p.row == row && 1 <= p.col <= 3 ==> WriteEntry(cells, row, e)[p] == EntryCell(e, p.col)
    ensures forall p :: p in cells && !(p.row == row && 1 <= p.col <= 3) ==> WriteEntry(cells, row, e)[p] == cells[p]
  {
  }

  /** The cells the loop has written hold their entries' values; every other cell keeps its value. */
  lemma {:induction false} FillFromCells(cells: map<Pos, Cell>, start: nat, entries: seq<Entry>)
    ensures forall p :: p in FillFrom(cells, start, entries) <==> p in cells || InDataBlock(p, start, |entries|)
    ensures forall p :: InDataBlock(p, start, |entries|) ==>
      FillFrom(cells, start, entries)[p] == EntryCell(entries[p.row - start], p.col)
    ensures forall p :: p in cells && !InDataBlock(p, start, |entries|) ==>
      FillFrom(cells, start, entries)[p] == cells[p]
  {
    if entries != [] {
      var n := |entries| - 1;
      var prefix := entries[..n];
      var before := FillFrom(cells, start, prefix);
      var after := WriteEntry(before, start + n, entries[n]);
      assert after == FillFrom(cells, start, entries);
      FillFromCells(cells, start, prefix);
      WriteEntryCells(before, start + n, entries[n]);
      forall p | InDataBlock(p, start, n + 1)
        ensures after[p] == EntryCell(entries[p.row - start], p.col)
      {
        if p.row < start + n {
          assert InDataBlock(p, start, n);
          assert prefix[p.row - start] == entries[p.row - start];
        }
      }
    }
  }

  /**
    Reads the row range back out of a SUMPRODUCT formula; `None` for any text that is
    not such a formula over one range of rows in columns B and C.
   */
  function ParseSumProduct(f: string): Option<(nat, nat)> {
    var t1 :- Expect("SUMPRODUCT(B", f);
    var first :- ReadNat(t1);
    var t2 :- Expect(":B", first.rest);
    var last :- ReadNat(t2);
    var t3 :- Expect(",C", last.rest);
    var first' :- ReadNat(t3);
    var t4 :- Expect(":C", first'.rest);
    var last' :- ReadNat(t4);
    var t5 :- Expect(")", last'.rest);
    if t5 == [] && first'.value == first.value && last'.value == last.value
    then Some((first.value, last.value))
    else None
  }

  /** `SUMPRODUCT(B<first>:B<last>,C<first>:C<last>)`: quantities in column B times prices in column C. */
  function SumProductFormula(first: nat, last: nat): string {
    "SUMPRODUCT(B" + (NatToString(first) + (":B" + (NatToString(last)
      + (",C" + (NatToString(first) + (":C" + (NatToString(last) + ")")))))))
  }

  /** The formula names exactly the range it was built from. */
  lemma SumProductRoundTrip(first: nat, last: nat)
    ensures ParseSumProduct(SumProductFormula(first, last)) == Some((first, last))
  {
    var a, b := NatToString(first), NatToString(last);
    var r5 := ")";
    var r4 := b + r5;
    var r3 := ":C" + r4;
    var r2 := a + r3;
    var r1 := ",C" + r2;
    var q4 := b + r1;
    var q3 := ":B" + q4;
    var q2 := a + q3;
    ExpectLiteral("SUMPRODUCT(B", q2);
    ReadNatToString(first, q3);
    ExpectLiteral(":B", q4);
    ReadNatToString(last, r1);
    ExpectLiteral(",C", r2);
    ReadNatToString(first, r3);
    ExpectLiteral(":C", r4);
    ReadNatToString(last, r5);
    ExpectLiteral(")", []);
    assert r5 == ")" + [];
  }

  /** The whole grid after a report: the data block, the total row, and nothing else changed. */
  function Layout(cells: map<Pos, Cell>, start: nat, entries: seq<Entry>): map<Pos, Cell> {
    var rowIndex := start + |entries|;
    FillFrom(cells, start, entries)
      [Pos(rowIndex + 1, 1) := Text("TOTAL")]
      [Pos(rowIndex + 1, 3) := Formula(SumProductFormula(start, rowIndex))]
  }

  /** Entry `i` fills columns A to C of row `start + i`. */
  ghost predicate HoldsEntries(after: map<Pos, Cell>, start: nat, entries: seq<Entry>) {
    forall i :: 0 <= i < |entries| ==>
      && CellAt(after, Pos(start + i, 1)) == Text(entries[i].name)
      && CellAt(after, Pos(start + i, 2)) == Num(entries[i].quantity)
      && CellAt(after, Pos(start + i, 3)) == Num(entries[i].price)
  }

  /** The total row holds "TOTAL" in column A and the formula over rows `start` to `start + n` in column C. */
  ghost predicate HoldsTotal(after: map<Pos, Cell>, start: nat, n: nat) {
    && CellAt(after, Pos(TotalRow(start, n), 1)) == Text("TOTAL")
    && CellAt(after, Pos(TotalRow(start, n), 3)) == Formula(SumProductFormula(start, start + n))
  }

  /** Only the cells of the report are created or changed. */
  ghost predicate ChangesOnlyReport(before: map<Pos, Cell>, after: map<Pos, Cell>, start: nat, n: nat) {
    && (forall p :: p in after <==> p in before || Written(p, start, n))
    && (forall p :: p in before && !Written(p, start, n) ==> after[p] == before[p])
  }

  /**
    What a report of `entries` from row `start` does to a grid `before`: the entries in
    their rows, the total row, and no other cell created or changed.
   */
  ghost predicate IsReport(before: map<Pos, Cell>, after: map<Pos, Cell>, start: nat, entries: seq<Entry>) {
    && HoldsEntries(after, start, entries)
    && HoldsTotal(after, start, |entries|)
    && ChangesOnlyReport(before, after, start, |entries|)
  }

  lemma LayoutHoldsEntries(cells: map<Pos, Cell>, start: nat, entries: seq<Entry>)
    ensures HoldsEntries(Layout(cells, start, entries), start, entries)
  {
    var n := |entries|;
    var m := Layout(cells, start, entries);
    FillFromCells(cells, start, entries);
    forall i | 0 <= i < n
      ensures CellAt(m, Pos(start + i, 1)) == Text(entries[i].name)
      ensures CellAt(m, Pos(start + i, 2)) == Num(entries[i].quantity)
      ensures CellAt(m, Pos(start + i, 3)) == Num(entries[i].price)
    {
      assert InDataBlock(Pos(start + i, 1), start, n);
      assert InDataBlock(Pos(start + i, 2), start, n);
      assert InDataBlock(Pos(start + i, 3), start, n);
    }
  }

  lemma LayoutChangesOnlyReport(cells: map<Pos, Cell>, start: nat, entries: seq<Entry>)
    ensures ChangesOnlyReport(cells, Layout(cells, start, entries), start, |entries|)
  {
    FillFromCells(cells, start, entries);
  }

  lemma LayoutIsReport(cells: map<Pos, Cell>, start: nat, entries: seq<Entry>)
    ensures IsReport(cells, Layout(cells, start, entries), start, entries)
  {
    LayoutHoldsEntries(cells, start, entries);
    LayoutChangesOnlyReport(cells, start, entries);
  }

  /** A report is determined by the grid it starts from: `IsReport` leaves no freedom. */
  lemma IsReportUnique(before: map<Pos, Cell>, a1: map<Pos, Cell>, a2: map<Pos, Cell>, start: nat, entries: seq<Entry>)
    requires IsReport(before, a1, start, entries) && IsReport(before, a2, start, entries)
    ensures a1 == a2
  {
    var n := |entries|;
    forall p | p in a1
      ensures p in a2 && a1[p] == a2[p]
    {
      if InDataBlock(p, start, n) {
        var i := p.row - start;
        var e := entries[i];
        assert p == Pos(start + i, p.col);
        if p.col == 1 {
          assert CellAt(a1, p) == Text(e.name) == CellAt(a2, p);
        } else if p.col == 2 {
          assert CellAt(a1, p) == Num(e.quantity) == CellAt(a2, p);
        } else {
          assert CellAt(a1, p) == Num(e.price) == CellAt(a2, p);
        }
      } else if Written(p, start, n) {
        assert CellAt(a1, p) == CellAt(a2, p);
      }
    }
    assert a1.Keys == a2.Keys;
  }

  /**
    The gap row `start + n` (one past the last entry, inside the formula's range) and
    column B of the total row are never written: they keep whatever the template had.
   */
  lemma ReportSkipsGapRow(before: map<Pos, Cell>, after: map<Pos, Cell>, start: nat, entries: seq<Entry>, col: nat)
    requires IsReport(before, after, start, entries)
    ensures CellAt(after, Pos(start + |entries|, col)) == CellAt(before, Pos(start + |entries|, col))
    ensures CellAt(after, Pos(TotalRow(start, |entries|), 2)) == CellAt(before, Pos(TotalRow(start, |entries|), 2))
  {
  }

  /** The row-filling loop: writes each entry into the next row and returns the final counter. */
  method FillRows(ws: Worksheet, start: nat, entries: seq<Entry>) returns (rowIndex: nat)
    modifies ws
    ensures rowIndex == start + |entries|
    ensures ws.cells == FillFrom(old(ws.cells), start, entries)
  {
    rowIndex := start;
    for i := 0 to |entries|
      invariant rowIndex == start + i
      invariant ws.cells == FillFrom(old(ws.cells), start, entries[..i])
    {
      var item := entries[i];
      ws.SetCell(Pos(rowIndex, 1), Text(item.name));
      ws.SetCell(Pos(rowIndex, 2), Num(item.quantity));
      ws.SetCell(Pos(rowIndex, 3), Num(item.price));
      rowIndex := rowIndex + 1;
      assert entries[..i + 1][..i] == entries[..i];
    }
    assert entries[..|entries|] == entries;
  }

  /** Writes the total row at `rowIndex + 1`, with the formula's range ending at `rowIndex`. */
  method AddTotalRow(ws: Worksheet, start: nat, rowIndex: nat)
    modifies ws
    ensures ws.cells == old(ws.cells)[Pos(rowIndex + 1, 1) := Text("TOTAL")]
                                     [Pos(rowIndex + 1, 3) := Formula(SumProductFormula(start, rowIndex))]
  {
    ws.SetCell(Pos(rowIndex + 1, 1), Text("TOTAL"));
    ws.SetCell(Pos(rowIndex + 1, 3), Formula(SumProductFormula(start, rowIndex)));
  }

  /** Fills the rows, then adds the total row: the sheet ends up as the report of `entries`. */
  method WriteReport(ws: Worksheet, start: nat, entries: seq<Entry>)
    modifies ws
    ensures ws.cells == Layout(old(ws.cells), start, entries)
    ensures IsReport(old(ws.cells), ws.cells, start, entries)
  {
    var rowIndex := FillRows(ws, start, entries);
    AddTotalRow(ws, start, rowIndex);
    LayoutIsReport(old(ws.cells), start, entries);
  }
}
