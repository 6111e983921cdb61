/**
  The part of a spreadsheet worksheet that the report handlers touch: a grid of
  cells addressed by 1-based (row, column) positions, written one cell at a time.
  A position that is not a key of the map is a cell that holds no value.
 */
module Sheet {

  /** A cell address; rows and columns are 1-based, column 1 is "A". */
  datatype Pos = Pos(row: nat, col: nat)

  /** The values the handlers store: text, numbers and formula text (never evaluated). */
  datatype Cell = Empty | Text(text: string) | Num(number: int) | Formula(formula: string)

  /** The value at `p`, with an unset cell read as `Empty`. */
  function CellAt(cells: map<Pos, Cell>, p: Pos): Cell {
    if p in cells then cells[p] else Empty
  }

  /**
    The first worksheet of a workbook loaded from the template. `rowCount` and
    `columnCount` are the spreadsheet library's own bookkeeping; this model does not
    say how writing cells affects them.
   */
  class Worksheet {
    const name: string
    var cells: map<Pos, Cell>
    var rowCount: nat
    var columnCount: nat

    constructor (name: string, cells: map<Pos, Cell>, rowCount: nat, columnCount: nat)
      ensures this.name == name && this.cells == cells
      ensures this.rowCount == rowCount && this.columnCount == columnCount
    {
      this.name := name;
      this.cells := cells;
      this.rowCount := rowCount;
      this.columnCount := columnCount;
    }

    /** `getRow(p.row).getCell(p.col).value = v`; committing the row changes nothing further. */
    method SetCell(p: Pos, v: Cell)
      modifies this
      ensures cells == old(cells)[p := v]
    {
      cells := cells[p := v];
    }
  }
}
