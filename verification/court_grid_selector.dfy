/**
 * The 4 x 3 court grid from which a finalization detail and a launch zone are
 * picked together (src/components/CourtGridSelector.jsx). Each layout lists
 * buttons by row; an entry without a column fills its whole row unless an
 * entry for the same row names that column. Column 0, 1 and 2 are the zones
 * Izquierda, Centro and Derecha.
 */
module CourtGridSelector {
  import opened Options
  import opened JsBuiltins
  import opened AccionService

  /** One button of a layout; `col` is absent for an entry that fills its row. */
  datatype GridItem = GridItem(detalle: Finalization, caption: string, row: int, col: Option<int>)

  const GridLayoutPosicional: seq<GridItem> := [
    GridItem(Extremos, "Extremo", 1, None),
    GridItem(Finalization.SieteMetros, "7m", 1, Some(2)),
    GridItem(Pivote, "Pivote", 2, None),
    GridItem(Penetracion, "Penetración", 3, None),
    GridItem(LanzamientoExterior, "Lanz. Exterior", 4, None)
  ]

  const GridLayoutContraataque: seq<GridItem> := [
    GridItem(Contragol, "Contragol", 1, None),
    GridItem(PrimeraOleada, "1ª Oleada", 2, None),
    GridItem(SegundaOleada, "2ª Oleada", 3, None),
    GridItem(TerceraOleada, "3ª Oleada", 4, None)
  ]

  /** The zone of each grid column. */
  const ZonasColumnas: seq<Zone> := [Izquierda, Centro, Derecha]

  /** The layout shown for the attack type held by the form. */
  function ActiveGridLayout(tipoAtaque: string): (r: seq<GridItem>)
    ensures tipoAtaque == Posicional.Name() ==> r == GridLayoutPosicional
    ensures tipoAtaque != Posicional.Name() ==> r == GridLayoutContraataque
  {
    if tipoAtaque == Posicional.Name() then GridLayoutPosicional else GridLayoutContraataque
  }

  /** `!item.col`: the column is missing (or the falsy 0). */
  predicate ColAbsent(item: GridItem)
  {
    item.col.None? || item.col == Some(0)
  }

  /** `item.row === row && item.col === col`. */
  predicate Names(item: GridItem, row: int, col: int)
  {
    item.row == row && item.col == Some(col)
  }

  /** `item.row === row && !item.col`. */
  predicate Fills(item: GridItem, row: int)
  {
    item.row == row && ColAbsent(item)
  }

  /**
   * `getCellDetails(rowIndex, colIndex)`: the entry naming the cell's column
   * wins; otherwise the first entry that fills the row, unless the (redundant)
   * `some` check finds an override; otherwise null.
   */
  function GetCellDetails(layout: seq<GridItem>, rowIndex: int, colIndex: int): (r: Option<GridItem>)
    ensures r.Some? <==> exists i :: 0 <= i < |layout| && (Names(layout[i], rowIndex + 1, colIndex + 1) || Fills(layout[i], rowIndex + 1))
    ensures r.Some? ==> r.value in layout && r.value.row == rowIndex + 1
    ensures (exists i :: 0 <= i < |layout| && Names(layout[i], rowIndex + 1, colIndex + 1)) ==>
              r.Some? && Names(r.value, rowIndex + 1, colIndex + 1)
    ensures (forall i :: 0 <= i < |layout| ==> !Names(layout[i], rowIndex + 1, colIndex + 1)) ==>
              r == Find(layout, item => Fills(item, rowIndex + 1))
  {
    var row := rowIndex + 1;
    var col := colIndex + 1;
    var specificMatch := Find(layout, item => Names(item, row, col));
    if specificMatch.Some? then specificMatch
    else
      var generalMatch := Find(layout, item => Fills(item, row));
      if generalMatch.Some? then
        var isOverridden := Find(layout, item => Names(item, row, col)).Some?;
        if !isOverridden then generalMatch else None
      else None
  }

  /** Every one of the 4 x 3 cells shows a button, whatever the attack type. */
  lemma EveryCellFilled(tipoAtaque: string, rowIndex: int, colIndex: int)
    requires 0 <= rowIndex < 4 && 0 <= colIndex < 3
    ensures GetCellDetails(ActiveGridLayout(tipoAtaque), rowIndex, colIndex).Some?
  {
    var layout := ActiveGridLayout(tipoAtaque);
    var k := if tipoAtaque == Posicional.Name() then (if rowIndex == 0 then 0 else rowIndex + 1) else rowIndex;
    assert Fills(layout[k], rowIndex + 1);
  }

  /** An entry naming the cell's column, and the only one to do so, is the cell's button. */
  lemma NamedEntryWins(layout: seq<GridItem>, k: int, rowIndex: int, colIndex: int)
    requires 0 <= k < |layout| && Names(layout[k], rowIndex + 1, colIndex + 1)
    requires forall i :: 0 <= i < |layout| && i != k ==> !Names(layout[i], rowIndex + 1, colIndex + 1)
    ensures GetCellDetails(layout, rowIndex, colIndex) == Some(layout[k])
  {
    var r := GetCellDetails(layout, rowIndex, colIndex);
    var i :| 0 <= i < |layout| && layout[i] == r.value;
  }

  /** With no entry naming the cell's column, the first entry filling the row is the cell's button. */
  lemma FirstFillerWins(layout: seq<GridItem>, k: int, rowIndex: int, colIndex: int)
    requires 0 <= k < |layout| && Fills(layout[k], rowIndex + 1)
    requires forall i :: 0 <= i < k ==> !Fills(layout[i], rowIndex + 1)
    requires forall i :: 0 <= i < |layout| ==> !Names(layout[i], rowIndex + 1, colIndex + 1)
    ensures GetCellDetails(layout, rowIndex, colIndex) == Some(layout[k])
  {
    var p := item => Fills(item, rowIndex + 1);
    assert p(layout[k]);
    var f := Find(layout, p);
    var i :| 0 <= i < |layout| && layout[i] == f.value && p(layout[i]) && NoneBefore(layout, p, i);
  }

  /** An entry alone in its row and filling it is the button of every cell of that row. */
  lemma AloneInRowWins(layout: seq<GridItem>, k: int, rowIndex: int, colIndex: int)
    requires 0 <= k < |layout| && Fills(layout[k], rowIndex + 1)
    requires forall i :: 0 <= i < |layout| && i != k ==> layout[i].row != layout[k].row
    ensures GetCellDetails(layout, rowIndex, colIndex) == Some(layout[k])
  {
    var r := GetCellDetails(layout, rowIndex, colIndex);
    var i :| 0 <= i < |layout| && layout[i] == r.value;
  }

  /** In the positional layout the middle cell of the first row is the seven-metre throw, named by its own entry. */
  lemma SevenMetreCell()
    ensures GetCellDetails(GridLayoutPosicional, 0, 1) == Some(GridLayoutPosicional[1])
  {
    NamedEntryWins(GridLayoutPosicional, 1, 0, 1);
  }

  /** The two neighbours of the seven-metre cell are the wings, which fill the rest of the first row. */
  lemma WingCells(colIndex: int)
    requires colIndex == 0 || colIndex == 2
    ensures GetCellDetails(GridLayoutPosicional, 0, colIndex) == Some(GridLayoutPosicional[0])
  {
    FirstFillerWins(GridLayoutPosicional, 0, 0, colIndex);
  }

  /** The button shown in a cell, for the layout of `tipoAtaque` (rows 0-3, columns 0-2). */
  function Cell(tipoAtaque: string, rowIndex: int, colIndex: int): (r: GridItem)
    requires 0 <= rowIndex < 4 && 0 <= colIndex < 3
    ensures Some(r) == GetCellDetails(ActiveGridLayout(tipoAtaque), rowIndex, colIndex)
  {
    EveryCellFilled(tipoAtaque, rowIndex, colIndex);
    GetCellDetails(ActiveGridLayout(tipoAtaque), rowIndex, colIndex).value
  }

  /** `isSelected`: the cell's detail and its column's zone are the current selection. */
  predicate IsSelected(selectedDetalle: string, selectedZona: string, tipoAtaque: string, rowIndex: int, colIndex: int)
    requires 0 <= rowIndex < 4 && 0 <= colIndex < 3
    ensures IsSelected(selectedDetalle, selectedZona, tipoAtaque, rowIndex, colIndex) <==>
              ParseZone(selectedZona) == Some(ZonasColumnas[colIndex])
              && ParseFinalization(selectedDetalle) == Some(Cell(tipoAtaque, rowIndex, colIndex).detalle)
  {
    selectedDetalle == Cell(tipoAtaque, rowIndex, colIndex).detalle.Name() && selectedZona == ZonasColumnas[colIndex].Name()
  }

  /** The `(zona, detalle)` pair a click on a cell hands to `onSelection`. */
  function ClickCell(tipoAtaque: string, rowIndex: int, colIndex: int): (sel: (string, string))
    requires 0 <= rowIndex < 4 && 0 <= colIndex < 3
    ensures ParseZone(sel.0) == Some(ZonasColumnas[colIndex])
    ensures ParseFinalization(sel.1) == Some(Cell(tipoAtaque, rowIndex, colIndex).detalle)
  {
    (ZonasColumnas[colIndex].Name(), Cell(tipoAtaque, rowIndex, colIndex).detalle.Name())
  }

  /** The picture of the court: the detail drawn in each cell, for the positional layout or the counter-attack one. */
  function DrawnDetail(positional: bool, rowIndex: int, colIndex: int): Finalization
  {
    if positional then
      if rowIndex == 0 then (if colIndex == 1 then Finalization.SieteMetros else Extremos)
      else if rowIndex == 1 then Pivote
      else if rowIndex == 2 then Penetracion
      else LanzamientoExterior
    else
      if rowIndex == 0 then Contragol
      else if rowIndex == 1 then PrimeraOleada
      else if rowIndex == 2 then SegundaOleada
      else TerceraOleada
  }

  lemma PositionalCell(rowIndex: int, colIndex: int)
    requires 0 <= rowIndex < 4 && 0 <= colIndex < 3
    ensures GetCellDetails(GridLayoutPosicional, rowIndex, colIndex).Some?
    ensures GetCellDetails(GridLayoutPosicional, rowIndex, colIndex).value.detalle == DrawnDetail(true, rowIndex, colIndex)
  {
    if rowIndex == 0 && colIndex == 1 {
      SevenMetreCell();
    } else if rowIndex == 0 {
      WingCells(colIndex);
    } else {
      AloneInRowWins(GridLayoutPosicional, rowIndex + 1, rowIndex, colIndex);
    }
  }

  lemma CounterAttackCell(rowIndex: int, colIndex: int)
    requires 0 <= rowIndex < 4 && 0 <= colIndex < 3
    ensures GetCellDetails(GridLayoutContraataque, rowIndex, colIndex).Some?
    ensures GetCellDetails(GridLayoutContraataque, rowIndex, colIndex).value.detalle == DrawnDetail(false, rowIndex, colIndex)
  {
    AloneInRowWins(GridLayoutContraataque, rowIndex, rowIndex, colIndex);
  }

  /** The lookup over the layouts shows exactly the picture of the court. */
  lemma CellDetail(tipoAtaque: string, rowIndex: int, colIndex: int)
    requires 0 <= rowIndex < 4 && 0 <= colIndex < 3
    ensures Cell(tipoAtaque, rowIndex, colIndex).detalle == DrawnDetail(tipoAtaque == Posicional.Name(), rowIndex, colIndex)
  {
    if tipoAtaque == Posicional.Name() {
      PositionalCell(rowIndex, colIndex);
    } else {
      CounterAttackCell(rowIndex, colIndex);
    }
  }

  /** The counter-attack picture holds the fast-break details, the positional one the others. */
  lemma DrawnFastBreaks(positional: bool, rowIndex: int, colIndex: int)
    ensures DrawnDetail(positional, rowIndex, colIndex).IsFastBreak() <==> !positional
  {
  }

  /**
   * The button of a cell: its detail belongs to the attack the layout is for
   * (fast-break details only in the counter-attack layout).
   */
  lemma LayoutMatchesAttack(tipoAtaque: string, rowIndex: int, colIndex: int)
    requires 0 <= rowIndex < 4 && 0 <= colIndex < 3
    ensures Cell(tipoAtaque, rowIndex, colIndex).detalle.IsFastBreak() <==> tipoAtaque != Posicional.Name()
  {
    CellDetail(tipoAtaque, rowIndex, colIndex);
    DrawnFastBreaks(tipoAtaque == Posicional.Name(), rowIndex, colIndex);
  }

  /** No detail is drawn twice in one column. */
  lemma DrawnDetailsDistinct(positional: bool, r1: int, r2: int, c: int)
    requires 0 <= r1 < 4 && 0 <= r2 < 4
    requires DrawnDetail(positional, r1, c) == DrawnDetail(positional, r2, c)
    ensures r1 == r2
  {
  }

  /** Two cells with the same detail in the same column's zone are the same cell. */
  lemma SameButtonSameCell(tipoAtaque: string, rowIndex: int, colIndex: int, r: int, c: int)
    requires 0 <= rowIndex < 4 && 0 <= colIndex < 3 && 0 <= r < 4 && 0 <= c < 3
    requires Cell(tipoAtaque, r, c).detalle == Cell(tipoAtaque, rowIndex, colIndex).detalle
    requires ZonasColumnas[c] == ZonasColumnas[colIndex]
    ensures r == rowIndex && c == colIndex
  {
    CellDetail(tipoAtaque, rowIndex, colIndex);
    CellDetail(tipoAtaque, r, c);
    SameDrawingSameCell(tipoAtaque == Posicional.Name(), rowIndex, colIndex, r, c);
  }

  /** In the picture of the court, a detail and a column's zone locate one cell. */
  lemma SameDrawingSameCell(positional: bool, rowIndex: int, colIndex: int, r: int, c: int)
    requires 0 <= rowIndex < 4 && 0 <= colIndex < 3 && 0 <= r < 4 && 0 <= c < 3
    requires DrawnDetail(positional, r, c) == DrawnDetail(positional, rowIndex, colIndex)
    requires ZonasColumnas[c] == ZonasColumnas[colIndex]
    ensures r == rowIndex && c == colIndex
  {
    DrawnDetailsDistinct(positional, rowIndex, r, c);
  }

  /**
   * After a click, when the caller stores the pair it receives as the
   * selection, the clicked cell is the one and only selected cell.
   */
  lemma ClickSelectsThatCellOnly(tipoAtaque: string, rowIndex: int, colIndex: int, r: int, c: int)
    requires 0 <= rowIndex < 4 && 0 <= colIndex < 3 && 0 <= r < 4 && 0 <= c < 3
    ensures var sel := ClickCell(tipoAtaque, rowIndex, colIndex);
            IsSelected(sel.1, sel.0, tipoAtaque, r, c) <==> r == rowIndex && c == colIndex
  {
    var sel := ClickCell(tipoAtaque, rowIndex, colIndex);
    if IsSelected(sel.1, sel.0, tipoAtaque, r, c) {
      SameButtonSameCell(tipoAtaque, rowIndex, colIndex, r, c);
    }
  }
}
