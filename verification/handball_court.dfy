/**
 * The court drawing MatchActionsView uses to pick the finalization detail and
 * the launch zone one at a time (src/components/HandballCourt.jsx). The
 * detail buttons depend on the attack type; clicks are forwarded to the
 * page's callbacks unless the court is disabled.
 */
module HandballCourt {
  import opened Options
  import opened AccionService
  import CourtGridSelector

  /** `getAvailableDetalle()`: the fast-break buttons for 'Contraataque', the positional ones for anything else. */
  function AvailableDetalle(tipoAtaque: string): (r: seq<Finalization>)
    ensures forall d :: d in r <==> (d.IsFastBreak() <==> tipoAtaque == Contraataque.Name())
    ensures Distinct(r)
    ensures |r| == if tipoAtaque == Contraataque.Name() then 4 else 5
  {
    if tipoAtaque == Contraataque.Name() then
      [Contragol, PrimeraOleada, SegundaOleada, TerceraOleada]
    else
      [LanzamientoExterior, Pivote, Penetracion, Extremos, Finalization.SieteMetros]
  }

  /** `zonaOptions`: the three zones drawn on the court. */
  const ZonaOptions: seq<Zone> := [Izquierda, Centro, Derecha]

  lemma ZonaOptionsAreTheZones()
    ensures |ZonaOptions| == 3
    ensures forall z: Zone :: z in ZonaOptions
    ensures Distinct(ZonaOptions)
  {
    forall z: Zone ensures z in ZonaOptions {
      assert ZonaOptions[if z.Izquierda? then 0 else if z.Centro? then 1 else 2] == z;
    }
  }

  /**
   * `handleZoneClick(zona)`: the value handed to `onZonaChange`, or None when
   * the court is disabled and the callback is not invoked.
   */
  function HandleZoneClick(disabled: bool, zona: Zone): (forwarded: Option<string>)
    ensures forwarded.None? <==> disabled
    ensures forwarded.Some? ==> ParseZone(forwarded.value) == Some(zona)
  {
    if !disabled then Some(zona.Name()) else None
  }

  /** `handleDetalleClick(detalle)`: the value handed to `onDetalleChange`, or None when disabled. */
  function HandleDetalleClick(disabled: bool, detalle: Finalization): (forwarded: Option<string>)
    ensures forwarded.None? <==> disabled
    ensures forwarded.Some? ==> ParseFinalization(forwarded.value) == Some(detalle)
  {
    if !disabled then Some(detalle.Name()) else None
  }

  /**
   * The two court pickers test the attack type against different constants:
   * this court offers fast-break details only for 'Contraataque', the grid
   * only shows the positional layout for 'Posicional'. For any other value
   * (the empty string included) they offer disjoint sets of details.
   */
  lemma PickersDisagreeOffEnum(tipoAtaque: string, rowIndex: int, colIndex: int)
    requires tipoAtaque != Posicional.Name() && tipoAtaque != Contraataque.Name()
    requires 0 <= rowIndex < 4 && 0 <= colIndex < 3
    ensures CourtGridSelector.Cell(tipoAtaque, rowIndex, colIndex).detalle !in AvailableDetalle(tipoAtaque)
  {
    CourtGridSelector.LayoutMatchesAttack(tipoAtaque, rowIndex, colIndex);
  }

  /** For the two enumerated attack types the pickers offer the same details. */
  lemma PickersAgreeOnEnum(t: AttackType, rowIndex: int, colIndex: int)
    requires 0 <= rowIndex < 4 && 0 <= colIndex < 3
    ensures CourtGridSelector.Cell(t.Name(), rowIndex, colIndex).detalle in AvailableDetalle(t.Name())
  {
    CourtGridSelector.LayoutMatchesAttack(t.Name(), rowIndex, colIndex);
  }
}
