/**
 * The quick-entry recording page, src/pages/AccionForm.jsx.
 *
 * It keeps its own form (`formData`, without `cambioPosesion`: the page never
 * sets that flag and only reads it back from the stored actions), the team on
 * turn and the loaded history, and derives the next possession and team from
 * the last recorded action with its own rule: the possession number moves on
 * after EVERY action, while MatchActionsView moves it on only after a change
 * of possession. Its zone grid uses button ids that
 * are not all the DETALLE_FINALIZACION / ZONA_LANZAMIENTO strings.
 */
module AccionForm {
  import opened Options
  import opened Actions
  import opened AccionService
  import MatchActionsView

  datatype QuickForm = QuickForm(idPartido: int, idPosesion: int, choices: Choices)

  /** The defaults the form starts from and is reset to: a positional goal from continuous play. */
  function DefaultChoices(team: string): (c: Choices)
    ensures c.equipoAccion == team
    ensures ParseAttackType(c.tipoAtaque) == Some(Posicional)
    ensures ParseOrigin(c.origenAccion) == Some(JuegoContinuado)
    ensures ParseEvent(c.evento) == Some(Gol)
    ensures c.detalleFinalizacion == "" && c.zonaLanzamiento == "" && c.detalleEvento == ""
  {
    Choices(team, "Posicional", "Juego_Continuado", "Gol", "", "", "")
  }

  // ---------------------------------------------------------------------------
  // Next possession and team
  // ---------------------------------------------------------------------------

  /** The side on turn after `last`: the other side after a change of possession, else the same. */
  function NextTeam(last: Action): (team: string)
    ensures team != last.choices.equipoAccion ==> last.cambioPosesion
    ensures last.cambioPosesion ==> ParseSide(team).Some? && team != last.choices.equipoAccion
  {
    if last.cambioPosesion then
      (if last.choices.equipoAccion == Local.Name() then Visitante.Name() else Local.Name())
    else last.choices.equipoAccion
  }

  /** For an action of either side, the team flips exactly when the action changed possession. */
  lemma NextTeamFlipsOnChange(last: Action, s: Side)
    requires last.choices.equipoAccion == s.Name()
    ensures ParseSide(NextTeam(last)).Some?
    ensures NextTeam(last) == s.Name() <==> !last.cambioPosesion
  {
  }

  /**
   * The possession and team of the next action: possession 1 and 'LOCAL' for
   * an empty history, else one past the last action's possession whatever it
   * did, with the team from `NextTeam`.
   */
  function NextTurn(acciones: seq<Action>): (r: (int, string))
    ensures acciones == [] ==> r == (1, Local.Name())
    ensures acciones != [] ==> r.0 == acciones[|acciones| - 1].idPosesion + 1
    ensures acciones != [] ==> r.1 == NextTeam(acciones[|acciones| - 1])
  {
    if acciones == [] then (1, Local.Name())
    else
      var last := acciones[|acciones| - 1];
      (last.idPosesion + 1, NextTeam(last))
  }

  /**
   * The two recording pages disagree exactly on actions that kept the ball:
   * the quick-entry page moves the possession on anyway.
   */
  lemma PossessionRulesDiverge(acciones: seq<Action>)
    requires acciones != []
    ensures NextTurn(acciones).0 == MatchActionsView.NextPosesion(acciones) <==> acciones[|acciones| - 1].cambioPosesion
    ensures NextTurn(acciones).0 == MatchActionsView.NextPosesion(acciones) + (if acciones[|acciones| - 1].cambioPosesion then 0 else 1)
  {
  }

  /**
   * Numbering a history by the quick-entry rule from the start gives each
   * action its position: possession numbers 1, 2, 3, ...
   */
  ghost predicate QuickNumbered(acciones: seq<Action>)
  {
    forall i :: 0 <= i < |acciones| ==> acciones[i].idPosesion == NextTurn(acciones[..i]).0
  }

  lemma {:induction false} QuickNumberingCountsActions(acciones: seq<Action>)
    requires QuickNumbered(acciones)
    ensures forall i :: 0 <= i < |acciones| ==> acciones[i].idPosesion == i + 1
    ensures NextTurn(acciones).0 == |acciones| + 1
    decreases |acciones|
  {
    if acciones != [] {
      var n := |acciones| - 1;
      var prefix := acciones[..n];
      assert QuickNumbered(prefix) by {
        forall i | 0 <= i < |prefix|
          ensures prefix[i].idPosesion == NextTurn(prefix[..i]).0
        {
          assert prefix[..i] == acciones[..i];
        }
      }
      QuickNumberingCountsActions(prefix);
      assert acciones[n].idPosesion == NextTurn(prefix).0;
    }
  }

  // ---------------------------------------------------------------------------
  // The zone grid
  // ---------------------------------------------------------------------------

  /** A row of zone buttons: the finalization id it records and the zones offered. */
  datatype ZoneGroup = ZoneGroup(id: string, zones: seq<string>)

  const AllZones: seq<string> := ["Izquierda", "Centro", "Derecha"]

  /**
   * getZonasGrid: five positional groups (exterior, pivot, penetration, wing,
   * seven metres) or, for any other attack type, the four fast-break groups.
   */
  function GetZonasGrid(tipoAtaque: string): (r: seq<ZoneGroup>)
    ensures tipoAtaque == Posicional.Name() ==> |r| == 5
    ensures tipoAtaque != Posicional.Name() ==> |r| == 4 && forall g :: g in r ==> g.zones == AllZones
    ensures Distinct(Ids(r))
    ensures forall g :: g in r ==> g.zones != []
  {
    if tipoAtaque == Posicional.Name() then
      [ ZoneGroup("Lanzamiento_Exterior", AllZones),
        ZoneGroup("Pivote", ["Centro"]),
        ZoneGroup("Penetracion", AllZones),
        ZoneGroup("Extremo", ["Izquierda", "Derecha"]),
        ZoneGroup("_7m", ["_7m"]) ]
    else
      [ ZoneGroup("Contragol", AllZones),
        ZoneGroup("Primera_Oleada", AllZones),
        ZoneGroup("Segunda_Oleada", AllZones),
        ZoneGroup("Tercera_Oleada", AllZones) ]
  }

  /** The finalization ids of a grid, in order. */
  function Ids(grid: seq<ZoneGroup>): (ids: seq<string>)
    ensures |ids| == |grid| && forall i :: 0 <= i < |grid| ==> ids[i] == grid[i].id
  {
    seq(|grid|, i requires 0 <= i < |grid| => grid[i].id)
  }

  /** The zones a finalization id is offered in, or [] when the grid has no such group. */
  function ZonesOf(grid: seq<ZoneGroup>, id: string): seq<string>
  {
    if grid == [] then []
    else if grid[0].id == id then grid[0].zones
    else ZonesOf(grid[1..], id)
  }

  /** In the positional grid the pivot is central only, the wing is on the sides only, and 7m has its own zone. */
  lemma PositionalZones()
    ensures Ids(GetZonasGrid(Posicional.Name())) == ["Lanzamiento_Exterior", "Pivote", "Penetracion", "Extremo", "_7m"]
    ensures ZonesOf(GetZonasGrid(Posicional.Name()), "Pivote") == [Centro.Name()]
    ensures ZonesOf(GetZonasGrid(Posicional.Name()), "Extremo") == [Izquierda.Name(), Derecha.Name()]
    ensures ZonesOf(GetZonasGrid(Posicional.Name()), "_7m") == ["_7m"]
    ensures ZonesOf(GetZonasGrid(Posicional.Name()), "Lanzamiento_Exterior") == AllZones
    ensures ZonesOf(GetZonasGrid(Posicional.Name()), "Penetracion") == AllZones
  {
  }

  /**
   * For any attack type but 'Posicional' the grid is the four fast-break
   * groups, in the order contragol then the three waves, each offered in
   * all three zones.
   */
  lemma CounterAttackGrid(tipoAtaque: string)
    requires tipoAtaque != Posicional.Name()
    ensures Ids(GetZonasGrid(tipoAtaque)) == ["Contragol", "Primera_Oleada", "Segunda_Oleada", "Tercera_Oleada"]
    ensures ZonesOf(GetZonasGrid(tipoAtaque), "Contragol") == AllZones
    ensures ZonesOf(GetZonasGrid(tipoAtaque), "Primera_Oleada") == AllZones
    ensures ZonesOf(GetZonasGrid(tipoAtaque), "Segunda_Oleada") == AllZones
    ensures ZonesOf(GetZonasGrid(tipoAtaque), "Tercera_Oleada") == AllZones
  {
    var g := GetZonasGrid(tipoAtaque);
    assert g[1..][1..] == [g[2], g[3]] && g[1..][1..][1..] == [g[3]];
    assert ZonesOf(g[1..], "Segunda_Oleada") == ZonesOf(g[1..][1..], "Segunda_Oleada") == AllZones;
    assert ZonesOf(g[1..][1..], "Tercera_Oleada") == ZonesOf(g[1..][1..][1..], "Tercera_Oleada") == AllZones;
  }

  /** The grid ids that are not DETALLE_FINALIZACION strings. */
  predicate IsOffEnumId(id: string)
  {
    id == "Extremo" || id == "Primera_Oleada" || id == "Segunda_Oleada" || id == "Tercera_Oleada"
  }

  /**
   * The grid's ids against DETALLE_FINALIZACION: the wing id 'Extremo' and the
   * three wave ids are not enumeration strings (the enumeration has
   * 'Extremos' and '_1a_oleada'...), every other id is.
   */
  lemma GridIdsDivergeFromEnum(tipoAtaque: string)
    ensures forall i :: 0 <= i < |GetZonasGrid(tipoAtaque)| ==>
              (ParseFinalization(GetZonasGrid(tipoAtaque)[i].id).None? <==> IsOffEnumId(GetZonasGrid(tipoAtaque)[i].id))
  {
    var grid := GetZonasGrid(tipoAtaque);
    forall i | 0 <= i < |grid|
      ensures ParseFinalization(grid[i].id).None? <==> IsOffEnumId(grid[i].id)
    {
      var id := grid[i].id;
      if tipoAtaque == Posicional.Name() {
        assert id in ["Lanzamiento_Exterior", "Pivote", "Penetracion", "Extremo", "_7m"];
      } else {
        assert id in ["Contragol", "Primera_Oleada", "Segunda_Oleada", "Tercera_Oleada"];
      }
      IdStringDiverges(id);
    }
  }

  /** Of the strings the grid uses as ids, the off-enumeration ones are exactly those no finalization is named by. */
  lemma IdStringDiverges(id: string)
    requires id in ["Lanzamiento_Exterior", "Pivote", "Penetracion", "Extremo", "_7m",
                    "Contragol", "Primera_Oleada", "Segunda_Oleada", "Tercera_Oleada"]
    ensures ParseFinalization(id).None? <==> IsOffEnumId(id)
  {
  }

  /** The grid's zones against ZONA_LANZAMIENTO: only the seven-metre zone '_7m' is not an enumeration string. */
  lemma GridZonesDivergeFromEnum(tipoAtaque: string)
    ensures forall i, k :: 0 <= i < |GetZonasGrid(tipoAtaque)| && 0 <= k < |GetZonasGrid(tipoAtaque)[i].zones| ==>
              (ParseZone(GetZonasGrid(tipoAtaque)[i].zones[k]).None? <==> GetZonasGrid(tipoAtaque)[i].zones[k] == "_7m")
  {
    var grid := GetZonasGrid(tipoAtaque);
    forall i, k | 0 <= i < |grid| && 0 <= k < |grid[i].zones|
      ensures ParseZone(grid[i].zones[k]).None? <==> grid[i].zones[k] == "_7m"
    {
      var zones := grid[i].zones;
      assert zones == AllZones || zones == ["Centro"] || zones == ["Izquierda", "Derecha"] || zones == ["_7m"];
      assert zones[k] in ["Izquierda", "Centro", "Derecha", "_7m"];
      ZoneStringDiverges(zones[k]);
    }
  }

  /** Of the strings the grid uses as zones, only '_7m' is not a ZONA_LANZAMIENTO string. */
  lemma ZoneStringDiverges(z: string)
    requires z in ["Izquierda", "Centro", "Derecha", "_7m"]
    ensures ParseZone(z).None? <==> z == "_7m"
  {
  }

  // ---------------------------------------------------------------------------
  // The page state
  // ---------------------------------------------------------------------------

  datatype Registration =
    | Refused     // a finalization or zone is missing: nothing is sent
    | SaveFailed  // a request failed or the reloaded history came back empty
    | Registered

  class QuickEntryPage {
    const idPartido: int
    var formData: QuickForm
    var equipoActual: string
    var acciones: seq<Action>

    /** The header's team on turn is the team the form will record. */
    ghost predicate TurnShown()
      reads this
    {
      formData.choices.equipoAccion == equipoActual
    }

    constructor (idPartido: int)
      ensures this.idPartido == idPartido
      ensures formData == QuickForm(idPartido, 1, DefaultChoices(Local.Name()))
      ensures equipoActual == Local.Name() && acciones == []
      ensures TurnShown()
    {
      this.idPartido := idPartido;
      formData := QuickForm(idPartido, 1, DefaultChoices("LOCAL"));
      equipoActual := "LOCAL";
      acciones := [];
    }

    /** Set the next possession and team on the form and in the header. */
    method SetTurn(turn: (int, string))
      modifies this
      ensures formData == old(formData).(idPosesion := turn.0, choices := old(formData.choices).With(EquipoAccion, turn.1))
      ensures equipoActual == turn.1 && acciones == old(acciones)
      ensures TurnShown()
    {
      formData := formData.(idPosesion := turn.0, choices := formData.choices.With(EquipoAccion, turn.1));
      equipoActual := turn.1;
    }

    /** The load (lines 59-73): a non-empty history sets the next possession and team. */
    method Load(history: seq<Action>)
      modifies this
      ensures acciones == history
      ensures history != [] ==>
                formData == old(formData).(idPosesion := NextTurn(history).0,
                                           choices := old(formData.choices).With(EquipoAccion, NextTurn(history).1))
                && equipoActual == NextTurn(history).1
      ensures history == [] ==> formData == old(formData) && equipoActual == old(equipoActual)
      ensures old(TurnShown()) ==> TurnShown()
    {
      acciones := history;
      if history != [] {
        SetTurn(NextTurn(history));
      }
    }

    /** setQuickValue: exactly one field changes. */
    method SetQuickValue(f: Field, v: string)
      modifies this
      ensures formData.idPartido == old(formData.idPartido) && formData.idPosesion == old(formData.idPosesion)
      ensures forall g :: formData.choices.Get(g) == if g == f then v else old(formData.choices.Get(g))
      ensures equipoActual == old(equipoActual) && acciones == old(acciones)
      ensures f != EquipoAccion && old(TurnShown()) ==> TurnShown()
    {
      formData := formData.(choices := formData.choices.With(f, v));
    }

    /** selectZone: the finalization and the zone change together, nothing else. */
    method SelectZone(detalleFinalizacion: string, zona: string)
      modifies this
      ensures formData.idPartido == old(formData.idPartido) && formData.idPosesion == old(formData.idPosesion)
      ensures forall g :: formData.choices.Get(g) ==
                if g == DetalleFinalizacion then detalleFinalizacion
                else if g == ZonaLanzamiento then zona
                else old(formData.choices.Get(g))
      ensures equipoActual == old(equipoActual) && acciones == old(acciones)
      ensures old(TurnShown()) ==> TurnShown()
    {
      formData := formData.(choices := formData.choices.With(DetalleFinalizacion, detalleFinalizacion)
                                                   .With(ZonaLanzamiento, zona));
    }

    /**
     * registrarAccionRapida. `reloaded` is the history read back after the
     * save, None when the save or the read fails. Without a finalization and a
     * zone nothing is sent; after a registration the form is reset to a
     * positional goal from continuous play for the next possession and team.
     */
    method RegistrarAccionRapida(reloaded: Option<seq<Action>>) returns (outcome: Registration)
      modifies this
      ensures outcome == Refused <==>
                old(formData.choices.detalleFinalizacion) == "" || old(formData.choices.zonaLanzamiento) == ""
      ensures outcome == Registered <==> outcome != Refused && reloaded.Some? && reloaded.value != []
      ensures outcome != Registered ==> formData == old(formData) && equipoActual == old(equipoActual)
      ensures outcome == Refused || reloaded.None? ==> acciones == old(acciones)
      ensures outcome != Refused && reloaded.Some? ==> acciones == reloaded.value
      ensures outcome == Registered ==>
                var turn := NextTurn(reloaded.value);
                formData == QuickForm(idPartido, turn.0, DefaultChoices(turn.1)) && equipoActual == turn.1
      ensures old(TurnShown()) ==> TurnShown()
    {
      if formData.choices.detalleFinalizacion == "" || formData.choices.zonaLanzamiento == "" {
        return Refused;
      }
      if reloaded.None? {
        return SaveFailed;
      }
      acciones := reloaded.value;
      if acciones == [] {
        // reading the last action of an empty list throws; the catch reports a failure
        return SaveFailed;
      }
      var nueva := acciones[|acciones| - 1];
      var proximoEquipo := NextTeam(nueva);
      formData := QuickForm(idPartido, nueva.idPosesion + 1, DefaultChoices(proximoEquipo));
      equipoActual := proximoEquipo;
      outcome := Registered;
    }

    /**
     * eliminarAccionRapida with the history read back after the deletion (None
     * when a request fails): the next possession and team are derived again,
     * and an emptied history restarts at possession 1 with 'LOCAL'.
     */
    method EliminarAccionRapida(reloaded: Option<seq<Action>>)
      modifies this
      ensures reloaded.None? ==> formData == old(formData) && equipoActual == old(equipoActual) && acciones == old(acciones)
      ensures reloaded.Some? ==> acciones == reloaded.value
      ensures reloaded.Some? ==>
                formData == old(formData).(idPosesion := NextTurn(reloaded.value).0,
                                           choices := old(formData.choices).With(EquipoAccion, NextTurn(reloaded.value).1))
                && equipoActual == NextTurn(reloaded.value).1
      ensures reloaded == Some([]) ==> formData.idPosesion == 1 && equipoActual == Local.Name()
      ensures old(TurnShown()) ==> TurnShown()
    {
      if reloaded.None? {
        return;
      }
      acciones := reloaded.value;
      if acciones != [] {
        var ultima := acciones[|acciones| - 1];
        SetTurn((ultima.idPosesion + 1, NextTeam(ultima)));
      } else {
        SetTurn((1, "LOCAL"));
      }
    }
  }
}
