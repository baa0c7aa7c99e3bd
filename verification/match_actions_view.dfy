/**
 * The detailed recording page, src/pages/MatchActionsView.jsx.
 *
 * Its pure lookups (which origins may start the next action, which fields an
 * event requires, when the court selector shows) are functions; the page
 * state it updates step by step (the draft `newAction`, the possession counter
 * `currentPosesion`, the loaded history `acciones`, the selected team) is the
 * class `MatchActionsPage`, whose methods are the page's handlers.
 *
 * Its possession number advances only when the last action changed
 * possession; the quick-entry page (AccionForm) advances it on every action.
 */
module MatchActionsView {
  import opened Options
  import opened Actions
  import opened AccionService
  import HandballCourt

  // ---------------------------------------------------------------------------
  // Possession numbering
  // ---------------------------------------------------------------------------

  /**
   * The possession the next action belongs to: 1 for an empty history, else
   * the last action's possession, moved on by one if that action changed it.
   */
  function NextPosesion(acciones: seq<Action>): (p: int)
    ensures acciones == [] ==> p == 1
    ensures acciones != [] ==> acciones[|acciones| - 1].idPosesion <= p <= acciones[|acciones| - 1].idPosesion + 1
    ensures acciones != [] ==> (p == acciones[|acciones| - 1].idPosesion + 1 <==> acciones[|acciones| - 1].cambioPosesion)
  {
    if acciones == [] then 1
    else
      var last := acciones[|acciones| - 1];
      if last.cambioPosesion then last.idPosesion + 1 else last.idPosesion
  }

  /** Reference numbering: 1 plus the number of possession changes recorded so far. */
  function FoldedPosesion(acciones: seq<Action>): (p: int)
    ensures p >= 1
  {
    if acciones == [] then 1
    else
      FoldedPosesion(acciones[..|acciones| - 1])
        + (if acciones[|acciones| - 1].cambioPosesion then 1 else 0)
  }

  /** Every action carries the possession number the changes before it give. */
  ghost predicate WellNumbered(acciones: seq<Action>)
  {
    forall i :: 0 <= i < |acciones| ==> acciones[i].idPosesion == FoldedPosesion(acciones[..i])
  }

  /** On a well-numbered history, looking at the last action gives the folded number. */
  lemma NextPosesionIsFolded(acciones: seq<Action>)
    requires WellNumbered(acciones)
    ensures NextPosesion(acciones) == FoldedPosesion(acciones)
  {
    if acciones != [] {
      var n := |acciones| - 1;
      assert acciones[n].idPosesion == FoldedPosesion(acciones[..n]);
    }
  }

  /**
   * Appending an action numbered with the suggested possession keeps the
   * history well numbered: no gaps and no regressions.
   */
  lemma {:induction false} AppendKeepsNumbering(acciones: seq<Action>, a: Action)
    requires WellNumbered(acciones)
    requires a.idPosesion == NextPosesion(acciones)
    ensures WellNumbered(acciones + [a])
    ensures NextPosesion(acciones + [a]) == NextPosesion(acciones) + (if a.cambioPosesion then 1 else 0)
  {
    var h := acciones + [a];
    NextPosesionIsFolded(acciones);
    forall i | 0 <= i < |h|
      ensures h[i].idPosesion == FoldedPosesion(h[..i])
    {
      if i < |acciones| {
        assert h[..i] == acciones[..i];
      } else {
        assert h[..i] == acciones;
      }
    }
  }

  /**
   * The folded number never decreases as actions are appended, and grows by at
   * most one per appended action.
   */
  lemma {:induction false} FoldedPosesionMonotone(acciones: seq<Action>, more: seq<Action>)
    ensures FoldedPosesion(acciones) <= FoldedPosesion(acciones + more) <= FoldedPosesion(acciones) + |more|
    decreases |more|
  {
    if more != [] {
      var m := more[..|more| - 1];
      FoldedPosesionMonotone(acciones, m);
      assert (acciones + more)[..|acciones + more| - 1] == acciones + m;
    } else {
      assert acciones + more == acciones;
    }
  }

  // ---------------------------------------------------------------------------
  // Pure lookups
  // ---------------------------------------------------------------------------

  /**
   * getAvailableOrigenAccion: continuous play only at the start of a match;
   * after a change of possession, continuous play or a seven-metre throw;
   * otherwise the attacking team kept the ball off a rebound.
   */
  function AvailableOrigenAccion(acciones: seq<Action>): (r: seq<string>)
    ensures Distinct(r)
    ensures forall s :: s in r ==> ParseOrigin(s).Some?
    ensures forall o: Origin :: o.Name() in r <==>
              if acciones == [] then o == JuegoContinuado
              else if acciones[|acciones| - 1].cambioPosesion then o == JuegoContinuado || o == Origin.SieteMetros
              else o == ReboteDirecto || o == ReboteIndirecto
  {
    if acciones == [] then [JuegoContinuado.Name()]
    else if acciones[|acciones| - 1].cambioPosesion then [JuegoContinuado.Name(), Origin.SieteMetros.Name()]
    else [ReboteDirecto.Name(), ReboteIndirecto.Name()]
  }

  /**
   * After a saved shot or a shot off the post, recorded with the flag the rule
   * gives, only the two rebound origins are offered.
   */
  lemma ReboundAfterRetainedShot(acciones: seq<Action>)
    requires acciones != []
    requires var last := acciones[|acciones| - 1];
             last.cambioPosesion == ShouldChangePossession(last.choices.evento, last.choices.detalleEvento)
    requires var last := acciones[|acciones| - 1];
             last.choices.evento == LanzamientoParado.Name()
             || (last.choices.evento == LanzamientoFuera.Name() && last.choices.detalleEvento == Palo.Name())
    ensures AvailableOrigenAccion(acciones) == [ReboteDirecto.Name(), ReboteIndirecto.Name()]
  {
  }

  /** A seven-metre origin is offered only right after a change of possession. */
  lemma SevenMetreOnlyAfterChange(acciones: seq<Action>)
    requires Origin.SieteMetros.Name() in AvailableOrigenAccion(acciones)
    ensures acciones != [] && acciones[|acciones| - 1].cambioPosesion
  {
  }

  /** The events that end in a shot (and need a finalization and a zone). */
  predicate IsShotEvent(evento: string)
  {
    evento in [Gol.Name(), LanzamientoParado.Name(), LanzamientoFuera.Name()]
  }

  /**
   * isFieldRequired: the finalization and the zone are required for a shot
   * event, the event detail for a saved shot, a missed shot or a turnover,
   * and every other field always.
   */
  function IsFieldRequired(f: Field, evento: string): (r: bool)
    ensures f == DetalleFinalizacion || f == ZonaLanzamiento ==> (r <==> IsShotEvent(evento))
    ensures f == DetalleEvento ==>
              (r <==> evento in [LanzamientoParado.Name(), LanzamientoFuera.Name(), Perdida.Name()])
    ensures f !in {DetalleFinalizacion, ZonaLanzamiento, DetalleEvento} ==> r
  {
    match f
    case DetalleFinalizacion | ZonaLanzamiento => IsShotEvent(evento)
    case DetalleEvento => evento in [LanzamientoParado.Name(), LanzamientoFuera.Name(), Perdida.Name()]
    case _ => true
  }

  /** The event detail is required exactly when the event has legal details to choose from. */
  lemma DetailRequiredIffOffered(evento: string)
    ensures IsFieldRequired(DetalleEvento, evento) <==> ValidDetalleEvento(evento) != []
  {
    DetalleEventoCounts(evento);
  }

  /** Over the four events: a finalization is required for all but a turnover, a detail for all but a goal. */
  lemma RequiredFieldsPerEvent(e: Event)
    ensures IsFieldRequired(DetalleFinalizacion, e.Name()) <==> e != Perdida
    ensures IsFieldRequired(ZonaLanzamiento, e.Name()) <==> e != Perdida
    ensures IsFieldRequired(DetalleEvento, e.Name()) <==> e != Gol
  {
    assert ParseEvent(e.Name()) == Some(e);
  }

  /** shouldShowCourtSelector: a chosen shot event. */
  function ShouldShowCourtSelector(evento: string): (r: bool)
    ensures r ==> evento != ""
    ensures r <==> IsFieldRequired(ZonaLanzamiento, evento)
  {
    evento != "" && IsShotEvent(evento)
  }

  // ---------------------------------------------------------------------------
  // Dependent-field clearing
  // ---------------------------------------------------------------------------

  /**
   * The fields that handleFieldChange empties when `f` changes: the attack type
   * and the origin govern the finalization; the event governs its detail, the
   * finalization and the zone.
   */
  function ClearedBy(f: Field): set<Field>
  {
    if f == TipoAtaque || f == OrigenAccion then {DetalleFinalizacion}
    else if f == Evento then {DetalleEvento, DetalleFinalizacion, ZonaLanzamiento}
    else {}
  }

  /**
   * The updater handleFieldChange hands to setNewAction: field `f` takes `v`,
   * the fields that depend on it become '', every other field is kept.
   */
  function FieldChange(c: Choices, f: Field, v: string): (r: Choices)
    ensures forall g :: r.Get(g) == if g == f then v else if g in ClearedBy(f) then "" else c.Get(g)
  {
    var updated := c.With(f, v);
    if f == TipoAtaque || f == OrigenAccion then updated.With(DetalleFinalizacion, "")
    else if f == Evento then updated.With(DetalleEvento, "").With(DetalleFinalizacion, "").With(ZonaLanzamiento, "")
    else updated
  }

  /** The event detail, if chosen, is one the detail select offers for the chosen event. */
  predicate DetailOffered(c: Choices)
  {
    c.detalleEvento == "" || c.detalleEvento in ValidDetalleEvento(c.evento)
  }

  /**
   * The finalization, if chosen, is a key HandballCourt draws for the chosen
   * attack type, and the court is shown for the chosen event.
   */
  predicate FinalizationOffered(c: Choices)
  {
    || c.detalleFinalizacion == ""
    || (ShouldShowCourtSelector(c.evento)
        && ParseFinalization(c.detalleFinalizacion).Some?
        && ParseFinalization(c.detalleFinalizacion).value in HandballCourt.AvailableDetalle(c.tipoAtaque))
  }

  /** The zone, if chosen, is one of the court's zones, and the court is shown for the chosen event. */
  predicate ZoneOffered(c: Choices)
  {
    c.zonaLanzamiento == "" || (ShouldShowCourtSelector(c.evento) && ParseZone(c.zonaLanzamiento).Some?)
  }

  /**
   * The clearing is enough: a change of any field leaves each dependent field
   * that was among the offered choices still among them, except when the
   * change sets that field itself.
   */
  lemma ClearingKeepsChoicesOffered(c: Choices, f: Field, v: string)
    ensures DetailOffered(c) && f != DetalleEvento ==> DetailOffered(FieldChange(c, f, v))
    ensures FinalizationOffered(c) && f != DetalleFinalizacion ==> FinalizationOffered(FieldChange(c, f, v))
    ensures ZoneOffered(c) && f != ZonaLanzamiento ==> ZoneOffered(FieldChange(c, f, v))
  {
    var r := FieldChange(c, f, v);
    assert r.Get(Evento) == r.evento && r.Get(TipoAtaque) == r.tipoAtaque;
    assert r.Get(DetalleEvento) == r.detalleEvento && r.Get(DetalleFinalizacion) == r.detalleFinalizacion;
    assert r.Get(ZonaLanzamiento) == r.zonaLanzamiento;
    assert c.Get(Evento) == c.evento && c.Get(TipoAtaque) == c.tipoAtaque;
    assert c.Get(DetalleEvento) == c.detalleEvento && c.Get(DetalleFinalizacion) == c.detalleFinalizacion;
    assert c.Get(ZonaLanzamiento) == c.zonaLanzamiento;
  }

  /** The clearing on an event change is needed: a chosen detail is offered under one event only. */
  lemma EventChangeInvalidatesDetail(c: Choices, v: string)
    requires c.detalleEvento != "" && DetailOffered(c) && v != c.evento
    ensures !DetailOffered(c.With(Evento, v))
  {
    var d := ParseEventDetail(c.detalleEvento);
    assert d.Some? && d.value.Name() == c.detalleEvento;
    assert c.evento == d.value.Owner().Name();
  }

  /**
   * The clearing on an attack-type change is needed: a chosen finalization
   * is no longer drawn once the type crosses the `'Contraataque'` test.
   */
  lemma AttackChangeInvalidatesFinalization(c: Choices, v: string)
    requires c.detalleFinalizacion != "" && FinalizationOffered(c)
    requires (v == Contraataque.Name()) != (c.tipoAtaque == Contraataque.Name())
    ensures !FinalizationOffered(c.With(TipoAtaque, v))
  {
  }

  /** The clearing on an event change is needed for the zone: it is picked only while a shot is chosen. */
  lemma EventChangeInvalidatesZone(c: Choices, v: string)
    requires c.zonaLanzamiento != "" && ZoneOffered(c) && !ShouldShowCourtSelector(v)
    ensures !ZoneOffered(c.With(Evento, v))
  {
  }

  // ---------------------------------------------------------------------------
  // Deriving cambioPosesion (lines 82-90)
  // ---------------------------------------------------------------------------

  /**
   * The effect as written: it recomputes the flag only when both the event and
   * its detail are non-empty, and otherwise leaves the previous value.
   */
  function DerivedCambioAsWritten(a: Action): (r: bool)
    ensures a.choices.detalleEvento == "" ==> r == a.cambioPosesion
    ensures r != DerivedCambio(a) ==> a.choices.detalleEvento == "" && EventComplete(a)
  {
    if a.choices.evento != "" && a.choices.detalleEvento != "" then
      ShouldChangePossession(a.choices.evento, a.choices.detalleEvento)
    else a.cambioPosesion
  }

  /**
   * A goal never gets a detail, so as written a fresh draft for a goal keeps
   * cambioPosesion false although the rule says a goal changes possession.
   */
  lemma GoalKeepsStaleFlagAsWritten()
    ensures var a := Action(1, 1, Unchosen.With(Evento, Gol.Name()), false);
            !DerivedCambioAsWritten(a) && ShouldChangePossession(a.choices.evento, a.choices.detalleEvento)
  {
  }

  /** The event is chosen, and so is its detail when the event requires one. */
  predicate EventComplete(a: Action)
  {
    a.choices.evento != "" && (a.choices.detalleEvento != "" || !IsFieldRequired(DetalleEvento, a.choices.evento))
  }

  /**
   * The corrected derivation: the flag is recomputed as soon as the event is
   * complete, so a goal gets its change of possession.
   */
  function DerivedCambio(a: Action): (r: bool)
    ensures EventComplete(a) ==> r == ShouldChangePossession(a.choices.evento, a.choices.detalleEvento)
    ensures !EventComplete(a) ==> r == a.cambioPosesion
  {
    if EventComplete(a) then ShouldChangePossession(a.choices.evento, a.choices.detalleEvento)
    else a.cambioPosesion
  }

  /**
   * The correction only differs from the code as written when no detail is
   * chosen; with both fields set the two agree, as the source intends.
   */
  lemma DerivedCambioAgreesWithDetail(a: Action)
    requires a.choices.evento != "" && a.choices.detalleEvento != ""
    ensures DerivedCambio(a) == DerivedCambioAsWritten(a)
  {
  }

  /** Under the correction a goal draft always carries a change of possession. */
  lemma GoalChangesPossession(a: Action)
    requires a.choices.evento == Gol.Name()
    ensures DerivedCambio(a)
  {
  }

  // ---------------------------------------------------------------------------
  // The page state
  // ---------------------------------------------------------------------------

  /** The reset draft: only the match and the possession number are kept. */
  function BlankDraft(idPartido: int, idPosesion: int): (a: Action)
    ensures a.idPartido == idPartido && a.idPosesion == idPosesion
    ensures forall f :: a.choices.Get(f) == ""
    ensures !a.cambioPosesion
  {
    Action(idPartido, idPosesion, Unchosen, false)
  }

  class MatchActionsPage {
    const idPartido: int
    var acciones: seq<Action>
    var currentPosesion: int
    var newAction: Action
    var selectedTeam: Option<string>

    /** The counter follows the loaded history and the draft carries the counter. */
    ghost predicate Tracks()
      reads this
    {
      currentPosesion == NextPosesion(acciones) && newAction.idPosesion == currentPosesion
    }

    /** The initial state: no history, possession 1, an empty draft. */
    constructor (idPartido: int)
      ensures this.idPartido == idPartido
      ensures acciones == [] && currentPosesion == 1 && selectedTeam == None
      ensures newAction == BlankDraft(idPartido, 1)
      ensures Tracks()
    {
      this.idPartido := idPartido;
      acciones := [];
      currentPosesion := 1;
      newAction := Action(idPartido, 1, Unchosen, false);
      selectedTeam := None;
    }

    /**
     * The load (lines 58-69): store the history, move the counter on from its
     * last action, and number the draft with the new counter.
     */
    method Load(history: seq<Action>)
      modifies this
      ensures acciones == history
      ensures currentPosesion == if history == [] then old(currentPosesion) else NextPosesion(history)
      ensures newAction == old(newAction).(idPosesion := currentPosesion)
      ensures selectedTeam == old(selectedTeam)
      ensures old(currentPosesion) == 1 ==> Tracks()
    {
      acciones := history;
      if history != [] {
        var last := history[|history| - 1];
        currentPosesion := if last.cambioPosesion then last.idPosesion + 1 else last.idPosesion;
      }
      newAction := newAction.(idPosesion := currentPosesion);
    }

    /**
     * handleFieldChange: set field `f` to `v`, then empty the fields that
     * depend on it; nothing else changes, and a detail, finalization or zone
     * among the offered choices stays so unless it is the field set.
     */
    method HandleFieldChange(f: Field, v: string)
      modifies this
      ensures newAction.choices == FieldChange(old(newAction.choices), f, v)
      ensures old(DetailOffered(newAction.choices)) && f != DetalleEvento ==> DetailOffered(newAction.choices)
      ensures old(FinalizationOffered(newAction.choices)) && f != DetalleFinalizacion ==>
                FinalizationOffered(newAction.choices)
      ensures old(ZoneOffered(newAction.choices)) && f != ZonaLanzamiento ==> ZoneOffered(newAction.choices)
      ensures newAction.idPartido == old(newAction.idPartido)
      ensures newAction.idPosesion == old(newAction.idPosesion)
      ensures newAction.cambioPosesion == old(newAction.cambioPosesion)
      ensures acciones == old(acciones) && currentPosesion == old(currentPosesion)
      ensures selectedTeam == old(selectedTeam)
    {
      var updated := newAction.choices.With(f, v);
      if f == TipoAtaque || f == OrigenAccion {
        updated := updated.With(DetalleFinalizacion, "");
      }
      if f == Evento {
        updated := updated.With(DetalleEvento, "");
        updated := updated.With(DetalleFinalizacion, "");
        updated := updated.With(ZonaLanzamiento, "");
      }
      ClearingKeepsChoicesOffered(newAction.choices, f, v);
      newAction := newAction.(choices := updated);
    }

    /** The cambioPosesion effect, with the correction for events that take no detail. */
    method SyncCambioPosesion()
      modifies this
      ensures newAction == old(newAction).(cambioPosesion := DerivedCambio(old(newAction)))
      ensures EventComplete(newAction) ==>
                newAction.cambioPosesion == ShouldChangePossession(newAction.choices.evento, newAction.choices.detalleEvento)
      ensures acciones == old(acciones) && currentPosesion == old(currentPosesion)
      ensures selectedTeam == old(selectedTeam)
    {
      if EventComplete(newAction) {
        var shouldChange := ShouldChangePossession(newAction.choices.evento, newAction.choices.detalleEvento);
        newAction := newAction.(cambioPosesion := shouldChange);
      }
    }

    /** handleTeamSelect: the draft takes the team and the current possession. */
    method HandleTeamSelect(team: string)
      modifies this
      ensures selectedTeam == Some(team)
      ensures newAction == old(newAction).(choices := old(newAction.choices).With(EquipoAccion, team),
                                           idPosesion := currentPosesion)
      ensures acciones == old(acciones) && currentPosesion == old(currentPosesion)
      ensures old(currentPosesion == NextPosesion(acciones)) ==> Tracks()
    {
      selectedTeam := Some(team);
      newAction := newAction.(choices := newAction.choices.With(EquipoAccion, team), idPosesion := currentPosesion);
    }

    /**
     * handleSubmitAction after the draft is saved and the history reloaded
     * (`reloaded`; None when either request fails, which changes nothing): the
     * counter and the reset draft's possession move on by one exactly when
     * the submitted draft changed possession. The page's button only
     * submits once an event is chosen.
     */
    method HandleSubmitAction(reloaded: Option<seq<Action>>)
      requires newAction.choices.evento != ""
      modifies this
      ensures reloaded.None? ==>
                acciones == old(acciones) && currentPosesion == old(currentPosesion)
                && newAction == old(newAction) && selectedTeam == old(selectedTeam)
      ensures reloaded.Some? ==> acciones == reloaded.value
      ensures reloaded.Some? ==>
                currentPosesion == old(currentPosesion) + (if old(newAction.cambioPosesion) then 1 else 0)
      ensures reloaded.Some? ==> newAction == BlankDraft(idPartido, currentPosesion) && selectedTeam == None
      ensures old(Tracks()) && reloaded == Some(old(acciones) + [old(newAction)]) ==> Tracks()
    {
      if reloaded.None? {
        return;
      }
      ghost var before := acciones;
      ghost var submitted := newAction;
      acciones := reloaded.value;
      var next := if newAction.cambioPosesion then currentPosesion + 1 else currentPosesion;
      currentPosesion := next;
      newAction := Action(idPartido, next, Unchosen, false);
      selectedTeam := None;
      if acciones == before + [submitted] {
        assert acciones[|acciones| - 1] == submitted;
      }
    }
  }
}
