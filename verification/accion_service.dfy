/**
 * The action vocabulary of src/services/accionService.js: the closed string
 * enumerations a recorded action is built from, and the three rules on top of
 * them (attack types allowed by an origin, event details allowed by an event,
 * and whether an event hands the ball to the other team).
 *
 * Each enumeration is a datatype whose `Name()` is the exact string the source
 * stores; form fields stay `string`, since the pages compare raw strings and
 * use '' for "not chosen yet". `ParseX` recognises the names of enumeration X,
 * and its contract is the statement that the names of X are pairwise distinct.
 */
module AccionService {
  import opened Options

  /** EQUIPO_ACCION: which side performed the action. */
  datatype Side = Local | Visitante
  {
    function Name(): string
    {
      match this
      case Local => "LOCAL"
      case Visitante => "VISITANTE"
    }
  }

  /** TIPO_ATAQUE: tactical context of the possession. */
  datatype AttackType = Posicional | Contraataque
  {
    function Name(): string
    {
      match this
      case Posicional => "Posicional"
      case Contraataque => "Contraataque"
    }
  }

  /** ORIGEN_ACCION: how the possession started. */
  datatype Origin = JuegoContinuado | ReboteDirecto | ReboteIndirecto | SieteMetros
  {
    function Name(): string
    {
      match this
      case JuegoContinuado => "Juego_Continuado"
      case ReboteDirecto => "Rebote_directo"
      case ReboteIndirecto => "Rebote_indirecto"
      case SieteMetros => "_7m"
    }
  }

  /** EVENTO: the terminal event of an action. */
  datatype Event = Gol | LanzamientoParado | LanzamientoFuera | Perdida
  {
    function Name(): string
    {
      match this
      case Gol => "Gol"
      case LanzamientoParado => "Lanzamiento_Parado"
      case LanzamientoFuera => "Lanzamiento_Fuera"
      case Perdida => "Perdida"
    }
  }

  /** DETALLE_FINALIZACION: how the shot was taken; five positional and four fast-break values. */
  datatype Finalization =
    | LanzamientoExterior | Pivote | Penetracion | Extremos | SieteMetros
    | Contragol | PrimeraOleada | SegundaOleada | TerceraOleada
  {
    function Name(): string
    {
      match this
      case LanzamientoExterior => "Lanzamiento_Exterior"
      case Pivote => "Pivote"
      case Penetracion => "Penetracion"
      case Extremos => "Extremos"
      case SieteMetros => "_7m"
      case Contragol => "Contragol"
      case PrimeraOleada => "_1a_oleada"
      case SegundaOleada => "_2a_oleada"
      case TerceraOleada => "_3a_oleada"
    }

    /** The four fast-break finalizations; the other five are positional. */
    predicate IsFastBreak()
    {
      Contragol? || PrimeraOleada? || SegundaOleada? || TerceraOleada?
    }
  }

  /** ZONA_LANZAMIENTO: court zone of the shot. */
  datatype Zone = Izquierda | Centro | Derecha
  {
    function Name(): string
    {
      match this
      case Izquierda => "Izquierda"
      case Centro => "Centro"
      case Derecha => "Derecha"
    }
  }

  /** DETALLE_EVENTO: sub-classification of saved shots, missed shots and turnovers. */
  datatype EventDetail =
    | ParadaPortero | BloqueoDefensor | Palo | FueraDirecto
    | Pasos | Dobles | FaltaAtaque | Pasivo | InvasionArea | Robo | Pie | BalonFuera
  {
    function Name(): string
    {
      match this
      case ParadaPortero => "Parada_Portero"
      case BloqueoDefensor => "Bloqueo_Defensor"
      case Palo => "Palo"
      case FueraDirecto => "Fuera_Directo"
      case Pasos => "Pasos"
      case Dobles => "Dobles"
      case FaltaAtaque => "FaltaAtaque"
      case Pasivo => "Pasivo"
      case InvasionArea => "InvasionArea"
      case Robo => "Robo"
      case Pie => "Pie"
      case BalonFuera => "BalonFuera"
    }

    /** The event a detail sub-classifies: saves and blocks, post and miss, or a turnover. */
    function Owner(): Event
    {
      match this
      case ParadaPortero | BloqueoDefensor => LanzamientoParado
      case Palo | FueraDirecto => LanzamientoFuera
      case _ => Perdida
    }
  }

  // ---------------------------------------------------------------------------
  // Recognising the names (each contract says the names are pairwise distinct)
  // ---------------------------------------------------------------------------

  function ParseSide(s: string): (r: Option<Side>)
    ensures forall t: Side :: t.Name() == s <==> r == Some(t)
  {
    if s == "LOCAL" then Some(Local)
    else if s == "VISITANTE" then Some(Visitante)
    else None
  }

  function ParseAttackType(s: string): (r: Option<AttackType>)
    ensures forall t: AttackType :: t.Name() == s <==> r == Some(t)
  {
    if s == "Posicional" then Some(Posicional)
    else if s == "Contraataque" then Some(Contraataque)
    else None
  }

  function ParseOrigin(s: string): (r: Option<Origin>)
    ensures forall o: Origin :: o.Name() == s <==> r == Some(o)
  {
    if s == "Juego_Continuado" then Some(JuegoContinuado)
    else if s == "Rebote_directo" then Some(ReboteDirecto)
    else if s == "Rebote_indirecto" then Some(ReboteIndirecto)
    else if s == "_7m" then Some(Origin.SieteMetros)
    else None
  }

  function ParseEvent(s: string): (r: Option<Event>)
    ensures forall e: Event :: e.Name() == s <==> r == Some(e)
  {
    if s == "Gol" then Some(Gol)
    else if s == "Lanzamiento_Parado" then Some(LanzamientoParado)
    else if s == "Lanzamiento_Fuera" then Some(LanzamientoFuera)
    else if s == "Perdida" then Some(Perdida)
    else None
  }

  function ParseFinalization(s: string): (r: Option<Finalization>)
    ensures forall f: Finalization :: f.Name() == s <==> r == Some(f)
  {
    if s == "Lanzamiento_Exterior" then Some(LanzamientoExterior)
    else if s == "Pivote" then Some(Pivote)
    else if s == "Penetracion" then Some(Penetracion)
    else if s == "Extremos" then Some(Extremos)
    else if s == "_7m" then Some(Finalization.SieteMetros)
    else if s == "Contragol" then Some(Contragol)
    else if s == "_1a_oleada" then Some(PrimeraOleada)
    else if s == "_2a_oleada" then Some(SegundaOleada)
    else if s == "_3a_oleada" then Some(TerceraOleada)
    else None
  }

  function ParseZone(s: string): (r: Option<Zone>)
    ensures forall z: Zone :: z.Name() == s <==> r == Some(z)
  {
    if s == "Izquierda" then Some(Izquierda)
    else if s == "Centro" then Some(Centro)
    else if s == "Derecha" then Some(Derecha)
    else None
  }

  function ParseEventDetail(s: string): (r: Option<EventDetail>)
    ensures forall d: EventDetail :: d.Name() == s <==> r == Some(d)
  {
    if s == "Parada_Portero" then Some(ParadaPortero)
    else if s == "Bloqueo_Defensor" then Some(BloqueoDefensor)
    else if s == "Palo" then Some(Palo)
    else if s == "Fuera_Directo" then Some(FueraDirecto)
    else if s == "Pasos" then Some(Pasos)
    else if s == "Dobles" then Some(Dobles)
    else if s == "FaltaAtaque" then Some(FaltaAtaque)
    else if s == "Pasivo" then Some(Pasivo)
    else if s == "InvasionArea" then Some(InvasionArea)
    else if s == "Robo" then Some(Robo)
    else if s == "Pie" then Some(Pie)
    else if s == "BalonFuera" then Some(BalonFuera)
    else None
  }

  /**
   * Across ORIGEN_ACCION and DETALLE_FINALIZACION exactly one string is shared:
   * the seven-metre origin and the seven-metre finalization are both '_7m'.
   */
  lemma SevenMetreNameShared()
    ensures forall o: Origin, f: Finalization ::
              o.Name() == f.Name() <==> o == Origin.SieteMetros && f == Finalization.SieteMetros
  {
    forall o: Origin, f: Finalization | o.Name() == f.Name()
      ensures o == Origin.SieteMetros && f == Finalization.SieteMetros
    {
      var p := ParseFinalization(o.Name());
      assert p == Some(f);
    }
  }

  // ---------------------------------------------------------------------------
  // The rules
  // ---------------------------------------------------------------------------

  /** Duplicate-free list. */
  predicate Distinct<T(==)>(s: seq<T>)
  {
    forall i, j :: 0 <= i < j < |s| ==> s[i] != s[j]
  }

  /**
   * getValidTipoAtaque: a seven-metre origin admits only a positional attack;
   * every other origin string, '' included, admits both attack types.
   */
  function ValidTipoAtaque(origenAccion: string): (r: seq<string>)
    ensures Distinct(r)
    ensures forall s :: s in r ==> ParseAttackType(s).Some?
    ensures forall t: AttackType ::
              t.Name() in r <==> t == Posicional || origenAccion != Origin.SieteMetros.Name()
  {
    if origenAccion == Origin.SieteMetros.Name() then [Posicional.Name()]
    else [Posicional.Name(), Contraataque.Name()]
  }

  /**
   * getValidDetalleEvento: the legal details of an event are exactly the details
   * that sub-classify it (`Owner`); a goal or any other string gets none.
   */
  function ValidDetalleEvento(evento: string): (r: seq<string>)
    ensures Distinct(r)
    ensures forall s :: s in r ==> ParseEventDetail(s).Some?
    ensures forall d: EventDetail :: d.Name() in r <==> evento == d.Owner().Name()
  {
    if evento == LanzamientoParado.Name() then
      [ParadaPortero.Name(), BloqueoDefensor.Name()]
    else if evento == LanzamientoFuera.Name() then
      [Palo.Name(), FueraDirecto.Name()]
    else if evento == Perdida.Name() then
      [Pasos.Name(), Dobles.Name(), FaltaAtaque.Name(), Pasivo.Name(),
       InvasionArea.Name(), Robo.Name(), Pie.Name(), BalonFuera.Name()]
    else []
  }

  /** The number of legal details per event: 2, 2 and 8, and none for anything else. */
  lemma DetalleEventoCounts(evento: string)
    ensures |ValidDetalleEvento(evento)| ==
              if evento == LanzamientoParado.Name() || evento == LanzamientoFuera.Name() then 2
              else if evento == Perdida.Name() then 8
              else 0
  {
  }

  /** No detail is legal for two different events. */
  lemma DetalleEventoDisjoint(d: EventDetail, e1: Event, e2: Event)
    requires d.Name() in ValidDetalleEvento(e1.Name())
    requires d.Name() in ValidDetalleEvento(e2.Name())
    ensures e1 == e2
  {
    assert ParseEvent(e1.Name()) == Some(e1);
  }

  /**
   * Together the detail lists cover exactly the twelve DETALLE_EVENTO values:
   * each detail is legal for its own event, and nothing else appears.
   */
  lemma DetalleEventoCover()
    ensures forall d: EventDetail :: d.Name() in ValidDetalleEvento(d.Owner().Name())
    ensures forall e: Event, s :: s in ValidDetalleEvento(e.Name()) ==> ParseEventDetail(s).Some?
    ensures |ValidDetalleEvento(Gol.Name())| + |ValidDetalleEvento(LanzamientoParado.Name())|
            + |ValidDetalleEvento(LanzamientoFuera.Name())| + |ValidDetalleEvento(Perdida.Name())| == 12
  {
    DetalleEventoCounts(Gol.Name());
    DetalleEventoCounts(LanzamientoParado.Name());
    DetalleEventoCounts(LanzamientoFuera.Name());
    DetalleEventoCounts(Perdida.Name());
  }

  /**
   * shouldChangePossession: a saved or blocked shot never changes possession,
   * a shot off the post does not either; everything else does.
   */
  function ShouldChangePossession(evento: string, detalleEvento: string): (r: bool)
    ensures !r <==> ParseEvent(evento) == Some(LanzamientoParado)
                    || (ParseEvent(evento) == Some(LanzamientoFuera) && ParseEventDetail(detalleEvento) == Some(Palo))
  {
    if evento == LanzamientoParado.Name() then false
    else if evento == LanzamientoFuera.Name() && detalleEvento == Palo.Name() then false
    else true
  }

  /** A saved shot keeps the ball, whatever its detail. */
  lemma SavedShotKeepsPossession()
    ensures forall d: string :: !ShouldChangePossession(LanzamientoParado.Name(), d)
  {
  }

  /** A missed shot keeps the ball exactly when it hit the post. */
  lemma MissedShotChangesUnlessPost()
    ensures forall d: string :: ShouldChangePossession(LanzamientoFuera.Name(), d) <==> d != Palo.Name()
  {
  }

  /** Goals and turnovers always hand the ball over, whatever the detail string. */
  lemma GoalAndTurnoverChangePossession()
    ensures forall d: string :: ShouldChangePossession(Gol.Name(), d) && ShouldChangePossession(Perdida.Name(), d)
  {
  }

  /**
   * On every legal (event, detail) pair, possession changes exactly for a
   * turnover or a shot that went straight out.
   */
  lemma LegalPairsChangePossession()
    ensures forall e: Event, d: EventDetail | d.Name() in ValidDetalleEvento(e.Name()) ::
              ShouldChangePossession(e.Name(), d.Name()) <==> e == Perdida || d == FueraDirecto
  {
    forall e: Event, d: EventDetail | d.Name() in ValidDetalleEvento(e.Name())
      ensures ShouldChangePossession(e.Name(), d.Name()) <==> e == Perdida || d == FueraDirecto
    {
      assert ParseEvent(e.Name()) == Some(e);
      assert ParseEventDetail(d.Name()) == Some(d);
    }
  }
}
