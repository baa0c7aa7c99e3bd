/**
 * The action record the two recording pages build and the backend returns
 * (`idPartido`, `idPosesion`, the seven text fields and `cambioPosesion`).
 * The seven text fields hold raw strings, '' meaning "not chosen"; `Field`
 * names them so that the pages' `[field]: value` updates can be modelled.
 */
module Actions {

  /** The text fields of an action, addressed by name in `{ ...prev, [field]: value }`. */
  datatype Field =
    | EquipoAccion | TipoAtaque | OrigenAccion | Evento
    | DetalleFinalizacion | ZonaLanzamiento | DetalleEvento

  /** The text part of an action or form. */
  datatype Choices = Choices(
    equipoAccion: string,
    tipoAtaque: string,
    origenAccion: string,
    evento: string,
    detalleFinalizacion: string,
    zonaLanzamiento: string,
    detalleEvento: string)
  {
    function Get(f: Field): string
    {
      match f
      case EquipoAccion => equipoAccion
      case TipoAtaque => tipoAtaque
      case OrigenAccion => origenAccion
      case Evento => evento
      case DetalleFinalizacion => detalleFinalizacion
      case ZonaLanzamiento => zonaLanzamiento
      case DetalleEvento => detalleEvento
    }

    /** `{ ...this, [f]: v }`: field `f` becomes `v`, every other field is kept. */
    function With(f: Field, v: string): (r: Choices)
      ensures r.Get(f) == v
      ensures forall g :: g != f ==> r.Get(g) == Get(g)
    {
      match f
      case EquipoAccion => this.(equipoAccion := v)
      case TipoAtaque => this.(tipoAtaque := v)
      case OrigenAccion => this.(origenAccion := v)
      case Evento => this.(evento := v)
      case DetalleFinalizacion => this.(detalleFinalizacion := v)
      case ZonaLanzamiento => this.(zonaLanzamiento := v)
      case DetalleEvento => this.(detalleEvento := v)
    }
  }

  /** Every text field empty. */
  const Unchosen := Choices("", "", "", "", "", "", "")

  /** A recorded action, or MatchActionsView's draft of the next one. */
  datatype Action = Action(
    idPartido: int,
    idPosesion: int,
    choices: Choices,
    cambioPosesion: bool)
}
