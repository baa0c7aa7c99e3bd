/**
 * The match create/edit form (src/pages/PartidoForm.jsx): its state is one
 * record of input values keyed by input name, filled from the stored match on
 * edit and updated one input at a time; submitting first checks the rival's
 * name and the result's format.
 */
module PartidoForm {
  import opened Options
  import opened JsBuiltins
  import Estadisticas

  /** A value held by the form: an input's text, the checkbox's state, or the team id the stored match carries. */
  datatype FormValue = Text(text: string) | Flag(checked: bool) | Id(id: int)

  /** The stored match as the edit page receives it. */
  datatype StoredPartido = StoredPartido(
    idEquipoPropio: int,
    nombreRival: string,
    esLocal: bool,
    fecha: string,
    resultado: Option<string>,
    competicion: Option<string>)

  /** The outcome of `handleSubmit`'s checks. */
  datatype Validation =
    | Accepted
    | RivalVacio          // 'El nombre del rival no puede estar vacío.'
    | ResultadoInvalido   // 'El resultado debe tener el formato número-número (ej: 2-1).'

  /**
   * The checks of `handleSubmit`, in order: a rival name that trims to nothing
   * is refused first; then a result that does not trim to nothing must match
   * `/^\d+-\d+$/` as typed, surrounding blanks included.
   */
  function ValidatePartido(nombreRival: string, resultado: string): (v: Validation)
    ensures v == RivalVacio <==> IsBlank(nombreRival)
    ensures v == ResultadoInvalido <==> !IsBlank(nombreRival) && !IsBlank(resultado) && !MatchesScore(resultado)
    ensures v == Accepted <==> !IsBlank(nombreRival) && (IsBlank(resultado) || MatchesScore(resultado))
  {
    if Trim(nombreRival) == "" then RivalVacio
    else if resultado != "" && Trim(resultado) != "" then
      if ParseScore(resultado).Some? then Accepted else ResultadoInvalido
    else Accepted
  }

  /** A blank result (none typed, or only spaces) is accepted. */
  lemma BlankResultAccepted(nombreRival: string, resultado: string)
    requires !IsBlank(nombreRival) && IsBlank(resultado)
    ensures ValidatePartido(nombreRival, resultado) == Accepted
  {
  }

  /** " 2-1" trims to a well-formed score. */
  lemma PaddedScoreTrimsToScore()
    ensures Trim(" 2-1") == "2-1" && MatchesScore("2-1")
  {
    var s := " 2-1";
    assert IsDigits("2-1"[..1]) && IsDigits("2-1"[2..]);
    assert LeadingSpaces(s) == 1 by {
      assert IsSpace(s[0]) && s[1..] == "2-1" && !IsSpace("2-1"[0]);
    }
    assert TrailingStart("2-1") == 3 by {
      assert !IsSpace("2-1"[2]);
    }
    assert s[1..] == "2-1" && "2-1"[..3] == "2-1";
  }

  /**
   * The format is tested on the untrimmed text: a result that starts or ends
   * with white space is refused, even one that trims to a valid score.
   */
  lemma PaddedResultRefused(nombreRival: string, resultado: string)
    requires !IsBlank(nombreRival) && resultado != "" && !IsBlank(resultado)
    requires IsSpace(resultado[0]) || IsSpace(resultado[|resultado| - 1])
    ensures ValidatePartido(nombreRival, resultado) == ResultadoInvalido
  {
    forall i | 0 <= i < |resultado| && resultado[i] == '-' && IsDigits(resultado[..i])
      ensures !IsDigits(resultado[i + 1..])
    {
      assert resultado[..i][0] == resultado[0];
      var tail := resultado[i + 1..];
      if tail != [] {
        assert tail[|tail| - 1] == resultado[|resultado| - 1];
      }
    }
  }

  /** A result the form accepts is one the statistics count. */
  lemma AcceptedResultIsCounted(nombreRival: string, resultado: string, local: Option<int>, visitante: Option<int>)
    requires ValidatePartido(nombreRival, resultado) == Accepted
    requires !IsBlank(resultado)
    ensures Estadisticas.Score(Estadisticas.Partido(local, visitante, Some(resultado))).Some?
  {
  }

  /** The form as the page holds it. */
  class PartidoFormPage {
    var form: map<string, FormValue>

    /** The inputs the submit checks read are present and hold text. */
    ghost predicate Valid()
      reads this
    {
      && "nombreRival" in form && form["nombreRival"].Text?
      && "resultado" in form && form["resultado"].Text?
    }

    /** The empty form of a new match. */
    constructor ()
      ensures Valid()
      ensures form == map["idEquipoPropio" := Text(""), "nombreRival" := Text(""), "esLocal" := Flag(true),
                          "fecha" := Text(""), "resultado" := Text(""), "competicion" := Text("")]
    {
      form := map["idEquipoPropio" := Text(""), "nombreRival" := Text(""), "esLocal" := Flag(true),
                  "fecha" := Text(""), "resultado" := Text(""), "competicion" := Text("")];
    }

    /**
     * Filling the form from the stored match: the date keeps only what comes
     * before the first 'T', a missing result or competition becomes ''.
     */
    method Load(p: StoredPartido)
      modifies this
      ensures Valid()
      ensures form == map["idEquipoPropio" := Id(p.idEquipoPropio), "nombreRival" := Text(p.nombreRival),
                          "esLocal" := Flag(p.esLocal), "fecha" := Text(PrefixBefore(p.fecha, 'T')),
                          "resultado" := Text(if p.resultado.Some? then p.resultado.value else ""),
                          "competicion" := Text(if p.competicion.Some? then p.competicion.value else "")]
      ensures 'T' !in form["fecha"].text && form["fecha"].text <= p.fecha
    {
      var resultado := if p.resultado.Some? then p.resultado.value else "";
      var competicion := if p.competicion.Some? then p.competicion.value else "";
      form := map["idEquipoPropio" := Id(p.idEquipoPropio), "nombreRival" := Text(p.nombreRival),
                  "esLocal" := Flag(p.esLocal), "fecha" := Text(PrefixBefore(p.fecha, 'T')),
                  "resultado" := Text(resultado), "competicion" := Text(competicion)];
    }

    /**
     * `handleChange`: the named input takes the checkbox state for a checkbox
     * and the typed text otherwise; every other input keeps its value.
     */
    method HandleChange(name: string, value: string, isCheckbox: bool, checked: bool)
      modifies this
      ensures form == old(form)[name := if isCheckbox then Flag(checked) else Text(value)]
      ensures forall k :: k in old(form) && k != name ==> k in form && form[k] == old(form)[k]
      ensures old(Valid()) && (isCheckbox ==> name != "nombreRival" && name != "resultado") ==> Valid()
    {
      form := form[name := if isCheckbox then Flag(checked) else Text(value)];
    }

    /** `handleSubmit`'s checks on the current form; saving is not modelled. */
    method HandleSubmit() returns (v: Validation)
      requires Valid()
      ensures v == ValidatePartido(form["nombreRival"].text, form["resultado"].text)
    {
      var nombreRival := form["nombreRival"].text;
      var resultado := form["resultado"].text;
      if Trim(nombreRival) == "" {
        return RivalVacio;
      }
      if resultado != "" && Trim(resultado) != "" {
        if !ParseScore(resultado).Some? {
          return ResultadoInvalido;
        }
      }
      return Accepted;
    }
  }
}
