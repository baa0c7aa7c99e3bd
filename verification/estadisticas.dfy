/**
 * The statistics page's calculation (src/pages/Estadisticas.jsx): the matches
 * of the selected team are those where it is the associated local or visiting
 * team; each of them whose result reads "n-m" adds its goals for and against
 * the team to the totals and counts as one match with a result.
 */
module Estadisticas {
  import opened Options
  import opened JsBuiltins

  /** The fields of a match the calculation reads; a missing id or result is None. */
  datatype Partido = Partido(
    idEquipoLocalAsociado: Option<int>,
    idEquipoVisitanteAsociado: Option<int>,
    resultado: Option<string>)

  /** Integer totals; the page divides the goal totals by `partidos` for its averages. */
  datatype Stats = Stats(golesMarcados: nat, golesRecibidos: nat, partidos: nat)

  /** The two messages the calculation throws. */
  datatype StatsError =
    | SinPartidos      // 'El equipo no tiene partidos registrados con equipos asociados.'
    | SinResultados    // 'No hay partidos con resultados válidos para calcular estadísticas.'

  /** The team is the associated local or the associated visitor of the match. */
  predicate Involves(p: Partido, equipo: int)
  {
    p.idEquipoLocalAsociado == Some(equipo) || p.idEquipoVisitanteAsociado == Some(equipo)
  }

  /** `partidos.filter(...)`: the team's matches, in their order. */
  function PartidosEquipo(partidos: seq<Partido>, equipo: int): (r: seq<Partido>)
    ensures forall p :: p in r <==> p in partidos && Involves(p, equipo)
    ensures |r| <= |partidos|
  {
    if partidos == [] then []
    else
      var rest := PartidosEquipo(partidos[1..], equipo);
      assert forall p :: p in partidos <==> p == partidos[0] || p in partidos[1..];
      if Involves(partidos[0], equipo) then [partidos[0]] + rest else rest
  }

  /** The result `p.resultado && /^\d+-\d+$/.test(p.resultado)` lets through, as its two numbers. */
  function Score(p: Partido): (r: Option<(nat, nat)>)
    ensures r.Some? <==> p.resultado.Some? && MatchesScore(p.resultado.value)
  {
    if p.resultado.Some? then ParseScore(p.resultado.value) else None
  }

  /**
   * What one match adds to the totals: as the local team the left number is
   * scored and the right one received, otherwise the other way round.
   */
  function Contribution(p: Partido, equipo: int): (c: Stats)
    ensures Score(p).None? ==> c == Stats(0, 0, 0)
    ensures Score(p).Some? && p.idEquipoLocalAsociado == Some(equipo) ==>
              c == Stats(Score(p).value.0, Score(p).value.1, 1)
    ensures Score(p).Some? && p.idEquipoLocalAsociado != Some(equipo) ==>
              c == Stats(Score(p).value.1, Score(p).value.0, 1)
  {
    match Score(p)
    case None => Stats(0, 0, 0)
    case Some((golesLocal, golesVisitante)) =>
      if p.idEquipoLocalAsociado == Some(equipo) then Stats(golesLocal, golesVisitante, 1)
      else Stats(golesVisitante, golesLocal, 1)
  }

  function Add(a: Stats, b: Stats): Stats
  {
    Stats(a.golesMarcados + b.golesMarcados, a.golesRecibidos + b.golesRecibidos, a.partidos + b.partidos)
  }

  /** The totals over `ps`, taken in order. */
  function Tally(ps: seq<Partido>, equipo: int): (r: Stats)
    ensures r.partidos <= |ps|
  {
    if ps == [] then Stats(0, 0, 0)
    else
      var c := Contribution(ps[|ps| - 1], equipo);
      assert c.partidos <= 1;
      Add(Tally(ps[..|ps| - 1], equipo), c)
  }

  /** Taking one more match adds its contribution to the totals. */
  lemma TallySnoc(ps: seq<Partido>, p: Partido, equipo: int)
    ensures Tally(ps + [p], equipo) == Add(Tally(ps, equipo), Contribution(p, equipo))
  {
    assert (ps + [p])[..|ps|] == ps;
  }

  /**
   * The `forEach` over the team's matches: each match whose result reads
   * "n-m" adds its goals, oriented by the team's side, and counts once.
   */
  method SumarResultados(partidosEquipo: seq<Partido>, equipo: int) returns (totals: Stats)
    ensures totals == Tally(partidosEquipo, equipo)
  {
    var totalGolesMarcados: nat := 0;
    var totalGolesRecibidos: nat := 0;
    var partidosConResultado: nat := 0;
    var i := 0;
    while i < |partidosEquipo|
      invariant 0 <= i <= |partidosEquipo|
      invariant Stats(totalGolesMarcados, totalGolesRecibidos, partidosConResultado) == Tally(partidosEquipo[..i], equipo)
    {
      var p := partidosEquipo[i];
      assert partidosEquipo[..i + 1] == partidosEquipo[..i] + [p];
      TallySnoc(partidosEquipo[..i], p, equipo);
      ghost var next := Add(Stats(totalGolesMarcados, totalGolesRecibidos, partidosConResultado), Contribution(p, equipo));
      assert next == Tally(partidosEquipo[..i + 1], equipo);
      var score := Score(p);
      if score.Some? {
        var (golesLocal, golesVisitante) := score.value;
        if p.idEquipoLocalAsociado == Some(equipo) {
          totalGolesMarcados := totalGolesMarcados + golesLocal;
          totalGolesRecibidos := totalGolesRecibidos + golesVisitante;
        } else {
          totalGolesMarcados := totalGolesMarcados + golesVisitante;
          totalGolesRecibidos := totalGolesRecibidos + golesLocal;
        }
        partidosConResultado := partidosConResultado + 1;
      }
      assert Stats(totalGolesMarcados, totalGolesRecibidos, partidosConResultado) == next;
      i := i + 1;
    }
    assert partidosEquipo[..i] == partidosEquipo;
    totals := Stats(totalGolesMarcados, totalGolesRecibidos, partidosConResultado);
  }

  /**
   * `calcularEstadisticas`: the totals over the team's matches, or the error
   * the page shows when the team has no matches or none of them has a result.
   */
  method CalcularEstadisticas(partidos: seq<Partido>, equipo: int) returns (r: Result<Stats, StatsError>)
    ensures r == Failure(SinPartidos) <==> PartidosEquipo(partidos, equipo) == []
    ensures r == Failure(SinResultados) <==>
              PartidosEquipo(partidos, equipo) != [] && Tally(PartidosEquipo(partidos, equipo), equipo).partidos == 0
    ensures r.Success? ==> r.value == Tally(PartidosEquipo(partidos, equipo), equipo) && r.value.partidos > 0
  {
    var partidosEquipo := PartidosEquipo(partidos, equipo);
    if |partidosEquipo| == 0 {
      return Failure(SinPartidos);
    }
    var totals := SumarResultados(partidosEquipo, equipo);
    if totals.partidos == 0 {
      return Failure(SinResultados);
    }
    return Success(totals);
  }

  // ---------------------------------------------------------------------------
  // Properties of the totals
  // ---------------------------------------------------------------------------

  /** The matches whose result is counted, in order. */
  function WithResult(ps: seq<Partido>): (r: seq<Partido>)
    ensures forall p :: p in r <==> p in ps && Score(p).Some?
  {
    if ps == [] then []
    else
      var rest := WithResult(ps[..|ps| - 1]);
      assert forall p :: p in ps <==> p in ps[..|ps| - 1] || p == ps[|ps| - 1];
      if Score(ps[|ps| - 1]).Some? then rest + [ps[|ps| - 1]] else rest
  }

  /** Both numbers of every counted result, added up. */
  function ScoreSum(ps: seq<Partido>): nat
  {
    if ps == [] then 0
    else
      var last := ps[|ps| - 1];
      ScoreSum(ps[..|ps| - 1]) + (if Score(last).Some? then Score(last).value.0 + Score(last).value.1 else 0)
  }

  /** The match count is the number of matches with a well-formed result. */
  lemma {:induction false} TallyCountsResults(ps: seq<Partido>, equipo: int)
    ensures Tally(ps, equipo).partidos == |WithResult(ps)|
  {
    if ps != [] {
      TallyCountsResults(ps[..|ps| - 1], equipo);
    }
  }

  /** Goals scored plus goals received is every goal of every counted match, whichever side the team played. */
  lemma {:induction false} TallyConservesGoals(ps: seq<Partido>, equipo: int)
    ensures Tally(ps, equipo).golesMarcados + Tally(ps, equipo).golesRecibidos == ScoreSum(ps)
  {
    if ps != [] {
      TallyConservesGoals(ps[..|ps| - 1], equipo);
    }
  }

  /** A match of the team is kept, at the end, by the filter. */
  lemma {:induction false} InvolvedMatchesAreKept(partidos: seq<Partido>, equipo: int, p: Partido)
    requires Involves(p, equipo)
    ensures PartidosEquipo(partidos + [p], equipo) == PartidosEquipo(partidos, equipo) + [p]
  {
    if partidos != [] {
      InvolvedMatchesAreKept(partidos[1..], equipo, p);
      assert (partidos + [p])[1..] == partidos[1..] + [p];
    }
  }

  /** A match with a well-formed result is kept, at the end, by the filter; any other is dropped. */
  lemma WithResultSnoc(ps: seq<Partido>, p: Partido)
    ensures Score(p).Some? ==> WithResult(ps + [p]) == WithResult(ps) + [p]
    ensures Score(p).None? ==> WithResult(ps + [p]) == WithResult(ps)
  {
    assert (ps + [p])[..|ps|] == ps;
  }

  /** A match between two associated teams, `local` at home. */
  predicate Between(p: Partido, local: int, visitante: int)
  {
    p.idEquipoLocalAsociado == Some(local) && p.idEquipoVisitanteAsociado == Some(visitante)
  }

  /**
   * Over matches between the same two associated teams, what one scores the
   * other receives.
   */
  lemma {:induction false} HeadToHeadMirrors(ps: seq<Partido>, local: int, visitante: int)
    requires local != visitante
    requires forall i :: 0 <= i < |ps| ==> Between(ps[i], local, visitante)
    ensures Tally(ps, local).golesMarcados == Tally(ps, visitante).golesRecibidos
    ensures Tally(ps, local).golesRecibidos == Tally(ps, visitante).golesMarcados
    ensures Tally(ps, local).partidos == Tally(ps, visitante).partidos
  {
    if ps != [] {
      HeadToHeadMirrors(ps[..|ps| - 1], local, visitante);
    }
  }

  /** Matches of other teams leave the team's totals as they are. */
  lemma {:induction false} OtherTeamsDoNotCount(partidos: seq<Partido>, equipo: int, p: Partido)
    requires !Involves(p, equipo)
    ensures PartidosEquipo(partidos + [p], equipo) == PartidosEquipo(partidos, equipo)
  {
    if partidos != [] {
      OtherTeamsDoNotCount(partidos[1..], equipo, p);
      assert (partidos + [p])[1..] == partidos[1..] + [p];
    }
  }
}
