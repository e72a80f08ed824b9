/** extraer_resultados and _calcular_metricas (modelo_optimizacion.py): the
    rows of the result table are the defined (depot, route) pairs whose
    variable the solver set to 1, visited depot by depot and route by route,
    each carrying the pair's distance and time. */
module Extraccion {
  import opened Util
  import opened Lp
  import opened ModeloPle

  /** One row of the result table (the display names are not modelled). */
  datatype Registro = Registro(patio: PatioId, ruta: RutaId, distanciaKm: real, tiempoMinutos: real)

  /** The distance and time tables have the same depots and, per depot, the same routes. */
  predicate MismaForma(m: Matriz, t: Matriz) {
    && m.Keys == t.Keys
    && (forall i :: i in m ==> m[i].Keys == t[i].Keys)
  }

  /** The pair (i, j) is defined and the solver gave its variable the value 1. */
  predicate Elegido(m: Matriz, v: Valores, i: PatioId, j: RutaId) {
    Valida(m, i, j) && Val(v, Asignacion(i, j)) == 1.0
  }

  function Registrar(m: Matriz, t: Matriz, i: PatioId, j: RutaId): Registro
    requires MismaForma(m, t) && Valida(m, i, j)
  {
    Registro(i, j, m[i][j], t[i][j])
  }

  /** The rows contributed by depot i. */
  function ExtraidasFila(m: Matriz, t: Matriz, i: PatioId, rutas: seq<RutaId>, v: Valores): seq<Registro>
    requires MismaForma(m, t)
    decreases |rutas|
  {
    if rutas == [] then []
    else
      var j := rutas[|rutas| - 1];
      ExtraidasFila(m, t, i, rutas[..|rutas| - 1], v) + (if Elegido(m, v, i, j) then [Registrar(m, t, i, j)] else [])
  }

  /** All rows, depot by depot. */
  function Extraidas(m: Matriz, t: Matriz, patios: seq<PatioId>, rutas: seq<RutaId>, v: Valores): seq<Registro>
    requires MismaForma(m, t)
    decreases |patios|
  {
    if patios == [] then []
    else Extraidas(m, t, patios[..|patios| - 1], rutas, v) + ExtraidasFila(m, t, patios[|patios| - 1], rutas, v)
  }

  function Par(r: Registro): (PatioId, RutaId) {
    (r.patio, r.ruta)
  }

  /** No (depot, route) pair is listed twice. */
  predicate ParesDistintos(rs: seq<Registro>) {
    forall a, b :: 0 <= a < b < |rs| ==> Par(rs[a]) != Par(rs[b])
  }

  function TotalDistancia(rs: seq<Registro>): real
    decreases |rs|
  {
    if rs == [] then 0.0 else TotalDistancia(rs[..|rs| - 1]) + rs[|rs| - 1].distanciaKm
  }

  function TotalTiempo(rs: seq<Registro>): real
    decreases |rs|
  {
    if rs == [] then 0.0 else TotalTiempo(rs[..|rs| - 1]) + rs[|rs| - 1].tiempoMinutos
  }

  /** resultados.groupby('patio_id')['ruta_id'].count(), built one row at a time. */
  function Conteo(rs: seq<Registro>): map<PatioId, int>
    decreases |rs|
  {
    if rs == [] then map[]
    else
      var c := Conteo(rs[..|rs| - 1]);
      var p := rs[|rs| - 1].patio;
      c[p := (if p in c then c[p] else 0) + 1]
  }

  /** The routes a list of rows pairs with depot i. */
  ghost function RutasDe(rs: seq<Registro>, i: PatioId): set<RutaId> {
    set r | r in rs && r.patio == i :: r.ruta
  }

  /** The depots a list of rows pairs with route j. */
  ghost function PatiosDe(rs: seq<Registro>, j: RutaId): set<PatioId> {
    set r | r in rs && r.ruta == j :: r.patio
  }

  /** Totals, means and rows per depot of _calcular_metricas (the standard
      deviations and the two-decimal rounding are not modelled). */
  datatype Metricas = Metricas(distanciaTotal: real, tiempoTotal: real,
                               distanciaPromedio: real, tiempoPromedio: real,
                               rutasPorPatio: map<PatioId, int>)

  function CalcularMetricas(rs: seq<Registro>): (r: Metricas)
    requires |rs| > 0
    ensures r.distanciaTotal == TotalDistancia(rs) && r.tiempoTotal == TotalTiempo(rs)
    ensures r.distanciaPromedio * (|rs| as real) == r.distanciaTotal
    ensures r.tiempoPromedio * (|rs| as real) == r.tiempoTotal
    ensures SumValues(r.rutasPorPatio) == |rs|
    ensures forall p :: p in r.rutasPorPatio <==> exists x :: x in rs && x.patio == p
  {
    ConteoSuma(rs);
    ConteoClaves(rs);
    var d := TotalDistancia(rs);
    var t := TotalTiempo(rs);
    Promedio(d, |rs|);
    Promedio(t, |rs|);
    Metricas(d, t, d / (|rs| as real), t / (|rs| as real), Conteo(rs))
  }

  /** A mean times the number of rows gives back the total. */
  lemma Promedio(total: real, n: nat)
    requires n > 0
    ensures total / (n as real) * (n as real) == total
  {
  }

  // ---------------------------------------------------------------------------
  // Proofs

  lemma {:induction false} ConteoSuma(rs: seq<Registro>)
    ensures SumValues(Conteo(rs)) == |rs|
    decreases |rs|
  {
    if rs != [] {
      var ini := rs[..|rs| - 1];
      ConteoSuma(ini);
      SumValuesIncrement(Conteo(ini), rs[|rs| - 1].patio);
    }
  }

  lemma {:induction false} ConteoClaves(rs: seq<Registro>)
    ensures forall p :: p in Conteo(rs) <==> exists x :: x in rs && x.patio == p
    decreases |rs|
  {
    if rs != [] {
      var n := |rs| - 1;
      ConteoClaves(rs[..n]);
      assert rs == rs[..n] + [rs[n]];
    }
  }

  lemma RutasDeSnoc(rs: seq<Registro>, r: Registro, i: PatioId)
    ensures RutasDe(rs + [r], i) == RutasDe(rs, i) + (if r.patio == i then {r.ruta} else {})
  {
    assert forall x :: x in rs + [r] <==> x in rs || x == r;
  }

  lemma ParesDistintosPrefijo(rs: seq<Registro>)
    requires |rs| > 0 && ParesDistintos(rs)
    ensures ParesDistintos(rs[..|rs| - 1])
  {
    var ini := rs[..|rs| - 1];
    forall a, b | 0 <= a < b < |ini| ensures Par(ini[a]) != Par(ini[b]) {
      assert ini[a] == rs[a] && ini[b] == rs[b];
    }
  }

  lemma RutaNueva(rs: seq<Registro>)
    requires |rs| > 0 && ParesDistintos(rs)
    ensures rs[|rs| - 1].ruta !in RutasDe(rs[..|rs| - 1], rs[|rs| - 1].patio)
  {
    var n := |rs| - 1;
    var r := rs[n];
    forall x | x in rs[..n] && x.patio == r.patio ensures x.ruta != r.ruta {
      var k :| 0 <= k < n && rs[..n][k] == x;
      assert Par(rs[k]) != Par(rs[n]);
    }
  }

  /** One row's step: the count of depot i and its number of distinct routes grow together. */
  lemma PasoConteo(rs: seq<Registro>, i: PatioId)
    requires |rs| > 0 && ParesDistintos(rs)
    ensures var ini := rs[..|rs| - 1];
            (if i in Conteo(rs) then Conteo(rs)[i] else 0) - (if i in Conteo(ini) then Conteo(ini)[i] else 0)
            == |RutasDe(rs, i)| - |RutasDe(ini, i)|
  {
    var n := |rs| - 1;
    var ini := rs[..n];
    var r := rs[n];
    assert rs == ini + [r];
    RutasDeSnoc(ini, r, i);
    var c := Conteo(ini);
    assert Conteo(rs) == c[r.patio := (if r.patio in c then c[r.patio] else 0) + 1];
    if r.patio == i {
      RutaNueva(rs);
      assert |RutasDe(ini, i) + {r.ruta}| == |RutasDe(ini, i)| + 1;
    } else {
      assert RutasDe(rs, i) == RutasDe(ini, i);
    }
  }

  /** With no pair listed twice, the count of a depot is the number of distinct routes paired with it. */
  lemma {:induction false} ConteoEsRutasDe(rs: seq<Registro>, i: PatioId)
    requires ParesDistintos(rs)
    ensures (if i in Conteo(rs) then Conteo(rs)[i] else 0) == |RutasDe(rs, i)|
    decreases |rs|
  {
    if rs == [] {
      assert RutasDe(rs, i) == {};
    } else {
      ParesDistintosPrefijo(rs);
      ConteoEsRutasDe(rs[..|rs| - 1], i);
      PasoConteo(rs, i);
    }
  }

  lemma {:induction false} ExtraidasFilaSii(m: Matriz, t: Matriz, i: PatioId, rutas: seq<RutaId>, v: Valores, r: Registro)
    requires MismaForma(m, t)
    ensures r in ExtraidasFila(m, t, i, rutas, v)
            <==> r.patio == i && r.ruta in rutas && Elegido(m, v, i, r.ruta) && r == Registrar(m, t, i, r.ruta)
    decreases |rutas|
  {
    if rutas != [] {
      var n := |rutas| - 1;
      ExtraidasFilaSii(m, t, i, rutas[..n], v, r);
      assert r.ruta in rutas <==> r.ruta in rutas[..n] || r.ruta == rutas[n] by {
        assert rutas == rutas[..n] + [rutas[n]];
      }
    }
  }

  /** A row is extracted exactly when its pair is defined, its variable is 1
      and it carries the pair's distance and time. */
  lemma {:induction false} ExtraidaSii(m: Matriz, t: Matriz, patios: seq<PatioId>, rutas: seq<RutaId>, v: Valores, r: Registro)
    requires MismaForma(m, t)
    ensures r in Extraidas(m, t, patios, rutas, v)
            <==> r.patio in patios && r.ruta in rutas && Elegido(m, v, r.patio, r.ruta)
                 && r == Registrar(m, t, r.patio, r.ruta)
    decreases |patios|
  {
    if patios != [] {
      var n := |patios| - 1;
      ExtraidaSii(m, t, patios[..n], rutas, v, r);
      ExtraidasFilaSii(m, t, patios[n], rutas, v, r);
      assert r.patio in patios <==> r.patio in patios[..n] || r.patio == patios[n] by {
        assert patios == patios[..n] + [patios[n]];
      }
    }
  }

  lemma {:induction false} FilaParesDistintos(m: Matriz, t: Matriz, i: PatioId, rutas: seq<RutaId>, v: Valores)
    requires MismaForma(m, t) && Distinct(rutas)
    ensures ParesDistintos(ExtraidasFila(m, t, i, rutas, v))
    decreases |rutas|
  {
    if rutas != [] {
      var n := |rutas| - 1;
      var ini := rutas[..n];
      var j := rutas[n];
      FilaParesDistintos(m, t, i, ini, v);
      var a := ExtraidasFila(m, t, i, ini, v);
      if Elegido(m, v, i, j) {
        var rs := a + [Registrar(m, t, i, j)];
        forall x, y | 0 <= x < y < |rs| ensures Par(rs[x]) != Par(rs[y]) {
          if y == |a| {
            ExtraidasFilaSii(m, t, i, ini, v, rs[x]);
            assert rs[x] in a;
          }
        }
      }
    }
  }

  lemma ConcatParesDistintos(a: seq<Registro>, b: seq<Registro>)
    requires ParesDistintos(a) && ParesDistintos(b)
    requires forall x, y :: x in a && y in b ==> x.patio != y.patio
    ensures ParesDistintos(a + b)
  {
    var rs := a + b;
    forall x, y | 0 <= x < y < |rs| ensures Par(rs[x]) != Par(rs[y]) {
      if x < |a| <= y {
        assert rs[x] in a && rs[y] in b;
      } else if |a| <= x {
        assert rs[x] == b[x - |a|] && rs[y] == b[y - |a|];
      }
    }
  }

  /** Visiting distinct depots and distinct routes lists each pair at most once. */
  lemma {:induction false} ExtraidasParesDistintos(m: Matriz, t: Matriz, patios: seq<PatioId>, rutas: seq<RutaId>, v: Valores)
    requires MismaForma(m, t) && Distinct(patios) && Distinct(rutas)
    ensures ParesDistintos(Extraidas(m, t, patios, rutas, v))
    decreases |patios|
  {
    if patios != [] {
      var n := |patios| - 1;
      var ini := patios[..n];
      var i := patios[n];
      ExtraidasParesDistintos(m, t, ini, rutas, v);
      FilaParesDistintos(m, t, i, rutas, v);
      var a := Extraidas(m, t, ini, rutas, v);
      var b := ExtraidasFila(m, t, i, rutas, v);
      forall x, y | x in a && y in b ensures x.patio != y.patio {
        ExtraidaSii(m, t, ini, rutas, v, x);
        ExtraidasFilaSii(m, t, i, rutas, v, y);
      }
      ConcatParesDistintos(a, b);
    }
  }

  lemma {:induction false} LhsConcat(a: seq<Termino>, b: seq<Termino>, v: Valores)
    ensures Lhs(a + b, v) == Lhs(a, v) + Lhs(b, v)
    decreases |b|
  {
    if b == [] {
      assert a + b == a;
    } else {
      var n := |b| - 1;
      LhsConcat(a, b[..n], v);
      assert (a + b)[..|a + b| - 1] == a + b[..n];
    }
  }

  lemma {:induction false} TotalesConcat(a: seq<Registro>, b: seq<Registro>)
    ensures TotalDistancia(a + b) == TotalDistancia(a) + TotalDistancia(b)
    ensures TotalTiempo(a + b) == TotalTiempo(a) + TotalTiempo(b)
    decreases |b|
  {
    if b == [] {
      assert a + b == a;
    } else {
      var n := |b| - 1;
      TotalesConcat(a, b[..n]);
      assert (a + b)[..|a + b| - 1] == a + b[..n];
    }
  }

  lemma LhsSnocBinario(ts: seq<Termino>, x: Var, c: real, v: Valores)
    requires Val(v, x) == 0.0 || Val(v, x) == 1.0
    ensures Lhs(ts + [(x, c)], v) == Lhs(ts, v) + (if Val(v, x) == 1.0 then c else 0.0)
  {
    LhsSnoc(ts, (x, c), v);
  }

  /** One route's step: the objective row and the rows' total grow by the same amount. */
  lemma PasoObjetivoFilaDistancia(m: Matriz, t: Matriz, i: PatioId, rutas: seq<RutaId>, v: Valores)
    requires MismaForma(m, t) && Binario(v) && rutas != []
    ensures var ini := rutas[..|rutas| - 1];
            Lhs(ObjetivoFila(m, i, rutas), v) - Lhs(ObjetivoFila(m, i, ini), v)
            == TotalDistancia(ExtraidasFila(m, t, i, rutas, v)) - TotalDistancia(ExtraidasFila(m, t, i, ini, v))
  {
    var n := |rutas| - 1;
    var ini := rutas[..n];
    var j := rutas[n];
    var x := Asignacion(i, j);
    var a := ExtraidasFila(m, t, i, ini, v);
    var f := ObjetivoFila(m, i, ini);
    ValBinario(v, x);
    if Valida(m, i, j) {
      assert Valida(m, i, j);
      LhsSnocBinario(f, x, m[i][j], v);
      assert ObjetivoFila(m, i, rutas) == f + [(x, m[i][j])];
      if Val(v, x) == 1.0 {
        var b := a + [Registrar(m, t, i, j)];
        assert ExtraidasFila(m, t, i, rutas, v) == b;
        assert b[..|b| - 1] == a;
      } else {
        assert ExtraidasFila(m, t, i, rutas, v) == a;
      }
    } else {
      assert !Valida(m, i, j);
      assert ObjetivoFila(m, i, rutas) == f;
      assert ExtraidasFila(m, t, i, rutas, v) == a;
    }
  }

  lemma {:induction false} ObjetivoFilaEsDistancia(m: Matriz, t: Matriz, i: PatioId, rutas: seq<RutaId>, v: Valores)
    requires MismaForma(m, t) && Binario(v)
    ensures Lhs(ObjetivoFila(m, i, rutas), v) == TotalDistancia(ExtraidasFila(m, t, i, rutas, v))
    decreases |rutas|
  {
    if rutas != [] {
      ObjetivoFilaEsDistancia(m, t, i, rutas[..|rutas| - 1], v);
      PasoObjetivoFilaDistancia(m, t, i, rutas, v);
    }
  }

  /** One route's step: the objective row and the rows' total grow by the same amount. */
  lemma PasoObjetivoFilaTiempo(m: Matriz, t: Matriz, i: PatioId, rutas: seq<RutaId>, v: Valores)
    requires MismaForma(m, t) && Binario(v) && rutas != []
    ensures var ini := rutas[..|rutas| - 1];
            Lhs(ObjetivoFila(t, i, rutas), v) - Lhs(ObjetivoFila(t, i, ini), v)
            == TotalTiempo(ExtraidasFila(m, t, i, rutas, v)) - TotalTiempo(ExtraidasFila(m, t, i, ini, v))
  {
    var n := |rutas| - 1;
    var ini := rutas[..n];
    var j := rutas[n];
    var x := Asignacion(i, j);
    var a := ExtraidasFila(m, t, i, ini, v);
    var f := ObjetivoFila(t, i, ini);
    ValBinario(v, x);
    if Valida(m, i, j) {
      assert Valida(t, i, j);
      LhsSnocBinario(f, x, t[i][j], v);
      assert ObjetivoFila(t, i, rutas) == f + [(x, t[i][j])];
      if Val(v, x) == 1.0 {
        var b := a + [Registrar(m, t, i, j)];
        assert ExtraidasFila(m, t, i, rutas, v) == b;
        assert b[..|b| - 1] == a;
      } else {
        assert ExtraidasFila(m, t, i, rutas, v) == a;
      }
    } else {
      assert !Valida(t, i, j);
      assert ObjetivoFila(t, i, rutas) == f;
      assert ExtraidasFila(m, t, i, rutas, v) == a;
    }
  }

  lemma {:induction false} ObjetivoFilaEsTiempo(m: Matriz, t: Matriz, i: PatioId, rutas: seq<RutaId>, v: Valores)
    requires MismaForma(m, t) && Binario(v)
    ensures Lhs(ObjetivoFila(t, i, rutas), v) == TotalTiempo(ExtraidasFila(m, t, i, rutas, v))
    decreases |rutas|
  {
    if rutas != [] {
      ObjetivoFilaEsTiempo(m, t, i, rutas[..|rutas| - 1], v);
      PasoObjetivoFilaTiempo(m, t, i, rutas, v);
    }
  }

  /** For a 0/1 solution the objective value of the distance model is the
      total distance of the extracted rows, and that of the time model their
      total time. */
  lemma {:induction false} ObjetivoEsTotal(m: Matriz, t: Matriz, patios: seq<PatioId>, rutas: seq<RutaId>, v: Valores)
    requires MismaForma(m, t) && Binario(v)
    ensures Lhs(TerminosObjetivo(m, patios, rutas), v) == TotalDistancia(Extraidas(m, t, patios, rutas, v))
    ensures Lhs(TerminosObjetivo(t, patios, rutas), v) == TotalTiempo(Extraidas(m, t, patios, rutas, v))
    decreases |patios|
  {
    if patios != [] {
      var n := |patios| - 1;
      var ini := patios[..n];
      var i := patios[n];
      ObjetivoEsTotal(m, t, ini, rutas, v);
      ObjetivoFilaEsDistancia(m, t, i, rutas, v);
      ObjetivoFilaEsTiempo(m, t, i, rutas, v);
      LhsConcat(TerminosObjetivo(m, ini, rutas), ObjetivoFila(m, i, rutas), v);
      LhsConcat(TerminosObjetivo(t, ini, rutas), ObjetivoFila(t, i, rutas), v);
      TotalesConcat(Extraidas(m, t, ini, rutas, v), ExtraidasFila(m, t, i, rutas, v));
    }
  }

  /** The value of the objective a built model minimises, read off the extracted rows. */
  lemma ValorObjetivoEsTotal(m: Matriz, t: Matriz, caps: map<PatioId, int>, patios: seq<PatioId>, rutas: seq<RutaId>,
                             objetivo: Objetivo, balance: bool, relajar: bool, v: Valores)
    requires MismaForma(m, t) && Binario(v)
    ensures ValorObjetivo(Construir(m, t, caps, patios, rutas, objetivo, balance, relajar), v)
            == if objetivo == Distancia then TotalDistancia(Extraidas(m, t, patios, rutas, v))
               else TotalTiempo(Extraidas(m, t, patios, rutas, v))
  {
    ObjetivoEsTotal(m, t, patios, rutas, v);
  }

  lemma PatiosDeSonAsignados(m: Matriz, t: Matriz, patios: seq<PatioId>, rutas: seq<RutaId>, v: Valores, j: RutaId)
    requires MismaForma(m, t) && j in rutas
    ensures PatiosDe(Extraidas(m, t, patios, rutas, v), j) == PatiosAsignados(m, patios, j, v)
  {
    var rs := Extraidas(m, t, patios, rutas, v);
    forall i ensures i in PatiosDe(rs, j) <==> i in PatiosAsignados(m, patios, j, v) {
      if i in PatiosDe(rs, j) {
        var r :| r in rs && r.ruta == j && r.patio == i;
        ExtraidaSii(m, t, patios, rutas, v, r);
      }
      if i in PatiosAsignados(m, patios, j, v) {
        ExtraidaSii(m, t, patios, rutas, v, Registrar(m, t, i, j));
      }
    }
  }

  lemma RutasDeSonAsignadas(m: Matriz, t: Matriz, patios: seq<PatioId>, rutas: seq<RutaId>, v: Valores, i: PatioId)
    requires MismaForma(m, t) && i in patios
    ensures RutasDe(Extraidas(m, t, patios, rutas, v), i) == RutasAsignadas(m, i, rutas, v)
  {
    var rs := Extraidas(m, t, patios, rutas, v);
    forall j ensures j in RutasDe(rs, i) <==> j in RutasAsignadas(m, i, rutas, v) {
      if j in RutasDe(rs, i) {
        var r :| r in rs && r.patio == i && r.ruta == j;
        ExtraidaSii(m, t, patios, rutas, v, r);
      }
      if j in RutasAsignadas(m, i, rutas, v) {
        ExtraidaSii(m, t, patios, rutas, v, Registrar(m, t, i, j));
      }
    }
  }

  /** When the solution satisfies the built model, every route that has a
      candidate depot appears in the results with exactly one depot, and
      every depot with a candidate route is listed no more often than its
      adjusted capacity allows. */
  lemma ResultadosCumplen(m: Matriz, t: Matriz, caps: map<PatioId, int>, patios: seq<PatioId>, rutas: seq<RutaId>,
                          objetivo: Objetivo, balance: bool, relajar: bool, v: Valores)
    requires MismaForma(m, t) && Distinct(patios) && Distinct(rutas) && Binario(v)
    requires Satisface(Construir(m, t, caps, patios, rutas, objetivo, balance, relajar), v)
    ensures forall j :: j in rutas && TienePatio(m, patios, j) ==>
              |PatiosDe(Extraidas(m, t, patios, rutas, v), j)| == 1
    ensures forall i :: i in patios && RutasCandidatas(m, i, rutas) != {} ==>
              (var c := Conteo(Extraidas(m, t, patios, rutas, v)); if i in c then c[i] else 0)
                <= CapacidadAjustada(caps, relajar, i)
  {
    SatisfaceSiiIntencion(m, t, caps, patios, rutas, objetivo, balance, relajar, v);
    var rs := Extraidas(m, t, patios, rutas, v);
    ExtraidasParesDistintos(m, t, patios, rutas, v);
    forall j | j in rutas && TienePatio(m, patios, j) ensures |PatiosDe(rs, j)| == 1 {
      PatiosDeSonAsignados(m, t, patios, rutas, v, j);
      assert RutaCubierta(m, patios, j, v);
    }
    forall i | i in patios && RutasCandidatas(m, i, rutas) != {}
      ensures (if i in Conteo(rs) then Conteo(rs)[i] else 0) <= CapacidadAjustada(caps, relajar, i)
    {
      RutasDeSonAsignadas(m, t, patios, rutas, v, i);
      ConteoEsRutasDe(rs, i);
      assert PatioDentroCapacidad(m, caps, relajar, i, rutas, v);
    }
  }
}
