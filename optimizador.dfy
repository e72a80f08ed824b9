/** OptimizadorAsignacion (modelo_optimizacion.py): the object that holds the
    loaded tables, builds the model step by step, hands it to the solver,
    explains an infeasible outcome, extracts the results and walks through
    the relaxation strategies. The solver is a function parameter. */
module Optimizador {
  import opened Util
  import opened Lp
  import Config
  import D = Diagnostico
  import opened ModeloPle
  import opened Extraccion

  /** Every route key that appears in some depot row. */
  function UnionRutas(m: Matriz): (u: set<RutaId>)
    ensures forall r :: r in u <==> exists p :: p in m && r in m[p]
  {
    set p, r | p in m && r in m[p] :: r
  }

  /** One relaxation strategy: whether the balance constraints are added and
      whether the capacities are relaxed. */
  datatype Estrategia = Estrategia(balance: bool, relajar: bool, nombre: string)

  /** Estricto, Relajado 1, Relajado 2, tried in this order. */
  const Estrategias: seq<Estrategia> :=
    [Estrategia(true, false, "Estricto"), Estrategia(true, true, "Relajado 1"), Estrategia(false, true, "Relajado 2")]

  /** What the solver returns for the distance model built under strategy e. */
  function Intento(md: Matriz, mt: Matriz, caps: map<PatioId, int>, patios: seq<PatioId>, rutas: seq<RutaId>,
                   solver: Modelo -> Solucion, e: Estrategia): Solucion
  {
    solver(Construir(md, mt, caps, patios, rutas, Distancia, e.balance, e.relajar))
  }

  /** Strategy e succeeds: the status is Optimal and the extraction is not empty. */
  predicate Exitosa(md: Matriz, mt: Matriz, caps: map<PatioId, int>, patios: seq<PatioId>, rutas: seq<RutaId>,
                    solver: Modelo -> Solucion, e: Estrategia)
    requires MismaForma(md, mt)
  {
    var s := Intento(md, mt, caps, patios, rutas, solver, e);
    s.estado == Optimo && Extraidas(md, mt, patios, rutas, s.valores) != []
  }

  /** None of the first k strategies succeeds. */
  predicate NingunaExitosa(md: Matriz, mt: Matriz, caps: map<PatioId, int>, patios: seq<PatioId>, rutas: seq<RutaId>,
                           solver: Modelo -> Solucion, k: nat)
    requires MismaForma(md, mt)
  {
    forall q :: 0 <= q < k && q < |Estrategias| ==> !Exitosa(md, mt, caps, patios, rutas, solver, Estrategias[q])
  }

  lemma NingunaExitosaPaso(md: Matriz, mt: Matriz, caps: map<PatioId, int>, patios: seq<PatioId>, rutas: seq<RutaId>,
                           solver: Modelo -> Solucion, k: nat)
    requires MismaForma(md, mt) && k < |Estrategias|
    requires NingunaExitosa(md, mt, caps, patios, rutas, solver, k)
    requires !Exitosa(md, mt, caps, patios, rutas, solver, Estrategias[k])
    ensures NingunaExitosa(md, mt, caps, patios, rutas, solver, k + 1)
  {
  }

  /** What _diagnosticar_infactibilidad reports: the capacity shortfall, if
      any; the routes no listed depot can take; and, among the first ten
      depots, those whose capacity exceeds their candidate routes. */
  datatype Informe = Informe(faltante: Option<int>, rutasAisladas: seq<RutaId>, patiosHolgados: seq<PatioId>)

  /** Routes of `rutas`, in order, that no depot of `patios` lists. */
  function RutasAisladas(m: Matriz, patios: seq<PatioId>, rutas: seq<RutaId>): seq<RutaId>
    decreases |rutas|
  {
    if rutas == [] then []
    else
      var j := rutas[|rutas| - 1];
      RutasAisladas(m, patios, rutas[..|rutas| - 1]) + (if TerminosRuta(m, patios, j) == [] then [j] else [])
  }

  /** Depots of `patios`, in order, whose capacity (default 15) exceeds the size of their row. */
  function PatiosHolgados(m: Matriz, caps: map<PatioId, int>, patios: seq<PatioId>): seq<PatioId>
    requires forall p :: p in patios ==> p in m
    decreases |patios|
  {
    if patios == [] then []
    else
      var p := patios[|patios| - 1];
      var cap := if p in caps then caps[p] else Config.CapacidadPatioDefault;
      PatiosHolgados(m, caps, patios[..|patios| - 1]) + (if |m[p]| < cap then [p] else [])
  }

  /** patios[:10] */
  function Primeros10<T>(s: seq<T>): (r: seq<T>)
    ensures |r| == if |s| < 10 then |s| else 10
    ensures r == s[..|r|]
  {
    if |s| <= 10 then s else s[..10]
  }

  lemma {:induction false} RutasAisladasSii(m: Matriz, patios: seq<PatioId>, rutas: seq<RutaId>, j: RutaId)
    ensures j in RutasAisladas(m, patios, rutas) <==> j in rutas && forall p :: p in patios ==> !Valida(m, p, j)
    decreases |rutas|
  {
    if rutas != [] {
      var n := |rutas| - 1;
      RutasAisladasSii(m, patios, rutas[..n], j);
      assert j in rutas <==> j in rutas[..n] || j == rutas[n] by {
        assert rutas == rutas[..n] + [rutas[n]];
      }
      var t := TerminosRuta(m, patios, rutas[n]);
      if t != [] {
        var k :| 0 <= k < |t| && t[k] == t[k];
        TerminosRutaValidos(m, patios, rutas[n], t[k]);
      }
      if t == [] {
        forall p | p in patios ensures !Valida(m, p, rutas[n]) {
          if Valida(m, p, rutas[n]) {
            TerminosRutaValidos(m, patios, rutas[n], (Asignacion(p, rutas[n]), 1.0));
          }
        }
      }
    }
  }

  /** When every listed route comes from the row of some listed depot, no
      route is reported as isolated. */
  lemma {:induction false} SinRutasAisladas(m: Matriz, patios: seq<PatioId>, rutas: seq<RutaId>)
    requires forall p :: p in m ==> p in patios
    requires forall r :: r in rutas ==> r in UnionRutas(m)
    ensures RutasAisladas(m, patios, rutas) == []
    decreases |rutas|
  {
    if rutas != [] {
      var n := |rutas| - 1;
      var j := rutas[n];
      SinRutasAisladas(m, patios, rutas[..n]);
      assert j in UnionRutas(m);
      var p :| p in m && j in m[p];
      TerminosRutaValidos(m, patios, j, (Asignacion(p, j), 1.0));
    }
  }

  /** The terms of a route constraint are exactly the valid (depot, route) pairs. */
  lemma {:induction false} TerminosRutaValidos(m: Matriz, patios: seq<PatioId>, j: RutaId, t: Termino)
    ensures t in TerminosRuta(m, patios, j) <==> t.0.Asignacion? && t.0.patio in patios && t.0.unidad == j
                                                  && Valida(m, t.0.patio, j) && t.1 == 1.0
    decreases |patios|
  {
    if patios != [] {
      var n := |patios| - 1;
      TerminosRutaValidos(m, patios[..n], j, t);
      assert t.0.Asignacion? ==> (t.0.patio in patios <==> t.0.patio in patios[..n] || t.0.patio == patios[n]) by {
        assert patios == patios[..n] + [patios[n]];
      }
    }
  }

  // ---------------------------------------------------------------------------
  // The loops of crear_modelo_ple

  /** Collects route j's variables over the depots whose row lists it. */
  method TerminosDeRuta(m: Matriz, patios: seq<PatioId>, j: RutaId) returns (ts: seq<Termino>)
    ensures ts == TerminosRuta(m, patios, j)
  {
    ts := [];
    for l := 0 to |patios|
      invariant ts == TerminosRuta(m, patios[..l], j)
    {
      assert patios[..l + 1][..l] == patios[..l];
      if patios[l] in m && j in m[patios[l]] {
        ts := ts + [(Asignacion(patios[l], j), 1.0)];
      }
    }
    assert patios[..|patios|] == patios;
  }

  /** Collects depot i's variables over the routes its row lists. */
  method TerminosDePatio(m: Matriz, i: PatioId, rutas: seq<RutaId>) returns (ts: seq<Termino>)
    ensures ts == TerminosPatio(m, i, rutas)
  {
    ts := [];
    for l := 0 to |rutas|
      invariant ts == TerminosPatio(m, i, rutas[..l])
    {
      assert rutas[..l + 1][..l] == rutas[..l];
      if i in m && rutas[l] in m[i] {
        ts := ts + [(Asignacion(i, rutas[l]), 1.0)];
      }
    }
    assert rutas[..|rutas|] == rutas;
  }

  /** Constraint family 1: one "exactly one depot" constraint per route that has a valid depot. */
  method EmitirRestriccionesRuta(m: Matriz, patios: seq<PatioId>, rutas: seq<RutaId>) returns (rs: seq<Restriccion>)
    ensures rs == RestriccionesRuta(m, patios, rutas)
  {
    rs := [];
    for k := 0 to |rutas|
      invariant rs == RestriccionesRuta(m, patios, rutas[..k])
    {
      assert rutas[..k + 1][..k] == rutas[..k];
      var validos := TerminosDeRuta(m, patios, rutas[k]);
      if validos != [] {
        rs := rs + [Restriccion(RutaAsignada(rutas[k]), validos, Igual, 1.0)];
      }
    }
    assert rutas[..|rutas|] == rutas;
  }

  /** Constraint family 2: a capacity constraint per depot that has a valid
      route, with the capacity read from `ajustadas` or defaulted. */
  method EmitirRestriccionesCapacidad(m: Matriz, caps: map<PatioId, int>, relajar: bool, ajustadas: map<PatioId, int>,
                                      patios: seq<PatioId>, rutas: seq<RutaId>) returns (rs: seq<Restriccion>)
    requires ajustadas == if relajar then D.CapacidadesRelajadas(caps, 1.5) else caps
    ensures rs == RestriccionesCapacidad(m, caps, relajar, patios, rutas)
  {
    rs := [];
    for k := 0 to |patios|
      invariant rs == RestriccionesCapacidad(m, caps, relajar, patios[..k], rutas)
    {
      assert patios[..k + 1][..k] == patios[..k];
      var r := RestriccionDeCapacidad(m, caps, relajar, ajustadas, patios[k], rutas);
      rs := rs + r;
    }
    assert patios[..|patios|] == patios;
  }

  /** One depot's capacity constraint, with the capacity read from `ajustadas` or defaulted. */
  method RestriccionDeCapacidad(m: Matriz, caps: map<PatioId, int>, relajar: bool, ajustadas: map<PatioId, int>,
                                i: PatioId, rutas: seq<RutaId>) returns (r: seq<Restriccion>)
    requires ajustadas == if relajar then D.CapacidadesRelajadas(caps, 1.5) else caps
    ensures r == RestriccionCapacidad(m, caps, relajar, i, rutas)
  {
    var capacidad := if i in ajustadas then ajustadas[i] else Config.CapacidadPatioDefault;
    var validas := TerminosDePatio(m, i, rutas);
    r := [];
    if validas != [] {
      r := [Restriccion(CapacidadPatio(i), validas, MenorIgual, capacidad as real)];
    }
  }

  /** Constraint family 3: min/max load per depot with at least `lo` valid routes. */
  method EmitirRestriccionesBalance(m: Matriz, patios: seq<PatioId>, rutas: seq<RutaId>, lo: int, hi: int)
    returns (rs: seq<Restriccion>)
    ensures rs == RestriccionesBalance(m, patios, rutas, lo, hi)
  {
    rs := [];
    for k := 0 to |patios|
      invariant rs == RestriccionesBalance(m, patios[..k], rutas, lo, hi)
    {
      assert patios[..k + 1][..k] == patios[..k];
      var r := RestriccionDeBalance(m, patios[k], rutas, lo, hi);
      rs := rs + r;
    }
    assert patios[..|patios|] == patios;
  }

  /** One depot's min/max load constraints, when it has at least `lo` valid routes. */
  method RestriccionDeBalance(m: Matriz, i: PatioId, rutas: seq<RutaId>, lo: int, hi: int) returns (r: seq<Restriccion>)
    ensures r == RestriccionBalance(m, i, rutas, lo, hi)
  {
    var validas := TerminosDePatio(m, i, rutas);
    r := [];
    if validas != [] && |validas| >= lo {
      r := [Restriccion(MinRutasPatio(i), validas, MayorIgual, lo as real),
            Restriccion(MaxRutasPatio(i), validas, MenorIgual, hi as real)];
    }
  }

  /** The objective: cost * x[(i, j)] for every depot, route pair the cost table lists. */
  method EmitirObjetivo(costos: Matriz, patios: seq<PatioId>, rutas: seq<RutaId>) returns (ts: seq<Termino>)
    ensures ts == TerminosObjetivo(costos, patios, rutas)
  {
    ts := [];
    for k := 0 to |patios|
      invariant ts == TerminosObjetivo(costos, patios[..k], rutas)
    {
      assert patios[..k + 1][..k] == patios[..k];
      var i := patios[k];
      ghost var antes := ts;
      for l := 0 to |rutas|
        invariant ts == antes + ObjetivoFila(costos, i, rutas[..l])
      {
        assert rutas[..l + 1][..l] == rutas[..l];
        if i in costos && rutas[l] in costos[i] {
          ts := ts + [(Asignacion(i, rutas[l]), costos[i][rutas[l]])];
        }
      }
      assert rutas[..|rutas|] == rutas;
    }
    assert patios[..|patios|] == patios;
  }

  /** The loops of extraer_resultados: depot by depot, route by route, the
      defined pairs whose variable is 1. */
  method ExtraerAsignaciones(m: Matriz, t: Matriz, patios: seq<PatioId>, rutas: seq<RutaId>, v: Valores)
    returns (asignaciones: seq<Registro>)
    requires MismaForma(m, t)
    ensures asignaciones == Extraidas(m, t, patios, rutas, v)
  {
    asignaciones := [];
    for k := 0 to |patios|
      invariant asignaciones == Extraidas(m, t, patios[..k], rutas, v)
    {
      assert patios[..k + 1][..k] == patios[..k];
      var fila := ExtraerFila(m, t, patios[k], rutas, v);
      asignaciones := asignaciones + fila;
    }
    assert patios[..|patios|] == patios;
  }

  /** The inner loop of extraer_resultados for depot i. */
  method ExtraerFila(m: Matriz, t: Matriz, i: PatioId, rutas: seq<RutaId>, v: Valores)
    returns (fila: seq<Registro>)
    requires MismaForma(m, t)
    ensures fila == ExtraidasFila(m, t, i, rutas, v)
  {
    fila := [];
    for l := 0 to |rutas|
      invariant fila == ExtraidasFila(m, t, i, rutas[..l], v)
    {
      assert rutas[..l + 1][..l] == rutas[..l];
      var j := rutas[l];
      if i in m && j in m[i] && Val(v, Asignacion(i, j)) == 1.0 {
        fila := fila + [Registro(i, j, m[i][j], t[i][j])];
      }
    }
    assert rutas[..|rutas|] == rutas;
  }

  /** The search for isolated routes in _diagnosticar_infactibilidad. */
  method ListarRutasAisladas(m: Matriz, patios: seq<PatioId>, rutas: seq<RutaId>) returns (aisladas: seq<RutaId>)
    ensures aisladas == RutasAisladas(m, patios, rutas)
  {
    aisladas := [];
    for k := 0 to |rutas|
      invariant aisladas == RutasAisladas(m, patios, rutas[..k])
    {
      assert rutas[..k + 1][..k] == rutas[..k];
      var posibles := TerminosDeRuta(m, patios, rutas[k]);
      if posibles == [] {
        aisladas := aisladas + [rutas[k]];
      }
    }
    assert rutas[..|rutas|] == rutas;
  }

  /** The per-depot comparison in _diagnosticar_infactibilidad. */
  method ListarPatiosHolgados(m: Matriz, caps: map<PatioId, int>, patios: seq<PatioId>) returns (holgados: seq<PatioId>)
    requires forall p :: p in patios ==> p in m
    ensures holgados == PatiosHolgados(m, caps, patios)
  {
    holgados := [];
    for k := 0 to |patios|
      invariant holgados == PatiosHolgados(m, caps, patios[..k])
    {
      assert patios[..k + 1][..k] == patios[..k];
      var p := patios[k];
      var capacidad := if p in caps then caps[p] else Config.CapacidadPatioDefault;
      if |m[p]| < capacidad {
        holgados := holgados + [p];
      }
    }
    assert patios[..|patios|] == patios;
  }

  // ---------------------------------------------------------------------------

  class OptimizadorAsignacion {
    var matrizDistancias: Matriz
    var matrizTiempos: Matriz
    var capacidades: map<PatioId, int>
    var capTotal: int
    /** The key order of matriz_distancias, as read from the file. */
    var ordenPatios: seq<PatioId>
    var rutasIds: seq<RutaId>
    var patiosIds: seq<PatioId>
    var prob: Modelo
    var solucion: Solucion
    var resultados: seq<Registro>
    var metricas: Option<Metricas>
    /** What cargar_datos_optimizacion returns. */
    var cargaCorrecta: bool

    /** The loaded tables are consistent: the key order lists each depot
        once, and both tables have the same shape. */
    ghost predicate Datos()
      reads this
    {
      && Distinct(ordenPatios)
      && (forall p :: p in ordenPatios <==> p in matrizDistancias)
      && MismaForma(matrizDistancias, matrizTiempos)
    }

    /** rutas_ids lists every route of the distance table once. */
    ghost predicate RutasDerivadas()
      reads this
    {
      Distinct(rutasIds) && forall r :: r in rutasIds <==> r in UnionRutas(matrizDistancias)
    }

    /** cargar_datos_optimizacion, with the contents of the three JSON files
        as arguments. The load fails when cap_total is 0: the statistics
        divide by it, after rutas_ids has been derived. */
    constructor Cargar(md: Matriz, mt: Matriz, caps: map<PatioId, int>, total: int, orden: seq<PatioId>)
      requires Distinct(orden) && (forall p :: p in orden <==> p in md) && MismaForma(md, mt)
      ensures matrizDistancias == md && matrizTiempos == mt && capacidades == caps && capTotal == total
      ensures ordenPatios == orden
      ensures Datos() && RutasDerivadas()
      ensures cargaCorrecta <==> total != 0
      ensures patiosIds == [] && resultados == [] && metricas == None
    {
      matrizDistancias := md;
      matrizTiempos := mt;
      capacidades := caps;
      capTotal := total;
      ordenPatios := orden;
      rutasIds := [];
      patiosIds := [];
      prob := Modelo({}, [], []);
      solucion := Solucion(Indefinido, map[]);
      resultados := [];
      metricas := None;
      cargaCorrecta := false;
      new;
      cargaCorrecta := MostrarEstadisticasCarga();
    }

    /** _mostrar_estadisticas_carga: derives rutas_ids as the union of the row
        keys, then divides the route count by cap_total (ok is false when that
        division fails). */
    method MostrarEstadisticasCarga() returns (ok: bool)
      modifies this`rutasIds
      ensures RutasDerivadas()
      ensures ok <==> capTotal != 0
    {
      var todas: set<RutaId> := {};
      var pendientes := matrizDistancias.Keys;
      while pendientes != {}
        invariant pendientes <= matrizDistancias.Keys
        invariant forall r :: r in todas <==> exists p :: p in matrizDistancias.Keys - pendientes && r in matrizDistancias[p]
        decreases pendientes
      {
        var p :| p in pendientes;
        todas := todas + matrizDistancias[p].Keys;
        pendientes := pendientes - {p};
      }
      var lista: seq<RutaId> := [];
      var resto := todas;
      while resto != {}
        invariant resto <= todas
        invariant Distinct(lista)
        invariant forall r :: r in lista <==> r in todas - resto
        decreases resto
      {
        var r :| r in resto;
        assert r !in lista;
        lista := lista + [r];
        resto := resto - {r};
      }
      rutasIds := lista;
      ok := capTotal != 0;
    }

    /** verificar_factibilidad: since every listed route comes from some
        depot row, the verdict depends only on the total capacity. */
    method VerificarFactibilidad() returns (ok: bool)
      requires RutasDerivadas()
      ensures ok <==> |rutasIds| <= SumValues(capacidades)
    {
      var avisos;
      ok, avisos := D.VerificarFactibilidadBasica(matrizDistancias, capacidades, rutasIds);
      forall r | r in rutasIds ensures D.PatiosPosibles(matrizDistancias, r) != {} {
        var p :| p in matrizDistancias && r in matrizDistancias[p];
        assert p in D.PatiosPosibles(matrizDistancias, r);
      }
    }

    /** crear_modelo_ple */
    method CrearModeloPle(objetivo: Objetivo, balance: bool, relajar: bool)
      modifies this`patiosIds, this`prob
      requires Datos()
      ensures patiosIds == ordenPatios
      ensures prob == Construir(matrizDistancias, matrizTiempos, capacidades, patiosIds, rutasIds, objetivo, balance, relajar)
    {
      patiosIds := ordenPatios;
      var ajustadas := capacidades;
      if relajar {
        ajustadas := D.RelajarCapacidades(capacidades, 1.5);
      }
      var variables := Variables(matrizDistancias, patiosIds, rutasIds);
      var costos := if objetivo == Distancia then matrizDistancias else matrizTiempos;
      var obj := EmitirObjetivo(costos, patiosIds, rutasIds);
      var r1 := EmitirRestriccionesRuta(matrizDistancias, patiosIds, rutasIds);
      var r2 := EmitirRestriccionesCapacidad(matrizDistancias, capacidades, relajar, ajustadas, patiosIds, rutasIds);
      var r3: seq<Restriccion> := [];
      if balance && |patiosIds| > 0 {
        var (lo, hi) := if relajar then D.AjustarBalanceCarga(|rutasIds|, |patiosIds|, 0.3, 3.0)
                        else D.AjustarBalanceCarga(|rutasIds|, |patiosIds|, 0.75, 1.25);
        r3 := EmitirRestriccionesBalance(matrizDistancias, patiosIds, rutasIds, lo, hi);
      }
      prob := Modelo(variables, obj, r1 + r2 + r3);
    }

    /** _diagnosticar_infactibilidad */
    method DiagnosticarInfactibilidad() returns (informe: Informe)
      requires forall p :: p in patiosIds ==> p in matrizDistancias
      ensures informe.faltante == if |rutasIds| > SumValues(capacidades)
                                  then Some(|rutasIds| - SumValues(capacidades)) else None
      ensures informe.rutasAisladas == RutasAisladas(matrizDistancias, patiosIds, rutasIds)
      ensures informe.patiosHolgados == PatiosHolgados(matrizDistancias, capacidades, Primeros10(patiosIds))
    {
      var totalRutas := |rutasIds|;
      var capacidadTotal := D.SumaCapacidades(capacidades);
      var faltante := if totalRutas > capacidadTotal then Some(totalRutas - capacidadTotal) else None;
      var aisladas := ListarRutasAisladas(matrizDistancias, patiosIds, rutasIds);
      var holgados := ListarPatiosHolgados(matrizDistancias, capacidades, Primeros10(patiosIds));
      informe := Informe(faltante, aisladas, holgados);
    }

    /** resolver_modelo: True exactly when the status is Optimal; an
        Infeasible status also produces the diagnosis. */
    method ResolverModelo(solver: Modelo -> Solucion) returns (ok: bool, informe: Option<Informe>)
      modifies this`solucion
      requires forall p :: p in patiosIds ==> p in matrizDistancias
      ensures solucion == solver(prob)
      ensures ok <==> solucion.estado == Optimo
      ensures informe.Some? <==> solucion.estado == Infactible
      ensures informe.Some? ==> informe.value.rutasAisladas == RutasAisladas(matrizDistancias, patiosIds, rutasIds)
      ensures informe.Some? ==> informe.value.faltante == if |rutasIds| > SumValues(capacidades)
                                                        then Some(|rutasIds| - SumValues(capacidades)) else None
      ensures informe.Some? ==>
                informe.value.patiosHolgados == PatiosHolgados(matrizDistancias, capacidades, Primeros10(patiosIds))
    {
      solucion := solver(prob);
      informe := None;
      if solucion.estado == Optimo {
        ok := true;
      } else if solucion.estado == Infactible {
        var i := DiagnosticarInfactibilidad();
        informe := Some(i);
        ok := false;
      } else {
        ok := false;
      }
    }

    /** extraer_resultados (with _calcular_metricas when rows were found). */
    method ExtraerResultados() returns (res: Option<seq<Registro>>)
      modifies this`resultados, this`metricas
      requires MismaForma(matrizDistancias, matrizTiempos)
      ensures solucion.estado != Optimo ==> res == None && resultados == old(resultados) && metricas == old(metricas)
      ensures solucion.estado == Optimo ==>
                resultados == Extraidas(matrizDistancias, matrizTiempos, patiosIds, rutasIds, solucion.valores)
      ensures res.Some? <==> solucion.estado == Optimo && resultados != []
      ensures res.Some? ==> res.value == resultados && metricas == Some(CalcularMetricas(resultados))
      ensures res.None? && solucion.estado == Optimo ==> metricas == old(metricas)
    {
      if solucion.estado != Optimo {
        return None;
      }
      var asignaciones := ExtraerAsignaciones(matrizDistancias, matrizTiempos, patiosIds, rutasIds, solucion.valores);
      resultados := asignaciones;
      if |resultados| > 0 {
        metricas := Some(CalcularMetricas(resultados));
        return Some(resultados);
      }
      return None;
    }

    /** One attempt of resolver_con_relajacion: rebuild the distance model
        under strategy e, solve it and extract the results. */
    method Intentar(solver: Modelo -> Solucion, e: Estrategia) returns (exito: bool)
      modifies this`patiosIds, this`prob, this`solucion, this`resultados, this`metricas
      requires Datos()
      ensures exito <==> Exitosa(matrizDistancias, matrizTiempos, capacidades, ordenPatios, rutasIds, solver, e)
      ensures exito ==> resultados == Extraidas(matrizDistancias, matrizTiempos, ordenPatios, rutasIds, solucion.valores)
      ensures prob == Construir(matrizDistancias, matrizTiempos, capacidades, ordenPatios, rutasIds, Distancia, e.balance, e.relajar)
      ensures solucion == solver(prob)
    {
      CrearModeloPle(Distancia, e.balance, e.relajar);
      var ok, _ := ResolverModelo(solver);
      exito := false;
      if ok {
        var res := ExtraerResultados();
        exito := res.Some?;
      }
    }

    /** resolver_con_relajacion: tries the strategies in order and stops at
        the first whose status is Optimal and whose extraction is not empty. */
    method ResolverConRelajacion(solver: Modelo -> Solucion) returns (exito: bool, usada: Option<nat>)
      modifies this`patiosIds, this`prob, this`solucion, this`resultados, this`metricas
      requires Datos()
      ensures exito <==>
                exists k :: 0 <= k < |Estrategias| &&
                  Exitosa(matrizDistancias, matrizTiempos, capacidades, ordenPatios, rutasIds, solver, Estrategias[k])
      ensures exito ==> usada.Some? && usada.value < |Estrategias|
      ensures exito ==> Exitosa(matrizDistancias, matrizTiempos, capacidades, ordenPatios, rutasIds, solver, Estrategias[usada.value])
      ensures exito ==> forall k :: 0 <= k < usada.value ==>
                !Exitosa(matrizDistancias, matrizTiempos, capacidades, ordenPatios, rutasIds, solver, Estrategias[k])
      ensures exito ==> resultados == Extraidas(matrizDistancias, matrizTiempos, ordenPatios, rutasIds, solucion.valores)
      ensures !exito ==> usada == None
      ensures var e := Estrategias[if exito then usada.value else |Estrategias| - 1];
              prob == Construir(matrizDistancias, matrizTiempos, capacidades, ordenPatios, rutasIds, Distancia, e.balance, e.relajar)
      ensures solucion == solver(prob)
    {
      ghost var md, mt, caps, patios, rutas := matrizDistancias, matrizTiempos, capacidades, ordenPatios, rutasIds;
      for k := 0 to |Estrategias|
        invariant Datos()
        invariant matrizDistancias == md && matrizTiempos == mt && capacidades == caps
        invariant ordenPatios == patios && rutasIds == rutas
        invariant NingunaExitosa(md, mt, caps, patios, rutas, solver, k)
        invariant k > 0 ==> prob == Construir(md, mt, caps, patios, rutas, Distancia,
                                              Estrategias[k - 1].balance, Estrategias[k - 1].relajar)
        invariant k > 0 ==> solucion == solver(prob)
      {
        var ok := Intentar(solver, Estrategias[k]);
        if ok {
          return true, Some(k);
        }
        NingunaExitosaPaso(md, mt, caps, patios, rutas, solver, k);
      }
      return false, None;
    }
  }
}
