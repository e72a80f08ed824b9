/** The sparse 0/1 model that crear_modelo_ple (modelo_optimizacion.py) hands
    to the solver, as a value: one variable per (depot, route) pair that has a
    cost entry, the cost-weighted objective, an "exactly one depot" constraint
    per route that has a candidate depot, a capacity constraint per depot that
    has a candidate route and, optionally, lower and upper load-balance bounds.
    The main theorem says that a 0/1 assignment satisfies the model exactly
    when it meets those conditions stated directly on sets. */
module ModeloPle {
  import opened Util
  import opened Lp
  import Config
  import D = Diagnostico

  type PatioId = string
  type RutaId = string
  type Matriz = map<PatioId, map<RutaId, real>>

  /** The quantity minimised: the distance table or the time table. */
  datatype Objetivo = Distancia | Tiempo

  /** Depot i may take route j: the table has an entry for the pair. */
  predicate Valida(m: Matriz, i: PatioId, j: RutaId) {
    i in m && j in m[i]
  }

  /** Route j's variables: one per depot, in depot order, whose row lists j. */
  function TerminosRuta(m: Matriz, patios: seq<PatioId>, j: RutaId): seq<Termino>
    decreases |patios|
  {
    if patios == [] then []
    else
      var i := patios[|patios| - 1];
      TerminosRuta(m, patios[..|patios| - 1], j) + (if Valida(m, i, j) then [(Asignacion(i, j), 1.0)] else [])
  }

  /** Depot i's variables: one per route, in route order, that its row lists. */
  function TerminosPatio(m: Matriz, i: PatioId, rutas: seq<RutaId>): seq<Termino>
    decreases |rutas|
  {
    if rutas == [] then []
    else
      var j := rutas[|rutas| - 1];
      TerminosPatio(m, i, rutas[..|rutas| - 1]) + (if Valida(m, i, j) then [(Asignacion(i, j), 1.0)] else [])
  }

  /** Depot i's capacity in the adjusted table, or the default when absent; the adjusted
      table is the relaxed one (factor 1.5) when relaxing. A depot missing from
      the table gets the default, which is not scaled. */
  function CapacidadAjustada(caps: map<PatioId, int>, relajar: bool, i: PatioId): int {
    var ajustadas := if relajar then D.CapacidadesRelajadas(caps, 1.5) else caps;
    if i in ajustadas then ajustadas[i] else Config.CapacidadPatioDefault
  }

  /** Constraints "Ruta_Asignada_j", in route order. */
  function RestriccionesRuta(m: Matriz, patios: seq<PatioId>, rutas: seq<RutaId>): seq<Restriccion>
    decreases |rutas|
  {
    if rutas == [] then []
    else
      RestriccionesRuta(m, patios, rutas[..|rutas| - 1]) + RestriccionRuta(m, patios, rutas[|rutas| - 1])
  }

  /** Route j's constraint, absent when no depot may take it. */
  function RestriccionRuta(m: Matriz, patios: seq<PatioId>, j: RutaId): seq<Restriccion> {
    var t := TerminosRuta(m, patios, j);
    if t != [] then [Restriccion(RutaAsignada(j), t, Igual, 1.0)] else []
  }

  /** Constraints "Capacidad_Patio_i", in depot order. */
  function RestriccionesCapacidad(m: Matriz, caps: map<PatioId, int>, relajar: bool,
                                  patios: seq<PatioId>, rutas: seq<RutaId>): seq<Restriccion>
    decreases |patios|
  {
    if patios == [] then []
    else
      RestriccionesCapacidad(m, caps, relajar, patios[..|patios| - 1], rutas)
        + RestriccionCapacidad(m, caps, relajar, patios[|patios| - 1], rutas)
  }

  /** Depot i's capacity constraint, absent when it may take no route. */
  function RestriccionCapacidad(m: Matriz, caps: map<PatioId, int>, relajar: bool, i: PatioId, rutas: seq<RutaId>): seq<Restriccion> {
    var t := TerminosPatio(m, i, rutas);
    if t != [] then [Restriccion(CapacidadPatio(i), t, MenorIgual, CapacidadAjustada(caps, relajar, i) as real)] else []
  }

  /** Balance bounds: factors 0.75/1.25, or 0.3/3.0 when relaxing. */
  function LimitesBalance(numRutas: nat, numPatios: nat, relajar: bool): (int, int)
    requires numPatios > 0
  {
    if relajar then D.AjustarBalanceCarga(numRutas, numPatios, 0.3, 3.0)
    else D.AjustarBalanceCarga(numRutas, numPatios, 0.75, 1.25)
  }

  /** Constraints "Min_Rutas_Patio_i" and "Max_Rutas_Patio_i" for each depot
      with at least `lo` candidate routes. */
  function RestriccionesBalance(m: Matriz, patios: seq<PatioId>, rutas: seq<RutaId>, lo: int, hi: int): seq<Restriccion>
    decreases |patios|
  {
    if patios == [] then []
    else
      RestriccionesBalance(m, patios[..|patios| - 1], rutas, lo, hi) + RestriccionBalance(m, patios[|patios| - 1], rutas, lo, hi)
  }

  /** Depot i's two balance constraints, absent when it has fewer than lo (or no) candidate routes. */
  function RestriccionBalance(m: Matriz, i: PatioId, rutas: seq<RutaId>, lo: int, hi: int): seq<Restriccion> {
    var t := TerminosPatio(m, i, rutas);
    if t != [] && |t| >= lo
    then [Restriccion(MinRutasPatio(i), t, MayorIgual, lo as real), Restriccion(MaxRutasPatio(i), t, MenorIgual, hi as real)]
    else []
  }

  /** The balance block: present only when requested and there is a depot. */
  function Balance(m: Matriz, patios: seq<PatioId>, rutas: seq<RutaId>, balance: bool, relajar: bool): seq<Restriccion> {
    if balance && |patios| > 0 then
      var (lo, hi) := LimitesBalance(|rutas|, |patios|, relajar);
      RestriccionesBalance(m, patios, rutas, lo, hi)
    else []
  }

  /** One depot's share of the objective: cost * x[(i, j)] for each route it has a cost for. */
  function ObjetivoFila(costos: Matriz, i: PatioId, rutas: seq<RutaId>): seq<Termino>
    decreases |rutas|
  {
    if rutas == [] then []
    else
      var j := rutas[|rutas| - 1];
      ObjetivoFila(costos, i, rutas[..|rutas| - 1])
        + (if Valida(costos, i, j) then [(Asignacion(i, j), costos[i][j])] else [])
  }

  /** The objective: every listed (depot, route) variable weighted by its cost, depot by depot. */
  function TerminosObjetivo(costos: Matriz, patios: seq<PatioId>, rutas: seq<RutaId>): seq<Termino>
    decreases |patios|
  {
    if patios == [] then []
    else TerminosObjetivo(costos, patios[..|patios| - 1], rutas) + ObjetivoFila(costos, patios[|patios| - 1], rutas)
  }

  /** The decision variables: one binary per (depot, route) pair with a cost entry. */
  function Variables(m: Matriz, patios: seq<PatioId>, rutas: seq<RutaId>): set<Var> {
    set i, j | i in patios && j in rutas && Valida(m, i, j) :: Asignacion(i, j)
  }

  /** The whole model crear_modelo_ple builds. */
  function Construir(m: Matriz, tiempos: Matriz, caps: map<PatioId, int>,
                     patios: seq<PatioId>, rutas: seq<RutaId>,
                     objetivo: Objetivo, balance: bool, relajar: bool): Modelo
  {
    Modelo(Variables(m, patios, rutas),
           TerminosObjetivo(if objetivo == Distancia then m else tiempos, patios, rutas),
           RestriccionesRuta(m, patios, rutas)
             + RestriccionesCapacidad(m, caps, relajar, patios, rutas)
             + Balance(m, patios, rutas, balance, relajar))
  }

  // ---------------------------------------------------------------------------
  // What the constraints mean, stated on sets

  /** Depots that route j is assigned to. */
  ghost function PatiosAsignados(m: Matriz, patios: seq<PatioId>, j: RutaId, v: Valores): set<PatioId> {
    set i | i in patios && Valida(m, i, j) && Val(v, Asignacion(i, j)) == 1.0
  }

  /** Routes assigned to depot i. */
  ghost function RutasAsignadas(m: Matriz, i: PatioId, rutas: seq<RutaId>, v: Valores): set<RutaId> {
    set j | j in rutas && Valida(m, i, j) && Val(v, Asignacion(i, j)) == 1.0
  }

  /** Routes depot i may take. */
  ghost function RutasCandidatas(m: Matriz, i: PatioId, rutas: seq<RutaId>): set<RutaId> {
    set j | j in rutas && Valida(m, i, j)
  }

  /** Route j has at least one candidate depot. */
  ghost predicate TienePatio(m: Matriz, patios: seq<PatioId>, j: RutaId) {
    exists i :: i in patios && Valida(m, i, j)
  }

  /** Route j, if it has a candidate depot, is assigned to exactly one depot. */
  ghost predicate RutaCubierta(m: Matriz, patios: seq<PatioId>, j: RutaId, v: Valores) {
    TienePatio(m, patios, j) ==> |PatiosAsignados(m, patios, j, v)| == 1
  }

  ghost predicate RutasCubiertas(m: Matriz, patios: seq<PatioId>, rutas: seq<RutaId>, v: Valores) {
    forall j :: j in rutas ==> RutaCubierta(m, patios, j, v)
  }

  /** Depot i, if it has a candidate route, takes no more routes than its adjusted capacity. */
  ghost predicate PatioDentroCapacidad(m: Matriz, caps: map<PatioId, int>, relajar: bool,
                                       i: PatioId, rutas: seq<RutaId>, v: Valores) {
    RutasCandidatas(m, i, rutas) != {} ==> |RutasAsignadas(m, i, rutas, v)| <= CapacidadAjustada(caps, relajar, i)
  }

  ghost predicate CapacidadRespetada(m: Matriz, caps: map<PatioId, int>, relajar: bool,
                                     patios: seq<PatioId>, rutas: seq<RutaId>, v: Valores) {
    forall i :: i in patios ==> PatioDentroCapacidad(m, caps, relajar, i, rutas, v)
  }

  /** Depot i, if it has at least one and at least lo candidate routes, takes between lo and hi routes. */
  ghost predicate PatioEquilibrado(m: Matriz, i: PatioId, rutas: seq<RutaId>, lo: int, hi: int, v: Valores) {
    RutasCandidatas(m, i, rutas) != {} && |RutasCandidatas(m, i, rutas)| >= lo ==>
      lo <= |RutasAsignadas(m, i, rutas, v)| <= hi
  }

  ghost predicate CargaEquilibrada(m: Matriz, patios: seq<PatioId>, rutas: seq<RutaId>, lo: int, hi: int, v: Valores) {
    forall i :: i in patios ==> PatioEquilibrado(m, i, rutas, lo, hi, v)
  }

  ghost predicate BalanceCumplido(m: Matriz, patios: seq<PatioId>, rutas: seq<RutaId>, balance: bool, relajar: bool, v: Valores) {
    balance && |patios| > 0 ==>
      var (lo, hi) := LimitesBalance(|rutas|, |patios|, relajar);
      CargaEquilibrada(m, patios, rutas, lo, hi, v)
  }

  /** The conditions the model is meant to encode. */
  ghost predicate Intencion(m: Matriz, caps: map<PatioId, int>, patios: seq<PatioId>, rutas: seq<RutaId>,
                            balance: bool, relajar: bool, v: Valores) {
    && RutasCubiertas(m, patios, rutas, v)
    && CapacidadRespetada(m, caps, relajar, patios, rutas, v)
    && BalanceCumplido(m, patios, rutas, balance, relajar, v)
  }

  // ---------------------------------------------------------------------------
  // Proofs

  lemma ValBinario(v: Valores, x: Var)
    requires Binario(v) && !x.TiempoMaximo?
    ensures Val(v, x) == 0.0 || Val(v, x) == 1.0
  {
  }

  lemma LhsSnoc(ts: seq<Termino>, t: Termino, v: Valores)
    ensures Lhs(ts + [t], v) == Lhs(ts, v) + t.1 * Val(v, t.0)
  {
    assert (ts + [t])[..|ts|] == ts;
  }

  /** The left-hand side of a route constraint counts the depots the route is assigned to. */
  lemma {:induction false} LhsTerminosRuta(m: Matriz, patios: seq<PatioId>, j: RutaId, v: Valores)
    requires Distinct(patios) && Binario(v)
    ensures Lhs(TerminosRuta(m, patios, j), v) == |PatiosAsignados(m, patios, j, v)| as real
    ensures TerminosRuta(m, patios, j) == [] <==> !TienePatio(m, patios, j)
    decreases |patios|
  {
    if patios == [] {
      assert PatiosAsignados(m, patios, j, v) == {};
    } else {
      var n := |patios| - 1;
      var i := patios[n];
      var ini := patios[..n];
      LhsTerminosRuta(m, ini, j, v);
      var a := PatiosAsignados(m, ini, j, v);
      assert i !in ini;
      var x := Asignacion(i, j);
      ValBinario(v, x);
      if Valida(m, i, j) {
        LhsSnoc(TerminosRuta(m, ini, j), (x, 1.0), v);
        if Val(v, x) == 1.0 {
          assert PatiosAsignados(m, patios, j, v) == a + {i};
        } else {
          assert PatiosAsignados(m, patios, j, v) == a;
        }
      } else {
        assert TerminosRuta(m, patios, j) == TerminosRuta(m, ini, j);
        assert PatiosAsignados(m, patios, j, v) == a;
        if TienePatio(m, patios, j) {
          var i' :| i' in patios && Valida(m, i', j);
          assert i' in ini;
        }
      }
    }
  }

  /** A depot constraint has one term per candidate route. */
  lemma {:induction false} CandidatasTerminosPatio(m: Matriz, i: PatioId, rutas: seq<RutaId>)
    requires Distinct(rutas)
    ensures |TerminosPatio(m, i, rutas)| == |RutasCandidatas(m, i, rutas)|
    decreases |rutas|
  {
    if rutas == [] {
      assert RutasCandidatas(m, i, rutas) == {};
    } else {
      var n := |rutas| - 1;
      var j := rutas[n];
      var ini := rutas[..n];
      CandidatasTerminosPatio(m, i, ini);
      var c := RutasCandidatas(m, i, ini);
      assert j !in c;
      assert rutas == ini + [j];
      if Valida(m, i, j) {
        assert RutasCandidatas(m, i, rutas) == c + {j};
        assert |c + {j}| == |c| + 1;
      } else {
        assert RutasCandidatas(m, i, rutas) == c;
      }
    }
  }

  /** The left-hand side of a depot constraint counts the routes assigned to it. */
  lemma {:induction false} LhsTerminosPatio(m: Matriz, i: PatioId, rutas: seq<RutaId>, v: Valores)
    requires Distinct(rutas) && Binario(v)
    ensures Lhs(TerminosPatio(m, i, rutas), v) == |RutasAsignadas(m, i, rutas, v)| as real
    decreases |rutas|
  {
    if rutas == [] {
      assert RutasAsignadas(m, i, rutas, v) == {};
    } else {
      var n := |rutas| - 1;
      var j := rutas[n];
      var ini := rutas[..n];
      LhsTerminosPatio(m, i, ini, v);
      var a := RutasAsignadas(m, i, ini, v);
      assert j !in ini;
      var x := Asignacion(i, j);
      ValBinario(v, x);
      if Valida(m, i, j) {
        LhsSnoc(TerminosPatio(m, i, ini), (x, 1.0), v);
        if Val(v, x) == 1.0 {
          assert RutasAsignadas(m, i, rutas, v) == a + {j};
        } else {
          assert RutasAsignadas(m, i, rutas, v) == a;
        }
      } else {
        assert TerminosPatio(m, i, rutas) == TerminosPatio(m, i, ini);
        assert RutasAsignadas(m, i, rutas, v) == a;
      }
    }
  }

  /** Route j's constraint holds exactly when the route is covered. */
  lemma RestriccionRutaSii(m: Matriz, patios: seq<PatioId>, j: RutaId, v: Valores)
    requires Distinct(patios) && Binario(v)
    ensures CumpleTodas(RestriccionRuta(m, patios, j), v) <==> RutaCubierta(m, patios, j, v)
  {
    LhsTerminosRuta(m, patios, j, v);
    var extra := RestriccionRuta(m, patios, j);
    if extra != [] {
      assert CumpleTodas(extra, v) <==> Cumple(extra[0], v);
    }
  }

  /** Depot i's capacity constraint holds exactly when its load is within its adjusted capacity. */
  lemma RestriccionCapacidadSii(m: Matriz, caps: map<PatioId, int>, relajar: bool, i: PatioId, rutas: seq<RutaId>, v: Valores)
    requires Distinct(rutas) && Binario(v)
    ensures CumpleTodas(RestriccionCapacidad(m, caps, relajar, i, rutas), v) <==> PatioDentroCapacidad(m, caps, relajar, i, rutas, v)
  {
    LhsTerminosPatio(m, i, rutas, v);
    CandidatasTerminosPatio(m, i, rutas);
    var extra := RestriccionCapacidad(m, caps, relajar, i, rutas);
    if extra != [] {
      assert CumpleTodas(extra, v) <==> Cumple(extra[0], v);
    }
  }

  /** Depot i's balance constraints hold exactly when it is balanced. */
  lemma RestriccionBalanceSii(m: Matriz, i: PatioId, rutas: seq<RutaId>, lo: int, hi: int, v: Valores)
    requires Distinct(rutas) && Binario(v)
    ensures CumpleTodas(RestriccionBalance(m, i, rutas, lo, hi), v) <==> PatioEquilibrado(m, i, rutas, lo, hi, v)
  {
    LhsTerminosPatio(m, i, rutas, v);
    CandidatasTerminosPatio(m, i, rutas);
    var extra := RestriccionBalance(m, i, rutas, lo, hi);
    if extra != [] {
      assert CumpleTodas(extra, v) <==> Cumple(extra[0], v) && Cumple(extra[1], v);
    }
  }

  lemma {:induction false} RestriccionesRutaSii(m: Matriz, patios: seq<PatioId>, rutas: seq<RutaId>, v: Valores)
    requires Distinct(patios) && Binario(v)
    ensures CumpleTodas(RestriccionesRuta(m, patios, rutas), v) <==> RutasCubiertas(m, patios, rutas, v)
    decreases |rutas|
  {
    if rutas != [] {
      var n := |rutas| - 1;
      var j := rutas[n];
      var ini := rutas[..n];
      RestriccionesRutaSii(m, patios, ini, v);
      RestriccionRutaSii(m, patios, j, v);
      CumpleTodasConcat(RestriccionesRuta(m, patios, ini), RestriccionRuta(m, patios, j), v);
      assert rutas == ini + [j];
    }
  }

  lemma {:induction false} RestriccionesCapacidadSii(m: Matriz, caps: map<PatioId, int>, relajar: bool,
                                                     patios: seq<PatioId>, rutas: seq<RutaId>, v: Valores)
    requires Distinct(rutas) && Binario(v)
    ensures CumpleTodas(RestriccionesCapacidad(m, caps, relajar, patios, rutas), v)
            <==> CapacidadRespetada(m, caps, relajar, patios, rutas, v)
    decreases |patios|
  {
    if patios != [] {
      var n := |patios| - 1;
      var i := patios[n];
      var ini := patios[..n];
      RestriccionesCapacidadSii(m, caps, relajar, ini, rutas, v);
      RestriccionCapacidadSii(m, caps, relajar, i, rutas, v);
      CumpleTodasConcat(RestriccionesCapacidad(m, caps, relajar, ini, rutas), RestriccionCapacidad(m, caps, relajar, i, rutas), v);
      assert patios == ini + [i];
    }
  }

  lemma {:induction false} RestriccionesBalanceSii(m: Matriz, patios: seq<PatioId>, rutas: seq<RutaId>,
                                                   lo: int, hi: int, v: Valores)
    requires Distinct(rutas) && Binario(v)
    ensures CumpleTodas(RestriccionesBalance(m, patios, rutas, lo, hi), v)
            <==> CargaEquilibrada(m, patios, rutas, lo, hi, v)
    decreases |patios|
  {
    if patios != [] {
      var n := |patios| - 1;
      var i := patios[n];
      var ini := patios[..n];
      RestriccionesBalanceSii(m, ini, rutas, lo, hi, v);
      RestriccionBalanceSii(m, i, rutas, lo, hi, v);
      CumpleTodasConcat(RestriccionesBalance(m, ini, rutas, lo, hi), RestriccionBalance(m, i, rutas, lo, hi), v);
      assert patios == ini + [i];
    }
  }

  /** A 0/1 assignment satisfies the built model exactly when every route
      with a candidate depot goes to exactly one depot, every depot with a
      candidate route stays within its adjusted capacity and, when balance is
      on, every depot with enough candidate routes lands within the bounds. */
  lemma SatisfaceSiiIntencion(m: Matriz, tiempos: Matriz, caps: map<PatioId, int>,
                              patios: seq<PatioId>, rutas: seq<RutaId>,
                              objetivo: Objetivo, balance: bool, relajar: bool, v: Valores)
    requires Distinct(patios) && Distinct(rutas) && Binario(v)
    ensures Satisface(Construir(m, tiempos, caps, patios, rutas, objetivo, balance, relajar), v)
            <==> Intencion(m, caps, patios, rutas, balance, relajar, v)
  {
    var r1 := RestriccionesRuta(m, patios, rutas);
    var r2 := RestriccionesCapacidad(m, caps, relajar, patios, rutas);
    var r3 := Balance(m, patios, rutas, balance, relajar);
    CumpleTodasConcat(r1 + r2, r3, v);
    CumpleTodasConcat(r1, r2, v);
    RestriccionesRutaSii(m, patios, rutas, v);
    RestriccionesCapacidadSii(m, caps, relajar, patios, rutas, v);
    if balance && |patios| > 0 {
      var (lo, hi) := LimitesBalance(|rutas|, |patios|, relajar);
      RestriccionesBalanceSii(m, patios, rutas, lo, hi, v);
    }
  }

  /** Variables exist exactly for the pairs with a cost entry. */
  lemma VariablesSii(m: Matriz, patios: seq<PatioId>, rutas: seq<RutaId>, x: Var)
    ensures x in Variables(m, patios, rutas)
            <==> x.Asignacion? && x.patio in patios && x.unidad in rutas && Valida(m, x.patio, x.unidad)
  {
    if x.Asignacion? && x.patio in patios && x.unidad in rutas && Valida(m, x.patio, x.unidad) {
      assert x == Asignacion(x.patio, x.unidad);
    }
  }

  /** Every term of the objective is a variable of the model, weighted by its cost. */
  lemma {:induction false} ObjetivoSobreVariables(m: Matriz, patios: seq<PatioId>, rutas: seq<RutaId>)
    ensures forall t :: t in TerminosObjetivo(m, patios, rutas) ==>
              t.0 in Variables(m, patios, rutas) && t.1 == m[t.0.patio][t.0.unidad]
    decreases |patios|
  {
    if patios != [] {
      var n := |patios| - 1;
      ObjetivoSobreVariables(m, patios[..n], rutas);
      ObjetivoFilaSobreVariables(m, patios, patios[n], rutas);
    }
  }

  lemma {:induction false} ObjetivoFilaSobreVariables(m: Matriz, patios: seq<PatioId>, i: PatioId, rutas: seq<RutaId>)
    requires i in patios
    ensures forall t :: t in ObjetivoFila(m, i, rutas) ==>
              t.0 in Variables(m, patios, rutas) && t.1 == m[t.0.patio][t.0.unidad]
    decreases |rutas|
  {
    if rutas != [] {
      var n := |rutas| - 1;
      ObjetivoFilaSobreVariables(m, patios, i, rutas[..n]);
      var j := rutas[n];
      if Valida(m, i, j) {
        VariablesSii(m, patios, rutas, Asignacion(i, j));
      }
      forall t | t in ObjetivoFila(m, i, rutas[..n])
        ensures t.0 in Variables(m, patios, rutas)
      {
        VariablesSii(m, patios, rutas[..n], t.0);
        VariablesSii(m, patios, rutas, t.0);
      }
    }
  }

  /** Strict balance with fewer routes than 0.8 times the depots: no 0/1
      assignment satisfies the model once some depot has a candidate route,
      because its bounds are 1 and 0. */
  lemma BalanceEstrictoInfactible(m: Matriz, tiempos: Matriz, caps: map<PatioId, int>,
                                  patios: seq<PatioId>, rutas: seq<RutaId>, objetivo: Objetivo,
                                  i: PatioId, v: Valores)
    requires Distinct(patios) && Distinct(rutas) && Binario(v)
    requires |patios| > 0 && (|rutas| as real) * 1.25 < |patios| as real
    requires i in patios && RutasCandidatas(m, i, rutas) != {}
    ensures !Satisface(Construir(m, tiempos, caps, patios, rutas, objetivo, true, false), v)
  {
    SatisfaceSiiIntencion(m, tiempos, caps, patios, rutas, objetivo, true, false, v);
    BalanceEstrictoVacio(|rutas|, |patios|);
    assert !PatioEquilibrado(m, i, rutas, 1, 0, v);
  }

  /** The strict bounds are (1, 0) when routes are fewer than 0.8 times the depots. */
  lemma BalanceEstrictoVacio(numRutas: nat, numPatios: nat)
    requires numPatios > 0 && (numRutas as real) * 1.25 < numPatios as real
    ensures LimitesBalance(numRutas, numPatios, false) == (1, 0)
  {
    var c := D.CargaPromedio(numRutas, numPatios);
    assert c * (numPatios as real) == numRutas as real;
    assert c * 1.25 * (numPatios as real) < numPatios as real;
    assert c * 1.25 < 1.0;
    D.BalanceVacio(numRutas, numPatios, 0.75, 1.25);
  }
}
