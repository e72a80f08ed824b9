# Route-to-depot assignment for the Bosa / Kennedy SITP zone — a Dafny model

The repository assigns bus routes, and in a second variant individual buses, of the
Bogotá SITP network in the Bosa and Kennedy localities to bus depots (*patios*).
It does this by building a 0/1 mixed-integer program and handing it to a solver.
This project models its core:

- **Data preparation.**
  - The capacity table read from the depot layer (`Capacidades`).
  - The index from GTFS short names to route ids, and the depot × route distance table built from it (`Procesamiento`).
  - The "hybrid" distance/time table: a straight-line distance corrected by a zone-dependent detour factor, and a congestion-aware travel time (`Zonas`, `MatrizHibrida`).
- **The route-level optimiser `OptimizadorAsignacion`.**
  - The feasibility pre-check, capacity relaxation and load-balance bounds (`Diagnostico`).
  - The sparse assignment model it builds, as a value (`ModeloPle`, over the small LP vocabulary in `Lp`).
  - The class itself, with its state and step-by-step methods: model building, solving through an oracle, the infeasibility diagnosis, result extraction and the three-strategy relaxation search (`Optimizador`).
  - Result extraction and metrics (`Extraccion`).
- **The per-bus variant `OptimizadorBusesPatios`** (`Buses`).
  - Buses per route from peak-hour GTFS trips, and bus ids.
  - The dense model with opened-depot variables.
  - Variable-name parsing, statistics and the detailed result rows.

The main theorem, `ModeloPle.SatisfaceSiiIntencion`, says that a 0/1 assignment satisfies the model
exactly when three conditions hold:

- every route that has a candidate depot is assigned to exactly one depot;
- every depot with a candidate route takes no more routes than its (possibly relaxed) capacity;
- when balancing is on, every depot with enough candidate routes takes between the lower and the upper bound.

`Extraccion.ValorObjetivoEsTotal` and `Extraccion.ResultadosCumplen` tie the extracted assignment
to the model:

- the objective value is the extracted total distance (or total time);
- a satisfying solution gives each covered route exactly one depot;
- no depot is over capacity.

`Optimizador.OptimizadorAsignacion.ResolverConRelajacion` is proved to succeed exactly when one of the three strategies succeeds, and then with the first such strategy.

External parts are parameters of the model:

- the MILP solver is a function `Modelo -> Solucion`;
- geodesic and planar distances, and the projection of geographic coordinates to EPSG:3116, are functions on coordinates;
- the regular-expression search and pandas' `str.contains` are functions on strings.

The files, one module each: `util.dfy`, `config.dfy`, `lp.dfy`, `diagnostico.dfy`, `modelo_ple.dfy`,
`extraccion.dfy`, `optimizador.dfy`, `zonas.dfy`, `matriz_hibrida.dfy`, `capacidades.dfy`,
`procesamiento.dfy`, `buses.dfy`.

Notes on what the code does, which the model follows:

- `verificar_factibilidad_basica` returns a boolean at the first failed check. It does not report every violation.
- The relaxed capacity `int(c · 1.5)` applies only to depots listed in the capacity table. A depot that falls back on the default capacity of 15 keeps 15.
- The lower balance bound is at least 1. The balance constraints, both the lower and the upper bound, are emitted only for depots with at least the lower bound of candidate routes.
- The relaxation search tries the three strategies in order.
  - Any non-optimal status moves on to the next strategy. An exception raised by the solver is not caught and ends the search.
  - A strategy succeeds only when the status is optimal *and* the extraction is non-empty.
  - After three failures the result is simply `False`.
  - The infeasibility diagnosis is reported when the status is infeasible but not kept.
- Result extraction performs no consistency check of its own.
- The diagnosis of over-provisioned depots looks only at the first ten depots.
- In the per-bus variant, a failure to read GTFS leaves the route mapping unbuilt, and the distance step then fails (see "## Findings").
- The approximate distance of a route with no matched stop measures a projected depot against the route's first vertex, which is still in degrees (see "## Findings"). The distance tables take the reading of that vertex as a parameter: `Procesamiento.SinProyectar` gives the tables as the source computes them, and the projection of the depots gives the corrected tables.
- The hybrid table of procesamiento_datos_copy.py pairs depot ids with coordinates by position (see "## Findings"). `MatrizHibrida.CalcularMatrizHibrida` builds that table when `alinear` is false, and the corrected one when it is true.

## Model

| member | source | states |
|---|---|---|
| Diagnostico.PatiosPosibles | modelo_optimizacion.py:39 | a depot is possible for a route exactly when its row of the distance table lists that route |
| Diagnostico.SumaCapacidades | modelo_optimizacion.py:25 | the loop's total is the sum of all values of the capacity table |
| Diagnostico.VerificarFactibilidadBasica | modelo_optimizacion.py:18-56 | more routes than total capacity gives False; otherwise True exactly when every route has a possible depot; when True the capacity warnings are exactly the depots whose capacity exceeds their number of candidate routes |
| Diagnostico.RutasSinPatio | modelo_optimizacion.py:37-41 | the reported routes are exactly the input routes with no possible depot |
| Diagnostico.AvisosCapacidad | modelo_optimizacion.py:49-53 | the warned depots are exactly those whose capacity exceeds the routes they could take |
| Diagnostico.RelajarCapacidades | modelo_optimizacion.py:59-65 | same depots as the input; each capacity scaled by the factor and truncated; with factor at least 1 no non-negative capacity shrinks |
| Diagnostico.RelajadaNoMenor | modelo_optimizacion.py:64 | relaxing a non-negative capacity by a factor at least 1 never lowers it |
| Diagnostico.CapacidadTotalRelajadaNoMenor | modelo_optimizacion.py:59-65 | relaxing never lowers the total capacity |
| Diagnostico.AjustarBalanceCarga | modelo_optimizacion.py:68-73 | lower bound at least 1: it is 1 while average·fmin is below 2 and the truncated average·fmin whenever that is at least 1; upper bound is the truncated average·fmax |
| Diagnostico.BalanceVacio | modelo_optimizacion.py:68-73 | when average·fmax is below 1 the upper bound is 0 and lies below the lower bound |
| Diagnostico.BalanceOrdenado | modelo_optimizacion.py:68-73 | with fmin ≤ fmax and average·fmin at least 1 the bounds are ordered |
| ModeloPle.LhsTerminosRuta | modelo_optimizacion.py:187-193 | a route's constraint sums to the number of depots it is assigned to; the constraint is empty exactly when no depot may take the route |
| ModeloPle.CandidatasTerminosPatio | modelo_optimizacion.py:220-221 | the number of a depot's terms is the number of its candidate routes |
| ModeloPle.LhsTerminosPatio | modelo_optimizacion.py:201-203 | a depot's constraint sums to the number of routes assigned to it |
| ModeloPle.RestriccionRutaSii | modelo_optimizacion.py:187-193 | a route's constraint holds exactly when the route, if it has a candidate, has exactly one depot |
| ModeloPle.RestriccionCapacidadSii | modelo_optimizacion.py:197-204 | a depot's capacity constraint holds exactly when, if it has a candidate route, it takes at most its adjusted capacity |
| ModeloPle.RestriccionBalanceSii | modelo_optimizacion.py:218-224 | a depot's balance constraints hold exactly when, if it has enough candidates, its load is within the bounds |
| ModeloPle.RestriccionesRutaSii | modelo_optimizacion.py:187-193 | all route constraints hold exactly when every route is covered once |
| ModeloPle.RestriccionesCapacidadSii | modelo_optimizacion.py:197-204 | all capacity constraints hold exactly when every depot is within capacity |
| ModeloPle.RestriccionesBalanceSii | modelo_optimizacion.py:208-227 | all balance constraints hold exactly when every depot's load is balanced |
| ModeloPle.SatisfaceSiiIntencion | modelo_optimizacion.py:139-233 | a 0/1 assignment satisfies the built model exactly when it covers each route once, respects capacities and, if requested, the balance bounds |
| ModeloPle.VariablesSii | modelo_optimizacion.py:162-167 | a variable exists exactly for each (depot, route) pair with a cost entry |
| ModeloPle.ObjetivoSobreVariables | modelo_optimizacion.py:169-183 | every objective term is on a declared variable and weighted by that pair's cost |
| ModeloPle.BalanceEstrictoInfactible | modelo_optimizacion.py:208-227 | with strict balancing and fewer than 0.8 routes per depot the model has no solution as soon as some depot has a candidate route |
| ModeloPle.BalanceEstrictoVacio | modelo_optimizacion.py:213-216 | with fewer than 0.8 routes per depot the strict bounds are (1, 0) |
| Extraccion.CalcularMetricas | modelo_optimizacion.py:398-420 | the total distance and total time are the sums over the assignments (`TotalDistancia`, `TotalTiempo`); average times count equals the total, for distance and for time; the per-depot counts add up to the number of assignments; counted depots are exactly those that occur |
| Extraccion.ConteoSuma | modelo_optimizacion.py:403-404 | the per-depot counts add up to the number of records |
| Extraccion.ConteoClaves | modelo_optimizacion.py:403-404 | a depot is counted exactly when some record names it |
| Extraccion.ConteoEsRutasDe | modelo_optimizacion.py:403-404 | with distinct pairs, a depot's count is the number of distinct routes recorded for it |
| Extraccion.ExtraidaSii | modelo_optimizacion.py:355-366 | a record is extracted exactly when its pair has a cost entry, its variable is 1, and its distance and time are read from the tables |
| Extraccion.ExtraidasParesDistintos | modelo_optimizacion.py:355-366 | extraction never records the same (depot, route) pair twice |
| Extraccion.ObjetivoEsTotal | modelo_optimizacion.py:169-183 | the objective evaluated at a 0/1 solution equals the extracted total distance, and on the time table the extracted total time |
| Extraccion.ValorObjetivoEsTotal | modelo_optimizacion.py:408-411 | the model's objective value equals the extracted total of the chosen measure |
| Extraccion.PatiosDeSonAsignados | modelo_optimizacion.py:355-366 | the depots extracted for a route are exactly those its variables assign it to |
| Extraccion.RutasDeSonAsignadas | modelo_optimizacion.py:355-366 | the routes extracted for a depot are exactly those assigned to it |
| Extraccion.ResultadosCumplen | modelo_optimizacion.py:187-204 | from a satisfying solution each covered route is extracted with exactly one depot and no depot's count exceeds its adjusted capacity |
| Optimizador.UnionRutas | modelo_optimizacion.py:116-121 | the route set is exactly the routes listed in some depot's row |
| Optimizador.RutasAisladasSii | modelo_optimizacion.py:286-290 | a route is isolated exactly when it is a route of the problem and no depot may take it |
| Optimizador.SinRutasAisladas | modelo_optimizacion.py:286-290 | when routes are taken from the rows of the table, none is isolated |
| Optimizador.TerminosRutaValidos | modelo_optimizacion.py:190-192 | a route's terms are exactly its valid (depot, route) variables with coefficient 1 |
| Optimizador.Primeros10 | modelo_optimizacion.py:299 | the result is the first ten depots, or all of them when there are fewer |
| Optimizador.TerminosDeRuta | modelo_optimizacion.py:190 | the loop collects exactly the route's terms of the model |
| Optimizador.TerminosDePatio | modelo_optimizacion.py:201 | the loop collects exactly the depot's terms of the model |
| Optimizador.EmitirRestriccionesRuta | modelo_optimizacion.py:187-193 | emits exactly the model's route constraints |
| Optimizador.EmitirRestriccionesCapacidad | modelo_optimizacion.py:197-204 | emits exactly the model's capacity constraints, with the relaxed table when relaxing |
| Optimizador.EmitirRestriccionesBalance | modelo_optimizacion.py:218-224 | emits exactly the model's balance constraints |
| Optimizador.RestriccionDeCapacidad | modelo_optimizacion.py:199-204 | one depot's emitted capacity constraint is the model's, with the default capacity when the depot is not listed |
| Optimizador.RestriccionDeBalance | modelo_optimizacion.py:219-224 | one depot's emitted balance constraints are the model's, present only with at least the lower bound of valid routes |
| Optimizador.EmitirObjetivo | modelo_optimizacion.py:169-183 | emits exactly the model's objective terms |
| Optimizador.ExtraerAsignaciones | modelo_optimizacion.py:355-366 | the loop's records are the extraction specification |
| Optimizador.ExtraerFila | modelo_optimizacion.py:357-366 | one depot's records are the extraction specification for that row |
| Optimizador.ListarRutasAisladas | modelo_optimizacion.py:286-290 | the loop lists exactly the isolated routes |
| Optimizador.ListarPatiosHolgados | modelo_optimizacion.py:299-303 | the loop lists exactly the depots whose capacity exceeds their candidate routes |
| Optimizador.OptimizadorAsignacion.Cargar | modelo_optimizacion.py:80-121 | loads the tables, capacities and depot order and derives the route list (each route of any row once); the load reports failure exactly when cap_total is 0; nothing solved yet |
| Optimizador.OptimizadorAsignacion.MostrarEstadisticasCarga | modelo_optimizacion.py:111-124 | afterwards the route list holds each route of any row exactly once; fails exactly when cap_total is 0, the divisor of the printed ratio |
| Optimizador.OptimizadorAsignacion.VerificarFactibilidad | modelo_optimizacion.py:133-137 | feasible exactly when the number of routes does not exceed the total capacity |
| Optimizador.OptimizadorAsignacion.CrearModeloPle | modelo_optimizacion.py:139-233 | the stored problem is the model specification for the chosen objective, balance and relaxation |
| Optimizador.OptimizadorAsignacion.DiagnosticarInfactibilidad | modelo_optimizacion.py:272-308 | reports the capacity shortfall when routes exceed capacity, exactly the isolated routes, and the over-provisioned depots among the first ten |
| Optimizador.OptimizadorAsignacion.ResolverModelo | modelo_optimizacion.py:235-270 | stores the solver's answer; success exactly on optimal; a diagnosis exactly on infeasible, and it is the full diagnosis of the current model |
| Optimizador.OptimizadorAsignacion.ExtraerResultados | modelo_optimizacion.py:347-376 | nothing changes unless optimal; when optimal the results are the extracted assignments, returned with their metrics exactly when non-empty |
| Optimizador.OptimizadorAsignacion.Intentar | modelo_optimizacion.py:320-339 | the stored problem is the distance model under the strategy's balance and relaxation, the stored answer is the solver's answer to it; success exactly when that answer is optimal with a non-empty extraction |
| Optimizador.OptimizadorAsignacion.ResolverConRelajacion | modelo_optimizacion.py:310-345 | succeeds exactly when some strategy does; then it used the first successful strategy, and the stored problem, answer and results are that strategy's; otherwise it reports none and the stored problem is the last strategy's |
| Zonas.ClasificarZona | matriz_distancias_hibrida.py:104-117 | each of the four zones is returned exactly on its quadrant of the 4.62° latitude and −74.17°/−74.14° longitude thresholds (the copy at procesamiento_datos_copy.py:27-40 is identical) |
| Zonas.FactorCorreccion | matriz_distancias_hibrida.py:119-138 | the detour factor always lies in [1.2, 2.0] |
| Zonas.FactorSinAcotarAcotado | matriz_distancias_hibrida.py:129-136 | before clamping the factor already lies in [1.17, 1.92] |
| Zonas.TechoInactivo | matriz_distancias_hibrida.py:138 | the 2.0 ceiling never binds; only the 1.2 floor does |
| Zonas.PisoActivo | matriz_distancias_hibrida.py:133-138 | the floor does bind: within Kennedy Oriente beyond 10 km the factor is raised to 1.2 |
| Zonas.FactorSimetrico | matriz_distancias_hibrida.py:129-130 | the factor does not depend on the direction of travel |
| Zonas.TiempoSimetrico | matriz_distancias_hibrida.py:140-158 | travel time does not depend on the direction of travel |
| Zonas.TiempoCero | matriz_distancias_hibrida.py:140-158 | zero distance takes zero time |
| Zonas.TiempoMonotono | matriz_distancias_hibrida.py:140-158 | a longer distance never takes less time (also for the copy at procesamiento_datos_copy.py:63-81) |
| Zonas.TiempoPorKilometro | matriz_distancias_hibrida.py:143-156 | travel time lies between 3.5 and 4.5 minutes per km |
| MatrizHibrida.CalcularDistanciasHibridas | matriz_distancias_hibrida.py:62-100 | fails exactly when there are no depots or no stops (the pairwise distance call raises on an empty side); otherwise returns exactly the distance and time table specifications |
| MatrizHibrida.LlenarTablas | matriz_distancias_hibrida.py:77-100 | the nested loops build exactly the distance and time table specifications |
| MatrizHibrida.FilaHibrida | matriz_distancias_hibrida.py:85-100 | one depot's loop builds exactly its distance and time rows |
| MatrizHibrida.DistanciaCorregidaAcotada | matriz_distancias_hibrida.py:93-94 | the corrected distance lies between 1.2 and 1.92 times the geodesic distance |
| MatrizHibrida.MatrizClaves | matriz_distancias_hibrida.py:77-100 | every depot gets a row and every row lists every route |
| MatrizHibrida.MatricesMismaForma | matriz_distancias_hibrida.py:77-100 | the distance and time tables have the same depots and routes |
| MatrizHibrida.MatrizValor | matriz_distancias_hibrida.py:77-100 | with distinct ids, each entry is computed from that depot's and that stop's own coordinates |
| MatrizHibrida.IdsPatios | procesamiento_datos_copy.py:93-99 | there are never more depot ids than depot coordinates |
| MatrizHibrida.Emparejar | procesamiento_datos_copy.py:128-135 | the k-th id is paired with the k-th coordinate |
| MatrizHibrida.CalcularMatrizHibrida | procesamiento_datos_copy.py:83-155 | with `alinear` false, builds the tables as written, the i-th id with the i-th coordinate; with `alinear` true, the corrected tables, each id with its own depot's coordinate; both are empty when there is no depot coordinate or no stop |
| MatrizHibrida.PatiosValidosSii | procesamiento_datos_copy.py:93-99 | a (depot, coordinate) pair is kept exactly when the layer has that depot with both its id and its coordinate |
| MatrizHibrida.CopiaCorregidaUsaSuCoordenada | procesamiento_datos_copy.py:128-153 | in the corrected table each depot's entry uses its own coordinate |
| MatrizHibrida.ListasDesalineadas | procesamiento_datos_copy.py:93-110 | in the concrete input of the finding the coordinate list is longer than the id list |
| MatrizHibrida.DesalineacionCopia | procesamiento_datos_copy.py:93-143 | as written, depot "7" is measured from another depot's coordinate and its entry differs from the corrected one |
| Capacidades.IdPatio | procesamiento_datos.py:182 | objectid when truthy (neither missing nor 0), else OBJECTID when truthy, else id when truthy, else the Id field as it is, so a row is skipped only when Id is missing; the result is truthy exactly when some field is |
| Capacidades.Capacidad | procesamiento_datos.py:185-192 | default 15 without the column or a number; otherwise the value truncated toward zero, `int(float(val))`, for either sign |
| Capacidades.Guardar | procesamiento_datos.py:182-193 | a row without id changes nothing; otherwise it adds or overwrites only its own key |
| Capacidades.GuardarCapacidades | procesamiento_datos.py:179-195 | the loop builds the capacity table specification and the total is the sum of its values (the copy at procesamiento_datos_copy.py:431-447 is the same loop) |
| Capacidades.ClavesCapacidades | procesamiento_datos.py:180-193 | a key is present exactly when some row has that id |
| Capacidades.UltimaFilaGana | procesamiento_datos.py:193 | a repeated id keeps the capacity of its last row |
| Capacidades.SinColumnaTodoDefault | procesamiento_datos.py:185-195 | without the capacity column every depot gets 15 and the total is 15 per depot |
| Capacidades.CapTotalNoNegativo | procesamiento_datos.py:195 | non-negative cells give non-negative capacities and total |
| Procesamiento.ObtenerRutaId | procesamiento_datos_copy.py:355-357 | route_id, else ruta, else a non-empty "ruta_" fallback |
| Procesamiento.RutaIdRespaldoInyectivo | procesamiento_datos_copy.py:357 | distinct row labels give distinct fallback ids |
| Procesamiento.IndiceNombresCortos | procesamiento_datos.py:104-109 | the index is empty without the short-name column, else the index specification |
| Procesamiento.IndiceSii | procesamiento_datos.py:104-109 | a route id is indexed under a key exactly when some stop with that route has that stripped short name |
| Procesamiento.IndiceNoVacio | procesamiento_datos.py:109 | every key of the index names at least one route |
| Procesamiento.AgregarSii | procesamiento_datos.py:109 | adding one stop keeps every entry and adds exactly that stop's pair |
| Procesamiento.BaseCodigo | procesamiento_datos.py:127 | the base code contains no '-'; it is the stripped text before the first '-', or the whole stripped code when there is none |
| Procesamiento.BaseCodigoPrefijo | procesamiento_datos.py:127 | a code made of a dash-free prefix, a dash and any suffix has the stripped prefix as its base |
| Procesamiento.BaseCodigoP7 | procesamiento_datos.py:124-127 | the code "P7-1" has base "P7" |
| Procesamiento.Filtrar | procesamiento_datos.py:130 | keeps exactly the stops whose route id is a candidate |
| Procesamiento.MinDistancia | procesamiento_datos.py:149-150 | the result is the distance of some stop and no stop is closer |
| Procesamiento.AproximadaMezclaSistemas | procesamiento_datos.py:160-171 | as written, a route starting exactly at a depot is reported over 1900 km away; measured in one system it is 0 |
| Procesamiento.AproximadaMismoSistema | procesamiento_datos.py:160-171 | with the route start projected, a route starting at the depot gets approximation 0 |
| Procesamiento.FilaMezclaSistemas | procesamiento_datos.py:118-171 | in a depot's row, a route with no matched stop starting exactly at the depot is listed at over 1900 km as written (`SinProyectar`, Manhattan distance) and at 0 with the route start projected |
| Procesamiento.DistanciaMismoSistema | procesamiento_datos.py:147-171 | with the route start projected, the distance recorded for a route with no matched stop starting at the depot is 0 |
| Procesamiento.CodigoTienePrioridad | procesamiento_datos.py:124-130 | when the base code is indexed, the stops matched by code are the ones used |
| Procesamiento.AproximacionSoloSinParadaPropia | procesamiento_datos.py:141-145 | the approximation is used only when no stop carries the route's own id |
| Procesamiento.LlenarFila | procesamiento_datos.py:118-155 | one depot's loop builds exactly its row: for each route, the nearest matched stop, or the approximation when none matched, from the route start as `proyectar` reads it (`SinProyectar` as written, the projection as intended) |
| Procesamiento.CrearMatrizDistancias | procesamiento_datos.py:104-155 | the whole table is the specification built with the index; with `SinProyectar` it is the table as written, with the projection of the depots the corrected one |
| Procesamiento.CadaParTieneDistancia | procesamiento_datos.py:114-155 | every depot has a row and every row has an entry for every route |
| Procesamiento.TodasLasDistancias | procesamiento_datos_copy.py:364-366 | every value collected is the entry named alongside it, and every entry of the table is named exactly once |
| Procesamiento.Distribucion | procesamiento_datos_copy.py:378-379 | the four counts are the counts of each distance band |
| Procesamiento.TramosParticion | procesamiento_datos_copy.py:379 | the four bands partition the distances |
| Buses.BusesNecesarios | model.py:90-93 | the least number of buses whose four trips each cover the peak-hour trips |
| Buses.Frecuencias | model.py:86-93 | one bus count per route, each the buses needed |
| Buses.BusesDeRuta | model.py:124-133 | at least one bus; 3 for a route past the last GTFS frequency row; otherwise that row's count raised to 1 |
| Buses.MapeoAlMenosUno | model.py:118-135 | route k is "ruta_k" with its bus count, at least 1, and 3 past the GTFS rows |
| Buses.ExpandirIds | model.py:154-163 | the loop builds exactly the expanded bus ids |
| Buses.LongitudExpansion | model.py:154-163 | there is one bus id per bus needed in total |
| Buses.ExpandidoSii | model.py:154-163 | an id is expanded exactly when it is bus k of some route with k below its bus count |
| Buses.DividirRecupera | model.py:411-412 | splitting a bus id at "_bus_" recovers its route and bus number |
| Buses.PatiosIdsDe | model.py:177-181 | one depot id per objectid, or per depot when the column is missing |
| Buses.CapacidadDelArchivo | model.py:221-224 | depot "patio_k" gets the file's capacity for k, else 15 |
| Buses.CapacidadesModelo | model.py:221-224 | every depot of the model has a capacity, the one looked up from the file |
| Buses.EmitirUnicas | model.py:256-258 | the loop emits exactly the model's one-depot-per-bus constraints |
| Buses.EmitirCaps | model.py:221-262 | the loop emits exactly the model's capacity constraints, with the capacities looked up per depot |
| Buses.UnicaSii | model.py:257-258 | a bus's constraint holds exactly when exactly one of its variables is 1 |
| Buses.CapSii | model.py:261-262 | a depot's constraint holds exactly when its bus count is at most capacity times its opened flag |
| Buses.PatioCerradoSinBuses | model.py:262 | a closed depot holds no bus |
| Buses.SatisfaceSii | model.py:256-262 | a 0/1 assignment satisfies the model exactly when every bus has one depot and every depot respects its opened capacity |
| Buses.ParsearNombreVariable | model.py:369-393 | the parse is the first of the four patterns that matches, if any |
| Buses.ParseoCorrecto | model.py:373-389 | no result exactly when no pattern matches; otherwise the depot id is "patio_" and the last group of the first matching pattern |
| Buses.ConteosSuman | model.py:335-345 | the per-depot and per-route counts both add up to the number of parsed assignments |
| Buses.OptimizadorBusesPatios.Cargar | model.py:17-109 | stores the capacity table and the bus counts from GTFS; the route mapping is built from them when GTFS was read and absent when it failed |
| Buses.OptimizadorBusesPatios.CrearMapeoRutas | model.py:111-137 | the route list is the mapping specification; nothing else changes |
| Buses.OptimizadorBusesPatios.CalcularDistancias | model.py:139-200 | the bus ids are the expansion of the routes (none without a route mapping); fails exactly when there is no mapping, no bus or no depot (the pairwise distance call raises on an empty side), leaving the depot ids unchanged; on success the depot ids come from objectid |
| Buses.MapeoCargado | model.py:95-109 | the mapping exists exactly when GTFS was read, and then has one entry per route |
| Buses.MapeoPorDefecto | model.py:105-109 | the intended mapping after a GTFS failure has one entry per route |
| Buses.TotalMapeoSinFrecuencias | model.py:124-130 | without frequency rows the routes need 3 buses each |
| Buses.FalloGtfsSinMapeo | model.py:105-109 | after a GTFS failure there is no mapping, while the intended default gives 3 bus ids per route |
| Buses.MapeoPorDefectoCorrecto | model.py:111-137 | the default mapping equals the loaded one when GTFS was read, names route k "ruta_k" with at least one bus, and gives 3 buses to every route after a failure |
| Buses.OptimizadorBusesPatios.ConstruirModelo | model.py:202-262 | the stored model is the per-bus model specification; nothing else changes |
| Buses.OptimizadorBusesPatios.MostrarEstadisticas | model.py:323-345 | no counts unless optimal; otherwise the per-depot and per-route counts of the parsed assignments |
| Buses.OptimizadorBusesPatios.GuardarResultados | model.py:395-429 | the rows are the detail specification for every assignment variable at 1 |
| Buses.DetalleDeVariable | model.py:406-429 | one variable's row is its detail specification |
| Buses.DetallesCorrectos | model.py:406-429 | one row per parsed assignment, each depot id starts with "patio_", and the time is 3 minutes per km |

## Left out

- The MILP solver (PuLP/CBC) is a parameter `Modelo -> Solucion`; the model says nothing about optimality of its answer.
- File and network I/O is not modelled: GeoJSON, GTFS CSV, JSON and CSV reading and writing, directory creation, `main()`.
- The GTFS peak-hour filtering in `cargar_gtfs` (model.py:55-83) is not modelled; `Buses.OptimizadorBusesPatios.Cargar` takes the peak-hour trip counts per route as input.
- Geodesic distance, planar distance (`geometry.distance`, `cdist`), the projection `to_crs` and centroid computations are parameters.
- Regular-expression search and pandas `str.contains` are parameters.
- Floating point is modelled as exact reals. `round(…, 2)` when storing the hybrid tables is left out.
- `Zonas.TiempoViaje`, `MatrizHibrida.MatrizDe`: no rounding to two decimals, for the same reason.
- Means, minima, maxima and standard deviations that are only printed are left out; so are timestamps and the display names of routes and depots.
- The travel-time constraints of model.py:264-269 are left out. Their coefficients are float travel times, and `Tiempo_Maximo` is a continuous variable with no upper bound, so they never exclude an assignment: they only push `Tiempo_Maximo` up, which shapes the objective. That variable still appears in `Buses.ModeloBuses`, in the variables and in the objective.
- The per-route summary (`resumen_por_ruta`) and the CSV files of `guardar_resultados` are left out, since they are only written to disk.
- The distance table `distancias_df` of the per-bus variant is the parameter `dist`. A pair outside the table reads 0, as in the source.
- NaN is modelled as a missing value only where the source tests for it: the capacity cell (`pd.notna`, procesamiento_datos.py:188), the GTFS short name (`pd.isna`, :107) and the long name (`fillna`, :136). pandas' truthiness of `0`/`""` is modelled by `Capacidades.Verdadero` and `Procesamiento.Presente`. Elsewhere a NaN cell is truthy in Python, and the lines below say what that does.
- `Capacidades.IdPatio` treats an id field as a number or absent. A NaN field is truthy, so it is picked and `str(int(nan))` raises at procesamiento_datos.py:193; that exception is uncaught there, and in the copy (:434, :445) it is caught at :462 and the whole step returns False. Neither is modelled.
- `Procesamiento.CodigoRuta` treats a code field as text or absent. A NaN cod_ruta is truthy, so the source takes it and its base is the text "nan" (procesamiento_datos.py:125-127); the model has no such value.
- `Procesamiento.PorNombre` treats nom_ruta as text or absent. A NaN nom_ruta is truthy, so the source searches the long names for "nan" (procesamiento_datos.py:134); the model has no such value.
- `Procesamiento.ObtenerRutaId` treats route_id and ruta as text or absent. A NaN route_id is truthy and becomes the id in the source (procesamiento_datos_copy.py:357); the model has no such value.
- `Buses.PatiosIdsDe` takes the objectid column as integers. A NaN objectid makes `int(…)` raise at model.py:179, so `calcular_distancias` returns False; `Buses.OptimizadorBusesPatios.CalcularDistancias` does not model that failure.
- PuLP rewrites the characters `-+[] ->/` of constraint names to `_`. Two depot or route ids that differ only in those characters give the same name, and PuLP raises on the duplicate at modelo_optimizacion.py:192, 203 and 222-223. The model keeps constraints as values and does not model that failure.
- The PuLP naming of variables (`Asignacion_('p',_'r')`) is not modelled. `Extraccion` reads values by the `Asignacion(patio, ruta)` variable itself, not by its name. `Buses` parses names through the regular-expression parameter.
- `Procesamiento.AproximacionSoloSinParadaPropia` holds by the definitions alone, so its proof has no steps.
- extraccion_datos.py, matriz_distancia_unique.py, porsiacaso.py and the networkx graph are not part of this model. They are scripts outside the optimisation core.
- `Optimizador.OptimizadorAsignacion.DiagnosticarInfactibilidad` returns its report as a value; the source only prints it.
- `Optimizador.OptimizadorAsignacion.ResolverModelo` models exceptions raised by the solver as a non-optimal status.
- `Optimizador.OptimizadorAsignacion.ResolverConRelajacion` therefore moves on to the next strategy where the source aborts the whole search with the solver's exception, because the solver is a total function here.
- `Optimizador.OptimizadorAsignacion.Cargar` requires that both tables have the same shape (`MatrizHibrida.MatricesMismaForma` proves the tables built by `MatrizHibrida` have it). The source loads any pair of tables and fails later with a missing key when building the time objective or extracting results; that later failure is not modelled.
- `Optimizador.OptimizadorAsignacion.Cargar` records the load failure for cap_total 0 in `cargaCorrecta`. Other load failures (missing files, malformed JSON) are I/O and are not modelled.
- `Util.Strip` and `Util.Lower` follow Python's `str.strip()` whitespace set exactly, but lower-case only ASCII and Latin-1 capitals. Capitals beyond Latin-1 (Greek, Cyrillic, Latin Extended) and the one-to-many case mappings of `str.lower()` are not modelled.
- `Procesamiento.PorNombre` treats the search parameter as total. pandas' `str.contains` reads the route name as a regular expression and raises on a malformed one such as an unbalanced "("; that exception is not caught at procesamiento_datos.py:136 and is not modelled.
- An exception inside `crear_mapeo_rutas`, after the frequencies were stored, is not modelled; that function only iterates the route rows.

## Findings

| source | as written | input that shows it | evidently intended | confidence | as-written member | corrected member |
|---|---|---|---|---|---|---|
| model.py:95-109, 124-130, 150-154 | after a GTFS read failure the except branch only empties the frequency table; the route mapping is never created, so calcular_distancias raises on it and returns False | cargar_gtfs with an unreadable trips file, then calcular_distancias | the failure branch is commented as falling back to default values: the mapping over an empty frequency table, 3 buses per route | high — not executed | Buses.FalloGtfsSinMapeo | Buses.MapeoPorDefectoCorrecto |
| procesamiento_datos.py:24, 99, 118, 160-168 | the depots are projected to EPSG:3116 before distances are taken, the route layer is not; the approximation reads the route's first vertex, in degrees, as a planar point | a route with no matched stop whose first vertex (74.19 W, 4.62 N) is exactly at a depot; with a Manhattan distance and a linear approximation of EPSG:3116, the approximation is over 1900 km | the route's first vertex projected to EPSG:3116 before measuring: 0 km | high — not executed | Procesamiento.FilaMezclaSistemas | Procesamiento.DistanciaMismoSistema |
| procesamiento_datos_copy.py:93-99, 128-143 | every readable depot coordinate is appended, but its id only when the id is present, and ids are then paired with coordinates by position | depot 1 at (1, 0) with no id, then depot "7" at (3, 0), one stop "r" at (0, 0), and a distance oracle summing the coordinate differences (the straight-line distance along that meridian): the table gives 1.56 for ("7", "r"), measured from depot 1's coordinate | each depot measured from its own coordinate, 3.9 for ("7", "r") | medium — not executed | MatrizHibrida.DesalineacionCopia | MatrizHibrida.CopiaCorregidaUsaSuCoordenada |
