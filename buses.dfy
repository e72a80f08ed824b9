/** OptimizadorBusesPatios (model.py): the per-bus formulation. Every route
    needs a number of buses derived from its peak-hour trips; every bus gets
    an id `<ruta>_bus_<k>` and must be parked in exactly one depot; a depot
    holds at most its capacity, and only if it is opened. The solver, the
    GeoJSON/GTFS reading, the centroid distances and the regular-expression
    engine are parameters. */
module Buses {
  import opened Util
  import opened Lp
  import Config

  // ---------------------------------------------------------------------------
  // Buses per route

  /** Buses a route needs: its peak-hour trips over four (two trips per bus and hour, two peak hours), rounded up. */
  function BusesNecesarios(viajes: nat): (b: nat)
    ensures 4 * b >= viajes
    ensures b > 0 ==> 4 * (b - 1) < viajes
  {
    (viajes + 3) / 4
  }

  /** The buses_necesarios column computed from the peak-hour trips per GTFS route. */
  function Frecuencias(viajes: seq<nat>): (f: seq<int>)
    ensures |f| == |viajes|
    ensures forall i :: 0 <= i < |f| ==> f[i] == BusesNecesarios(viajes[i])
  {
    seq(|viajes|, i requires 0 <= i < |viajes| => BusesNecesarios(viajes[i]) as int)
  }

  /** One entry of rutas_con_buses. */
  datatype RutaConBuses = RutaConBuses(rutaId: string, indice: nat, buses: int)

  /** The id given to the route at position idx of the route layer. */
  function RutaGeoId(idx: nat): string {
    "ruta_" + NatToString(idx)
  }

  /** The frequency row with the same position when there is one, 3 otherwise; at least 1. */
  function BusesDeRuta(frecuencias: seq<int>, idx: nat): (b: int)
    ensures b >= 1
    ensures idx >= |frecuencias| ==> b == 3
    ensures idx < |frecuencias| ==> b == if frecuencias[idx] > 1 then frecuencias[idx] else 1
  {
    var b := if idx < |frecuencias| then frecuencias[idx] else 3;
    if b > 1 then b else 1
  }

  /** rutas_con_buses for the first n routes. */
  function Mapeo(frecuencias: seq<int>, n: nat): (rs: seq<RutaConBuses>)
    ensures |rs| == n
    decreases n
  {
    if n == 0 then []
    else Mapeo(frecuencias, n - 1) + [RutaConBuses(RutaGeoId(n - 1), n - 1, BusesDeRuta(frecuencias, n - 1))]
  }

  /** rutas_con_buses once cargar_gtfs has run over numRutas routes: when
      GTFS could be read, the mapping over its frequencies; when it failed,
      nothing, because the failure branch only empties frecuencia_rutas and
      crear_mapeo_rutas is never called. */
  function MapeoCargado(viajes: Option<seq<nat>>, numRutas: nat): (m: Option<seq<RutaConBuses>>)
    ensures m.Some? <==> viajes.Some?
    ensures m.Some? ==> |m.value| == numRutas
  {
    if viajes.Some? then Some(Mapeo(Frecuencias(viajes.value), numRutas)) else None
  }

  /** The mapping the failure branch is meant to leave ("default values when
      GTFS fails"): the mapping over an empty frequency table, which gives
      every route the default of 3 buses. */
  function MapeoPorDefecto(viajes: Option<seq<nat>>, numRutas: nat): (rs: seq<RutaConBuses>)
    ensures |rs| == numRutas
  {
    Mapeo(if viajes.Some? then Frecuencias(viajes.value) else [], numRutas)
  }

  /** The k-th bus id of a route. */
  function BusId(rutaId: string, k: nat): string {
    rutaId + "_bus_" + NatToString(k)
  }

  /** The ids of buses 0 .. n-1 of one route. */
  function IdsBus(rutaId: string, n: int): seq<string>
    decreases n
  {
    if n <= 0 then [] else IdsBus(rutaId, n - 1) + [BusId(rutaId, n - 1)]
  }

  /** rutas_ids_expandidas: the bus ids of every route, in route order. */
  function Expandir(rs: seq<RutaConBuses>): seq<string>
    decreases |rs|
  {
    if rs == [] then []
    else
      var r := rs[|rs| - 1];
      Expandir(rs[..|rs| - 1]) + IdsBus(r.rutaId, r.buses)
  }

  /** The number of buses of a list of routes (range of a negative count is empty). */
  function TotalBuses(rs: seq<RutaConBuses>): nat
    decreases |rs|
  {
    if rs == [] then 0
    else
      var r := rs[|rs| - 1];
      TotalBuses(rs[..|rs| - 1]) + (if r.buses > 0 then r.buses else 0)
  }

  /** patios_ids: `patio_<objectid>` when the layer has that column, `patio_<i>` otherwise. */
  function PatiosIdsDe(objectids: Option<seq<int>>, n: nat): (ps: seq<string>)
    ensures objectids.Some? ==> |ps| == |objectids.value|
    ensures objectids.None? ==> |ps| == n
  {
    match objectids
    case Some(ids) => seq(|ids|, i requires 0 <= i < |ids| => "patio_" + IntToString(ids[i]))
    case None => seq(n, i requires 0 <= i < n => "patio_" + NatToString(i))
  }

  /** capacidades[p] in construir_modelo: the capacity file entry under the
      depot id with every `patio_` removed, or the default. */
  function CapacidadPatio(caps: map<string, int>, p: string): int {
    var id := RemoveAll(p, "patio_");
    if id in caps then caps[id] else Config.CapacidadPatioDefault
  }

  // ---------------------------------------------------------------------------
  // Lemmas about the ids

  /** Every route gets at least one bus, and 3 when it lies beyond the frequency table. */
  lemma {:induction false} MapeoAlMenosUno(frecuencias: seq<int>, n: nat)
    ensures forall k :: 0 <= k < n ==>
                          Mapeo(frecuencias, n)[k] == RutaConBuses(RutaGeoId(k), k, BusesDeRuta(frecuencias, k))
    ensures forall k :: 0 <= k < n ==> Mapeo(frecuencias, n)[k].buses >= 1
    ensures forall k :: |frecuencias| <= k < n ==> Mapeo(frecuencias, n)[k].buses == 3
    decreases n
  {
    if n > 0 {
      MapeoAlMenosUno(frecuencias, n - 1);
    }
  }

  /** Without frequencies every route contributes 3 buses. */
  lemma {:induction false} TotalMapeoSinFrecuencias(n: nat)
    ensures TotalBuses(Mapeo([], n)) == 3 * n
    decreases n
  {
    if n > 0 {
      TotalMapeoSinFrecuencias(n - 1);
      assert Mapeo([], n)[..n - 1] == Mapeo([], n - 1);
    }
  }

  /** As written, a GTFS failure leaves no route mapping, so the distance step
      that follows has no buses to expand; with the intended default mapping
      the same load gives 3 buses to every one of the routes. */
  lemma FalloGtfsSinMapeo(numRutas: nat)
    requires numRutas > 0
    ensures MapeoCargado(None, numRutas) == None
    ensures |Expandir(MapeoPorDefecto(None, numRutas))| == 3 * numRutas
  {
    TotalMapeoSinFrecuencias(numRutas);
    LongitudExpansion(MapeoPorDefecto(None, numRutas));
  }

  /** The default mapping agrees with the loaded one whenever GTFS was read,
      gives every route its own id and at least one bus, and 3 buses to every
      route when GTFS failed. */
  lemma MapeoPorDefectoCorrecto(viajes: Option<seq<nat>>, numRutas: nat)
    ensures viajes.Some? ==> MapeoCargado(viajes, numRutas) == Some(MapeoPorDefecto(viajes, numRutas))
    ensures forall k :: 0 <= k < numRutas ==>
              MapeoPorDefecto(viajes, numRutas)[k].rutaId == RutaGeoId(k) && MapeoPorDefecto(viajes, numRutas)[k].buses >= 1
    ensures viajes.None? ==> forall k :: 0 <= k < numRutas ==> MapeoPorDefecto(viajes, numRutas)[k].buses == 3
  {
    MapeoAlMenosUno(if viajes.Some? then Frecuencias(viajes.value) else [], numRutas);
  }

  lemma {:induction false} LongitudIdsBus(rutaId: string, n: int)
    ensures |IdsBus(rutaId, n)| == if n > 0 then n else 0
    ensures forall k :: 0 <= k < |IdsBus(rutaId, n)| ==> IdsBus(rutaId, n)[k] == BusId(rutaId, k)
    decreases n
  {
    if n > 0 {
      LongitudIdsBus(rutaId, n - 1);
    }
  }

  /** The expanded list has one id per bus. */
  lemma {:induction false} LongitudExpansion(rs: seq<RutaConBuses>)
    ensures |Expandir(rs)| == TotalBuses(rs)
    decreases |rs|
  {
    if rs != [] {
      var r := rs[|rs| - 1];
      LongitudExpansion(rs[..|rs| - 1]);
      LongitudIdsBus(r.rutaId, r.buses);
    }
  }

  /** An id is in the expanded list exactly when it is the k-th bus of a
      listed route, for some k below that route's bus count. */
  lemma {:induction false} ExpandidoSii(rs: seq<RutaConBuses>, id: string)
    ensures id in Expandir(rs) <==>
            exists r, k: nat :: r in rs && k < r.buses && id == BusId(r.rutaId, k)
    decreases |rs|
  {
    if rs != [] {
      var n := |rs| - 1;
      var r := rs[n];
      ExpandidoSii(rs[..n], id);
      LongitudIdsBus(r.rutaId, r.buses);
      assert rs == rs[..n] + [r];
      if exists k: nat :: k < r.buses && id == BusId(r.rutaId, k) {
        var k: nat :| k < r.buses && id == BusId(r.rutaId, k);
        assert IdsBus(r.rutaId, r.buses)[k] == id;
      }
      if id in IdsBus(r.rutaId, r.buses) {
        var k :| 0 <= k < |IdsBus(r.rutaId, r.buses)| && IdsBus(r.rutaId, r.buses)[k] == id;
        assert k < r.buses && id == BusId(r.rutaId, k);
      }
    }
  }

  /** `bus_id.split('_bus_')`: the original route, and the bus number ("0" when there is no `_bus_`). */
  function DividirBusId(busId: string): (string, string) {
    (SplitHead(busId, "_bus_"), if Contains(busId, "_bus_") then SplitSecond(busId, "_bus_") else "0")
  }

  /** Splitting the id of bus k of route idx gives back the route id and k. */
  lemma DividirRecupera(idx: nat, k: nat)
    ensures DividirBusId(BusId(RutaGeoId(idx), k)) == (RutaGeoId(idx), NatToString(k))
  {
    var a := RutaGeoId(idx);
    var d := NatToString(k);
    var s := BusId(a, k);
    var sep := "_bus_";
    assert s == a + sep + d;
    assert |a| >= 6;
    forall i | 0 <= i < |a|
      ensures !OccursAt(s, sep, i)
    {
      if i + 5 <= |s| {
        var w := s[i..i + 5];
        assert w[0] == s[i] && w[1] == s[i + 1];
        if i == 4 {
          assert s[i + 1] == NatToString(idx)[0];
          assert w[1] != sep[1];
        } else if i < 4 {
          assert s[i] == "ruta"[i];
          assert w[0] != sep[0];
        } else {
          assert s[i] == NatToString(idx)[i - 5];
          assert w[0] != sep[0];
        }
      }
    }
    assert OccursAt(s, sep, |a|);
    forall i | |a| + 5 <= i
      ensures !OccursAt(s, sep, i)
    {
      if i + 5 <= |s| {
        var w := s[i..i + 5];
        assert w[0] == s[i] == d[i - |a| - 5];
        assert w[0] != sep[0];
      }
    }
    var f := FindFrom(s, sep, 0);
    assert f == Some(|a|);
    assert Contains(s, sep);
    assert FindFrom(s, sep, |a| + 5) == None;
    assert s[..|a|] == a;
    assert s[|a| + 5..] == d;
  }

  /** A string without the letter p is left alone by removing `patio_`. */
  lemma {:induction false} RemoveAllSinP(t: string)
    requires 'p' !in t
    ensures RemoveAll(t, "patio_") == t
    decreases |t|
  {
    if |t| >= 6 {
      assert t[0] != 'p';
      RemoveAllSinP(t[1..]);
      assert t == [t[0]] + t[1..];
    }
  }

  /** A depot id built from an object id finds the capacity the capacity file
      stored under that id printed in decimal. */
  lemma CapacidadDelArchivo(caps: map<string, int>, objectid: int)
    ensures var clave := IntToString(objectid);
            CapacidadPatio(caps, "patio_" + clave) ==
              if clave in caps then caps[clave] else Config.CapacidadPatioDefault
  {
    var clave := IntToString(objectid);
    var p := "patio_" + clave;
    assert p[..6] == "patio_" && p[6..] == clave;
    assert 'p' !in clave by {
      forall i | 0 <= i < |clave|
        ensures clave[i] != 'p'
      {
        if objectid < 0 && i > 0 {
          assert clave[i] == NatToString(-objectid)[i - 1];
        }
      }
    }
    RemoveAllSinP(clave);
  }

  // ---------------------------------------------------------------------------
  // The model of construir_modelo

  /** The sum of the variables xs: every variable with coefficient 1. */
  function Terminos(xs: seq<Var>): (ts: seq<Termino>)
    ensures |ts| == |xs|
    decreases |xs|
  {
    if xs == [] then [] else Terminos(xs[..|xs| - 1]) + [(xs[|xs| - 1], 1.0)]
  }

  /** How many of the variables are 1. */
  function Cuenta(v: Valores, xs: seq<Var>): nat
    decreases |xs|
  {
    if xs == [] then 0
    else Cuenta(v, xs[..|xs| - 1]) + (if Val(v, xs[|xs| - 1]) == 1.0 then 1 else 0)
  }

  /** x[b, p] for every depot p. */
  function VarsBus(b: string, patios: seq<string>): seq<Var> {
    seq(|patios|, i requires 0 <= i < |patios| => Asignacion(patios[i], b))
  }

  /** x[b, p] for every bus b. */
  function VarsPatio(p: string, buses: seq<string>): seq<Var> {
    seq(|buses|, i requires 0 <= i < |buses| => Asignacion(p, buses[i]))
  }

  /** Asignacion_unica_<b>: the bus is in exactly one depot. */
  function Unica(b: string, patios: seq<string>): Restriccion {
    Restriccion(AsignacionUnica(b), Terminos(VarsBus(b, patios)), Igual, 1.0)
  }

  /** Capacidad_<p>: sum of x[b, p] <= capacidad * y[p], with y moved to the left. */
  function Cap(p: string, buses: seq<string>, capacidad: int): Restriccion {
    Restriccion(Capacidad(p), Terminos(VarsPatio(p, buses)) + [(PatioUtilizado(p), -(capacidad as real))], MenorIgual, 0.0)
  }

  function Unicas(buses: seq<string>, patios: seq<string>): seq<Restriccion>
    decreases |buses|
  {
    if buses == [] then [] else Unicas(buses[..|buses| - 1], patios) + [Unica(buses[|buses| - 1], patios)]
  }

  function Caps(patios: seq<string>, buses: seq<string>, caps: map<string, int>): seq<Restriccion>
    decreases |patios|
  {
    if patios == [] then []
    else
      var p := patios[|patios| - 1];
      Caps(patios[..|patios| - 1], buses, caps) + [Cap(p, buses, CapacidadPatio(caps, p))]
  }

  /** The travel-cost part of the objective: 2500 $/km, both ways, per bus and depot. */
  function CostoDesplazamiento(buses: seq<string>, patios: seq<string>, dist: (string, string) -> real): seq<Termino>
    decreases |buses|
  {
    if buses == [] then []
    else
      var b := buses[|buses| - 1];
      CostoDesplazamiento(buses[..|buses| - 1], patios, dist) +
        seq(|patios|, i requires 0 <= i < |patios| => (Asignacion(patios[i], b), dist(b, patios[i]) * 2500.0 * 2.0))
  }

  /** The fixed cost of 1 000 000 per opened depot. */
  function CostoPatios(patios: seq<string>): seq<Termino> {
    seq(|patios|, i requires 0 <= i < |patios| => (PatioUtilizado(patios[i]), 1000000.0))
  }

  /** The model as built, without the big-M time bound. */
  function ModeloBuses(buses: seq<string>, patios: seq<string>, caps: map<string, int>, dist: (string, string) -> real): Modelo {
    Modelo((set b, p | b in buses && p in patios :: Asignacion(p, b)) + (set p | p in patios :: PatioUtilizado(p)) + {TiempoMaximo},
           CostoDesplazamiento(buses, patios, dist) + CostoPatios(patios) + [(TiempoMaximo, 500000.0)],
           Unicas(buses, patios) + Caps(patios, buses, caps))
  }

  /** With 0/1 values, a sum of unit terms counts the variables that are 1. */
  lemma {:induction false} LhsCuenta(xs: seq<Var>, v: Valores)
    requires Binario(v)
    requires forall x :: x in xs ==> !x.TiempoMaximo?
    ensures Lhs(Terminos(xs), v) == Cuenta(v, xs) as real
    decreases |xs|
  {
    if xs != [] {
      var n := |xs| - 1;
      var ts := Terminos(xs);
      assert forall x :: x in xs[..n] ==> x in xs;
      LhsCuenta(xs[..n], v);
      assert ts[..n] == Terminos(xs[..n]);
      assert Val(v, xs[n]) == 0.0 || Val(v, xs[n]) == 1.0;
    }
  }

  /** With 0/1 values, a count of zero means every variable is 0. */
  lemma {:induction false} CuentaCero(xs: seq<Var>, v: Valores)
    requires Binario(v)
    requires forall x :: x in xs ==> !x.TiempoMaximo?
    requires Cuenta(v, xs) == 0
    ensures forall x :: x in xs ==> Val(v, x) == 0.0
    decreases |xs|
  {
    if xs != [] {
      var n := |xs| - 1;
      assert forall x :: x in xs[..n] ==> x in xs;
      CuentaCero(xs[..n], v);
      assert xs == xs[..n] + [xs[n]];
    }
  }

  lemma LhsSnoc(ts: seq<Termino>, t: Termino, v: Valores)
    ensures Lhs(ts + [t], v) == Lhs(ts, v) + t.1 * Val(v, t.0)
  {
    assert (ts + [t])[..|ts|] == ts;
  }

  /** A bus's constraint holds exactly when it has exactly one depot. */
  lemma UnicaSii(b: string, patios: seq<string>, v: Valores)
    requires Binario(v)
    ensures Cumple(Unica(b, patios), v) <==> Cuenta(v, VarsBus(b, patios)) == 1
  {
    LhsCuenta(VarsBus(b, patios), v);
  }

  /** A depot's constraint holds exactly when its load is at most its capacity times y[p]. */
  lemma CapSii(p: string, buses: seq<string>, capacidad: int, v: Valores)
    requires Binario(v)
    ensures Cumple(Cap(p, buses, capacidad), v) <==>
            Cuenta(v, VarsPatio(p, buses)) as real <= capacidad as real * Val(v, PatioUtilizado(p))
  {
    var xs := VarsPatio(p, buses);
    assert forall x :: x in xs ==> !x.TiempoMaximo?;
    LhsMenosCapacidad(xs, PatioUtilizado(p), capacidad as real, v);
  }

  /** Moving capacity times y to the left: the sum of the 0/1 variables xs minus c * y. */
  lemma LhsMenosCapacidad(xs: seq<Var>, y: Var, c: real, v: Valores)
    requires Binario(v)
    requires forall x :: x in xs ==> !x.TiempoMaximo?
    ensures Lhs(Terminos(xs) + [(y, -c)], v) == Cuenta(v, xs) as real - c * Val(v, y)
  {
    LhsCuenta(xs, v);
    LhsSnoc(Terminos(xs), (y, -c), v);
    assert -c * Val(v, y) == -(c * Val(v, y));
  }

  /** A depot that is not opened receives no bus. */
  lemma PatioCerradoSinBuses(p: string, buses: seq<string>, capacidad: int, v: Valores)
    requires Binario(v)
    requires Cumple(Cap(p, buses, capacidad), v)
    requires Val(v, PatioUtilizado(p)) == 0.0
    ensures forall b :: b in buses ==> Val(v, Asignacion(p, b)) == 0.0
  {
    var xs := VarsPatio(p, buses);
    CapSii(p, buses, capacidad, v);
    CuentaCero(xs, v);
    forall b | b in buses
      ensures Asignacion(p, b) in xs
    {
      var i :| 0 <= i < |buses| && buses[i] == b;
      assert xs[i] == Asignacion(p, b);
    }
  }

  lemma {:induction false} UnicasSii(buses: seq<string>, patios: seq<string>, v: Valores)
    ensures CumpleTodas(Unicas(buses, patios), v) <==> forall b :: b in buses ==> Cumple(Unica(b, patios), v)
    decreases |buses|
  {
    if buses != [] {
      var n := |buses| - 1;
      UnicasSii(buses[..n], patios, v);
      CumpleTodasConcat(Unicas(buses[..n], patios), [Unica(buses[n], patios)], v);
      assert buses == buses[..n] + [buses[n]];
    }
  }

  lemma {:induction false} CapsSii(patios: seq<string>, buses: seq<string>, caps: map<string, int>, v: Valores)
    ensures CumpleTodas(Caps(patios, buses, caps), v) <==>
            forall p :: p in patios ==> Cumple(Cap(p, buses, CapacidadPatio(caps, p)), v)
    decreases |patios|
  {
    if patios != [] {
      var n := |patios| - 1;
      var p := patios[n];
      CapsSii(patios[..n], buses, caps, v);
      CumpleTodasConcat(Caps(patios[..n], buses, caps), [Cap(p, buses, CapacidadPatio(caps, p))], v);
      assert patios == patios[..n] + [p];
    }
  }

  /** With 0/1 values, the model holds exactly when every bus has exactly one
      depot and every depot's load is at most its looked-up capacity times y[p]. */
  lemma SatisfaceSii(buses: seq<string>, patios: seq<string>, caps: map<string, int>,
                     dist: (string, string) -> real, v: Valores)
    requires Binario(v)
    ensures Satisface(ModeloBuses(buses, patios, caps, dist), v) <==>
            (forall b :: b in buses ==> Cuenta(v, VarsBus(b, patios)) == 1) &&
            (forall p :: p in patios ==>
               Cuenta(v, VarsPatio(p, buses)) as real <= CapacidadPatio(caps, p) as real * Val(v, PatioUtilizado(p)))
  {
    CumpleTodasConcat(Unicas(buses, patios), Caps(patios, buses, caps), v);
    UnicasSii(buses, patios, v);
    CapsSii(patios, buses, caps, v);
    forall b | b in buses
      ensures Cumple(Unica(b, patios), v) <==> Cuenta(v, VarsBus(b, patios)) == 1
    {
      UnicaSii(b, patios, v);
    }
    forall p | p in patios
      ensures Cumple(Cap(p, buses, CapacidadPatio(caps, p)), v) <==>
              Cuenta(v, VarsPatio(p, buses)) as real <= CapacidadPatio(caps, p) as real * Val(v, PatioUtilizado(p))
    {
      CapSii(p, buses, CapacidadPatio(caps, p), v);
    }
  }

  // ---------------------------------------------------------------------------
  // Reading the solution

  /** The first of the four patterns (tried in order) that matches with at
      least two groups decides; `busca(k, nombre)` is re.search with pattern k. */
  function Parseo(nombre: string, busca: (nat, string) -> Option<seq<string>>, k: nat): Option<(string, string)>
    decreases 4 - k
  {
    if k >= 4 then None
    else
      var m := busca(k, nombre);
      if m.Some? && |m.value| >= 2 then
        var g := m.value;
        Some((if |g| > 2 then g[0] + "_bus_" + g[1] else g[0], "patio_" + g[|g| - 1]))
      else Parseo(nombre, busca, k + 1)
  }

  /** Pattern k matches the name with at least two groups. */
  predicate Coincide(nombre: string, busca: (nat, string) -> Option<seq<string>>, k: nat) {
    busca(k, nombre).Some? && |busca(k, nombre).value| >= 2
  }

  /** parsear_nombre_variable */
  method ParsearNombreVariable(nombre: string, busca: (nat, string) -> Option<seq<string>>)
    returns (r: Option<(string, string)>)
    ensures r == Parseo(nombre, busca, 0)
  {
    for k := 0 to 4
      invariant Parseo(nombre, busca, 0) == Parseo(nombre, busca, k)
    {
      var m := busca(k, nombre);
      if m.Some? && |m.value| >= 2 {
        var g := m.value;
        var busId := if |g| > 2 then g[0] + "_bus_" + g[1] else g[0];
        var patioId := "patio_" + g[|g| - 1];
        return Some((busId, patioId));
      }
    }
    return None;
  }

  /** A parsed depot id always starts with `patio_`; nothing is returned
      exactly when no remaining pattern matches; and the pattern used is the
      first that matches. */
  lemma {:induction false} ParseoCorrecto(nombre: string, busca: (nat, string) -> Option<seq<string>>, k: nat)
    ensures Parseo(nombre, busca, k).Some? ==> StartsWith(Parseo(nombre, busca, k).value.1, "patio_")
    ensures Parseo(nombre, busca, k).None? <==> forall j :: k <= j < 4 ==> !Coincide(nombre, busca, j)
    ensures Parseo(nombre, busca, k).Some? ==>
            exists j :: k <= j < 4 && Coincide(nombre, busca, j) &&
                        (forall i :: k <= i < j ==> !Coincide(nombre, busca, i)) &&
                        Parseo(nombre, busca, k).value.1 == "patio_" + busca(j, nombre).value[|busca(j, nombre).value| - 1]
    decreases 4 - k
  {
    if k < 4 && !Coincide(nombre, busca, k) {
      ParseoCorrecto(nombre, busca, k + 1);
    }
  }

  /** Python truthiness of a string. */
  predicate NoVacio(s: string) {
    s != ""
  }

  /** The variables the statistics count: assignment variables at 1 whose name parses. */
  predicate Contada(var_: (string, real), busca: (nat, string) -> Option<seq<string>>) {
    var p := Parseo(var_.0, busca, 0);
    StartsWith(var_.0, "Asignacion") && var_.1 == 1.0 && p.Some? && NoVacio(p.value.0) && NoVacio(p.value.1)
  }

  /** asignaciones_por_patio and buses_por_ruta_original after the loop. */
  function Conteos(vars: seq<(string, real)>, busca: (nat, string) -> Option<seq<string>>): (map<string, int>, map<string, int>)
    decreases |vars|
  {
    if vars == [] then (map[], map[])
    else
      var x := vars[|vars| - 1];
      var (porPatio, porRuta) := Conteos(vars[..|vars| - 1], busca);
      if Contada(x, busca) then
        var (busId, patioId) := Parseo(x.0, busca, 0).value;
        var ruta := SplitHead(busId, "_bus_");
        (porPatio[patioId := (if patioId in porPatio then porPatio[patioId] else 0) + 1],
         porRuta[ruta := (if ruta in porRuta then porRuta[ruta] else 0) + 1])
      else (porPatio, porRuta)
  }

  /** The number of counted variables. */
  function NumContadas(vars: seq<(string, real)>, busca: (nat, string) -> Option<seq<string>>): nat
    decreases |vars|
  {
    if vars == [] then 0
    else NumContadas(vars[..|vars| - 1], busca) + (if Contada(vars[|vars| - 1], busca) then 1 else 0)
  }

  /** Both tallies add up to the number of counted variables. */
  lemma {:induction false} ConteosSuman(vars: seq<(string, real)>, busca: (nat, string) -> Option<seq<string>>)
    ensures SumValues(Conteos(vars, busca).0) == NumContadas(vars, busca)
    ensures SumValues(Conteos(vars, busca).1) == NumContadas(vars, busca)
    decreases |vars|
  {
    if vars != [] {
      var n := |vars| - 1;
      var x := vars[n];
      ConteosSuman(vars[..n], busca);
      if Contada(x, busca) {
        var (porPatio, porRuta) := Conteos(vars[..n], busca);
        var (busId, patioId) := Parseo(x.0, busca, 0).value;
        SumValuesIncrement(porPatio, patioId);
        SumValuesIncrement(porRuta, SplitHead(busId, "_bus_"));
      }
    }
  }

  /** One row of asignaciones_detalladas. */
  datatype Detalle = Detalle(rutaOriginal: string, busId: string, busNum: string, patioId: string,
                             distanciaKm: real, tiempoMinutos: real)

  // ---------------------------------------------------------------------------

  class OptimizadorBusesPatios {
    /** buses_necesarios per row of frecuencia_rutas (empty when GTFS could not be read). */
    var frecuencias: seq<int>
    /** The "capacidades" entry of the capacity file. */
    var capacidades: map<string, int>
    /** rutas_con_buses; None while the attribute has never been created. */
    var rutasConBuses: Option<seq<RutaConBuses>>
    var rutasIdsExpandidas: seq<string>
    var patiosIds: seq<string>
    var modelo: Option<Modelo>

    /** cargar_datos_procesados with cargar_gtfs over the numRutas rows of the
        route layer: the capacity file and the peak-hour trips per GTFS route
        (None when reading GTFS failed). Only a successful GTFS load builds
        the route mapping. */
    constructor Cargar(caps: map<string, int>, viajes: Option<seq<nat>>, numRutas: nat)
      ensures capacidades == caps
      ensures frecuencias == if viajes.Some? then Frecuencias(viajes.value) else []
      ensures rutasConBuses == MapeoCargado(viajes, numRutas)
      ensures rutasIdsExpandidas == [] && patiosIds == [] && modelo == None
    {
      capacidades := caps;
      frecuencias := if viajes.Some? then Frecuencias(viajes.value) else [];
      rutasConBuses := None;
      rutasIdsExpandidas := [];
      patiosIds := [];
      modelo := None;
      new;
      if viajes.Some? {
        CrearMapeoRutas(numRutas);
      }
    }

    /** crear_mapeo_rutas over the numRutas rows of the route layer. */
    method CrearMapeoRutas(numRutas: nat)
      modifies this`rutasConBuses
      ensures rutasConBuses == Some(Mapeo(frecuencias, numRutas))
    {
      var rs: seq<RutaConBuses> := [];
      for idx := 0 to numRutas
        invariant rs == Mapeo(frecuencias, idx)
      {
        var rutaId := "ruta_" + NatToString(idx);
        var busesNecesarios := if idx < |frecuencias| then frecuencias[idx] else 3;
        rs := rs + [RutaConBuses(rutaId, idx, if 1 > busesNecesarios then 1 else busesNecesarios)];
      }
      rutasConBuses := Some(rs);
    }

    /** The id bookkeeping of calcular_distancias: one id per bus, route by
        route, and one id per depot (numPatios is the number of depot rows,
        objectids their objectid column when the layer has one). The step
        fails without a route mapping (the loop over it raises after
        rutas_ids_expandidas has been emptied), and also when there is no
        bus or no depot, because the distance computation rejects an empty
        coordinate list; it fails before the depot ids are stored. */
    method CalcularDistancias(objectids: Option<seq<int>>, numPatios: nat) returns (ok: bool)
      requires objectids.Some? ==> |objectids.value| == numPatios
      modifies this`rutasIdsExpandidas, this`patiosIds
      ensures rutasConBuses.None? ==> rutasIdsExpandidas == []
      ensures rutasConBuses.Some? ==> rutasIdsExpandidas == Expandir(rutasConBuses.value)
      ensures ok <==> rutasConBuses.Some? && rutasIdsExpandidas != [] && numPatios > 0
      ensures ok ==> patiosIds == PatiosIdsDe(objectids, numPatios)
      ensures !ok ==> patiosIds == old(patiosIds)
    {
      rutasIdsExpandidas := [];
      if rutasConBuses.None? {
        return false;
      }
      rutasIdsExpandidas := ExpandirIds(rutasConBuses.value);
      var ids := PatiosIdsDe(objectids, numPatios);
      if |rutasIdsExpandidas| == 0 || |ids| == 0 {
        return false;
      }
      patiosIds := ids;
      ok := true;
    }

    /** construir_modelo: looks up every depot's capacity and builds the model. */
    method ConstruirModelo(dist: (string, string) -> real)
      modifies this
      ensures modelo == Some(ModeloBuses(rutasIdsExpandidas, patiosIds, capacidades, dist))
      ensures frecuencias == old(frecuencias) && capacidades == old(capacidades)
      ensures rutasConBuses == old(rutasConBuses) && rutasIdsExpandidas == old(rutasIdsExpandidas)
      ensures patiosIds == old(patiosIds)
    {
      var buses := rutasIdsExpandidas;
      var patios := patiosIds;
      var unicas := EmitirUnicas(buses, patios);
      var topes := EmitirCaps(patios, buses, capacidades);
      var m := ModeloBuses(buses, patios, capacidades, dist);
      assert m.restricciones == unicas + topes;
      modelo := Some(m);
    }

    /** mostrar_estadisticas: with an optimal solution, the number of buses
        per depot and per original route; nothing otherwise. */
    method MostrarEstadisticas(estado: Estado, vars: seq<(string, real)>, busca: (nat, string) -> Option<seq<string>>)
      returns (porPatio: map<string, int>, porRuta: map<string, int>)
      ensures estado != Optimo ==> porPatio == map[] && porRuta == map[]
      ensures estado == Optimo ==> (porPatio, porRuta) == Conteos(vars, busca)
    {
      porPatio, porRuta := map[], map[];
      if estado != Optimo {
        return;
      }
      for i := 0 to |vars|
        invariant (porPatio, porRuta) == Conteos(vars[..i], busca)
      {
        assert vars[..i + 1][..i] == vars[..i];
        var (nombre, valor) := vars[i];
        if StartsWith(nombre, "Asignacion") && valor == 1.0 {
          var parsed := ParsearNombreVariable(nombre, busca);
          if parsed.Some? && NoVacio(parsed.value.0) && NoVacio(parsed.value.1) {
            var (busId, patioId) := parsed.value;
            porPatio := porPatio[patioId := (if patioId in porPatio then porPatio[patioId] else 0) + 1];
            var rutaOriginal := SplitHead(busId, "_bus_");
            porRuta := porRuta[rutaOriginal := (if rutaOriginal in porRuta then porRuta[rutaOriginal] else 0) + 1];
          }
        }
      }
      assert vars[..|vars|] == vars;
    }

    /** The detail rows of guardar_resultados: each assignment at 1 split into
        route and bus number, with its distance (0 for an unknown pair) and
        its time at the average speed. */
    method GuardarResultados(vars: seq<(string, real)>, busca: (nat, string) -> Option<seq<string>>,
                             dist: (string, string) -> real)
      returns (detalles: seq<Detalle>)
      ensures detalles == Detalles(vars, busca, rutasIdsExpandidas, patiosIds, dist)
    {
      detalles := [];
      for i := 0 to |vars|
        invariant detalles == Detalles(vars[..i], busca, rutasIdsExpandidas, patiosIds, dist)
      {
        assert vars[..i + 1][..i] == vars[..i];
        var fila := DetalleDeVariable(vars[i], busca, rutasIdsExpandidas, patiosIds, dist);
        if fila.Some? {
          detalles := detalles + [fila.value];
        }
      }
      assert vars[..|vars|] == vars;
    }
  }

  /** The expansion loops of calcular_distancias. */
  method ExpandirIds(rs: seq<RutaConBuses>) returns (ids: seq<string>)
    ensures ids == Expandir(rs)
  {
    ids := [];
    for i := 0 to |rs|
      invariant ids == Expandir(rs[..i])
    {
      assert rs[..i + 1][..i] == rs[..i];
      var r := rs[i];
      ghost var antes := ids;
      var n := if r.buses > 0 then r.buses else 0;
      for k := 0 to n
        invariant ids == antes + IdsBus(r.rutaId, k)
      {
        ids := ids + [r.rutaId + "_bus_" + NatToString(k)];
      }
    }
    assert rs[..|rs|] == rs;
  }

  /** Constraint family 1 of construir_modelo, one bus at a time. */
  method EmitirUnicas(buses: seq<string>, patios: seq<string>) returns (unicas: seq<Restriccion>)
    ensures unicas == Unicas(buses, patios)
  {
    unicas := [];
    for i := 0 to |buses|
      invariant unicas == Unicas(buses[..i], patios)
    {
      assert buses[..i + 1][..i] == buses[..i];
      unicas := unicas + [Unica(buses[i], patios)];
    }
    assert buses[..|buses|] == buses;
  }

  /** Constraint family 2 of construir_modelo, one depot at a time, with the
      capacity dictionary built beforehand. */
  method EmitirCaps(patios: seq<string>, buses: seq<string>, caps: map<string, int>) returns (topes: seq<Restriccion>)
    ensures topes == Caps(patios, buses, caps)
  {
    var capsModelo := CapacidadesModelo(caps, patios);
    topes := [];
    for j := 0 to |patios|
      invariant topes == Caps(patios[..j], buses, caps)
    {
      assert patios[..j + 1][..j] == patios[..j];
      var p := patios[j];
      topes := topes + [Cap(p, buses, capsModelo[p])];
    }
    assert patios[..|patios|] == patios;
  }

  /** The detail row of one variable, if it is an assignment at 1 whose name parses. */
  function FilaDetalle(x: (string, real), busca: (nat, string) -> Option<seq<string>>,
                       buses: seq<string>, patios: seq<string>, dist: (string, string) -> real): Option<Detalle>
  {
    if Contada(x, busca) then
      var (busId, patioId) := Parseo(x.0, busca, 0).value;
      var (ruta, num) := DividirBusId(busId);
      var d := if busId in buses && patioId in patios then dist(busId, patioId) else 0.0;
      Some(Detalle(ruta, busId, num, patioId, d, d / Config.VelocidadPromedio * 60.0))
    else None
  }

  /** The body of guardar_resultados's loop for one variable. It parses the
      name with the scanning method ParsearNombreVariable, so it is a method;
      FilaDetalle is the same row stated with the parsing function Parseo. */
  method DetalleDeVariable(x: (string, real), busca: (nat, string) -> Option<seq<string>>,
                           buses: seq<string>, patios: seq<string>, dist: (string, string) -> real)
    returns (r: Option<Detalle>)
    ensures r == FilaDetalle(x, busca, buses, patios, dist)
  {
    var (nombre, valor) := x;
    if StartsWith(nombre, "Asignacion") && valor == 1.0 {
      var parsed := ParsearNombreVariable(nombre, busca);
      if parsed.Some? && NoVacio(parsed.value.0) && NoVacio(parsed.value.1) {
        var (busId, patioId) := parsed.value;
        var (rutaOriginal, busNum) := DividirBusId(busId);
        var distancia := if busId in buses && patioId in patios then dist(busId, patioId) else 0.0;
        return Some(Detalle(rutaOriginal, busId, busNum, patioId, distancia,
                            distancia / Config.VelocidadPromedio * 60.0));
      }
    }
    return None;
  }

  /** The capacity dictionary of construir_modelo. */
  function CapacidadesModelo(caps: map<string, int>, patios: seq<string>): (m: map<string, int>)
    ensures m.Keys == set p | p in patios
    ensures forall p :: p in m ==> m[p] == CapacidadPatio(caps, p)
  {
    map p | p in patios :: CapacidadPatio(caps, p)
  }

  /** resultados_detallados after the loop over the solver's variables. */
  function Detalles(vars: seq<(string, real)>, busca: (nat, string) -> Option<seq<string>>,
                    buses: seq<string>, patios: seq<string>, dist: (string, string) -> real): seq<Detalle>
    decreases |vars|
  {
    if vars == [] then []
    else
      var x := vars[|vars| - 1];
      var previos := Detalles(vars[..|vars| - 1], busca, buses, patios, dist);
      var fila := FilaDetalle(x, busca, buses, patios, dist);
      if fila.Some? then previos + [fila.value] else previos
  }

  /** One detail row per counted variable, each with a `patio_` depot and a
      time three times its distance (20 km/h). */
  lemma {:induction false} DetallesCorrectos(vars: seq<(string, real)>, busca: (nat, string) -> Option<seq<string>>,
                                             buses: seq<string>, patios: seq<string>, dist: (string, string) -> real)
    ensures |Detalles(vars, busca, buses, patios, dist)| == NumContadas(vars, busca)
    ensures forall d :: d in Detalles(vars, busca, buses, patios, dist) ==>
              StartsWith(d.patioId, "patio_") && d.tiempoMinutos == 3.0 * d.distanciaKm
    decreases |vars|
  {
    if vars != [] {
      var n := |vars| - 1;
      DetallesCorrectos(vars[..n], busca, buses, patios, dist);
      ParseoCorrecto(vars[n].0, busca, 0);
    }
  }
}
