/** The data preparation that feeds the optimizer (procesamiento_datos.py and
    procesamiento_datos_copy.py): which id a route is known by, how a
    route of the city's route layer is matched to GTFS first stops (by its
    route code, then by its name, then by its id), the depot x route distance
    table that results, and the distance buckets reported about it. Planar
    distances between projected points, and the projection of geographic
    coordinates to the planar system (EPSG:3116), are function parameters. */
module Procesamiento {
  import opened Util

  type PatioId = string
  type RutaId = string
  type Matriz = map<PatioId, map<RutaId, real>>

  /** A projected point, in metres. */
  datatype Punto = Punto(x: real, y: real)

  /** Planar distance in metres between two projected points. */
  type Distancia = (Punto, Punto) -> real

  /** Geographic coordinates in degrees, as the layers are read from GeoJSON. */
  datatype Grados = Grados(lon: real, lat: real)

  /** The projection of geographic coordinates to the planar system. */
  type Proyeccion = Grados -> Punto

  /** Python truthiness of an optional text field: None and "" are false. */
  predicate Presente(x: Option<string>) {
    x.Some? && x.value != ""
  }

  // ---------------------------------------------------------------------------
  // _obtener_ruta_id

  /** `route_id or ruta or f"ruta_{name}"`, with `name` the row's index label. */
  function ObtenerRutaId(routeId: Option<string>, ruta: Option<string>, nombre: nat): (r: string)
    ensures r != ""
    ensures Presente(routeId) ==> r == routeId.value
    ensures !Presente(routeId) && Presente(ruta) ==> r == ruta.value
    ensures !Presente(routeId) && !Presente(ruta) ==> StartsWith(r, "ruta_")
  {
    if Presente(routeId) then routeId.value
    else if Presente(ruta) then ruta.value
    else "ruta_" + NatToString(nombre)
  }

  /** Two rows that carry neither field get different ids. */
  lemma RutaIdRespaldoInyectivo(a: nat, b: nat)
    requires ObtenerRutaId(None, None, a) == ObtenerRutaId(None, None, b)
    ensures a == b
  {
    var sa, sb := "ruta_" + NatToString(a), "ruta_" + NatToString(b);
    assert NatToString(a) == sa[5..] == sb[5..] == NatToString(b);
    NatToStringInjective(a, b);
  }

  // ---------------------------------------------------------------------------
  // GTFS first stops and the short-name index

  /** A GTFS first stop: its route, the route's short and long names (None
      for NaN) and its projected position. */
  datatype Parada = Parada(routeId: RutaId, shortName: Option<string>, longName: Option<string>, pos: Punto)

  /** gtfs_short_to_ids after the loop: each stripped short name maps to the
      set of route ids listed with it; rows with a NaN name are skipped. */
  function Indice(paradas: seq<Parada>): map<string, set<RutaId>>
    decreases |paradas|
  {
    if paradas == [] then map[]
    else Agregar(Indice(paradas[..|paradas| - 1]), paradas[|paradas| - 1])
  }

  /** `setdefault(str(short).strip(), set()).add(route_id)` for one stop. */
  function Agregar(indice: map<string, set<RutaId>>, p: Parada): map<string, set<RutaId>> {
    match p.shortName
    case None => indice
    case Some(s) =>
      var k := Strip(s);
      indice[k := (if k in indice then indice[k] else {}) + {p.routeId}]
  }

  /** The index loop of crear_matriz_distancias; without a route_short_name
      column the index stays empty. */
  method IndiceNombresCortos(paradas: seq<Parada>, hayShortName: bool) returns (indice: map<string, set<RutaId>>)
    ensures hayShortName ==> indice == Indice(paradas)
    ensures !hayShortName ==> indice == map[]
  {
    indice := map[];
    if hayShortName {
      for i := 0 to |paradas|
        invariant indice == Indice(paradas[..i])
      {
        assert paradas[..i + 1][..i] == paradas[..i];
        var p := paradas[i];
        if p.shortName.None? {
          continue;
        }
        var k := Strip(p.shortName.value);
        var ids := if k in indice then indice[k] else {};
        indice := indice[k := ids + {p.routeId}];
      }
      assert paradas[..|paradas|] == paradas;
    }
  }

  /** Stop p lists route rid under name k. */
  predicate Listada(p: Parada, k: string, rid: RutaId) {
    p.routeId == rid && p.shortName.Some? && Strip(p.shortName.value) == k
  }

  /** No name maps to an empty set. */
  lemma {:induction false} IndiceNoVacio(paradas: seq<Parada>, k: string)
    requires k in Indice(paradas)
    ensures Indice(paradas)[k] != {}
    decreases |paradas|
  {
    var n := |paradas| - 1;
    var previo := Indice(paradas[..n]);
    assert Indice(paradas) == Agregar(previo, paradas[n]);
    if k in previo {
      IndiceNoVacio(paradas[..n], k);
    }
  }

  /** Adding rid0 under clave adds exactly that pair to the index. */
  lemma AnadirClave(previo: map<string, set<RutaId>>, clave: string, rid0: RutaId, k: string, rid: RutaId)
    ensures var nuevo := previo[clave := (if clave in previo then previo[clave] else {}) + {rid0}];
            (k in nuevo && rid in nuevo[k]) <==> (k in previo && rid in previo[k]) || (k == clave && rid == rid0)
  {
  }

  /** One stop changes the index only under its own stripped name. */
  lemma AgregarSii(previo: map<string, set<RutaId>>, p: Parada, k: string, rid: RutaId)
    ensures (k in Agregar(previo, p) && rid in Agregar(previo, p)[k]) <==>
            (k in previo && rid in previo[k]) || Listada(p, k, rid)
  {
    if p.shortName.Some? {
      AnadirClave(previo, Strip(p.shortName.value), p.routeId, k, rid);
    }
  }

  /** Every stop with a short name lists its route under its stripped name. */
  lemma {:induction false} IndiceCompleto(paradas: seq<Parada>, q: Parada)
    requires q in paradas && q.shortName.Some?
    ensures Strip(q.shortName.value) in Indice(paradas)
    ensures q.routeId in Indice(paradas)[Strip(q.shortName.value)]
    decreases |paradas|
  {
    var n := |paradas| - 1;
    var ini, p := paradas[..n], paradas[n];
    assert Indice(paradas) == Agregar(Indice(ini), p);
    AgregarSii(Indice(ini), p, Strip(q.shortName.value), q.routeId);
    if q != p {
      EnResto(paradas, q);
      IndiceCompleto(ini, q);
    }
  }

  /** Every listing comes from some stop. */
  lemma {:induction false} IndiceCorrecto(paradas: seq<Parada>, k: string, rid: RutaId)
    requires k in Indice(paradas) && rid in Indice(paradas)[k]
    ensures exists p :: p in paradas && Listada(p, k, rid)
    decreases |paradas|
  {
    var n := |paradas| - 1;
    var ini, p := paradas[..n], paradas[n];
    assert Indice(paradas) == Agregar(Indice(ini), p);
    AgregarSii(Indice(ini), p, k, rid);
    if Listada(p, k, rid) {
      assert p in paradas;
    } else {
      IndiceCorrecto(ini, k, rid);
      var q :| q in ini && Listada(q, k, rid);
      EnPrefijo(paradas, q);
    }
  }

  /** Route id rid is listed under name k exactly when some stop of route rid
      has a short name that strips to k. */
  lemma IndiceSii(paradas: seq<Parada>, k: string, rid: RutaId)
    ensures k in Indice(paradas) && rid in Indice(paradas)[k] <==>
            exists p :: p in paradas && Listada(p, k, rid)
  {
    if k in Indice(paradas) && rid in Indice(paradas)[k] {
      IndiceCorrecto(paradas, k, rid);
    }
    if exists p :: p in paradas && Listada(p, k, rid) {
      var p :| p in paradas && Listada(p, k, rid);
      IndiceCompleto(paradas, p);
    }
  }

  // ---------------------------------------------------------------------------
  // Matching a route to GTFS stops

  /** A route of the route layer: its id, the code fields tried in order
      (cod_ruta, cod_linea, abrevia), whether it has a nom_ruta field and its
      value, and the first vertex of its geometry (None when it has no
      coordinates). The depots and stops are projected before distances are
      taken; the route layer never is, so this vertex stays in degrees. */
  datatype Ruta = Ruta(routeId: RutaId, codRuta: Option<string>, codLinea: Option<string>, abrevia: Option<string>,
                       tieneNomRuta: bool, nomRuta: Option<string>, inicio: Option<Grados>)

  /** `cod_ruta or cod_linea or abrevia` */
  function CodigoRuta(r: Ruta): Option<string> {
    if Presente(r.codRuta) then r.codRuta
    else if Presente(r.codLinea) then r.codLinea
    else r.abrevia
  }

  /** `str(cod).split('-')[0].strip()`: the code up to its first dash, stripped. */
  function BaseCodigo(cod: string): (b: string)
    ensures '-' !in b
    ensures '-' !in cod ==> b == Strip(cod)
    ensures forall k :: 0 <= k < |cod| && cod[k] == '-' && '-' !in cod[..k] ==> b == Strip(cod[..k])
  {
    var cabeza := SplitHead(cod, "-");
    CabezaSinGuion(cod);
    CabezaHastaGuion(cod);
    StripSubsecuencia(cabeza);
    Strip(cabeza)
  }

  /** The head of a split at "-" is the whole text when it has no dash, and
      the text before its first dash otherwise. */
  lemma CabezaHastaGuion(s: string)
    ensures '-' !in s ==> SplitHead(s, "-") == s
    ensures forall k :: 0 <= k < |s| && s[k] == '-' && '-' !in s[..k] ==> SplitHead(s, "-") == s[..k]
  {
    match FindFrom(s, "-", 0)
    case None =>
      forall k | 0 <= k < |s|
        ensures s[k] != '-'
      {
        assert s[k..k + 1] == [s[k]];
        assert !OccursAt(s, "-", k);
      }
    case Some(i) =>
      assert s[i..i + 1] == "-";
      forall k | 0 <= k < i
        ensures s[k] != '-'
      {
        assert s[k..k + 1] == [s[k]];
        assert !OccursAt(s, "-", k);
      }
      forall k | i < k <= |s|
        ensures '-' in s[..k]
      {
        assert s[..k][i] == '-';
      }
  }

  /** A code made of a dash-free part, a dash and anything else has as base
      the stripped dash-free part. */
  lemma BaseCodigoPrefijo(pre: string, suf: string)
    requires '-' !in pre
    ensures BaseCodigo(pre + "-" + suf) == Strip(pre)
  {
    var s := pre + "-" + suf;
    assert s[|pre|] == '-' && s[..|pre|] == pre;
  }

  /** The code of route "P7-1" has base "P7". */
  lemma BaseCodigoP7(c: string)
    requires c == "P7-1"
    ensures BaseCodigo(c) == "P7"
  {
    GuionDeP7(c);
    StripSinBordes(c[..2]);
  }

  lemma GuionDeP7(c: string)
    requires c == "P7-1"
    ensures c[2] == '-' && c[..2] == "P7" && '-' !in c[..2]
    ensures !IsSpace(c[0]) && !IsSpace(c[1])
  {
    assert forall x :: x in c[..2] ==> x == 'P' || x == '7';
  }

  lemma CabezaSinGuion(s: string)
    ensures '-' !in SplitHead(s, "-")
  {
    forall k | 0 <= k < |SplitHead(s, "-")|
      ensures SplitHead(s, "-")[k] != '-'
    {
      assert s[k..k + 1] == [s[k]];
      assert !OccursAt(s, "-", k);
    }
  }

  lemma StripSubsecuencia(s: string)
    ensures forall c :: c in Strip(s) ==> c in s
  {
    var l := StripLeft(s);
    var r := StripRight(l);
    TrozoDeTrozo(s, l, r);
  }

  /** A prefix of a suffix of s holds only characters of s. */
  lemma TrozoDeTrozo(s: string, l: string, r: string)
    requires |l| <= |s| && l == s[|s| - |l|..]
    requires |r| <= |l| && r == l[..|r|]
    ensures forall c :: c in r ==> c in s
  {
    forall c | c in r
      ensures c in s
    {
      var k :| 0 <= k < |r| && r[k] == c;
      assert l[k] == c;
      assert s[|s| - |l| + k] == c;
    }
  }

  /** The stops of the given routes, in table order. */
  function Filtrar(paradas: seq<Parada>, ids: set<RutaId>): (f: seq<Parada>)
    ensures forall p :: p in f <==> p in paradas && p.routeId in ids
    decreases |paradas|
  {
    if paradas == [] then []
    else
      var p := paradas[|paradas| - 1];
      assert paradas == paradas[..|paradas| - 1] + [p];
      Filtrar(paradas[..|paradas| - 1], ids) + (if p.routeId in ids then [p] else [])
  }

  /** Step 1: the stops of the GTFS routes whose short name is the route's code base. */
  function PorCodigo(r: Ruta, paradas: seq<Parada>, indice: map<string, set<RutaId>>): seq<Parada> {
    var cod := CodigoRuta(r);
    if cod.Some? && BaseCodigo(cod.value) in indice then Filtrar(paradas, indice[BaseCodigo(cod.value)])
    else []
  }

  /** The route ids of the stops whose lower-cased long name (NaN read as "")
      matches the pattern; `busca(patron, texto)` is pandas' str.contains. */
  function IdsPorNombre(paradas: seq<Parada>, nom: string, busca: (string, string) -> bool): set<RutaId> {
    set p | p in paradas && busca(nom, Lower(if p.longName.Some? then p.longName.value else "")) :: p.routeId
  }

  /** Step 2: the stops of the GTFS routes whose long name contains the
      route's lower-cased nom_ruta. */
  function PorNombre(r: Ruta, paradas: seq<Parada>, hayLongName: bool, busca: (string, string) -> bool): seq<Parada> {
    var nom := Lower(if Presente(r.nomRuta) then r.nomRuta.value else "");
    if r.tieneNomRuta && hayLongName && nom != "" && IdsPorNombre(paradas, nom, busca) != {} then
      Filtrar(paradas, IdsPorNombre(paradas, nom, busca))
    else []
  }

  /** The stops matched to a route: step 1, else step 2, else the stops whose
      route id equals the route's own id. */
  function Seleccion(r: Ruta, paradas: seq<Parada>, indice: map<string, set<RutaId>>,
                     hayLongName: bool, busca: (string, string) -> bool): seq<Parada> {
    var uno := PorCodigo(r, paradas, indice);
    if uno != [] then uno
    else
      var dos := PorNombre(r, paradas, hayLongName, busca);
      if dos != [] then dos
      else Filtrar(paradas, {r.routeId})
  }

  /** The smallest distance from a point to the stops of a non-empty list. */
  function MinDistancia(desde: Punto, ps: seq<Parada>, dist: Distancia): (m: real)
    requires ps != []
    ensures forall p :: p in ps ==> m <= dist(p.pos, desde)
    ensures exists p :: p in ps && m == dist(p.pos, desde)
    decreases |ps|
  {
    var ultimo := ps[|ps| - 1];
    assert ps == ps[..|ps| - 1] + [ultimo];
    if |ps| == 1 then dist(ultimo.pos, desde)
    else
      var resto := MinDistancia(desde, ps[..|ps| - 1], dist);
      if dist(ultimo.pos, desde) < resto then dist(ultimo.pos, desde) else resto
  }

  /** The reading of _calcular_distancia_aproximada as written: the route's
      first vertex, still in degrees, is taken as a planar point. Given as the
      Proyeccion, it yields the approximation and the tables of this module as
      the source computes them. */
  function SinProyectar(g: Grados): Punto {
    Punto(g.lon, g.lat)
  }

  /** _calcular_distancia_aproximada: the depot's distance in km to the
      route's first vertex, brought into the planar system by `proyectar`;
      5 km when the route has no coordinates. With SinProyectar this is the
      source as written, with the projection of the depots it is as intended. */
  function Aproximada(patio: Punto, r: Ruta, dist: Distancia, proyectar: Proyeccion): real {
    match r.inicio
    case Some(inicio) => dist(patio, proyectar(inicio)) / 1000.0
    case None => 5.0
  }

  /** Manhattan distance between two planar points, a concrete Distancia. */
  function Manhattan(a: Punto, b: Punto): real {
    (if a.x >= b.x then a.x - b.x else b.x - a.x) + (if a.y >= b.y then a.y - b.y else b.y - a.y)
  }

  /** A linear approximation of EPSG:3116 near its origin (74.0775 W, 4.5962 N). */
  function ProyeccionBogota(g: Grados): Punto {
    Punto(1000000.0 + (g.lon + 74.0775) * 111000.0, 1000000.0 + (g.lat - 4.5962) * 110600.0)
  }

  /** As written, a route whose first vertex lies exactly at a depot is
      reported over 1900 km away from it with the Manhattan distance: the depot's planar coordinates
      are about a million metres while the vertex's are degrees. Measured
      in one system, as intended, the distance is 0. */
  lemma AproximadaMezclaSistemas()
    ensures var inicio := Grados(-74.19, 4.62);
            var patio := ProyeccionBogota(inicio);
            var r := Ruta("R1", None, None, None, false, None, Some(inicio));
            Aproximada(patio, r, Manhattan, SinProyectar) > 1900.0 && Aproximada(patio, r, Manhattan, ProyeccionBogota) == 0.0
  {
    var inicio := Grados(-74.19, 4.62);
    var patio := ProyeccionBogota(inicio);
    assert patio == Punto(987512.5, 1002632.28);
  }

  /** Measured in one system, the approximation of a route whose projected
      first vertex is the depot itself is 0, for any distance that is 0
      from a point to itself. */
  lemma AproximadaMismoSistema(patio: Punto, r: Ruta, dist: Distancia, proyectar: Proyeccion)
    requires r.inicio.Some? && proyectar(r.inicio.value) == patio
    requires forall q :: dist(q, q) == 0.0
    ensures Aproximada(patio, r, dist, proyectar) == 0.0
  {
    assert dist(patio, patio) == 0.0;
  }

  /** The distance recorded for a depot and a route, in km. */
  function DistanciaRuta(patio: Punto, r: Ruta, paradas: seq<Parada>, indice: map<string, set<RutaId>>,
                         hayLongName: bool, busca: (string, string) -> bool, dist: Distancia, proyectar: Proyeccion): real {
    var sel := Seleccion(r, paradas, indice, hayLongName, busca);
    if |sel| > 0 then MinDistancia(patio, sel, dist) / 1000.0 else Aproximada(patio, r, dist, proyectar)
  }

  /** The approximation is only used when no stop carries the route's own id,
      so a route with a GTFS stop of its own id always gets a stop distance. */
  lemma AproximacionSoloSinParadaPropia(r: Ruta, paradas: seq<Parada>, indice: map<string, set<RutaId>>,
                                        hayLongName: bool, busca: (string, string) -> bool)
    ensures Seleccion(r, paradas, indice, hayLongName, busca) == [] ==>
            forall p :: p in paradas ==> p.routeId != r.routeId
  {
  }

  /** When some stop's short name strips to the route's code base, the code
      match decides: the selection is exactly the stops of the routes listed
      under that base, and the name and id steps are never reached. */
  lemma CodigoTienePrioridad(r: Ruta, paradas: seq<Parada>, hayLongName: bool, busca: (string, string) -> bool, i: nat)
    requires CodigoRuta(r).Some?
    requires i < |paradas| && paradas[i].shortName.Some?
    requires Strip(paradas[i].shortName.value) == BaseCodigo(CodigoRuta(r).value)
    ensures var indice := Indice(paradas);
            var base := BaseCodigo(CodigoRuta(r).value);
            base in indice &&
            Seleccion(r, paradas, indice, hayLongName, busca) == Filtrar(paradas, indice[base])
  {
    var base := BaseCodigo(CodigoRuta(r).value);
    var indice := Indice(paradas);
    var rid := paradas[i].routeId;
    IndiceSii(paradas, base, rid);
    assert paradas[i] in paradas && Listada(paradas[i], base, rid);
    assert base in indice && rid in indice[base];
    var uno := Filtrar(paradas, indice[base]);
    assert PorCodigo(r, paradas, indice) == uno;
    assert paradas[i] in uno;
  }

  // ---------------------------------------------------------------------------
  // The distance table

  /** self.distancias after the loops: one row per depot id, one entry per
      route id (last write wins on repeated ids). */
  function FilaDe(patio: Punto, rutas: seq<Ruta>, paradas: seq<Parada>, indice: map<string, set<RutaId>>,
                  hayLongName: bool, busca: (string, string) -> bool, dist: Distancia, proyectar: Proyeccion): map<RutaId, real>
    decreases |rutas|
  {
    if rutas == [] then map[]
    else
      var r := rutas[|rutas| - 1];
      FilaDe(patio, rutas[..|rutas| - 1], paradas, indice, hayLongName, busca, dist, proyectar)[
        r.routeId := DistanciaRuta(patio, r, paradas, indice, hayLongName, busca, dist, proyectar)]
  }

  function MatrizDe(patios: seq<(PatioId, Punto)>, rutas: seq<Ruta>, paradas: seq<Parada>, indice: map<string, set<RutaId>>,
                    hayLongName: bool, busca: (string, string) -> bool, dist: Distancia, proyectar: Proyeccion): Matriz
    decreases |patios|
  {
    if patios == [] then map[]
    else
      var p := patios[|patios| - 1];
      MatrizDe(patios[..|patios| - 1], rutas, paradas, indice, hayLongName, busca, dist, proyectar)[
        p.0 := FilaDe(p.1, rutas, paradas, indice, hayLongName, busca, dist, proyectar)]
  }

  /** The inner loop of crear_matriz_distancias: one depot's row. */
  method LlenarFila(pos: Punto, rutas: seq<Ruta>, paradas: seq<Parada>, indice: map<string, set<RutaId>>,
                    hayLongName: bool, busca: (string, string) -> bool, dist: Distancia, proyectar: Proyeccion)
    returns (fila: map<RutaId, real>)
    ensures fila == FilaDe(pos, rutas, paradas, indice, hayLongName, busca, dist, proyectar)
  {
    fila := map[];
    for j := 0 to |rutas|
      invariant fila == FilaDe(pos, rutas[..j], paradas, indice, hayLongName, busca, dist, proyectar)
    {
      assert rutas[..j + 1][..j] == rutas[..j];
      var r := rutas[j];
      fila := fila[r.routeId := DistanciaRuta(pos, r, paradas, indice, hayLongName, busca, dist, proyectar)];
    }
    assert rutas[..|rutas|] == rutas;
  }

  /** crear_matriz_distancias: builds the short-name index, then fills one
      row per depot with one distance per route. With `proyectar` set to
      SinProyectar the table is the one the source computes; with the
      projection of the depots it is the corrected one. */
  method CrearMatrizDistancias(patios: seq<(PatioId, Punto)>, rutas: seq<Ruta>, paradas: seq<Parada>,
                               hayShortName: bool, hayLongName: bool, busca: (string, string) -> bool, dist: Distancia, proyectar: Proyeccion)
    returns (distancias: Matriz)
    ensures var indice := if hayShortName then Indice(paradas) else map[];
            distancias == MatrizDe(patios, rutas, paradas, indice, hayLongName, busca, dist, proyectar)
  {
    var indice := IndiceNombresCortos(paradas, hayShortName);
    distancias := map[];
    for i := 0 to |patios|
      invariant distancias == MatrizDe(patios[..i], rutas, paradas, indice, hayLongName, busca, dist, proyectar)
    {
      assert patios[..i + 1][..i] == patios[..i];
      var (patioId, pos) := patios[i];
      var fila := LlenarFila(pos, rutas, paradas, indice, hayLongName, busca, dist, proyectar);
      distancias := distancias[patioId := fila];
    }
    assert patios[..|patios|] == patios;
  }

  lemma {:induction false} FilaClaves(patio: Punto, rutas: seq<Ruta>, paradas: seq<Parada>, indice: map<string, set<RutaId>>,
                                      hayLongName: bool, busca: (string, string) -> bool, dist: Distancia, proyectar: Proyeccion)
    ensures FilaDe(patio, rutas, paradas, indice, hayLongName, busca, dist, proyectar).Keys == set r | r in rutas :: r.routeId
    decreases |rutas|
  {
    if rutas != [] {
      var n := |rutas| - 1;
      var ini, r := rutas[..n], rutas[n];
      FilaClaves(patio, ini, paradas, indice, hayLongName, busca, dist, proyectar);
      var previa := FilaDe(patio, ini, paradas, indice, hayLongName, busca, dist, proyectar);
      var d := DistanciaRuta(patio, r, paradas, indice, hayLongName, busca, dist, proyectar);
      assert FilaDe(patio, rutas, paradas, indice, hayLongName, busca, dist, proyectar) == previa[r.routeId := d];
      IdsRutasSnoc(rutas);
    }
  }

  /** The ids of a list of routes are those of all but the last, plus the last one's. */
  lemma IdsRutasSnoc(rutas: seq<Ruta>)
    requires rutas != []
    ensures (set x | x in rutas :: x.routeId)
            == (set x | x in rutas[..|rutas| - 1] :: x.routeId) + {rutas[|rutas| - 1].routeId}
  {
    assert rutas == rutas[..|rutas| - 1] + [rutas[|rutas| - 1]];
  }

  /** Every (depot, route) pair receives a distance. */
  lemma {:induction false} CadaParTieneDistancia(patios: seq<(PatioId, Punto)>, rutas: seq<Ruta>, paradas: seq<Parada>,
                                                 indice: map<string, set<RutaId>>, hayLongName: bool,
                                                 busca: (string, string) -> bool, dist: Distancia, proyectar: Proyeccion)
    ensures var m := MatrizDe(patios, rutas, paradas, indice, hayLongName, busca, dist, proyectar);
            m.Keys == (set p | p in patios :: p.0) &&
            forall p :: p in m ==> m[p].Keys == set r | r in rutas :: r.routeId
    decreases |patios|
  {
    if patios != [] {
      var n := |patios| - 1;
      CadaParTieneDistancia(patios[..n], rutas, paradas, indice, hayLongName, busca, dist, proyectar);
      FilaClaves(patios[n].1, rutas, paradas, indice, hayLongName, busca, dist, proyectar);
      assert patios == patios[..n] + [patios[n]];
    }
  }

  /** As written (SinProyectar), a depot's row lists a route with no matched
      stop whose first vertex lies exactly at the depot at over 1900 km with
      the Manhattan distance; with the route start projected it lists 0. */
  lemma FilaMezclaSistemas(busca: (string, string) -> bool)
    ensures var inicio := Grados(-74.19, 4.62);
            var patio := ProyeccionBogota(inicio);
            var r := Ruta("R1", None, None, None, false, None, Some(inicio));
            var tal := FilaDe(patio, [r], [], map[], false, busca, Manhattan, SinProyectar);
            var corregida := FilaDe(patio, [r], [], map[], false, busca, Manhattan, ProyeccionBogota);
            "R1" in tal && tal["R1"] > 1900.0 && "R1" in corregida && corregida["R1"] == 0.0
  {
    var inicio := Grados(-74.19, 4.62);
    var patio := ProyeccionBogota(inicio);
    var r := Ruta("R1", None, None, None, false, None, Some(inicio));
    AproximadaMezclaSistemas();
    assert Seleccion(r, [], map[], false, busca) == [];
    assert [r][..0] == [];
  }

  /** With the route start projected, the distance recorded for a route with
      no matched stop whose projected first vertex is the depot itself is 0,
      for any distance that is 0 from a point to itself. */
  lemma DistanciaMismoSistema(patio: Punto, r: Ruta, paradas: seq<Parada>, indice: map<string, set<RutaId>>,
                              hayLongName: bool, busca: (string, string) -> bool, dist: Distancia, proyectar: Proyeccion)
    requires Seleccion(r, paradas, indice, hayLongName, busca) == []
    requires r.inicio.Some? && proyectar(r.inicio.value) == patio
    requires forall q :: dist(q, q) == 0.0
    ensures DistanciaRuta(patio, r, paradas, indice, hayLongName, busca, dist, proyectar) == 0.0
  {
    AproximadaMismoSistema(patio, r, dist, proyectar);
  }

  // ---------------------------------------------------------------------------
  // _mostrar_estadisticas_matriz

  /** The four buckets of the distance distribution. */
  datatype Tramo = Menor2 | De2a5 | De5a10 | Desde10

  /** The comparison each bucket is counted with. */
  predicate EnTramo(d: real, t: Tramo) {
    match t
    case Menor2 => d < 2.0
    case De2a5 => d >= 2.0 && d < 5.0
    case De5a10 => d >= 5.0 && d < 10.0
    case Desde10 => d >= 10.0
  }

  function Contar(ds: seq<real>, t: Tramo): (n: nat)
    ensures n <= |ds|
    decreases |ds|
  {
    if ds == [] then 0
    else Contar(ds[..|ds| - 1], t) + (if EnTramo(ds[|ds| - 1], t) then 1 else 0)
  }

  /** The number of entries of a table. */
  ghost function NumEntradas(m: Matriz): int {
    SumValues(map p | p in m :: |m[p]|)
  }

  /** The value d is entry (p, r) of the table. */
  predicate EsEntrada(m: Matriz, par: (PatioId, RutaId), d: real) {
    par.0 in m && par.1 in m[par.0] && m[par.0][par.1] == d
  }

  /** ds holds the values of the depots no longer pending, each named by its
      entry in pares, every entry of those depots named once. */
  ghost predicate Leidas(m: Matriz, pendientes: set<PatioId>, ds: seq<real>, pares: seq<(PatioId, RutaId)>) {
    && |pares| == |ds| && (forall k :: 0 <= k < |ds| ==> EsEntrada(m, pares[k], ds[k]))
    && Distinct(pares)
    && (forall k :: 0 <= k < |pares| ==> pares[k].0 !in pendientes)
    && (forall p, r :: p in m && p !in pendientes && r in m[p] ==> (p, r) in pares)
  }

  /** todas_distancias: every entry of every row, in no particular order. The
      ghost list names the entry each value was read from: each value is
      its entry, and every entry of the table is read exactly once. */
  method TodasLasDistancias(m: Matriz) returns (ds: seq<real>, ghost pares: seq<(PatioId, RutaId)>)
    ensures |ds| == NumEntradas(m)
    ensures |pares| == |ds| && forall k :: 0 <= k < |ds| ==> EsEntrada(m, pares[k], ds[k])
    ensures Distinct(pares)
    ensures forall p, r :: p in m && r in m[p] ==> (p, r) in pares
  {
    ds, pares := [], [];
    var pendientes := m.Keys;
    ghost var tamanos := map q | q in m :: |m[q]|;
    while pendientes != {}
      invariant tamanos.Keys == pendientes <= m.Keys
      invariant forall q :: q in tamanos ==> tamanos[q] == |m[q]|
      invariant |ds| + SumValues(tamanos) == NumEntradas(m)
      invariant Leidas(m, pendientes, ds, pares)
      decreases |pendientes|
    {
      var p :| p in pendientes;
      SumValuesRemove(tamanos, p);
      ds, pares := LeerFila(m, p, pendientes, ds, pares);
      tamanos := tamanos - {p};
      pendientes := pendientes - {p};
    }
  }

  /** One pass of the outer loop of todas_distancias: reads row p. */
  method LeerFila(m: Matriz, p: PatioId, pendientes: set<PatioId>, ds0: seq<real>, ghost pares0: seq<(PatioId, RutaId)>)
    returns (ds: seq<real>, ghost pares: seq<(PatioId, RutaId)>)
    requires p in pendientes && pendientes <= m.Keys
    requires Leidas(m, pendientes, ds0, pares0)
    ensures |ds| == |ds0| + |m[p]|
    ensures Leidas(m, pendientes - {p}, ds, pares)
  {
    ds, pares := AnadirFila(m, p, ds0, pares0);
    ParesTrasFila(m, p, pendientes - {p}, pares0, pares);
  }

  /** After row p is appended, the pairs still name no pending depot and
      cover every entry of the depots done. */
  lemma ParesTrasFila(m: Matriz, p: PatioId, pendientes: set<PatioId>,
                      antes: seq<(PatioId, RutaId)>, pares: seq<(PatioId, RutaId)>)
    requires p in m && p !in pendientes
    requires forall k :: 0 <= k < |antes| ==> antes[k].0 !in pendientes + {p}
    requires forall q, r :: q in m && q !in pendientes + {p} && r in m[q] ==> (q, r) in antes
    requires |antes| <= |pares| && pares[..|antes|] == antes
    requires forall k :: |antes| <= k < |pares| ==> pares[k].0 == p
    requires forall r :: r in m[p] ==> (p, r) in pares
    ensures forall k :: 0 <= k < |pares| ==> pares[k].0 !in pendientes
    ensures forall q, r :: q in m && q !in pendientes && r in m[q] ==> (q, r) in pares
  {
    forall k | 0 <= k < |pares|
      ensures pares[k].0 !in pendientes
    {
      if k < |antes| {
        assert pares[k] == antes[k];
      }
    }
    forall q, r | q in m && q !in pendientes && r in m[q]
      ensures (q, r) in pares
    {
      if q != p {
        var i :| 0 <= i < |antes| && antes[i] == (q, r);
        assert pares[i] == antes[i];
      }
    }
  }

  /** The inner loop of todas_distancias: appends the values of row p, each
      paired with its route, after entries of other rows. */
  method AnadirFila(m: Matriz, p: PatioId, ds0: seq<real>, ghost pares0: seq<(PatioId, RutaId)>)
    returns (ds: seq<real>, ghost pares: seq<(PatioId, RutaId)>)
    requires p in m
    requires |pares0| == |ds0| && forall k :: 0 <= k < |ds0| ==> EsEntrada(m, pares0[k], ds0[k])
    requires Distinct(pares0) && forall k :: 0 <= k < |pares0| ==> pares0[k].0 != p
    ensures |ds| == |ds0| + |m[p]|
    ensures |pares| == |ds| && forall k :: 0 <= k < |ds| ==> EsEntrada(m, pares[k], ds[k])
    ensures Distinct(pares) && pares[..|pares0|] == pares0
    ensures forall k :: |pares0| <= k < |pares| ==> pares[k].0 == p
    ensures forall r :: r in m[p] ==> (p, r) in pares
  {
    ds, pares := ds0, pares0;
    var fila := m[p];
    var rutas := fila.Keys;
    while rutas != {}
      invariant rutas <= fila.Keys
      invariant |ds| == |ds0| + |fila.Keys| - |rutas|
      invariant |pares| == |ds| && forall k :: 0 <= k < |ds| ==> EsEntrada(m, pares[k], ds[k])
      invariant Distinct(pares) && pares[..|pares0|] == pares0
      invariant forall k :: |pares0| <= k < |pares| ==> pares[k].0 == p && pares[k].1 !in rutas
      invariant forall r :: r in fila && r !in rutas ==> (p, r) in pares
      decreases |rutas|
    {
      var r :| r in rutas;
      forall k | 0 <= k < |pares|
        ensures pares[k] != (p, r)
      {
        if k < |pares0| {
          assert pares[k] == pares0[k];
        }
      }
      ds, pares := ds + [fila[r]], pares + [(p, r)];
      rutas := rutas - {r};
    }
  }

  /** The four bucket counts of the printed distribution. */
  method Distribucion(ds: seq<real>) returns (menor2: nat, de2a5: nat, de5a10: nat, desde10: nat)
    ensures menor2 == Contar(ds, Menor2) && de2a5 == Contar(ds, De2a5)
    ensures de5a10 == Contar(ds, De5a10) && desde10 == Contar(ds, Desde10)
  {
    menor2, de2a5, de5a10, desde10 := 0, 0, 0, 0;
    for i := 0 to |ds|
      invariant menor2 == Contar(ds[..i], Menor2) && de2a5 == Contar(ds[..i], De2a5)
      invariant de5a10 == Contar(ds[..i], De5a10) && desde10 == Contar(ds[..i], Desde10)
    {
      assert ds[..i + 1][..i] == ds[..i];
      var d := ds[i];
      if d < 2.0 { menor2 := menor2 + 1; }
      if d >= 2.0 && d < 5.0 { de2a5 := de2a5 + 1; }
      if d >= 5.0 && d < 10.0 { de5a10 := de5a10 + 1; }
      if d >= 10.0 { desde10 := desde10 + 1; }
    }
    assert ds[..|ds|] == ds;
  }

  /** The buckets partition the distances: the four counts add up to their number. */
  lemma {:induction false} TramosParticion(ds: seq<real>)
    ensures Contar(ds, Menor2) + Contar(ds, De2a5) + Contar(ds, De5a10) + Contar(ds, Desde10) == |ds|
    decreases |ds|
  {
    if ds != [] {
      TramosParticion(ds[..|ds| - 1]);
    }
  }
}
