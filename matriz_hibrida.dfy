/** calcular_distancias_hibridas (matriz_distancias_hibrida.py) and its later
    copy calcular_matriz_hibrida (procesamiento_datos_copy.py): for every
    depot and every route's first stop, the straight-line distance is
    stretched by the zone factor and turned into a travel time; both values
    go into nested tables depot -> route -> value. The straight-line distance
    itself (geopy's geodesic) is a function parameter. */
module MatrizHibrida {
  import opened Util
  import opened Zonas
  import Extraccion

  type PatioId = string
  type RutaId = string
  type Matriz = map<PatioId, map<RutaId, real>>

  /** Straight-line distance in km between two coordinates. */
  type Geodesica = (Coord, Coord) -> real

  /** Which of the two tables a value goes into. */
  datatype Medida = Km | Minutos

  /** dist_base * factor_correccion */
  function DistanciaCorregida(cp: Coord, cr: Coord, geo: Geodesica): real {
    var base := geo(cp, cr);
    base * FactorCorreccion(ClasificarZona(cp), ClasificarZona(cr), base)
  }

  /** The travel time of the corrected distance. */
  function TiempoCorregido(cp: Coord, cr: Coord, geo: Geodesica): real {
    TiempoViaje(DistanciaCorregida(cp, cr, geo), ClasificarZona(cp), ClasificarZona(cr))
  }

  function Valor(med: Medida, cp: Coord, cr: Coord, geo: Geodesica): real {
    if med == Km then DistanciaCorregida(cp, cr, geo) else TiempoCorregido(cp, cr, geo)
  }

  /** One depot's row after the inner loop: one entry per route id, the last
      stop listed for an id winning. */
  function Fila(med: Medida, cp: Coord, paraderos: seq<(RutaId, Coord)>, geo: Geodesica): map<RutaId, real>
    decreases |paraderos|
  {
    if paraderos == [] then map[]
    else
      var r := paraderos[|paraderos| - 1];
      Fila(med, cp, paraderos[..|paraderos| - 1], geo)[r.0 := Valor(med, cp, r.1, geo)]
  }

  /** The table after the outer loop: a depot id listed twice keeps its last row. */
  function MatrizDe(med: Medida, patios: seq<(PatioId, Coord)>, paraderos: seq<(RutaId, Coord)>, geo: Geodesica): Matriz
    decreases |patios|
  {
    if patios == [] then map[]
    else
      var p := patios[|patios| - 1];
      MatrizDe(med, patios[..|patios| - 1], paraderos, geo)[p.0 := Fila(med, p.1, paraderos, geo)]
  }

  /** The ids of a list of (id, coordinate) pairs. */
  ghost function Ids<K>(s: seq<(K, Coord)>): set<K> {
    set x | x in s :: x.0
  }

  /** No id occurs twice. */
  predicate IdsDistintos<K(==)>(s: seq<(K, Coord)>) {
    forall a, b :: 0 <= a < b < |s| ==> s[a].0 != s[b].0
  }

  /** calcular_distancias_hibridas: the straight-line distances come from
      cdist, which rejects an empty coordinate list, so without a depot or
      without a stop the call raises (None here); otherwise both tables. */
  method CalcularDistanciasHibridas(patios: seq<(PatioId, Coord)>, paraderos: seq<(RutaId, Coord)>, geo: Geodesica)
    returns (r: Option<(Matriz, Matriz)>)
    ensures r.None? <==> patios == [] || paraderos == []
    ensures r.Some? ==> r.value == (MatrizDe(Km, patios, paraderos, geo), MatrizDe(Minutos, patios, paraderos, geo))
  {
    if patios == [] || paraderos == [] {
      return None;
    }
    var md, mt := LlenarTablas(patios, paraderos, geo);
    return Some((md, mt));
  }

  /** The fill loops of calcular_distancias_hibridas (and of
      calcular_matriz_hibrida): one row per depot, one entry per stop. */
  method LlenarTablas(patios: seq<(PatioId, Coord)>, paraderos: seq<(RutaId, Coord)>, geo: Geodesica)
    returns (md: Matriz, mt: Matriz)
    ensures md == MatrizDe(Km, patios, paraderos, geo)
    ensures mt == MatrizDe(Minutos, patios, paraderos, geo)
  {
    md := map[];
    mt := map[];
    for i := 0 to |patios|
      invariant md == MatrizDe(Km, patios[..i], paraderos, geo)
      invariant mt == MatrizDe(Minutos, patios[..i], paraderos, geo)
    {
      assert patios[..i + 1][..i] == patios[..i];
      var (patioId, cp) := patios[i];
      var filaKm, filaMin := FilaHibrida(cp, paraderos, geo);
      md := md[patioId := filaKm];
      mt := mt[patioId := filaMin];
    }
    assert patios[..|patios|] == patios;
  }

  /** The inner loop of calcular_distancias_hibridas: one depot's distances and times. */
  method FilaHibrida(cp: Coord, paraderos: seq<(RutaId, Coord)>, geo: Geodesica)
    returns (filaKm: map<RutaId, real>, filaMin: map<RutaId, real>)
    ensures filaKm == Fila(Km, cp, paraderos, geo)
    ensures filaMin == Fila(Minutos, cp, paraderos, geo)
  {
    filaKm, filaMin := map[], map[];
    var zonaPatio := ClasificarZona(cp);
    for j := 0 to |paraderos|
      invariant filaKm == Fila(Km, cp, paraderos[..j], geo)
      invariant filaMin == Fila(Minutos, cp, paraderos[..j], geo)
    {
      assert paraderos[..j + 1][..j] == paraderos[..j];
      var (rutaId, cr) := paraderos[j];
      var zonaParadero := ClasificarZona(cr);
      var base := geo(cp, cr);
      var factor := FactorCorreccion(zonaPatio, zonaParadero, base);
      var distancia := base * factor;
      assert distancia == DistanciaCorregida(cp, cr, geo);
      var tiempo := TiempoViaje(distancia, zonaPatio, zonaParadero);
      filaKm := filaKm[rutaId := distancia];
      filaMin := filaMin[rutaId := tiempo];
    }
    assert paraderos[..|paraderos|] == paraderos;
  }

  // ---------------------------------------------------------------------------

  /** For a non-negative straight-line distance the corrected one lies between 1.2 and 1.92 times it. */
  lemma DistanciaCorregidaAcotada(cp: Coord, cr: Coord, geo: Geodesica)
    requires geo(cp, cr) >= 0.0
    ensures 1.2 * geo(cp, cr) <= DistanciaCorregida(cp, cr, geo) <= 1.92 * geo(cp, cr)
  {
    var base := geo(cp, cr);
    var f := FactorCorreccion(ClasificarZona(cp), ClasificarZona(cr), base);
    TechoInactivo(ClasificarZona(cp), ClasificarZona(cr), base);
    assert 1.2 <= f <= 1.92;
    assert base * 1.2 <= base * f <= base * 1.92;
  }

  lemma {:induction false} FilaClaves(med: Medida, cp: Coord, paraderos: seq<(RutaId, Coord)>, geo: Geodesica)
    ensures Fila(med, cp, paraderos, geo).Keys == Ids(paraderos)
    decreases |paraderos|
  {
    if paraderos != [] {
      var n := |paraderos| - 1;
      FilaClaves(med, cp, paraderos[..n], geo);
      assert paraderos == paraderos[..n] + [paraderos[n]];
      assert Ids(paraderos) == Ids(paraderos[..n]) + {paraderos[n].0};
    }
  }

  /** Every depot id gets a row, and every row has an entry for every route id. */
  lemma {:induction false} MatrizClaves(med: Medida, patios: seq<(PatioId, Coord)>, paraderos: seq<(RutaId, Coord)>, geo: Geodesica)
    ensures MatrizDe(med, patios, paraderos, geo).Keys == Ids(patios)
    ensures forall p :: p in MatrizDe(med, patios, paraderos, geo) ==>
              MatrizDe(med, patios, paraderos, geo)[p].Keys == Ids(paraderos)
    decreases |patios|
  {
    if patios != [] {
      var n := |patios| - 1;
      MatrizClaves(med, patios[..n], paraderos, geo);
      FilaClaves(med, patios[n].1, paraderos, geo);
      assert patios == patios[..n] + [patios[n]];
      assert Ids(patios) == Ids(patios[..n]) + {patios[n].0};
    }
  }

  /** The two tables the loop fills have the same shape, which is what the
      optimizer needs to read a time for every distance it extracts. */
  lemma MatricesMismaForma(patios: seq<(PatioId, Coord)>, paraderos: seq<(RutaId, Coord)>, geo: Geodesica)
    ensures Extraccion.MismaForma(MatrizDe(Km, patios, paraderos, geo), MatrizDe(Minutos, patios, paraderos, geo))
  {
    MatrizClaves(Km, patios, paraderos, geo);
    MatrizClaves(Minutos, patios, paraderos, geo);
  }

  lemma {:induction false} FilaValor(med: Medida, cp: Coord, paraderos: seq<(RutaId, Coord)>, geo: Geodesica, j: nat)
    requires IdsDistintos(paraderos) && j < |paraderos|
    ensures paraderos[j].0 in Fila(med, cp, paraderos, geo)
    ensures Fila(med, cp, paraderos, geo)[paraderos[j].0] == Valor(med, cp, paraderos[j].1, geo)
    decreases |paraderos|
  {
    var n := |paraderos| - 1;
    if j < n {
      FilaValor(med, cp, paraderos[..n], geo, j);
      assert paraderos[..n][j] == paraderos[j];
    }
  }

  /** With distinct ids, the entry for depot i and route j is computed from
      depot i's own coordinate and route j's own stop. */
  lemma {:induction false} MatrizValor(med: Medida, patios: seq<(PatioId, Coord)>, paraderos: seq<(RutaId, Coord)>,
                                       geo: Geodesica, i: nat, j: nat)
    requires IdsDistintos(patios) && IdsDistintos(paraderos)
    requires i < |patios| && j < |paraderos|
    ensures patios[i].0 in MatrizDe(med, patios, paraderos, geo)
    ensures paraderos[j].0 in MatrizDe(med, patios, paraderos, geo)[patios[i].0]
    ensures MatrizDe(med, patios, paraderos, geo)[patios[i].0][paraderos[j].0] == Valor(med, patios[i].1, paraderos[j].1, geo)
    decreases |patios|
  {
    var n := |patios| - 1;
    if i < n {
      MatrizValor(med, patios[..n], paraderos, geo, i, j);
      assert patios[..n][i] == patios[i];
    } else {
      FilaValor(med, patios[i].1, paraderos, geo, j);
    }
  }

  // ---------------------------------------------------------------------------
  // calcular_matriz_hibrida in procesamiento_datos_copy.py

  /** A depot as read: its coordinate (None when extracting it raised) and
      its id. The id is the cell of the first of the columns objectid,
      OBJECTID, id that the layer has, whatever that cell holds, as text.
      It is None when the layer has none of these columns or that cell is
      None; a NaN cell is kept, as the text "nan". */
  datatype PatioLeido = PatioLeido(coord: Option<Coord>, id: Option<PatioId>)

  /** A route's first stop as read: None when its coordinate could not be extracted. */
  datatype ParaderoLeido = ParaderoLeido(ruta: RutaId, coord: Option<Coord>)

  /** coords_patios: one coordinate per depot whose coordinate was read, with or without id. */
  function CoordsPatios(ps: seq<PatioLeido>): seq<Coord>
    decreases |ps|
  {
    if ps == [] then []
    else
      var p := ps[|ps| - 1];
      CoordsPatios(ps[..|ps| - 1]) + (if p.coord.Some? then [p.coord.value] else [])
  }

  /** patio_ids: one id per depot whose coordinate was read and that has an id. */
  function IdsPatios(ps: seq<PatioLeido>): (ids: seq<PatioId>)
    ensures |ids| <= |CoordsPatios(ps)|
    decreases |ps|
  {
    if ps == [] then []
    else
      var p := ps[|ps| - 1];
      IdsPatios(ps[..|ps| - 1]) + (if p.coord.Some? && p.id.Some? then [p.id.value] else [])
  }

  /** Depots that have both a coordinate and an id, each with its own coordinate. */
  function PatiosValidos(ps: seq<PatioLeido>): seq<(PatioId, Coord)>
    decreases |ps|
  {
    if ps == [] then []
    else
      var p := ps[|ps| - 1];
      PatiosValidos(ps[..|ps| - 1]) + (if p.coord.Some? && p.id.Some? then [(p.id.value, p.coord.value)] else [])
  }

  /** coords_paraderos zipped with ruta_ids: the stops whose coordinate was read. */
  function ParaderosValidos(rs: seq<ParaderoLeido>): seq<(RutaId, Coord)>
    decreases |rs|
  {
    if rs == [] then []
    else
      var r := rs[|rs| - 1];
      ParaderosValidos(rs[..|rs| - 1]) + (if r.coord.Some? then [(r.ruta, r.coord.value)] else [])
  }

  /** zip(a, b) for |a| <= |b|. */
  function Emparejar(ids: seq<PatioId>, coords: seq<Coord>): (r: seq<(PatioId, Coord)>)
    requires |ids| <= |coords|
    ensures |r| == |ids|
    ensures forall k :: 0 <= k < |ids| ==> r[k] == (ids[k], coords[k])
  {
    seq(|ids|, k requires 0 <= k < |ids| => (ids[k], coords[k]))
  }

  /** calcular_matriz_hibrida as written: the i-th id is paired with the i-th
      coordinate of coords_patios, which also holds the coordinates of
      depots without id. */
  function MatrizCopiaTalCual(med: Medida, ps: seq<PatioLeido>, rs: seq<ParaderoLeido>, geo: Geodesica): Matriz {
    if |CoordsPatios(ps)| == 0 || |ParaderosValidos(rs)| == 0 then map[]
    else MatrizDe(med, Emparejar(IdsPatios(ps), CoordsPatios(ps)), ParaderosValidos(rs), geo)
  }

  /** calcular_matriz_hibrida with each id paired with its own depot's coordinate. */
  function MatrizCopiaCorregida(med: Medida, ps: seq<PatioLeido>, rs: seq<ParaderoLeido>, geo: Geodesica): Matriz {
    if |CoordsPatios(ps)| == 0 || |ParaderosValidos(rs)| == 0 then map[]
    else MatrizDe(med, PatiosValidos(ps), ParaderosValidos(rs), geo)
  }

  /** calcular_matriz_hibrida: builds the lists, returns two empty tables
      when there is no depot coordinate or no stop coordinate, and otherwise
      fills the tables. With `alinear` false the i-th id is paired with the
      i-th coordinate, as the source does; with `alinear` true each id keeps
      its own depot's coordinate, as intended. */
  method CalcularMatrizHibrida(ps: seq<PatioLeido>, rs: seq<ParaderoLeido>, geo: Geodesica, alinear: bool)
    returns (md: Matriz, mt: Matriz)
    ensures alinear ==> md == MatrizCopiaCorregida(Km, ps, rs, geo) && mt == MatrizCopiaCorregida(Minutos, ps, rs, geo)
    ensures !alinear ==> md == MatrizCopiaTalCual(Km, ps, rs, geo) && mt == MatrizCopiaTalCual(Minutos, ps, rs, geo)
    ensures |CoordsPatios(ps)| == 0 || |ParaderosValidos(rs)| == 0 ==> md == map[] && mt == map[]
  {
    var coordsPatios: seq<Coord> := [];
    var ids: seq<PatioId> := [];
    var patios: seq<(PatioId, Coord)> := [];
    for k := 0 to |ps|
      invariant coordsPatios == CoordsPatios(ps[..k])
      invariant ids == IdsPatios(ps[..k])
      invariant patios == PatiosValidos(ps[..k])
    {
      assert ps[..k + 1][..k] == ps[..k];
      if ps[k].coord.Some? {
        coordsPatios := coordsPatios + [ps[k].coord.value];
        if ps[k].id.Some? {
          ids := ids + [ps[k].id.value];
          patios := patios + [(ps[k].id.value, ps[k].coord.value)];
        }
      }
    }
    assert ps[..|ps|] == ps;
    var paraderos: seq<(RutaId, Coord)> := [];
    for k := 0 to |rs|
      invariant paraderos == ParaderosValidos(rs[..k])
    {
      assert rs[..k + 1][..k] == rs[..k];
      if rs[k].coord.Some? {
        paraderos := paraderos + [(rs[k].ruta, rs[k].coord.value)];
      }
    }
    assert rs[..|rs|] == rs;
    if |coordsPatios| == 0 || |paraderos| == 0 {
      return map[], map[];
    }
    if !alinear {
      patios := Emparejar(ids, coordsPatios);
    }
    md, mt := LlenarTablas(patios, paraderos, geo);
  }

  lemma {:induction false} PatiosValidosSii(ps: seq<PatioLeido>, p: PatioId, c: Coord)
    ensures (p, c) in PatiosValidos(ps) <==> PatioLeido(Some(c), Some(p)) in ps
    decreases |ps|
  {
    if ps != [] {
      var n := |ps| - 1;
      PatiosValidosSii(ps[..n], p, c);
      assert ps == ps[..n] + [ps[n]];
    }
  }

  /** In the corrected table, a depot read with a coordinate and an id
      (ids distinct, route ids distinct) has, for every stop read, the
      corrected distance from its own coordinate. */
  lemma CopiaCorregidaUsaSuCoordenada(ps: seq<PatioLeido>, rs: seq<ParaderoLeido>, geo: Geodesica,
                                      p: PatioId, c: Coord, j: nat)
    requires IdsDistintos(PatiosValidos(ps)) && IdsDistintos(ParaderosValidos(rs))
    requires PatioLeido(Some(c), Some(p)) in ps
    requires j < |ParaderosValidos(rs)|
    ensures p in MatrizCopiaCorregida(Km, ps, rs, geo)
    ensures var r := ParaderosValidos(rs)[j];
            r.0 in MatrizCopiaCorregida(Km, ps, rs, geo)[p] &&
            MatrizCopiaCorregida(Km, ps, rs, geo)[p][r.0] == DistanciaCorregida(c, r.1, geo)
  {
    PatiosValidosSii(ps, p, c);
    var validos := PatiosValidos(ps);
    var i :| 0 <= i < |validos| && validos[i] == (p, c);
    assert CoordsPatios(ps) != [] by {
      CoordsNoVacias(ps, p, c);
    }
    MatrizValor(Km, validos, ParaderosValidos(rs), geo, i, j);
  }

  lemma {:induction false} CoordsNoVacias(ps: seq<PatioLeido>, p: PatioId, c: Coord)
    requires PatioLeido(Some(c), Some(p)) in ps
    ensures |CoordsPatios(ps)| > 0
    decreases |ps|
  {
    var n := |ps| - 1;
    if ps[n] != PatioLeido(Some(c), Some(p)) {
      assert PatioLeido(Some(c), Some(p)) in ps[..n] by {
        assert ps == ps[..n] + [ps[n]];
      }
      CoordsNoVacias(ps[..n], p, c);
    }
  }

  /** The distance oracle of the counterexample: the sum of the coordinate
      differences, which is the straight-line distance for points on one meridian. */
  function Manhattan(a: Coord, b: Coord): real {
    (if a.lat >= b.lat then a.lat - b.lat else b.lat - a.lat)
      + (if a.lon >= b.lon then a.lon - b.lon else b.lon - a.lon)
  }

  /** The lists the counterexample's layers produce. */
  lemma ListasDesalineadas()
    ensures var c1, c2, c3 := Coord(1.0, 0.0), Coord(3.0, 0.0), Coord(0.0, 0.0);
            var ps := [PatioLeido(Some(c1), None), PatioLeido(Some(c2), Some("7"))];
            var rs := [ParaderoLeido("r", Some(c3))];
            && CoordsPatios(ps) == [c1, c2] && IdsPatios(ps) == ["7"]
            && PatiosValidos(ps) == [("7", c2)] && ParaderosValidos(rs) == [("r", c3)]
  {
    var c1, c2, c3 := Coord(1.0, 0.0), Coord(3.0, 0.0), Coord(0.0, 0.0);
    var ps := [PatioLeido(Some(c1), None), PatioLeido(Some(c2), Some("7"))];
    var rs := [ParaderoLeido("r", Some(c3))];
    assert ps[..1] == [ps[0]] && ps[..1][..0] == [];
    assert rs[..0] == [];
    assert CoordsPatios(ps[..1]) == [c1];
    assert IdsPatios(ps[..1]) == [];
    assert PatiosValidos(ps[..1]) == [];
  }

  /** The corrected distances of the counterexample's two depots to its stop. */
  lemma DistanciasDesalineadas()
    ensures DistanciaCorregida(Coord(1.0, 0.0), Coord(0.0, 0.0), Manhattan) == 1.56
    ensures DistanciaCorregida(Coord(3.0, 0.0), Coord(0.0, 0.0), Manhattan) == 3.9
  {
    var c1, c2, c3 := Coord(1.0, 0.0), Coord(3.0, 0.0), Coord(0.0, 0.0);
    assert ClasificarZona(c1) == KennedyOriente && ClasificarZona(c2) == KennedyOriente;
    assert ClasificarZona(c3) == KennedyOriente;
    assert FactorCorreccion(KennedyOriente, KennedyOriente, 1.0) == 1.56;
    assert FactorCorreccion(KennedyOriente, KennedyOriente, 3.0) == 1.3;
  }

  /** As written, a depot without id shifts the pairing: with a first depot
      lacking an id, depot "7" gets the distances of the first depot's
      coordinate instead of its own. */
  lemma DesalineacionCopia()
    ensures var c1, c2, c3 := Coord(1.0, 0.0), Coord(3.0, 0.0), Coord(0.0, 0.0);
            var ps := [PatioLeido(Some(c1), None), PatioLeido(Some(c2), Some("7"))];
            var rs := [ParaderoLeido("r", Some(c3))];
            && MatrizCopiaTalCual(Km, ps, rs, Manhattan)["7"]["r"] == DistanciaCorregida(c1, c3, Manhattan)
            && MatrizCopiaCorregida(Km, ps, rs, Manhattan)["7"]["r"] == DistanciaCorregida(c2, c3, Manhattan)
            && MatrizCopiaTalCual(Km, ps, rs, Manhattan)["7"]["r"] != MatrizCopiaCorregida(Km, ps, rs, Manhattan)["7"]["r"]
  {
    var c1, c2, c3 := Coord(1.0, 0.0), Coord(3.0, 0.0), Coord(0.0, 0.0);
    ListasDesalineadas();
    DistanciasDesalineadas();
    var tal := Emparejar(["7"], [c1, c2]);
    assert tal == [("7", c1)];
    var rs := [("r", c3)];
    MatrizValor(Km, tal, rs, Manhattan, 0, 0);
    MatrizValor(Km, [("7", c2)], rs, Manhattan, 0, 0);
  }
}
