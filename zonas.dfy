/** The zone heuristics of MatrizDistanciasHibrida: a coordinate falls in one
    of four zones of Bosa and Kennedy; a straight-line distance is stretched
    by a zone- and length-dependent factor; and a travel time is derived from
    zone speeds plus a fixed delay per kilometre. The same three helpers
    appear verbatim in matriz_distancias_hibrida.py and in
    procesamiento_datos_copy.py. */
module Zonas {

  datatype Zona = BosaSur | BosaNorte | KennedyOccidente | KennedyOriente

  /** (lat, lon) in degrees. */
  datatype Coord = Coord(lat: real, lon: real)

  /** _clasificar_zona: north of latitude 4.62 is Bosa, split at longitude
      -74.17; the rest is Kennedy, split at -74.14. */
  function ClasificarZona(c: Coord): (z: Zona)
    ensures z.BosaSur? <==> c.lat > 4.62 && c.lon < -74.17
    ensures z.BosaNorte? <==> c.lat > 4.62 && c.lon >= -74.17
    ensures z.KennedyOccidente? <==> c.lat <= 4.62 && c.lon < -74.14
    ensures z.KennedyOriente? <==> c.lat <= 4.62 && c.lon >= -74.14
  {
    if c.lat > 4.62 && c.lon < -74.17 then BosaSur
    else if c.lat > 4.62 && c.lon >= -74.17 then BosaNorte
    else if c.lat <= 4.62 && c.lon < -74.14 then KennedyOccidente
    else KennedyOriente
  }

  /** Base detour factor per zone. */
  function FactorZona(z: Zona): real {
    match z
    case BosaSur => 1.6
    case BosaNorte => 1.4
    case KennedyOccidente => 1.5
    case KennedyOriente => 1.3
  }

  /** Average speed per zone, in km/h. */
  function VelocidadZona(z: Zona): real {
    match z
    case BosaSur => 15.0
    case BosaNorte => 18.0
    case KennedyOccidente => 16.0
    case KennedyOriente => 20.0
  }

  /** The averaged factor before clamping: scaled by 0.9 above 10 km and by 1.2 below 2 km. */
  function FactorSinAcotar(origen: Zona, destino: Zona, distancia: real): real {
    var promedio := (FactorZona(origen) + FactorZona(destino)) / 2.0;
    if distancia > 10.0 then promedio * 0.9
    else if distancia < 2.0 then promedio * 1.2
    else promedio
  }

  /** _calcular_factor_correccion: the scaled average clamped to [1.2, 2.0]. */
  function FactorCorreccion(origen: Zona, destino: Zona, distancia: real): (f: real)
    ensures 1.2 <= f <= 2.0
  {
    var f := FactorSinAcotar(origen, destino, distancia);
    var alMenos := if f > 1.2 then f else 1.2;
    if alMenos < 2.0 then alMenos else 2.0
  }

  /** _calcular_tiempo_viaje: minutes at the average speed of the two zones,
      plus half a minute per kilometre. */
  function TiempoViaje(distanciaKm: real, origen: Zona, destino: Zona): real {
    var velocidad := (VelocidadZona(origen) + VelocidadZona(destino)) / 2.0;
    distanciaKm / velocidad * 60.0 + distanciaKm * 0.5
  }

  // ---------------------------------------------------------------------------

  /** The unclamped factor stays within [1.17, 1.92]. */
  lemma FactorSinAcotarAcotado(origen: Zona, destino: Zona, distancia: real)
    ensures 1.17 <= FactorSinAcotar(origen, destino, distancia) <= 1.92
  {
    var p := (FactorZona(origen) + FactorZona(destino)) / 2.0;
    assert 1.3 <= p <= 1.6;
  }

  /** The 2.0 ceiling never binds: the factor is the scaled average, raised to 1.2 when below it. */
  lemma TechoInactivo(origen: Zona, destino: Zona, distancia: real)
    ensures FactorCorreccion(origen, destino, distancia) <= 1.92
    ensures var f := FactorSinAcotar(origen, destino, distancia);
            FactorCorreccion(origen, destino, distancia) == if f < 1.2 then 1.2 else f
  {
    FactorSinAcotarAcotado(origen, destino, distancia);
  }

  /** The floor does bind: two Kennedy-east endpoints more than 10 km apart get exactly 1.2. */
  lemma PisoActivo(distancia: real)
    requires distancia > 10.0
    ensures FactorSinAcotar(KennedyOriente, KennedyOriente, distancia) < 1.2
    ensures FactorCorreccion(KennedyOriente, KennedyOriente, distancia) == 1.2
  {
  }

  /** Swapping origin and destination zone does not change the factor. */
  lemma FactorSimetrico(origen: Zona, destino: Zona, distancia: real)
    ensures FactorCorreccion(origen, destino, distancia) == FactorCorreccion(destino, origen, distancia)
  {
    assert FactorSinAcotar(origen, destino, distancia) == FactorSinAcotar(destino, origen, distancia);
  }

  /** Swapping origin and destination zone does not change the time. */
  lemma TiempoSimetrico(d: real, origen: Zona, destino: Zona)
    ensures TiempoViaje(d, origen, destino) == TiempoViaje(d, destino, origen)
  {
    assert VelocidadZona(origen) + VelocidadZona(destino) == VelocidadZona(destino) + VelocidadZona(origen);
  }

  /** No distance, no time. */
  lemma TiempoCero(origen: Zona, destino: Zona)
    ensures TiempoViaje(0.0, origen, destino) == 0.0
  {
  }

  /** A longer trip never takes less time. */
  lemma TiempoMonotono(d1: real, d2: real, origen: Zona, destino: Zona)
    requires d1 <= d2
    ensures TiempoViaje(d1, origen, destino) <= TiempoViaje(d2, origen, destino)
  {
    var v := (VelocidadZona(origen) + VelocidadZona(destino)) / 2.0;
    assert v > 0.0;
    assert d1 / v <= d2 / v;
  }

  /** Between 3.5 minutes per km (20 km/h on both ends) and 4.5 (15 km/h on both ends). */
  lemma TiempoPorKilometro(d: real, origen: Zona, destino: Zona)
    requires d >= 0.0
    ensures 3.5 * d <= TiempoViaje(d, origen, destino) <= 4.5 * d
  {
    var v := (VelocidadZona(origen) + VelocidadZona(destino)) / 2.0;
    assert 15.0 <= v <= 20.0;
    assert d / v * v == d;
    assert d / 20.0 <= d / v <= d / 15.0;
  }
}
