/** DiagnosticoInfactibilidad (modelo_optimizacion.py): the cheap checks made
    before a model is built, and the two helpers that loosen a model: scaling
    the depot capacities and deriving the load-balance bounds. */
module Diagnostico {
  import opened Util

  type PatioId = string
  type RutaId = string

  /** Sparse cost table: depot -> route -> cost; a missing entry forbids the pair. */
  type Matriz = map<PatioId, map<RutaId, real>>

  /** The depots whose row has an entry for route r. */
  function PatiosPosibles(m: Matriz, r: RutaId): (ps: set<PatioId>)
    ensures forall p :: p in ps <==> p in m && r in m[p]
  {
    set p | p in m && r in m[p]
  }

  /** Depots whose stated capacity exceeds the number of routes they can take. */
  ghost function PatiosHolgados(m: Matriz, caps: map<PatioId, int>): set<PatioId> {
    set p | p in caps && p in m && |m[p]| < caps[p]
  }

  /** sum(capacidades.values()) */
  method SumaCapacidades(caps: map<PatioId, int>) returns (total: int)
    ensures total == SumValues(caps)
  {
    total := 0;
    var resto := caps;
    while resto != map[]
      invariant total + SumValues(resto) == SumValues(caps)
      decreases |resto|
    {
      var p :| p in resto;
      SumValuesRemove(resto, p);
      total := total + resto[p];
      resto := resto - {p};
    }
  }

  /** verificar_factibilidad_basica: False as soon as there are more routes
      than total capacity; otherwise False exactly when some route has no
      depot at all. The per-depot comparison of capacity with candidate
      routes only produces warnings (`avisos`) and never changes the verdict. */
  method VerificarFactibilidadBasica(m: Matriz, caps: map<PatioId, int>, rutas: seq<RutaId>)
    returns (ok: bool, avisos: set<PatioId>)
    ensures |rutas| > SumValues(caps) ==> !ok
    ensures |rutas| <= SumValues(caps) ==>
              (ok <==> forall r :: r in rutas ==> PatiosPosibles(m, r) != {})
    ensures ok ==> avisos == PatiosHolgados(m, caps)
    ensures !ok ==> avisos == {}
  {
    var capacidadTotal := SumaCapacidades(caps);
    if |rutas| > capacidadTotal {
      return false, {};
    }
    var rutasSinPatio := RutasSinPatio(m, rutas);
    if rutasSinPatio != [] {
      assert rutasSinPatio[0] in rutas;
      return false, {};
    }
    avisos := AvisosCapacidad(m, caps);
    ok := true;
  }

  /** The routes no depot may take, in route order. */
  method RutasSinPatio(m: Matriz, rutas: seq<RutaId>) returns (sin: seq<RutaId>)
    ensures forall r :: r in sin <==> r in rutas && PatiosPosibles(m, r) == {}
  {
    sin := [];
    for k := 0 to |rutas|
      invariant forall r :: r in sin <==> r in rutas[..k] && PatiosPosibles(m, r) == {}
    {
      if PatiosPosibles(m, rutas[k]) == {} {
        sin := sin + [rutas[k]];
      }
    }
    assert rutas[..|rutas|] == rutas;
  }

  /** The depots warned about: more capacity than routes they may take. */
  method AvisosCapacidad(m: Matriz, caps: map<PatioId, int>) returns (avisos: set<PatioId>)
    ensures avisos == PatiosHolgados(m, caps)
  {
    avisos := {};
    var pendientes := caps.Keys;
    while pendientes != {}
      invariant pendientes <= caps.Keys
      invariant avisos == set p | p in caps.Keys - pendientes && p in m && |m[p]| < caps[p]
      decreases pendientes
    {
      var p :| p in pendientes;
      if p in m && |m[p]| < caps[p] {
        avisos := avisos + {p};
      }
      pendientes := pendientes - {p};
    }
  }

  /** A capacity scaled by factor, truncated toward zero. */
  function Relajada(c: int, factor: real): int {
    Trunc(c as real * factor)
  }

  /** The dictionary relajar_capacidades returns: same depots, each capacity
      c replaced by int(c * factor). */
  function CapacidadesRelajadas(caps: map<PatioId, int>, factor: real): map<PatioId, int> {
    map p | p in caps :: Relajada(caps[p], factor)
  }

  /** relajar_capacidades: builds the new dictionary entry by entry. */
  method RelajarCapacidades(caps: map<PatioId, int>, factor: real) returns (nuevas: map<PatioId, int>)
    ensures nuevas == CapacidadesRelajadas(caps, factor)
    ensures nuevas.Keys == caps.Keys
    ensures factor >= 1.0 ==> forall p :: p in caps && caps[p] >= 0 ==> nuevas[p] >= caps[p]
  {
    nuevas := map[];
    var pendientes := caps.Keys;
    while pendientes != {}
      invariant pendientes <= caps.Keys
      invariant nuevas.Keys == caps.Keys - pendientes
      invariant forall p :: p in nuevas ==> nuevas[p] == Relajada(caps[p], factor)
      decreases pendientes
    {
      var p :| p in pendientes;
      nuevas := nuevas[p := Relajada(caps[p], factor)];
      pendientes := pendientes - {p};
    }
    assert nuevas.Keys == CapacidadesRelajadas(caps, factor).Keys;
    if factor >= 1.0 {
      forall p | p in caps && caps[p] >= 0 ensures nuevas[p] >= caps[p] {
        RelajadaNoMenor(caps[p], factor);
      }
    }
  }

  /** With factor >= 1 a non-negative capacity never shrinks. */
  lemma RelajadaNoMenor(c: int, factor: real)
    requires c >= 0 && factor >= 1.0
    ensures Relajada(c, factor) >= c
  {
    assert c as real * factor >= c as real * 1.0;
  }

  /** Relaxing non-negative capacities never lowers the total capacity. */
  lemma CapacidadTotalRelajadaNoMenor(caps: map<PatioId, int>, factor: real)
    requires factor >= 1.0
    requires forall p :: p in caps ==> caps[p] >= 0
    ensures SumValues(CapacidadesRelajadas(caps, factor)) >= SumValues(caps)
  {
    var r := CapacidadesRelajadas(caps, factor);
    forall p | p in caps ensures caps[p] <= r[p] {
      RelajadaNoMenor(caps[p], factor);
    }
    SumValuesMonotone(caps, r);
  }

  /** Average load, total_rutas / total_patios, as a real number. */
  function CargaPromedio(totalRutas: nat, totalPatios: nat): real
    requires totalPatios > 0
  {
    totalRutas as real / totalPatios as real
  }

  /** ajustar_balance_carga: the lower bound is the average load times fmin,
      truncated, but at least 1; the upper bound is the average load times fmax, truncated. */
  function AjustarBalanceCarga(totalRutas: nat, totalPatios: nat, fmin: real, fmax: real): (r: (int, int))
    requires totalPatios > 0
    ensures r.0 >= 1
    ensures fmin >= 0.0 && CargaPromedio(totalRutas, totalPatios) * fmin >= 1.0 ==>
              r.0 as real <= CargaPromedio(totalRutas, totalPatios) * fmin < r.0 as real + 1.0
    ensures fmin >= 0.0 ==> CargaPromedio(totalRutas, totalPatios) * fmin < 2.0 ==> r.0 == 1
    ensures fmax >= 0.0 ==>
              0 <= r.1 && r.1 as real <= CargaPromedio(totalRutas, totalPatios) * fmax < r.1 as real + 1.0
  {
    var carga := CargaPromedio(totalRutas, totalPatios);
    var minRutas := Trunc(carga * fmin);
    (if minRutas > 1 then minRutas else 1, Trunc(carga * fmax))
  }

  /** When the average load times fmax is below 1, the upper bound is 0 while
      the lower bound is at least 1: every depot the balance constraint
      reaches is given an empty range. */
  lemma BalanceVacio(totalRutas: nat, totalPatios: nat, fmin: real, fmax: real)
    requires totalPatios > 0 && fmax >= 0.0
    requires CargaPromedio(totalRutas, totalPatios) * fmax < 1.0
    ensures AjustarBalanceCarga(totalRutas, totalPatios, fmin, fmax).1 == 0
    ensures AjustarBalanceCarga(totalRutas, totalPatios, fmin, fmax).0
            > AjustarBalanceCarga(totalRutas, totalPatios, fmin, fmax).1
  {
  }

  /** With 0 <= fmin <= fmax the bounds form a non-empty range as soon as the
      lower one is not forced up to 1. */
  lemma BalanceOrdenado(totalRutas: nat, totalPatios: nat, fmin: real, fmax: real)
    requires totalPatios > 0 && 0.0 <= fmin <= fmax
    requires CargaPromedio(totalRutas, totalPatios) * fmin >= 1.0
    ensures AjustarBalanceCarga(totalRutas, totalPatios, fmin, fmax).0
            <= AjustarBalanceCarga(totalRutas, totalPatios, fmin, fmax).1
  {
    var c := CargaPromedio(totalRutas, totalPatios);
    assert c >= 0.0;
    EscalaMonotona(c, fmin, fmax);
    TruncMonotona(c * fmin, c * fmax);
  }

  lemma EscalaMonotona(c: real, a: real, b: real)
    requires c >= 0.0 && a <= b
    ensures c * a <= c * b
  {
    assert c * b - c * a == c * (b - a);
  }

  lemma TruncMonotona(x: real, y: real)
    requires 0.0 <= x <= y
    ensures Trunc(x) <= Trunc(y)
  {
  }
}
