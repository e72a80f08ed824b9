/** The capacity file written by guardar_datos_procesados
    (procesamiento_datos.py) and, identically, by _guardar_capacidades
    (procesamiento_datos_copy.py): one capacity per depot row that carries an
    id, keyed by the id printed in decimal, plus their sum cap_total. */
module Capacidades {
  import opened Util
  import Config
  import D = Diagnostico

  /** A cell of the cap_total column: missing or NaN, present but rejected by
      float(), or a number. */
  datatype Celda = Vacia | NoNumerica | Numero(valor: real)

  /** A depot row: the id fields in the order they are tried (objectid,
      OBJECTID, id, Id; None when the field is absent) and its cap_total cell. */
  datatype FilaPatio = FilaPatio(objectid: Option<int>, objectidMay: Option<int>,
                                 id: Option<int>, idMay: Option<int>, cap: Celda)

  /** Python truthiness of an optional integer: None and 0 are false. */
  predicate Verdadero(x: Option<int>) {
    x.Some? && x.value != 0
  }

  /** `objectid or OBJECTID or id or Id`: the first true field, otherwise the last one. */
  function IdPatio(f: FilaPatio): (r: Option<int>)
    ensures Verdadero(r) <==> Verdadero(f.objectid) || Verdadero(f.objectidMay) || Verdadero(f.id) || Verdadero(f.idMay)
    ensures Verdadero(f.objectid) ==> r == f.objectid
    ensures !Verdadero(f.objectid) && Verdadero(f.objectidMay) ==> r == f.objectidMay
    ensures !Verdadero(f.objectid) && !Verdadero(f.objectidMay) && Verdadero(f.id) ==> r == f.id
    ensures !Verdadero(f.objectid) && !Verdadero(f.objectidMay) && !Verdadero(f.id) ==> r == f.idMay
  {
    if Verdadero(f.objectid) then f.objectid
    else if Verdadero(f.objectidMay) then f.objectidMay
    else if Verdadero(f.id) then f.id
    else f.idMay
  }

  /** The capacity of one row: the number truncated toward zero when the column exists and the
      cell holds a number, the default otherwise. */
  function Capacidad(hayColumna: bool, c: Celda): (cap: int)
    ensures !hayColumna || !c.Numero? ==> cap == Config.CapacidadPatioDefault
    ensures hayColumna && c.Numero? && c.valor >= 0.0 ==> cap >= 0 && cap as real <= c.valor < cap as real + 1.0
    ensures hayColumna && c.Numero? && c.valor < 0.0 ==> cap <= 0 && cap as real - 1.0 < c.valor <= cap as real
    ensures hayColumna && c.Numero? ==> cap == Trunc(c.valor)
  {
    if hayColumna && c.Numero? then Trunc(c.valor) else Config.CapacidadPatioDefault
  }

  /** The key a row is stored under, if it is stored at all. */
  function Clave(f: FilaPatio): Option<string> {
    match IdPatio(f)
    case None => None
    case Some(n) => Some(IntToString(n))
  }

  /** One row of the loop: a row without id is skipped, otherwise its
      capacity is stored under its key, replacing an earlier one. */
  function Guardar(previas: map<string, int>, f: FilaPatio, hayColumna: bool): (m: map<string, int>)
    ensures Clave(f).None? ==> m == previas
    ensures Clave(f).Some? ==> m.Keys == previas.Keys + {Clave(f).value}
    ensures Clave(f).Some? ==> m[Clave(f).value] == Capacidad(hayColumna, f.cap)
    ensures forall k :: k in previas && Clave(f) != Some(k) ==> k in m && m[k] == previas[k]
  {
    match Clave(f)
    case None => previas
    case Some(k) => previas[k := Capacidad(hayColumna, f.cap)]
  }

  /** The dictionary after the loop over the rows. */
  function CapacidadesDe(filas: seq<FilaPatio>, hayColumna: bool): map<string, int>
    decreases |filas|
  {
    if filas == [] then map[]
    else Guardar(CapacidadesDe(filas[..|filas| - 1], hayColumna), filas[|filas| - 1], hayColumna)
  }

  /** The row loop and cap_total = sum(capacidades.values()). */
  method GuardarCapacidades(filas: seq<FilaPatio>, hayColumna: bool)
    returns (capacidades: map<string, int>, capTotal: int)
    ensures capacidades == CapacidadesDe(filas, hayColumna)
    ensures capTotal == SumValues(capacidades)
  {
    capacidades := map[];
    for i := 0 to |filas|
      invariant capacidades == CapacidadesDe(filas[..i], hayColumna)
    {
      assert filas[..i + 1][..i] == filas[..i];
      var f := filas[i];
      var patioId := IdPatio(f);
      if patioId.None? {
        continue;
      }
      var capacidad := Config.CapacidadPatioDefault;
      if hayColumna {
        match f.cap {
          case Vacia =>
          case NoNumerica => capacidad := Config.CapacidadPatioDefault;
          case Numero(v) => capacidad := Trunc(v);
        }
      }
      capacidades := capacidades[IntToString(patioId.value) := capacidad];
    }
    assert filas[..|filas|] == filas;
    capTotal := D.SumaCapacidades(capacidades);
  }

  // ---------------------------------------------------------------------------

  /** A key is stored exactly when some row carries an id printing as it. */
  lemma {:induction false} ClavesCapacidades(filas: seq<FilaPatio>, hayColumna: bool, k: string)
    ensures k in CapacidadesDe(filas, hayColumna) <==> exists f :: f in filas && Clave(f) == Some(k)
    decreases |filas|
  {
    if filas != [] {
      var n := |filas| - 1;
      ClavesCapacidades(filas[..n], hayColumna, k);
      assert filas == filas[..n] + [filas[n]];
    }
  }

  /** Row i is the last row stored under key k. */
  predicate UltimaCon(filas: seq<FilaPatio>, k: string, i: int) {
    0 <= i < |filas| && Clave(filas[i]) == Some(k) &&
    forall j :: i < j < |filas| ==> Clave(filas[j]) != Some(k)
  }

  /** Extending the rows keeps a last row that the new row does not share its key with. */
  lemma UltimaConExtendida(filas: seq<FilaPatio>, k: string, i: int)
    requires filas != []
    requires UltimaCon(filas[..|filas| - 1], k, i)
    requires Clave(filas[|filas| - 1]) != Some(k)
    ensures UltimaCon(filas, k, i)
  {
    var n := |filas| - 1;
    forall j | i < j < |filas|
      ensures Clave(filas[j]) != Some(k)
    {
      if j < n {
        assert filas[..n][j] == filas[j];
      }
    }
  }

  /** The capacity stored under a key is the one of the last row with that key. */
  lemma {:induction false} UltimaFilaGana(filas: seq<FilaPatio>, hayColumna: bool, k: string)
    requires k in CapacidadesDe(filas, hayColumna)
    ensures exists i :: UltimaCon(filas, k, i) && CapacidadesDe(filas, hayColumna)[k] == Capacidad(hayColumna, filas[i].cap)
    decreases |filas|
  {
    var n := |filas| - 1;
    if Clave(filas[n]) == Some(k) {
      assert UltimaCon(filas, k, n);
    } else {
      var previas := CapacidadesDe(filas[..n], hayColumna);
      UltimaFilaGana(filas[..n], hayColumna, k);
      var i :| UltimaCon(filas[..n], k, i) && previas[k] == Capacidad(hayColumna, filas[..n][i].cap);
      UltimaConExtendida(filas, k, i);
    }
  }

  /** Without a cap_total column every depot gets the default, so cap_total
      is the default times the number of depots. */
  lemma {:induction false} SinColumnaTodoDefault(filas: seq<FilaPatio>)
    ensures forall k :: k in CapacidadesDe(filas, false) ==> CapacidadesDe(filas, false)[k] == Config.CapacidadPatioDefault
    ensures SumValues(CapacidadesDe(filas, false)) == Config.CapacidadPatioDefault * |CapacidadesDe(filas, false)|
    decreases |filas|
  {
    if filas != [] {
      SinColumnaTodoDefault(filas[..|filas| - 1]);
    }
    SumValuesConstant(CapacidadesDe(filas, false), Config.CapacidadPatioDefault);
  }

  /** When every number in the column is non-negative, so is cap_total. */
  lemma {:induction false} CapTotalNoNegativo(filas: seq<FilaPatio>, hayColumna: bool)
    requires forall i :: 0 <= i < |filas| && filas[i].cap.Numero? ==> filas[i].cap.valor >= 0.0
    ensures forall k :: k in CapacidadesDe(filas, hayColumna) ==> CapacidadesDe(filas, hayColumna)[k] >= 0
    ensures SumValues(CapacidadesDe(filas, hayColumna)) >= 0
    decreases |filas|
  {
    var caps := CapacidadesDe(filas, hayColumna);
    if filas != [] {
      var n := |filas| - 1;
      assert forall i :: 0 <= i < n ==> filas[..n][i] == filas[i];
      CapTotalNoNegativo(filas[..n], hayColumna);
    }
    var ceros := map k | k in caps :: 0;
    SumValuesConstant(ceros, 0);
    SumValuesMonotone(ceros, caps);
  }
}
