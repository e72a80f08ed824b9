/** The 0/1 linear programs that PuLP is asked to solve, as plain values: the
    variables that exist, the objective as a list of weighted variables and
    the named constraints. The solver itself is an oracle that maps a model
    to a status and a value per variable. */
module Lp {

  /** Decision variables of both formulations. */
  datatype Var =
    | Asignacion(patio: string, unidad: string)  // x[(patio, ruta)] or x[bus, patio]
    | PatioUtilizado(patio: string)              // y[p]
    | TiempoMaximo                               // t_max

  datatype Sentido = Igual | MenorIgual | MayorIgual

  /** Constraint names, one constructor per name pattern of the source. */
  datatype Etiqueta =
    | RutaAsignada(ruta: string)
    | CapacidadPatio(patio: string)
    | MinRutasPatio(patio: string)
    | MaxRutasPatio(patio: string)
    | AsignacionUnica(bus: string)
    | Capacidad(patio: string)

  type Termino = (Var, real)

  /** sum(coef * var) <sentido> rhs */
  datatype Restriccion = Restriccion(etiqueta: Etiqueta, terminos: seq<Termino>, sentido: Sentido, rhs: real)

  datatype Modelo = Modelo(variables: set<Var>, objetivo: seq<Termino>, restricciones: seq<Restriccion>)

  /** PuLP's solution statuses (LpStatus). */
  datatype Estado = Optimo | NoResuelto | Infactible | NoAcotado | Indefinido

  type Valores = map<Var, real>

  /** What the solver hands back: a status and a value per variable. */
  datatype Solucion = Solucion(estado: Estado, valores: Valores)

  /** Value of a variable in a solution; a variable the solver did not report reads as 0. */
  function Val(v: Valores, x: Var): real {
    if x in v then v[x] else 0.0
  }

  /** Value of a linear expression. */
  function Lhs(ts: seq<Termino>, v: Valores): real
    decreases |ts|
  {
    if ts == [] then 0.0
    else Lhs(ts[..|ts| - 1], v) + ts[|ts| - 1].1 * Val(v, ts[|ts| - 1].0)
  }

  predicate Cumple(r: Restriccion, v: Valores) {
    match r.sentido
    case Igual => Lhs(r.terminos, v) == r.rhs
    case MenorIgual => Lhs(r.terminos, v) <= r.rhs
    case MayorIgual => Lhs(r.terminos, v) >= r.rhs
  }

  /** Every constraint of a list holds. */
  predicate CumpleTodas(rs: seq<Restriccion>, v: Valores) {
    forall r :: r in rs ==> Cumple(r, v)
  }

  predicate Satisface(m: Modelo, v: Valores) {
    CumpleTodas(m.restricciones, v)
  }

  function ValorObjetivo(m: Modelo, v: Valores): real {
    Lhs(m.objetivo, v)
  }

  /** The assignment and depot-use variables take only the values 0 and 1. */
  predicate Binario(v: Valores) {
    forall x :: x in v && !x.TiempoMaximo? ==> v[x] == 0.0 || v[x] == 1.0
  }

  lemma CumpleTodasConcat(a: seq<Restriccion>, b: seq<Restriccion>, v: Valores)
    ensures CumpleTodas(a + b, v) <==> CumpleTodas(a, v) && CumpleTodas(b, v)
  {
  }
}
