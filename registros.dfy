/**
 * Rows as the server receives them from mysql2 and the client receives them
 * over the socket: JavaScript objects with dynamic columns, kept here as the
 * ordered list of their `Object.entries`. Also the helpers both sides use on
 * them: column lookup, `${value}` rendering, the dedup key of server.js and
 * the projection onto a column list.
 */
module Registros {
  import opened Texto

  datatype Option<T> = None | Some(value: T)

  /** A column value: text, an integer, or SQL NULL. */
  datatype Valor = Cadena(s: string) | Entero(n: int) | Nulo

  /** A row: its (column, value) entries in `Object.entries` order. */
  type Registro = seq<(string, Valor)>

  /** `registro[columna]`: the value of the first entry named `columna`, or `None` (`undefined`). */
  function Buscar(r: Registro, columna: string): (v: Option<Valor>)
    ensures v.Some? ==> (columna, v.value) in r
  {
    if r == [] then None
    else if r[0].0 == columna then Some(r[0].1)
    else Buscar(r[1..], columna)
  }

  /** The lookup finds a value exactly when some entry has the column, and then it is the first such entry's. */
  lemma {:induction false} BuscarPrimero(r: Registro, columna: string)
    ensures Buscar(r, columna).None? <==> forall i :: 0 <= i < |r| ==> r[i].0 != columna
    ensures Buscar(r, columna).Some? ==>
              exists i :: 0 <= i < |r| && r[i] == (columna, Buscar(r, columna).value)
                          && forall j :: 0 <= j < i ==> r[j].0 != columna
  {
    if r != [] && r[0].0 != columna {
      BuscarPrimero(r[1..], columna);
      if Buscar(r, columna).Some? {
        var i :| 0 <= i < |r[1..]| && r[1..][i] == (columna, Buscar(r, columna).value)
                 && forall j :: 0 <= j < i ==> r[1..][j].0 != columna;
        assert r[i + 1] == (columna, Buscar(r, columna).value);
      }
    }
  }

  /** `${valor}` in a template literal. */
  function Mostrar(v: Valor): (s: string)
    ensures v.Cadena? ==> s == v.s
    ensures v.Entero? ==> s == CadenaEntero(v.n) && |s| >= 1
    ensures v.Nulo? ==> s == "null"
  {
    match v
    case Cadena(s) => s
    case Entero(n) => CadenaEntero(n)
    case Nulo => "null"
  }

  /** JavaScript falsiness of a column value: the empty string, 0 and null. */
  predicate EsFalso(v: Valor)
  {
    v == Cadena("") || v == Entero(0) || v == Nulo
  }

  /** `registro.ID || ''`, rendered: empty when the ID is missing or falsy. */
  function ParteId(r: Registro): (s: string)
    ensures s == [] <==> Buscar(r, "ID").None? || EsFalso(Buscar(r, "ID").value)
    ensures s != [] ==> s == Mostrar(Buscar(r, "ID").value)
  {
    match Buscar(r, "ID")
    case None => ""
    case Some(v) => if EsFalso(v) then "" else Mostrar(v)
  }

  /** `clave_unica` of `guardarRegistro`: the query time, an underscore, the record's ID part. */
  function ClaveUnica(hora: string, r: Registro): (k: string)
    ensures |k| == |hora| + 1 + |ParteId(r)|
    ensures k[..|hora|] == hora && k[|hora|] == '_' && k[|hora| + 1..] == ParteId(r)
  {
    hora + "_" + ParteId(r)
  }

  /**
   * For query times of one length, which the server's `HH:mm:ss` always has,
   * keys are equal exactly when the times and the ID parts are.
   */
  lemma ClaveUnicaDistingue(h1: string, r1: Registro, h2: string, r2: Registro)
    requires |h1| == |h2|
    ensures ClaveUnica(h1, r1) == ClaveUnica(h2, r2) <==> h1 == h2 && ParteId(r1) == ParteId(r2)
  {
    if ClaveUnica(h1, r1) == ClaveUnica(h2, r2) {
      assert h1 == ClaveUnica(h1, r1)[..|h1|];
      assert h2 == ClaveUnica(h2, r2)[..|h2|];
      assert ParteId(r1) == ClaveUnica(h1, r1)[|h1| + 1..];
      assert ParteId(r2) == ClaveUnica(h2, r2)[|h2| + 1..];
    }
  }

  /** Whether `a` can be obtained from `b` by deleting entries, keeping the order of the rest. */
  predicate EsSubsecuencia<T(==)>(a: seq<T>, b: seq<T>)
    decreases |b|
  {
    if a == [] then true
    else if b == [] then false
    else if a[|a| - 1] == b[|b| - 1] then EsSubsecuencia(a[..|a| - 1], b[..|b| - 1])
    else EsSubsecuencia(a, b[..|b| - 1])
  }

  /** The entries of `r` whose column is in `nombres`, in the order of `r`. */
  function Proyectar(r: Registro, nombres: seq<string>): (p: Registro)
    ensures |p| <= |r|
    ensures forall i :: 0 <= i < |p| ==> p[i] in r && p[i].0 in nombres
  {
    if r == [] then []
    else
      var previo := Proyectar(r[..|r| - 1], nombres);
      if r[|r| - 1].0 in nombres then previo + [r[|r| - 1]] else previo
  }

  /** An entry survives the projection exactly when it is in the record and its column in the list. */
  lemma {:induction false} ProyectarExacta(r: Registro, nombres: seq<string>, e: (string, Valor))
    ensures e in Proyectar(r, nombres) <==> e in r && e.0 in nombres
  {
    if r != [] {
      ProyectarExacta(r[..|r| - 1], nombres, e);
      assert r == r[..|r| - 1] + [r[|r| - 1]];
    }
  }

  /** The projection keeps the record's order. */
  lemma {:induction false} ProyectarOrden(r: Registro, nombres: seq<string>)
    ensures EsSubsecuencia(Proyectar(r, nombres), r)
  {
    if r != [] {
      var previo := Proyectar(r[..|r| - 1], nombres);
      ProyectarOrden(r[..|r| - 1], nombres);
      if r[|r| - 1].0 !in nombres {
        SubsecuenciaDeMayor(previo, r[..|r| - 1], r[|r| - 1]);
      } else {
        assert (previo + [r[|r| - 1]])[..|previo|] == previo;
      }
    }
  }

  lemma {:induction false} SubsecuenciaDeMayor<T>(a: seq<T>, b: seq<T>, x: T)
    requires EsSubsecuencia(a, b)
    ensures EsSubsecuencia(a, b + [x])
    decreases |b|, 1
  {
    if a != [] {
      assert (b + [x])[..|b|] == b;
      if a[|a| - 1] == x {
        SubsecuenciaSinUltimo(a, b);
      }
    }
  }

  lemma {:induction false} SubsecuenciaSinUltimo<T>(a: seq<T>, b: seq<T>)
    requires a != [] && EsSubsecuencia(a, b)
    ensures EsSubsecuencia(a[..|a| - 1], b)
    decreases |b|, 0
  {
    var inicio := b[..|b| - 1];
    assert inicio + [b[|b| - 1]] == b;
    if a[|a| - 1] == b[|b| - 1] {
      SubsecuenciaDeMayor(a[..|a| - 1], inicio, b[|b| - 1]);
    } else {
      SubsecuenciaSinUltimo(a, inicio);
      SubsecuenciaDeMayor(a[..|a| - 1], inicio, b[|b| - 1]);
    }
  }

  /** The projection is empty exactly when no column of the record is in the list. */
  lemma ProyectarVacia(r: Registro, nombres: seq<string>)
    ensures Proyectar(r, nombres) == [] <==> forall i :: 0 <= i < |r| ==> r[i].0 !in nombres
  {
    if Proyectar(r, nombres) == [] {
      forall i | 0 <= i < |r| ensures r[i].0 !in nombres {
        ProyectarExacta(r, nombres, r[i]);
      }
    } else {
      var e := Proyectar(r, nombres)[0];
      ProyectarExacta(r, nombres, e);
    }
  }

  /** Looking a column up in the projection finds what the record holds, when the list names the column. */
  lemma {:induction false} BuscarProyectada(r: Registro, nombres: seq<string>, columna: string)
    ensures Buscar(Proyectar(r, nombres), columna) == if columna in nombres then Buscar(r, columna) else None
  {
    if r != [] {
      var inicio, ultimo := r[..|r| - 1], r[|r| - 1];
      BuscarProyectada(inicio, nombres, columna);
      BuscarAlFinal(inicio, ultimo, columna);
      if ultimo.0 in nombres {
        BuscarAlFinal(Proyectar(inicio, nombres), ultimo, columna);
      }
      assert r == inicio + [ultimo];
    }
  }

  lemma {:induction false} BuscarAlFinal(r: Registro, e: (string, Valor), columna: string)
    ensures Buscar(r + [e], columna) == if Buscar(r, columna).Some? then Buscar(r, columna)
                                       else if e.0 == columna then Some(e.1) else None
  {
    if r != [] {
      assert (r + [e])[1..] == r[1..] + [e];
      BuscarAlFinal(r[1..], e, columna);
    }
  }
}
