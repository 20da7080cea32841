/**
 * The deduplicating forwarder `guardarRegistro` of server.js, stated on
 * values: the in-memory key set and the destination table `tiempo` go in,
 * their new contents and the outcome come out. The destination is abstract:
 * its rows (for the `COUNT(*) ... WHERE HORA = ?` check), its column list
 * (what `DESCRIBE tiempo` answers) and which of its three statements, if any,
 * throws.
 */
module Reenvio {
  import opened Registros

  /** The destination statement that throws during one call, if any. */
  datatype FalloDestino = SinFallo | FalloConteo | FalloDescribe | FalloInsercion

  /**
   * How a call ends. Only `Insertado` makes `guardarRegistro` return true;
   * the caller sees every other outcome as the same `false`.
   */
  datatype Desenlace =
    | YaGuardado          // key already in the set: nothing asked of the destination
    | DuplicadoEnDestino  // the destination already holds a row for that time
    | SinColumnasComunes  // no column of the record exists at the destination
    | ErrorDestino        // a destination statement threw; the error was caught
    | Insertado

  datatype Reenvio = Reenvio(desenlace: Desenlace, claves: set<string>, filas: seq<Registro>)

  /** The boolean `guardarRegistro` returns. */
  predicate Guardado(r: Reenvio) { r.desenlace == Insertado }

  /** `SELECT COUNT(*) FROM tiempo WHERE HORA = ?` is positive. */
  predicate ExisteHora(filas: seq<Registro>, hora: string)
  {
    exists i :: 0 <= i < |filas| && Buscar(filas[i], "HORA") == Some(Cadena(hora))
  }

  /**
   * One call of `guardarRegistro(registro, hora)` against the key set
   * `claves` and a destination holding `filas` with columns `columnas`.
   * The key set and the destination only grow, by at most the call's key
   * and one row.
   */
  function Guardar(claves: set<string>, filas: seq<Registro>, columnas: seq<string>,
                   registro: Registro, hora: string, fallo: FalloDestino): (r: Reenvio)
    ensures claves <= r.claves <= claves + {ClaveUnica(hora, registro)}
    ensures |filas| <= |r.filas| <= |filas| + 1 && r.filas[..|filas|] == filas
  {
    var clave := ClaveUnica(hora, registro);
    if clave in claves then Reenvio(YaGuardado, claves, filas)
    else if fallo == FalloConteo then Reenvio(ErrorDestino, claves, filas)
    else if ExisteHora(filas, hora) then Reenvio(DuplicadoEnDestino, claves + {clave}, filas)
    else if fallo == FalloDescribe then Reenvio(ErrorDestino, claves, filas)
    else
      var fila := Proyectar(registro, columnas);
      if fila == [] then Reenvio(SinColumnasComunes, claves, filas)
      else if fallo == FalloInsercion then Reenvio(ErrorDestino, claves, filas)
      else
        assert (filas + [fila])[..|filas|] == filas;
        Reenvio(Insertado, claves + {clave}, filas + [fila])
  }

  /** A key already in the set ends the call at once: false, nothing changed. */
  lemma GuardarClaveConocida(claves: set<string>, filas: seq<Registro>, columnas: seq<string>,
                             registro: Registro, hora: string, fallo: FalloDestino)
    requires ClaveUnica(hora, registro) in claves
    ensures Guardar(claves, filas, columnas, registro, hora, fallo) == Reenvio(YaGuardado, claves, filas)
  {
  }

  /** A new key whose time the destination already holds is remembered, and nothing is inserted. */
  lemma GuardarDuplicadoEnDestino(claves: set<string>, filas: seq<Registro>, columnas: seq<string>,
                                  registro: Registro, hora: string, fallo: FalloDestino)
    requires ClaveUnica(hora, registro) !in claves
    requires fallo != FalloConteo && ExisteHora(filas, hora)
    ensures var r := Guardar(claves, filas, columnas, registro, hora, fallo);
            !Guardado(r) && r.claves == claves + {ClaveUnica(hora, registro)} && r.filas == filas
  {
  }

  /**
   * A row is inserted, and true returned, exactly when the key is new, no
   * statement throws, the destination has no row for the time and some
   * column is shared; the row is the record projected onto the destination
   * columns, and the key is remembered.
   */
  lemma GuardarInserta(claves: set<string>, filas: seq<Registro>, columnas: seq<string>,
                       registro: Registro, hora: string, fallo: FalloDestino)
    ensures var r := Guardar(claves, filas, columnas, registro, hora, fallo);
            Guardado(r) <==> ClaveUnica(hora, registro) !in claves && fallo == SinFallo
                             && !ExisteHora(filas, hora)
                             && exists i :: 0 <= i < |registro| && registro[i].0 in columnas
    ensures var r := Guardar(claves, filas, columnas, registro, hora, fallo);
            Guardado(r) ==> r.filas == filas + [Proyectar(registro, columnas)]
                            && r.claves == claves + {ClaveUnica(hora, registro)}
  {
    ProyectarVacia(registro, columnas);
  }

  /** Without a row inserted the destination is untouched; the key is added only on the duplicate path. */
  lemma GuardarSinInsercion(claves: set<string>, filas: seq<Registro>, columnas: seq<string>,
                            registro: Registro, hora: string, fallo: FalloDestino)
    ensures var r := Guardar(claves, filas, columnas, registro, hora, fallo);
            !Guardado(r) ==> r.filas == filas
                             && (r.claves == claves || r.desenlace == DuplicadoEnDestino)
  {
  }

  /** A thrown statement leaves both the key set and the destination as they were. */
  lemma GuardarConError(claves: set<string>, filas: seq<Registro>, columnas: seq<string>,
                        registro: Registro, hora: string, fallo: FalloDestino)
    ensures var r := Guardar(claves, filas, columnas, registro, hora, fallo);
            r.desenlace == ErrorDestino ==> fallo != SinFallo && r.claves == claves && r.filas == filas
  {
  }

  /**
   * Once a record was forwarded or confirmed duplicate for a time, asking
   * again is a no-op, whatever the destination holds or throws by then.
   */
  lemma GuardarIdempotente(claves: set<string>, filas: seq<Registro>, columnas: seq<string>,
                           registro: Registro, hora: string, fallo: FalloDestino,
                           filas2: seq<Registro>, columnas2: seq<string>, fallo2: FalloDestino)
    requires Guardar(claves, filas, columnas, registro, hora, fallo).desenlace in {Insertado, DuplicadoEnDestino}
    ensures var r := Guardar(claves, filas, columnas, registro, hora, fallo);
            Guardar(r.claves, filas2, columnas2, registro, hora, fallo2) == Reenvio(YaGuardado, r.claves, filas2)
  {
  }

  /** No two destination rows carry the same `HORA` value. */
  predicate HorasUnicas(filas: seq<Registro>)
  {
    forall i, j :: 0 <= i < j < |filas| && Buscar(filas[i], "HORA").Some? ==>
      Buscar(filas[i], "HORA") != Buscar(filas[j], "HORA")
  }

  /**
   * Forwarding a record whose `HORA` is the queried time, as every row the
   * source query returns is, never puts a second row for one time into a
   * destination that had none.
   */
  lemma GuardarConservaHorasUnicas(claves: set<string>, filas: seq<Registro>, columnas: seq<string>,
                                   registro: Registro, hora: string, fallo: FalloDestino)
    requires HorasUnicas(filas)
    requires Buscar(registro, "HORA") == Some(Cadena(hora))
    ensures HorasUnicas(Guardar(claves, filas, columnas, registro, hora, fallo).filas)
  {
    var r := Guardar(claves, filas, columnas, registro, hora, fallo);
    if Guardado(r) {
      var fila := Proyectar(registro, columnas);
      GuardarInserta(claves, filas, columnas, registro, hora, fallo);
      assert r.filas == filas + [fila] && !ExisteHora(filas, hora);
      BuscarProyectada(registro, columnas, "HORA");
      var horaFila := Buscar(fila, "HORA");
      assert horaFila == None || horaFila == Some(Cadena(hora));
      assert forall i :: 0 <= i < |filas| ==> Buscar(filas[i], "HORA") != Some(Cadena(hora));
      forall i, j | 0 <= i < j < |r.filas| && Buscar(r.filas[i], "HORA").Some?
        ensures Buscar(r.filas[i], "HORA") != Buscar(r.filas[j], "HORA")
      {
        assert r.filas[i] == filas[i];
        if j < |filas| {
          assert r.filas[j] == filas[j];
        }
      }
    }
  }

  /**
   * The `for ... of Object.entries(registro)` loop of `guardarRegistro`:
   * the record's columns that the destination lists, and their values, side
   * by side in record order — the record projected onto the destination.
   */
  method ColumnasComunes(registro: Registro, nombres: seq<string>)
    returns (columnas: seq<string>, valores: seq<Valor>)
    ensures |columnas| == |valores| == |Proyectar(registro, nombres)|
    ensures forall k :: 0 <= k < |columnas| ==> (columnas[k], valores[k]) == Proyectar(registro, nombres)[k]
  {
    columnas, valores := [], [];
    var i := 0;
    while i < |registro|
      invariant 0 <= i <= |registro|
      invariant |columnas| == |valores| == |Proyectar(registro[..i], nombres)|
      invariant forall k :: 0 <= k < |columnas| ==> (columnas[k], valores[k]) == Proyectar(registro[..i], nombres)[k]
    {
      var (columna, valor) := registro[i];
      assert registro[..i + 1][..i] == registro[..i];
      if columna in nombres {
        columnas := columnas + [columna];
        valores := valores + [valor];
      }
      i := i + 1;
    }
    assert registro[..i] == registro;
  }
}
