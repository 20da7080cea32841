/**
 * The polling engine of server.js, `MonitorTiempoReal`: the `monitoreando`
 * flag the two routes flip, the record lookup that forwards each found row,
 * and the `while (this.monitoreando)` loop that first aligns itself to the
 * 5-second grid and then polls once per tick.
 *
 * Everything the engine takes from outside is a parameter. The UTC clock
 * readings, the source database as each poll sees it, which destination
 * statement throws, and when a stop request arrives are all given per loop
 * iteration in a `Ciclo`. What the engine sends out (Socket.IO events) and
 * its sleeps form a trace. The destination table is an object of its own,
 * `BaseDestino`, that the forwarder updates.
 */
module Monitor {
  import opened Registros
  import opened Reloj
  import opened Reenvio
  import opened Texto

  /** Socket.IO events the engine broadcasts; `zona_horaria`, always the same text, is left off. */
  datatype Evento =
    | MonitoreoIniciado
    | MonitoreoDetenido
    | Sincronizando(esperando: nat, proximoMultiplo: string)
    | Sincronizado(tabla: string)
    | NuevoRegistro(registro: Registro, hora: string, horaActual: string, guardado: bool, tabla: string)

  /** One observable step: an event sent, or a `setTimeout` sleep of `ms` milliseconds begun. */
  datatype Paso = Emitir(evento: Evento) | Esperar(ms: nat)

  /** The lengths of the sleeps in a trace, in order. */
  function Esperas(traza: seq<Paso>): seq<nat>
  {
    if traza == [] then []
    else
      var ultimo := traza[|traza| - 1];
      Esperas(traza[..|traza| - 1]) + (if ultimo.Esperar? then [ultimo.ms] else [])
  }

  /** Appending one step adds its length to the sleeps when it is a sleep. */
  lemma EsperasPaso(traza: seq<Paso>, p: Paso)
    ensures Esperas(traza + [p]) == Esperas(traza) + (if p.Esperar? then [p.ms] else [])
  {
    assert (traza + [p])[..|traza|] == traza;
  }

  lemma {:induction false} EsperasConcatena(a: seq<Paso>, b: seq<Paso>)
    ensures Esperas(a + b) == Esperas(a) + Esperas(b)
    decreases |b|
  {
    if b == [] {
      assert a + b == a;
    } else {
      var b0, x := b[..|b| - 1], b[|b| - 1];
      assert b == b0 + [x];
      assert a + b == (a + b0) + [x];
      EsperasPaso(a + b0, x);
      EsperasPaso(b0, x);
      EsperasConcatena(a, b0);
    }
  }

  /** A stretch of trace without sleeps adds nothing to the sleeps. */
  lemma {:induction false} EsperasSoloEventos(traza: seq<Paso>)
    requires forall i :: 0 <= i < |traza| ==> traza[i].Emitir?
    ensures Esperas(traza) == []
    decreases |traza|
  {
    if traza != [] {
      EsperasSoloEventos(traza[..|traza| - 1]);
    }
  }

  /** The source database as one poll sees it: its tables by name, or unreachable. */
  datatype Fuente = Disponible(tablas: map<string, seq<Registro>>) | Caida

  /**
   * Where a stop request (`detenerMonitoreo`) lands during an iteration:
   * nowhere, during the alignment sleep, while the lookup awaits the
   * databases, or during the sleep to the next tick (or the error back-off).
   * A request can only land at a suspension the iteration actually makes;
   * one aimed at a sleep of zero length does not happen in that iteration.
   */
  datatype Parada = Ninguna | DuranteSincronizacion | DuranteConsulta | DuranteEspera

  /**
   * What one loop iteration meets: the UTC clock read by the alignment, by
   * the query-time computation, by the `hora_actual` reading and by the
   * wait computation; the source; the destination fault; whether emitting
   * `sincronizando` throws; and where a stop request lands.
   */
  datatype Ciclo = Ciclo(
    tSincronizacion: int, tConsulta: int, tActual: int, tEspera: int,
    fuente: Fuente, falloDestino: FalloDestino, falloSincronizando: bool, parada: Parada)

  /** The rows of a table with `HORA = hora`, in table order. */
  function FiltrarHora(filas: seq<Registro>, hora: string): (r: seq<Registro>)
    ensures |r| <= |filas|
    ensures forall i :: 0 <= i < |r| ==> Buscar(r[i], "HORA") == Some(Cadena(hora))
    ensures forall f :: f in r <==> f in filas && Buscar(f, "HORA") == Some(Cadena(hora))
  {
    if filas == [] then []
    else
      var inicio, ultima := filas[..|filas| - 1], filas[|filas| - 1];
      assert filas == inicio + [ultima];
      var previo := FiltrarHora(inicio, hora);
      if Buscar(ultima, "HORA") == Some(Cadena(hora)) then previo + [ultima] else previo
  }

  /**
   * `SELECT * FROM <tabla> WHERE HORA = ?`: the matching rows, or `None`
   * when the query throws (source unreachable, or no such table).
   */
  function Consultar(fuente: Fuente, tabla: string, hora: string): (r: Option<seq<Registro>>)
    ensures r.None? <==> fuente.Caida? || tabla !in fuente.tablas
    ensures r.Some? ==> forall i :: 0 <= i < |r.value| ==> Buscar(r.value[i], "HORA") == Some(Cadena(hora))
  {
    match fuente
    case Caida => None
    case Disponible(tablas) => if tabla in tablas then Some(FiltrarHora(tablas[tabla], hora)) else None
  }

  /** The engine's state as the model sees it, the destination table included. */
  datatype EstadoMonitor = EstadoMonitor(
    monitoreando: bool,
    ultimoRegistro: Option<Registro>,
    ultimaHoraRegistro: Option<string>,
    registrosGuardados: set<string>,
    tabla: string,
    traza: seq<Paso>,
    filasDestino: seq<Registro>,
    columnasDestino: seq<string>)

  /** Just after construction: idle, nothing seen or stored, table named from the local date at that moment. */
  function Inicial(ahoraUtc: int, filas: seq<Registro>, columnas: seq<string>): EstadoMonitor
  {
    EstadoMonitor(false, None, None, {}, NombreTablaActual(ahoraUtc), [], filas, columnas)
  }

  /** `detenerMonitoreo`: clear the flag and announce it, whatever the state. */
  function Detener(e: EstadoMonitor): (r: EstadoMonitor)
    ensures !r.monitoreando && r.traza == e.traza + [Emitir(MonitoreoDetenido)]
    ensures r == e.(monitoreando := false, traza := r.traza)
  {
    e.(monitoreando := false, traza := e.traza + [Emitir(MonitoreoDetenido)])
  }

  /** `iniciarMonitoreo`: the new state and whether a loop is launched; nothing happens when already running. */
  function Iniciar(e: EstadoMonitor): (r: (EstadoMonitor, bool))
    ensures r.0.monitoreando && (r.1 <==> !e.monitoreando)
    ensures r.1 ==> r.0 == e.(monitoreando := true, traza := e.traza + [Emitir(MonitoreoIniciado)])
    ensures !r.1 ==> r.0 == e
  {
    if e.monitoreando then (e, false)
    else (e.(monitoreando := true, traza := e.traza + [Emitir(MonitoreoIniciado)]), true)
  }

  /**
   * The sleep `calcular_proximo_multiplo_5` asks for at the local reading of
   * the UTC clock `utc`, in milliseconds: none when that reading is already on
   * a multiple of 5 seconds, otherwise one that wakes on such a second.
   */
  function EsperaHastaTick(utc: int): (r: seq<nat>)
    ensures |r| <= 1 && forall i :: 0 <= i < |r| ==> 0 < r[i] < 5000
  {
    var s := ProximoMultiplo5(HoraActualVenezuela(utc));
    if s.espera > 0 then [s.espera * MsPorSegundo] else []
  }

  /** No sleep exactly when the local clock is already on a multiple of 5 seconds; a sleep wakes on one. */
  lemma EsperaHastaTickDespierta(utc: int)
    ensures EsperaHastaTick(utc) == [] <==> Segundo(HoraActualVenezuela(utc)) % 5 == 0
    ensures forall i :: 0 <= i < |EsperaHastaTick(utc)| ==>
              var t := HoraActualVenezuela(utc) + EsperaHastaTick(utc)[i];
              Segundo(t) % 5 == 0 && Milis(t) == Milis(HoraActualVenezuela(utc))
  {
    EsperaAterrizaEnMultiplo(HoraActualVenezuela(utc));
  }

  /** The steps a sleep of `ms` milliseconds leaves in the trace: the sleep, then the stop event if one lands. */
  function Pausa(ms: nat, interrumpido: bool): (r: seq<Paso>)
    ensures Esperas(r) == [ms]
  {
    EsperasPaso([], Esperar(ms));
    EsperasPaso([Esperar(ms)], Emitir(MonitoreoDetenido));
    [Esperar(ms)] + (if interrumpido then [Emitir(MonitoreoDetenido)] else [])
  }

  /** The steps the sleep to the next tick leaves, at the local reading of `utc`: nothing when already on a tick. */
  function PausaHastaTick(utc: int, interrumpido: bool): (r: seq<Paso>)
    ensures Esperas(r) == EsperaHastaTick(utc)
  {
    var s := ProximoMultiplo5(HoraActualVenezuela(utc));
    if s.espera == 0 then [] else Pausa(s.espera * MsPorSegundo, interrumpido)
  }

  /** A sleep of `ms` milliseconds, during which a stop request may land. */
  function Dormir(e: EstadoMonitor, ms: nat, interrumpido: bool): (r: EstadoMonitor)
    ensures r == e.(monitoreando := r.monitoreando, traza := r.traza)
    ensures e.traza <= r.traza
    ensures r.monitoreando == (e.monitoreando && !interrumpido)
    ensures r.traza == e.traza + Pausa(ms, interrumpido)
  {
    var e1 := e.(traza := e.traza + [Esperar(ms)]);
    if interrumpido then Detener(e1) else e1
  }

  /** The alignment branch of `monitorear` when nothing throws: announce, sleep to the tick, announce again. */
  function Sincronizar(e: EstadoMonitor, c: Ciclo): (r: EstadoMonitor)
    ensures r == e.(monitoreando := r.monitoreando, traza := r.traza)
    ensures e.traza <= r.traza
    ensures r.monitoreando ==> e.monitoreando
    ensures c.parada == Ninguna ==> r.monitoreando == e.monitoreando
    ensures r.monitoreando == (e.monitoreando && !(c.parada == DuranteSincronizacion && EsperaHastaTick(c.tSincronizacion) != []))
    ensures var s := ProximoMultiplo5(HoraActualVenezuela(c.tSincronizacion));
            r.traza == e.traza + [Emitir(Sincronizando(s.espera, FormatoHora(s.proximo)))]
                       + PausaHastaTick(c.tSincronizacion, c.parada == DuranteSincronizacion)
                       + [Emitir(Sincronizado(e.tabla))]
  {
    var s := ProximoMultiplo5(HoraActualVenezuela(c.tSincronizacion));
    var e1 := e.(traza := e.traza + [Emitir(Sincronizando(s.espera, FormatoHora(s.proximo)))]);
    var e2 := if s.espera > 0 then Dormir(e1, s.espera * MsPorSegundo, c.parada == DuranteSincronizacion) else e1;
    e2.(traza := e2.traza + [Emitir(Sincronizado(e2.tabla))])
  }

  /** The query time one lookup asks the source for. */
  function HoraDeConsulta(c: Ciclo): (r: string)
    ensures |r| == 8 && r[2] == ':' && r[5] == ':' && SoloDigitos(r[6..]) && ValorDecimal(r[6..]) % 5 == 0
  {
    HoraConsultaSincronizada(HoraActualVenezuela(c.tConsulta), RetrasoSegundos)
  }

  /**
   * `buscarRegistroRetrasado`: look the delayed time up in the read table;
   * on a hit remember the first row, forward it with `guardarRegistro` and
   * announce it with the forward's outcome. A failed query is caught and
   * changes nothing.
   */
  function BuscarRetrasado(e: EstadoMonitor, c: Ciclo): (r: EstadoMonitor)
    ensures r.tabla == e.tabla && r.columnasDestino == e.columnasDestino
    ensures e.registrosGuardados <= r.registrosGuardados
    ensures e.filasDestino <= r.filasDestino && |r.filasDestino| <= |e.filasDestino| + 1
    ensures e.traza <= r.traza && forall i :: |e.traza| <= i < |r.traza| ==> r.traza[i].Emitir?
    ensures r.monitoreando ==> e.monitoreando
    ensures c.parada == Ninguna ==> r.monitoreando == e.monitoreando
    ensures r.monitoreando == (e.monitoreando && c.parada != DuranteConsulta)
    ensures var q := Consultar(c.fuente, e.tabla, HoraDeConsulta(c));
            if q.Some? && q.value != [] then
              r.ultimoRegistro == Some(q.value[0]) && r.ultimaHoraRegistro == Some(HoraDeConsulta(c))
              && Buscar(q.value[0], "HORA") == Some(Cadena(HoraDeConsulta(c)))
            else
              r.ultimoRegistro == e.ultimoRegistro && r.ultimaHoraRegistro == e.ultimaHoraRegistro
    ensures var hora := HoraDeConsulta(c);
            var q := Consultar(c.fuente, e.tabla, hora);
            var e0 := if c.parada == DuranteConsulta then Detener(e) else e;
            if q.Some? && q.value != [] then
              var g := Guardar(e.registrosGuardados, e.filasDestino, e.columnasDestino, q.value[0], hora, c.falloDestino);
              r.registrosGuardados == g.claves && r.filasDestino == g.filas
              && r.traza == e0.traza + [Emitir(NuevoRegistro(q.value[0], hora, FormatoHora(HoraActualVenezuela(c.tActual)),
                                                             Guardado(g), e.tabla))]
            else r == e0
  {
    var hora := HoraDeConsulta(c);
    var horaActual := FormatoHora(HoraActualVenezuela(c.tActual));
    var resultados := Consultar(c.fuente, e.tabla, hora);
    var e0 := if c.parada == DuranteConsulta then Detener(e) else e;
    if resultados.Some? && |resultados.value| > 0 then
      var registro := resultados.value[0];
      var g := Guardar(e0.registrosGuardados, e0.filasDestino, e0.columnasDestino, registro, hora, c.falloDestino);
      e0.(ultimoRegistro := Some(registro), ultimaHoraRegistro := Some(hora),
          registrosGuardados := g.claves, filasDestino := g.filas,
          traza := e0.traza + [Emitir(NuevoRegistro(registro, hora, horaActual, Guardado(g), e0.tabla))])
    else e0
  }

  /** The sleep to the next tick at the end of an iteration. */
  function EsperarProximo(e: EstadoMonitor, c: Ciclo): (r: EstadoMonitor)
    ensures r == e.(monitoreando := r.monitoreando, traza := r.traza)
    ensures e.traza <= r.traza
    ensures r.monitoreando ==> e.monitoreando
    ensures c.parada == Ninguna ==> r.monitoreando == e.monitoreando
    ensures r.monitoreando == (e.monitoreando && !(c.parada == DuranteEspera && EsperaHastaTick(c.tEspera) != []))
    ensures r.traza == e.traza + PausaHastaTick(c.tEspera, c.parada == DuranteEspera)
  {
    var s := ProximoMultiplo5(HoraActualVenezuela(c.tEspera));
    if s.espera > 0 then Dormir(e, s.espera * MsPorSegundo, c.parada == DuranteEspera) else e
  }

  /**
   * Whether a stop request clears the flag during a pass: when it lands in a
   * sleep the pass actually makes (the 5 s back-off after a throw, the
   * alignment sleep, the sleep to the next tick) or while the lookup awaits
   * the databases.
   */
  predicate Detiene(sincronizado: bool, c: Ciclo)
  {
    if !sincronizado && c.falloSincronizando then c.parada == DuranteEspera
    else
      (c.parada == DuranteSincronizacion && !sincronizado && EsperaHastaTick(c.tSincronizacion) != [])
      || c.parada == DuranteConsulta
      || (c.parada == DuranteEspera && EsperaHastaTick(c.tEspera) != [])
  }

  /**
   * One pass of the loop body, given the local `sincronizado` flag: the new
   * state and the new flag. A throw from the `sincronizando` emit lands in
   * the catch, which clears the flag and backs off for 5 s. Otherwise the
   * pass first sleeps to the next tick when not yet aligned, then looks the
   * delayed time up and forwards a found row, then sleeps to the next tick.
   */
  function Iteracion(e: EstadoMonitor, sincronizado: bool, c: Ciclo): (r: (EstadoMonitor, bool))
    ensures r.1 == (sincronizado || !c.falloSincronizando)
    ensures r.0.tabla == e.tabla && r.0.columnasDestino == e.columnasDestino
    ensures r.0.monitoreando ==> e.monitoreando
    ensures c.parada == Ninguna ==> r.0.monitoreando == e.monitoreando
    ensures r.0.monitoreando == (e.monitoreando && !Detiene(sincronizado, c))
    ensures e.traza <= r.0.traza
    ensures !r.1 ==> Esperas(r.0.traza) == Esperas(e.traza) + [5000]
    ensures r.1 ==> Esperas(r.0.traza) == Esperas(e.traza) + (if sincronizado then [] else EsperaHastaTick(c.tSincronizacion))
                                          + EsperaHastaTick(c.tEspera)
    ensures !r.1 ==> r.0.registrosGuardados == e.registrosGuardados && r.0.filasDestino == e.filasDestino
    ensures r.1 ==>
              var hora := HoraDeConsulta(c);
              var q := Consultar(c.fuente, e.tabla, hora);
              if q.Some? && q.value != [] then
                var g := Guardar(e.registrosGuardados, e.filasDestino, e.columnasDestino, q.value[0], hora, c.falloDestino);
                r.0.registrosGuardados == g.claves && r.0.filasDestino == g.filas
                && Emitir(NuevoRegistro(q.value[0], hora, FormatoHora(HoraActualVenezuela(c.tActual)), Guardado(g), e.tabla))
                   in r.0.traza[|e.traza|..]
              else r.0.registrosGuardados == e.registrosGuardados && r.0.filasDestino == e.filasDestino
  {
    if !sincronizado && c.falloSincronizando then
      EsperasConcatena(e.traza, Pausa(5000, c.parada == DuranteEspera));
      (Dormir(e, 5000, c.parada == DuranteEspera), false)
    else
      var e1 := if sincronizado then e else Sincronizar(e, c);
      EsperasAlinear(e, e1, sincronizado, c);
      EsperasConsulta(e1, c);
      ReenvioEnPasada(e, e1, c);
      (EsperarProximo(BuscarRetrasado(e1, c), c), true)
  }

  /** The alignment, when it runs, adds exactly its sleep to the tick. */
  lemma EsperasAlinear(e: EstadoMonitor, e1: EstadoMonitor, sincronizado: bool, c: Ciclo)
    requires e1 == if sincronizado then e else Sincronizar(e, c)
    ensures Esperas(e1.traza) == Esperas(e.traza) + (if sincronizado then [] else EsperaHastaTick(c.tSincronizacion))
  {
    if !sincronizado {
      var s := ProximoMultiplo5(HoraActualVenezuela(c.tSincronizacion));
      var a := [Emitir(Sincronizando(s.espera, FormatoHora(s.proximo)))];
      var p := PausaHastaTick(c.tSincronizacion, c.parada == DuranteSincronizacion);
      var z := [Emitir(Sincronizado(e.tabla))];
      EsperasConcatena(e.traza + a + p, z);
      EsperasConcatena(e.traza + a, p);
      EsperasConcatena(e.traza, a);
      EsperasSoloEventos(a);
      EsperasSoloEventos(z);
    }
  }

  /** The lookup adds no sleep, and the sleep to the tick adds exactly its own. */
  lemma EsperasConsulta(e1: EstadoMonitor, c: Ciclo)
    ensures Esperas(EsperarProximo(BuscarRetrasado(e1, c), c).traza) == Esperas(e1.traza) + EsperaHastaTick(c.tEspera)
  {
    var b := BuscarRetrasado(e1, c);
    EsperasBuscar(e1, c);
    EsperasConcatena(b.traza, PausaHastaTick(c.tEspera, c.parada == DuranteEspera));
  }

  /** The lookup only announces: it adds no sleep. */
  lemma EsperasBuscar(e: EstadoMonitor, c: Ciclo)
    ensures Esperas(BuscarRetrasado(e, c).traza) == Esperas(e.traza)
  {
    var e0 := if c.parada == DuranteConsulta then Detener(e) else e;
    EsperasPaso(e.traza, Emitir(MonitoreoDetenido));
    var b := BuscarRetrasado(e, c);
    if b.traza != e0.traza {
      EsperasPaso(e0.traza, b.traza[|b.traza| - 1]);
      assert b.traza == e0.traza + [b.traza[|b.traza| - 1]];
    }
  }

  /** After the alignment, the lookup forwards a found row with the keys and rows the pass started with, and announces it. */
  lemma ReenvioEnPasada(e: EstadoMonitor, e1: EstadoMonitor, c: Ciclo)
    requires e1 == e.(monitoreando := e1.monitoreando, traza := e1.traza) && e.traza <= e1.traza
    ensures var r := EsperarProximo(BuscarRetrasado(e1, c), c);
            var hora := HoraDeConsulta(c);
            var q := Consultar(c.fuente, e.tabla, hora);
            if q.Some? && q.value != [] then
              var g := Guardar(e.registrosGuardados, e.filasDestino, e.columnasDestino, q.value[0], hora, c.falloDestino);
              r.registrosGuardados == g.claves && r.filasDestino == g.filas
              && Emitir(NuevoRegistro(q.value[0], hora, FormatoHora(HoraActualVenezuela(c.tActual)), Guardado(g), e.tabla))
                 in r.traza[|e.traza|..]
            else r.registrosGuardados == e.registrosGuardados && r.filasDestino == e.filasDestino
  {
    var b := BuscarRetrasado(e1, c);
    var r := EsperarProximo(b, c);
    var q := Consultar(c.fuente, e.tabla, HoraDeConsulta(c));
    if q.Some? && q.value != [] {
      assert |e.traza| <= |e1.traza| < |b.traza|;
      assert r.traza[|e.traza|..][|b.traza| - 1 - |e.traza|] == b.traza[|b.traza| - 1];
    }
  }

  /**
   * `monitorear` over a script of iterations: the loop stops at the first
   * check of `monitoreando` that finds it false, or when the script ends.
   */
  function Ejecutar(e: EstadoMonitor, sincronizado: bool, ciclos: seq<Ciclo>): (r: EstadoMonitor)
    ensures !e.monitoreando ==> r == e
    ensures r.monitoreando ==> e.monitoreando
    ensures r.tabla == e.tabla && r.columnasDestino == e.columnasDestino && e.traza <= r.traza
    decreases |ciclos|
  {
    if !e.monitoreando || ciclos == [] then e
    else
      var (e1, s1) := Iteracion(e, sincronizado, ciclos[0]);
      Ejecutar(e1, s1, ciclos[1..])
  }

  /** Starting is a no-op while running; otherwise it sets the flag, announces it and launches one loop. */
  lemma IniciarIdempotente(e: EstadoMonitor)
    ensures Iniciar(e).0.monitoreando
    ensures Iniciar(e).1 <==> !e.monitoreando
    ensures e.monitoreando ==> Iniciar(e) == (e, false)
    ensures Iniciar(Iniciar(e).0) == (Iniciar(e).0, false)
  {
  }

  /** After a stop, whatever the state, the loop's next check of the flag ends it. */
  lemma DetenerCierraBucle(e: EstadoMonitor, sincronizado: bool, ciclos: seq<Ciclo>)
    ensures !Detener(e).monitoreando
    ensures Detener(e).traza == e.traza + [Emitir(MonitoreoDetenido)]
    ensures Ejecutar(Detener(e), sincronizado, ciclos) == Detener(e)
  {
  }

  /**
   * The flag is read only at the top of the loop: a stop landing inside an
   * iteration lets that iteration finish, and then the loop ends.
   */
  lemma ParadaTrasIteracion(e: EstadoMonitor, sincronizado: bool, c: Ciclo, resto: seq<Ciclo>)
    requires e.monitoreando && Detiene(sincronizado, c)
    ensures !Iteracion(e, sincronizado, c).0.monitoreando
    ensures Ejecutar(e, sincronizado, [c] + resto) == Iteracion(e, sincronizado, c).0
  {
    assert ([c] + resto)[0] == c;
  }

  /**
   * A stop that lands during the alignment sleep does not cancel the
   * lookup: the source is still queried, and a found row is still
   * forwarded and announced, after `monitoreo_detenido` has gone out.
   */
  lemma ConsultaTrasDetencion(e: EstadoMonitor, c: Ciclo, filas: seq<Registro>)
    requires e.monitoreando && !c.falloSincronizando && c.parada == DuranteSincronizacion
    requires ProximoMultiplo5(HoraActualVenezuela(c.tSincronizacion)).espera > 0
    requires Consultar(c.fuente, e.tabla, HoraDeConsulta(c)) == Some(filas) && filas != []
    ensures var r := Iteracion(e, false, c).0;
            !r.monitoreando && r.ultimoRegistro == Some(filas[0])
            && |r.traza| > |e.traza| + 4
            && r.traza[|e.traza| + 2] == Emitir(MonitoreoDetenido)
            && r.traza[|e.traza| + 4].Emitir? && r.traza[|e.traza| + 4].evento.NuevoRegistro?
            && r.traza[|e.traza| + 4].evento.registro == filas[0]
  {
    var s := ProximoMultiplo5(HoraActualVenezuela(c.tSincronizacion));
    var e1 := Sincronizar(e, c);
    assert e1.traza == e.traza + [Emitir(Sincronizando(s.espera, FormatoHora(s.proximo))), Esperar(s.espera * MsPorSegundo),
                                  Emitir(MonitoreoDetenido), Emitir(Sincronizado(e.tabla))];
    var b := BuscarRetrasado(e1, c);
    assert b.traza[..|e1.traza|] == e1.traza;
    assert b.traza[|e1.traza|].evento.NuevoRegistro? && b.traza[|e1.traza|].evento.registro == filas[0];
    var r := EsperarProximo(b, c);
    assert r.traza[..|b.traza|] == b.traza;
  }

  /** After a pass, the last record and its time differ from before only if that pass's query found rows. */
  lemma UltimoRegistroSoloConFilas(e: EstadoMonitor, sincronizado: bool, c: Ciclo)
    ensures var r := Iteracion(e, sincronizado, c).0;
            var q := Consultar(c.fuente, e.tabla, HoraDeConsulta(c));
            (r.ultimoRegistro, r.ultimaHoraRegistro) != (e.ultimoRegistro, e.ultimaHoraRegistro) ==>
              q.Some? && q.value != [] && r.ultimoRegistro == Some(q.value[0])
              && r.ultimaHoraRegistro == Some(HoraDeConsulta(c))
  {
  }

  /** A throw in the alignment branch leads to the 5-second back-off and leaves the loop unsynchronised. */
  lemma FalloReiniciaSincronizacion(e: EstadoMonitor, c: Ciclo)
    requires c.falloSincronizando
    ensures var (r, s) := Iteracion(e, false, c);
            !s && r.traza[..|e.traza| + 1] == e.traza + [Esperar(5000)]
            && r.registrosGuardados == e.registrosGuardados && r.filasDestino == e.filasDestino
  {
  }

  /** Every sleep in a trace is positive and at most 5 seconds. */
  predicate EsperasAcotadas(traza: seq<Paso>)
  {
    forall i :: 0 <= i < |traza| && traza[i].Esperar? ==> 0 < traza[i].ms <= 5000
  }

  lemma DormirEsperas(e: EstadoMonitor, ms: nat, interrumpido: bool)
    requires EsperasAcotadas(e.traza) && 0 < ms <= 5000
    ensures EsperasAcotadas(Dormir(e, ms, interrumpido).traza)
  {
  }

  /**
   * One pass keeps the read table and the destination columns, only adds
   * keys, and only appends to the destination (one row at most) and to the
   * trace.
   */
  lemma IteracionConserva(e: EstadoMonitor, sincronizado: bool, c: Ciclo)
    ensures var r := Iteracion(e, sincronizado, c).0;
            r.tabla == e.tabla && r.columnasDestino == e.columnasDestino
            && e.registrosGuardados <= r.registrosGuardados
            && e.filasDestino <= r.filasDestino && |r.filasDestino| <= |e.filasDestino| + 1
            && e.traza <= r.traza
  {
  }

  /** One pass sleeps only between 1 and 5000 ms at a time. */
  lemma IteracionEsperas(e: EstadoMonitor, sincronizado: bool, c: Ciclo)
    requires EsperasAcotadas(e.traza)
    ensures EsperasAcotadas(Iteracion(e, sincronizado, c).0.traza)
  {
    if !sincronizado && c.falloSincronizando {
      DormirEsperas(e, 5000, c.parada == DuranteEspera);
    } else {
      var e1 := if sincronizado then e else Sincronizar(e, c);
      if !sincronizado {
        var s := ProximoMultiplo5(HoraActualVenezuela(c.tSincronizacion));
        var a := e.(traza := e.traza + [Emitir(Sincronizando(s.espera, FormatoHora(s.proximo)))]);
        assert EsperasAcotadas(a.traza);
        if s.espera > 0 {
          DormirEsperas(a, s.espera * MsPorSegundo, c.parada == DuranteSincronizacion);
        }
      }
      assert EsperasAcotadas(e1.traza);
      var b := BuscarRetrasado(e1, c);
      forall i | 0 <= i < |b.traza| && b.traza[i].Esperar?
        ensures 0 < b.traza[i].ms <= 5000
      {
        assert i < |e1.traza| && b.traza[i] == e1.traza[i];
      }
      var s := ProximoMultiplo5(HoraActualVenezuela(c.tEspera));
      if s.espera > 0 {
        DormirEsperas(b, s.espera * MsPorSegundo, c.parada == DuranteEspera);
      }
    }
  }

  /** One pass never gives one `HORA` two destination rows. */
  lemma IteracionHorasUnicas(e: EstadoMonitor, sincronizado: bool, c: Ciclo)
    requires HorasUnicas(e.filasDestino)
    ensures HorasUnicas(Iteracion(e, sincronizado, c).0.filasDestino)
  {
    if !(!sincronizado && c.falloSincronizando) {
      var e1 := if sincronizado then e else Sincronizar(e, c);
      BuscarRetrasadoHorasUnicas(e1, c);
    }
  }

  lemma BuscarRetrasadoHorasUnicas(e: EstadoMonitor, c: Ciclo)
    requires HorasUnicas(e.filasDestino)
    ensures HorasUnicas(BuscarRetrasado(e, c).filasDestino)
  {
    var hora := HoraDeConsulta(c);
    var q := Consultar(c.fuente, e.tabla, hora);
    if q.Some? && |q.value| > 0 {
      var e0 := if c.parada == DuranteConsulta then Detener(e) else e;
      GuardarConservaHorasUnicas(e0.registrosGuardados, e0.filasDestino, e0.columnasDestino,
                                 q.value[0], hora, c.falloDestino);
    }
  }

  /**
   * A whole run never removes keys or destination rows, and inserts at most
   * one row per pass.
   */
  lemma {:induction false} EjecutarConserva(e: EstadoMonitor, sincronizado: bool, ciclos: seq<Ciclo>)
    ensures var r := Ejecutar(e, sincronizado, ciclos);
            e.registrosGuardados <= r.registrosGuardados
            && e.filasDestino <= r.filasDestino && |r.filasDestino| <= |e.filasDestino| + |ciclos|
    decreases |ciclos|
  {
    if e.monitoreando && ciclos != [] {
      var (e1, s1) := Iteracion(e, sincronizado, ciclos[0]);
      IteracionConserva(e, sincronizado, ciclos[0]);
      EjecutarConserva(e1, s1, ciclos[1..]);
    }
  }

  /** Over a whole run every sleep stays positive and within 5 seconds. */
  lemma {:induction false} EjecutarEsperas(e: EstadoMonitor, sincronizado: bool, ciclos: seq<Ciclo>)
    requires EsperasAcotadas(e.traza)
    ensures EsperasAcotadas(Ejecutar(e, sincronizado, ciclos).traza)
    decreases |ciclos|
  {
    if e.monitoreando && ciclos != [] {
      var (e1, s1) := Iteracion(e, sincronizado, ciclos[0]);
      IteracionEsperas(e, sincronizado, ciclos[0]);
      EjecutarEsperas(e1, s1, ciclos[1..]);
    }
  }

  /** Over a whole run no `HORA` gets two destination rows. */
  lemma {:induction false} EjecutarHorasUnicas(e: EstadoMonitor, sincronizado: bool, ciclos: seq<Ciclo>)
    requires HorasUnicas(e.filasDestino)
    ensures HorasUnicas(Ejecutar(e, sincronizado, ciclos).filasDestino)
    decreases |ciclos|
  {
    if e.monitoreando && ciclos != [] {
      var (e1, s1) := Iteracion(e, sincronizado, ciclos[0]);
      IteracionHorasUnicas(e, sincronizado, ciclos[0]);
      EjecutarHorasUnicas(e1, s1, ciclos[1..]);
    }
  }

  /** The sleeps to the next tick that the passes `ciclos` ask for, in order. */
  function EsperasDeTicks(ciclos: seq<Ciclo>): (r: seq<nat>)
    ensures |r| <= |ciclos|
    ensures forall i :: 0 <= i < |r| ==> 0 < r[i] < 5000
  {
    if ciclos == [] then [] else EsperaHastaTick(ciclos[0].tEspera) + EsperasDeTicks(ciclos[1..])
  }

  /** No stop request lands and no alignment throws in any of the passes `ciclos`. */
  predicate SinInterrupciones(ciclos: seq<Ciclo>)
  {
    forall i :: 0 <= i < |ciclos| ==> ciclos[i].parada == Ninguna && !ciclos[i].falloSincronizando
  }

  /**
   * A run in which no stop lands and the alignment never throws sleeps once
   * to align itself (unless already aligned) and then, after each lookup,
   * exactly to the next tick of the local clock.
   */
  lemma {:induction false} EjecutarAlineado(e: EstadoMonitor, sincronizado: bool, ciclos: seq<Ciclo>)
    requires e.monitoreando
    requires SinInterrupciones(ciclos)
    ensures var r := Ejecutar(e, sincronizado, ciclos);
            r.monitoreando
            && Esperas(r.traza) == Esperas(e.traza)
                                   + (if sincronizado || ciclos == [] then [] else EsperaHastaTick(ciclos[0].tSincronizacion))
                                   + EsperasDeTicks(ciclos)
    decreases |ciclos|
  {
    if ciclos != [] {
      var (e1, s1) := Iteracion(e, sincronizado, ciclos[0]);
      assert ciclos[0].parada == Ninguna && !ciclos[0].falloSincronizando;
      assert s1 && e1.monitoreando;
      assert SinInterrupciones(ciclos[1..]) by {
        forall i | 0 <= i < |ciclos[1..]|
          ensures ciclos[1..][i].parada == Ninguna && !ciclos[1..][i].falloSincronizando
        {
          assert ciclos[1..][i] == ciclos[i + 1];
        }
      }
      var r := Ejecutar(e1, s1, ciclos[1..]);
      assert Ejecutar(e, sincronizado, ciclos) == r;
      EjecutarAlineado(e1, s1, ciclos[1..]);
      var alinear := if sincronizado then [] else EsperaHastaTick(ciclos[0].tSincronizacion);
      var tick, resto := EsperaHastaTick(ciclos[0].tEspera), EsperasDeTicks(ciclos[1..]);
      var antes, despues := Esperas(e1.traza), Esperas(r.traza);
      assert antes == Esperas(e.traza) + alinear + tick;
      assert despues == antes + [] + resto;
      assert antes + [] == antes;
      assert EsperasDeTicks(ciclos) == tick + resto;
      Asociar(Esperas(e.traza) + alinear, tick, resto);
    }
  }

  /** From construction on, the loop reads the table named from the local date at construction time. */
  lemma TablaNuncaSeRenueva(ahoraUtc: int, filas: seq<Registro>, columnas: seq<string>, ciclos: seq<Ciclo>)
    ensures Ejecutar(Iniciar(Inicial(ahoraUtc, filas, columnas)).0, false, ciclos).tabla == NombreTablaActual(ahoraUtc)
  {
  }

  /** The destination object: its rows and the column list `DESCRIBE tiempo` reports. */
  class BaseDestino {
    var filas: seq<Registro>
    const columnas: seq<string>

    constructor (filas: seq<Registro>, columnas: seq<string>)
      ensures this.filas == filas && this.columnas == columnas
    {
      this.filas := filas;
      this.columnas := columnas;
    }
  }

  class MonitorTiempoReal {
    var monitoreando: bool
    var ultimoRegistro: Option<Registro>
    var ultimaHoraRegistro: Option<string>
    var registrosGuardados: set<string>
    var tablaLecturaActual: string
    var traza: seq<Paso>
    const escritura: BaseDestino

    function Estado(): EstadoMonitor
      reads this, escritura
    {
      EstadoMonitor(monitoreando, ultimoRegistro, ultimaHoraRegistro, registrosGuardados,
                    tablaLecturaActual, traza, escritura.filas, escritura.columnas)
    }

    /** The read table is named once, from the local date at construction time. */
    constructor (ahoraUtc: int, escritura: BaseDestino)
      ensures this.escritura == escritura
      ensures Estado() == Inicial(ahoraUtc, escritura.filas, escritura.columnas)
    {
      monitoreando := false;
      ultimoRegistro := None;
      ultimaHoraRegistro := None;
      registrosGuardados := {};
      tablaLecturaActual := NombreTablaActual(ahoraUtc);
      traza := [];
      this.escritura := escritura;
    }

    /** Returns whether a `monitorear` loop is to be launched. */
    method IniciarMonitoreo() returns (lanzar: bool)
      modifies this`monitoreando, this`traza
      ensures (Estado(), lanzar) == Iniciar(old(Estado()))
    {
      lanzar := !monitoreando;
      if lanzar {
        monitoreando := true;
        traza := traza + [Emitir(MonitoreoIniciado)];
      }
    }

    method DetenerMonitoreo()
      modifies this`monitoreando, this`traza
      ensures Estado() == Detener(old(Estado()))
    {
      monitoreando := false;
      traza := traza + [Emitir(MonitoreoDetenido)];
    }

    /** `guardarRegistro`: the boolean it returns, with the key set and the destination updated as `Guardar` says. */
    method GuardarRegistro(registro: Registro, hora: string, fallo: FalloDestino) returns (guardado: bool)
      modifies this`registrosGuardados, escritura`filas
      ensures var g := Guardar(old(registrosGuardados), old(escritura.filas), escritura.columnas, registro, hora, fallo);
              guardado == Guardado(g) && registrosGuardados == g.claves && escritura.filas == g.filas
    {
      var claveUnica := ClaveUnica(hora, registro);
      if claveUnica in registrosGuardados {
        return false;
      }
      if fallo == FalloConteo {
        return false;
      }
      if ExisteHora(escritura.filas, hora) {
        registrosGuardados := registrosGuardados + {claveUnica};
        return false;
      }
      if fallo == FalloDescribe {
        return false;
      }
      var columnasComunes, valores := ColumnasComunes(registro, escritura.columnas);
      if |columnasComunes| == 0 {
        return false;
      }
      if fallo == FalloInsercion {
        return false;
      }
      var fila := seq(|columnasComunes|, k requires 0 <= k < |columnasComunes| => (columnasComunes[k], valores[k]));
      assert fila == Proyectar(registro, escritura.columnas);
      escritura.filas := escritura.filas + [fila];
      registrosGuardados := registrosGuardados + {claveUnica};
      return true;
    }

    method BuscarRegistroRetrasado(c: Ciclo)
      modifies this`monitoreando, this`traza, this`ultimoRegistro, this`ultimaHoraRegistro,
               this`registrosGuardados, escritura`filas
      ensures Estado() == BuscarRetrasado(old(Estado()), c)
    {
      var horaConsulta := HoraDeConsulta(c);
      var horaActualVenezuela := FormatoHora(HoraActualVenezuela(c.tActual));
      var resultados := Consultar(c.fuente, tablaLecturaActual, horaConsulta);
      ghost var antes := Estado();
      if c.parada == DuranteConsulta {
        DetenerMonitoreo();
      }
      ghost var e0 := Estado();
      assert e0 == if c.parada == DuranteConsulta then Detener(antes) else antes;
      if resultados.Some? && |resultados.value| > 0 {
        var registro := resultados.value[0];
        ultimoRegistro := Some(registro);
        ultimaHoraRegistro := Some(horaConsulta);
        var guardado := GuardarRegistro(registro, horaConsulta, c.falloDestino);
        ghost var g := Guardar(e0.registrosGuardados, e0.filasDestino, e0.columnasDestino, registro, horaConsulta, c.falloDestino);
        assert guardado == Guardado(g) && registrosGuardados == g.claves && escritura.filas == g.filas;
        traza := traza + [Emitir(NuevoRegistro(registro, horaConsulta, horaActualVenezuela,
                                               guardado, tablaLecturaActual))];
        assert Estado() == e0.(ultimoRegistro := Some(registro), ultimaHoraRegistro := Some(horaConsulta),
                               registrosGuardados := g.claves, filasDestino := g.filas,
                               traza := e0.traza + [Emitir(NuevoRegistro(registro, horaConsulta,
                                                    horaActualVenezuela, Guardado(g), e0.tabla))]);
      } else {
        assert Estado() == e0;
      }
    }

    /** `await new Promise(resolve => setTimeout(resolve, ms))`, during which a stop request may land. */
    method Pausar(ms: nat, interrumpido: bool)
      modifies this`monitoreando, this`traza
      ensures Estado() == Dormir(old(Estado()), ms, interrumpido)
    {
      traza := traza + [Esperar(ms)];
      if interrumpido {
        DetenerMonitoreo();
      }
    }

    /** The `if (!sincronizado)` branch of `monitorear`, when the `sincronizando` emit does not throw. */
    method Alinear(c: Ciclo)
      modifies this`monitoreando, this`traza
      ensures Estado() == Sincronizar(old(Estado()), c)
    {
      var s := ProximoMultiplo5(HoraActualVenezuela(c.tSincronizacion));
      traza := traza + [Emitir(Sincronizando(s.espera, FormatoHora(s.proximo)))];
      if s.espera > 0 {
        Pausar(s.espera * MsPorSegundo, c.parada == DuranteSincronizacion);
      }
      traza := traza + [Emitir(Sincronizado(tablaLecturaActual))];
    }

    /** The sleep to the next tick that ends each pass. */
    method PausarHastaTick(c: Ciclo)
      modifies this`monitoreando, this`traza
      ensures Estado() == EsperarProximo(old(Estado()), c)
    {
      var s := ProximoMultiplo5(HoraActualVenezuela(c.tEspera));
      if s.espera > 0 {
        Pausar(s.espera * MsPorSegundo, c.parada == DuranteEspera);
      }
    }

    /** One pass of the `while` body of `monitorear`; returns the new `sincronizado`. */
    method Iterar(sincronizado: bool, c: Ciclo) returns (sincronizadoDespues: bool)
      modifies this`monitoreando, this`traza, this`ultimoRegistro, this`ultimaHoraRegistro,
               this`registrosGuardados, escritura`filas
      ensures (Estado(), sincronizadoDespues) == Iteracion(old(Estado()), sincronizado, c)
    {
      if !sincronizado {
        if c.falloSincronizando {
          // the emit threw: the catch block clears the flag and backs off
          Pausar(5000, c.parada == DuranteEspera);
          return false;
        }
        Alinear(c);
      }
      BuscarRegistroRetrasado(c);
      PausarHastaTick(c);
      return true;
    }

    /** `monitorear`, run over the iterations `ciclos`, starting unsynchronised. */
    method Monitorear(ciclos: seq<Ciclo>)
      modifies this`monitoreando, this`traza, this`ultimoRegistro, this`ultimaHoraRegistro,
               this`registrosGuardados, escritura`filas
      ensures Estado() == Ejecutar(old(Estado()), false, ciclos)
    {
      var sincronizado := false;
      var i := 0;
      while monitoreando && i < |ciclos|
        invariant 0 <= i <= |ciclos|
        invariant Ejecutar(Estado(), sincronizado, ciclos[i..]) == Ejecutar(old(Estado()), false, ciclos)
      {
        assert ciclos[i..][0] == ciclos[i] && ciclos[i..][1..] == ciclos[i + 1..];
        sincronizado := Iterar(sincronizado, ciclos[i]);
        i := i + 1;
      }
    }
  }
}
