# RealTimeSoftware, modelled in Dafny

RealTimeSoftware copies drilling records from one MySQL database to another
in real time. Every five seconds on the Venezuelan clock (UTC-4:30) the
server (`server.js`, class `MonitorTiempoReal`) does the following:

- It looks up the row of the day's `tiempoDDMMYY` table whose `HORA` is five
  seconds old.
- It forwards that row once to the destination table `tiempo`.
- It broadcasts the row to the browsers.

The browser client (`public/js/app.js`) shows each broadcast row as a text
summary. It also offers a manual search by an `HH:MM:SS` time.

This project models the core of both sides:

- `texto.dfy` (module `Texto`) holds the JavaScript string operations the
  core relies on:
  - `String(n)`, `padStart`, `slice(-k)`, `repeat` and `trim`;
  - text built by appending lines ended with `\n`, and splitting it back into
    lines.
- `calendario.dfy` (module `Calendario`) holds the proleptic Gregorian
  calendar that moment.js and `Date` use. It maps a day number to
  year/month/day and back.
- `reloj.dfy` (module `Reloj`) holds the clock arithmetic of the server:
  - the Venezuelan time (UTC minus 16 200 000 ms);
  - the alignment to the next multiple of five seconds;
  - the synchronised query time five seconds back, as `HH:mm:ss`;
  - the `tiempoDDMMYY` table name.

  Times are integer milliseconds since 1970. The day, hour, minute, second
  and millisecond fields are taken by division rounding down, which is what
  `Date` does for instants before 1970 as well. The two-digit year is the
  year modulo 100 taken the same way; moment's `YY` differs from it only for
  negative years.
- `registros.dfy` (module `Registros`) holds rows as ordered
  `(column, value)` entries. It defines:
  - column lookup and `${value}` rendering;
  - the dedup key `` `${hora}_${registro.ID || ''}` ``;
  - the projection onto the destination's columns.
- `reenvio.dfy` (module `Reenvio`) models `guardarRegistro`:
  - the set of keys already sent;
  - the `COUNT(*)` check;
  - the `DESCRIBE` / common-column filter;
  - the `INSERT`, and which destination statement may throw.
- `monitor.dfy` (module `Monitor`) models the polling engine:
  - the class `MonitorTiempoReal`, with the fields the source updates in place
    (`monitoreando`, `ultimo_registro`, `ultima_hora_registro`,
    `registros_guardados`, `tabla_lectura_actual`), plus a trace of the events
    emitted and the sleeps begun;
  - the destination table as an object of its own, `BaseDestino`;
  - `iniciarMonitoreo`, `detenerMonitoreo`, `buscarRegistroRetrasado` and the
    `monitorear` loop as methods;
  - a pure state-transition model (`Iteracion`, `Ejecutar`) that each method
    is proved to follow.

  Each loop iteration is given its environment as a `Ciclo`. A `Ciclo` holds
  the clock readings, the source database as seen then, the destination
  statement that throws, and where a stop request lands.
- `frontend.dfy` (module `Frontend`) models the client:
  - the trim and the `^([0-1]?[0-9]|2[0-3]):[0-5][0-9]:[0-5][0-9]$` check of
    `buscarManual`;
  - `getCurrentTableName`;
  - the text `formatearRegistro` builds;
  - the text and footer line `mostrarNuevoRegistro` builds.

  Each text is proved equal to a line list, and read back line by line.

Where the code and its design description differ, the model follows the
code:

- `calcular_proximo_multiplo_5` sets the seconds of `proximo_multiplo` to
  zero. The time announced in `sincronizando` is therefore the start of the
  minute (or of the next minute), not the next multiple of five seconds.
- The read table is named once, in the constructor (server.js:19). A run
  that crosses midnight keeps reading the previous day's table
  (`TablaNuncaSeRenueva`).
- `buscarRegistroRetrasado` catches its own errors (server.js:215-217). A
  failing source query therefore never reaches the loop's `catch` and never
  causes a re-synchronisation.
- `detenerMonitoreo` only clears the flag, and the loop reads it only at the
  top. A stop during a sleep lets the current iteration finish its lookup
  and its forward (`ConsultaTrasDetencion`).
- `registro.ID || ''` turns every falsy ID (`0`, `''`, `null`) into the
  empty string, so such rows share the key of a row with no ID at all.
- The summary's "more columns" count is the row's column count minus eight.
  It is negative for rows with fewer than eight columns
  (`MasColumnasNegativo`).
- `!== undefined` lets a `null` value through, and it is shown as `null`.
- The client takes the year through `slice(-2)`. Its table name agrees with
  the server's only for years of at least two digits.
- The server always sends `zona_horaria`, so the client always shows the text
  it also uses as its fallback. A row object is always truthy, so the record
  block of the summary is always written.

## Model

| member | source | states |
|---|---|---|
| Texto.CadenaEntero | public/js/app.js:357-359 | `String(n)` of an integer: a leading `-` exactly for negatives, then the shortest decimal numeral of the magnitude, with no leading zero |
| Texto.RellenarInicio | public/js/app.js:357-358 | `padStart`: the string is kept at the end, the fill goes in front, and the length is the larger of the two lengths |
| Texto.Ultimos | public/js/app.js:359 | `slice(-k)`: the last `k` characters, or the whole string when it is shorter |
| Texto.Repetir | public/js/app.js:309 | `repeat(n)`: `n` copies of the character |
| Texto.Recortar | public/js/app.js:177 | `trim()`: the result is the slice left after dropping leading and trailing white space; everything dropped is white space; the result neither starts nor ends with white space |
| Texto.RellenarDecimalEsPad2 | public/js/app.js:357-358 | `String(n).padStart(2, '0')` is the two-digit rendering for every `n < 100` |
| Texto.UltimosDosDecimal | public/js/app.js:359 | `String(y).slice(-2)` is the two-digit rendering of `y % 100` when `y >= 10` |
| Texto.LineasDeUnir | public/js/app.js:301-327 | text built by appending lines, each followed by `\n`, splits back into exactly those lines when none holds a line feed |
| Calendario.FechaDeDia | server.js:161 | the date of a day number is a valid Gregorian date, in 1969 or later for days from 1969 on |
| Calendario.DiaDeFechaDeDia | server.js:161 | day number to date and back is the identity |
| Calendario.FechaDeDiaDeFecha | server.js:161 | every valid date is the date of exactly one day number |
| Reloj.HoraActualVenezuela | server.js:154-157 | the Venezuelan reading of the clock is the UTC reading minus 4 h 30 min, as one millisecond count |
| Reloj.DesfaseVenezuela | server.js:154-157 | subtracting 4 h 30 min keeps seconds and milliseconds, and moves the minute of the day back 270 minutes, into the previous day before 04:30 UTC |
| Reloj.ProximoMultiplo5 | server.js:164-173 | the wait is below 5 s, is zero exactly on a multiple of five, and lands on a multiple of five; the returned instant has second 0: the start of the current minute, or of the next minute from second 55 on |
| Reloj.EsperaAterrizaEnMultiplo | server.js:164-169 | after waiting the computed seconds the clock shows a second divisible by five, with the same milliseconds |
| Reloj.InstanteConsulta | server.js:175-179 | the query instant has zero milliseconds, lies the delay before a multiple of 5000 ms, and that multiple is the last one at or before now |
| Reloj.FormatoHora | server.js:181 | `HH:mm:ss` is eight characters with colons at positions 2 and 5 |
| Reloj.FormatoHoraCampos | server.js:181 | its three digit pairs denote the hour, minute and second of the instant |
| Reloj.HoraConsultaSincronizada | server.js:175-182 | the query time is `HH:mm:ss`, eight characters with colons at positions 2 and 5, and its seconds are a multiple of five whenever the delay is |
| Reloj.ConsultaTrasEspera | server.js:175-182 | right after the alignment wait, the query instant is exactly the delay before the tick reached |
| Reloj.ConsultaEjemploMediodia | server.js:175-182 | at 12:00:07.900 the query time is `12:00:00` |
| Reloj.ConsultaEjemploMedianoche | server.js:175-182 | at 00:00:03 the query time is `23:59:55` of the previous day |
| Reloj.FechaLocal | server.js:159-162 | the local date of an instant is a valid date |
| Reloj.NombreTablaActual | server.js:159-162 | the table name is `tiempo` and six digits giving day, month and year modulo 100 of the local date |
| Reloj.NombreTablaPartes | server.js:159-162 | the server's name is `tiempo` followed by the two-digit day, month and year modulo 100 of the local date |
| Reloj.FechaLocalEpoca | server.js:159-162 | at the epoch the local date is still 31 December 1969 |
| Reloj.NombreTablaEjemplo | server.js:159-162 | at the epoch the table is `tiempo311269` |
| Registros.Buscar | public/js/app.js:318 | `registro[columna]` yields a value only if that entry is in the row |
| Registros.BuscarPrimero | public/js/app.js:318 | the lookup is undefined exactly when no entry has the column, and otherwise it yields the first such entry's value |
| Registros.Mostrar | public/js/app.js:319 | `${v}` shows a text as itself, a number as `String(n)` (at least one character) and null as `null` |
| Registros.ParteId | server.js:221 | `registro.ID \|\| ''` is empty exactly when the ID is missing or falsy, and otherwise it is the ID rendered |
| Registros.ClaveUnica | server.js:221 | the key is the query time, then `_`, then the ID part, and nothing else |
| Registros.ClaveUnicaDistingue | server.js:221 | for times of equal length, two keys are equal exactly when the times and the ID parts are |
| Registros.Proyectar | server.js:244-252 | the kept entries are no more than the row's, and each is an entry of the row whose column exists at the destination |
| Registros.ProyectarExacta | server.js:247-252 | an entry is kept exactly when it is in the row and its column exists at the destination |
| Registros.ProyectarOrden | server.js:247-252 | the kept entries keep the row's order |
| Registros.ProyectarVacia | server.js:254-256 | nothing is kept exactly when no column of the row exists at the destination |
| Registros.BuscarProyectada | server.js:247-252 | looking a column up in the kept entries yields the row's value when the destination has the column, and nothing otherwise |
| Reenvio.Guardar | server.js:220-270 | the key set only grows, and by at most this row's key; the destination rows are only appended to, by at most one row |
| Reenvio.GuardarClaveConocida | server.js:223-225 | a known key returns false and touches neither the keys nor the destination |
| Reenvio.GuardarDuplicadoEnDestino | server.js:229-237 | when the destination already has that `HORA`, the call returns false, the key is remembered and nothing is inserted |
| Reenvio.GuardarInserta | server.js:220-265 | returns true exactly when the key is new, no statement throws, the time is not at the destination and some column is shared; then the projected row is appended and the key added |
| Reenvio.GuardarSinInsercion | server.js:220-270 | when the call returns false nothing is inserted, and the key set changes only in the duplicate-at-destination case |
| Reenvio.GuardarConError | server.js:266-269 | a caught error comes from a failing statement and leaves keys and destination unchanged |
| Reenvio.GuardarIdempotente | server.js:220-265 | after an insert or a duplicate detection, the same row and time are never sent again, whatever the destination does next |
| Reenvio.GuardarConservaHorasUnicas | server.js:229-265 | a row whose `HORA` is the query time never gives one `HORA` two destination rows |
| Reenvio.ColumnasComunes | server.js:244-252 | the loop collects, in order, the columns and values of the entries whose column exists at the destination |
| Monitor.FiltrarHora | server.js:189-192 | `WHERE HORA = ?` keeps exactly the rows of the table with that `HORA` |
| Monitor.Consultar | server.js:189-192 | the query fails exactly when the source is down or the table is missing; every row it returns has the asked `HORA` |
| Monitor.Iniciar | server.js:377-384 | starting sets the flag; when the engine was idle it emits `monitoreo_iniciado` and launches a loop, and otherwise nothing changes |
| Monitor.Detener | server.js:386-390 | stopping clears the flag and emits `monitoreo_detenido`, whatever the state, and changes nothing else |
| Monitor.EsperaHastaTick | server.js:164-169 | the sleep `calcular_proximo_multiplo_5` asks for, in milliseconds: at most one, positive and below 5000 ms |
| Monitor.EsperaHastaTickDespierta | server.js:164-169 | no sleep is asked for exactly when the local second is a multiple of five, and a sleep that is asked for wakes on such a second with the same milliseconds |
| Monitor.Dormir | server.js:352 | a sleep changes only the trace and the flag: the trace gains the sleep of exactly that length, then `monitoreo_detenido` when a stop lands during it, which is exactly when the flag is cleared |
| Monitor.Sincronizar | server.js:342-360 | the alignment emits `sincronizando` with the wait and the announced time, sleeps `tiempo_espera * 1000` ms only when the wait is positive, then emits `sincronizado` with the read table; only the trace and the flag change, and the flag is cleared exactly when a stop lands in that sleep |
| Monitor.HoraDeConsulta | server.js:185 | the time a lookup asks for is `HH:mm:ss` with seconds a multiple of five |
| Monitor.BuscarRetrasado | server.js:184-218 | on a hit, the first matching row and its time are remembered, the row goes through `Guardar` with the keys and rows held before, and `nuevo_registro` is emitted with the row, the query time, the current time, the forward's outcome and the table; otherwise the state is unchanged except for a stop landing; the flag is cleared exactly when a stop lands while the lookup awaits the databases, hit or miss; the lookup appends only events |
| Monitor.EsperarProximo | server.js:365-368 | the sleep to the next tick adds to the trace exactly the sleep `calcular_proximo_multiplo_5` asks for at that reading, if any; only the trace and the flag change, and the flag is cleared exactly when a stop lands in that sleep |
| Monitor.Iteracion | server.js:341-373 | after a pass the loop is synchronised unless the alignment threw; the table and destination columns are kept; the flag is cleared exactly when a stop lands in a sleep the pass makes (back-off, alignment, next tick) or during the lookup (`Detiene`); a failed pass sleeps exactly 5000 ms and forwards nothing; any other pass sleeps exactly the alignment wait (when not yet aligned) and the wait to the next tick, and on a hit forwards the found row through `Guardar` and emits `nuevo_registro` with the outcome |
| Monitor.IniciarIdempotente | server.js:377-384 | starting sets the flag, launches a loop exactly when the engine was idle, and is a no-op when repeated |
| Monitor.DetenerCierraBucle | server.js:386-390 | stopping clears the flag, emits `monitoreo_detenido`, and the loop then runs no further pass |
| Monitor.ParadaTrasIteracion | server.js:340-390 | a stop landing inside a pass, wherever it lands, clears the flag; the pass still finishes, and the loop then ends |
| Monitor.ConsultaTrasDetencion | server.js:342-362 | a stop during the alignment sleep still lets the source be queried; a found row is announced after `monitoreo_detenido` |
| Monitor.UltimoRegistroSoloConFilas | server.js:194-196 | the last record and its time change only when that pass's query returned rows, and then to the first row and the query time |
| Monitor.FalloReiniciaSincronizacion | server.js:369-372 | a throw in the alignment leaves the loop unsynchronised after a 5000 ms back-off, with nothing forwarded |
| Monitor.IteracionConserva | server.js:340-374 | a pass keeps the table and destination columns, only adds keys, appends at most one destination row and only appends to the trace |
| Monitor.IteracionEsperas | server.js:351-372 | every sleep a pass begins is positive and at most 5000 ms |
| Monitor.IteracionHorasUnicas | server.js:362 | a pass never gives one `HORA` two destination rows |
| Monitor.Ejecutar | server.js:337-375 | the loop does nothing when the flag is already clear; it keeps the table and destination columns, only appends to the trace, and can only clear the flag |
| Monitor.EjecutarConserva | server.js:337-375 | over a whole run keys and destination rows are never removed, and at most one row is inserted per pass |
| Monitor.EjecutarEsperas | server.js:351-372 | over a whole run every sleep stays positive and within 5000 ms |
| Monitor.EjecutarHorasUnicas | server.js:362 | over a whole run no `HORA` gets two destination rows |
| Monitor.EsperasDeTicks | server.js:365-368 | the sleeps to the next tick over several passes: at most one per pass, each positive and below 5000 ms |
| Monitor.EjecutarAlineado | server.js:337-368 | a run in which no stop lands and nothing throws keeps the flag set, and sleeps exactly the alignment wait once (unless already aligned) and then, after each lookup, the wait to the next tick |
| Monitor.TablaNuncaSeRenueva | server.js:19 | the loop reads, to the end, the table named from the local date at construction |
| Monitor.MonitorTiempoReal.constructor | server.js:8-31 | the engine starts idle, with nothing remembered and the table named from the construction-time local date |
| Monitor.MonitorTiempoReal.IniciarMonitoreo | server.js:377-384 | the new state and the launch decision are those of `Iniciar` |
| Monitor.MonitorTiempoReal.DetenerMonitoreo | server.js:386-390 | the new state is that of `Detener` |
| Monitor.MonitorTiempoReal.GuardarRegistro | server.js:220-270 | the result, the key set and the destination rows are those of `Guardar` on the state before the call |
| Monitor.MonitorTiempoReal.BuscarRegistroRetrasado | server.js:184-218 | the new state is `BuscarRetrasado` of the old one: a found row is remembered, forwarded through `guardarRegistro` and announced with the outcome |
| Monitor.MonitorTiempoReal.Pausar | server.js:352 | the new state is `Dormir` of the old one: exactly the requested sleep is recorded, and a stop landing in it clears the flag |
| Monitor.MonitorTiempoReal.Alinear | server.js:342-360 | the new state is `Sincronizar` of the old one: `sincronizando`, the alignment sleep when positive, `sincronizado` |
| Monitor.MonitorTiempoReal.PausarHastaTick | server.js:365-368 | the new state is `EsperarProximo` of the old one: exactly the sleep to the next tick, if any |
| Monitor.MonitorTiempoReal.Iterar | server.js:341-373 | the new state and the new `sincronizado` are those of `Iteracion`, so the pass sleeps, forwards and announces as stated there |
| Monitor.MonitorTiempoReal.Monitorear | server.js:337-375 | the final state is that of `Ejecutar` over the iterations, starting unsynchronised; by `EjecutarConserva`, `EjecutarEsperas`, `EjecutarHorasUnicas` and `EjecutarAlineado` the run only adds keys and rows, keeps sleeps within 5000 ms, keeps `HORA` unique, and, when uninterrupted, sleeps exactly to each tick |
| Frontend.PatronAcepta | public/js/app.js:184 | every time of day, with a one- or two-digit hour, passes the pattern |
| Frontend.PatronSoloAcepta | public/js/app.js:184 | only such times pass: an accepted string denotes a time below 24:00:00, written that way |
| Frontend.FormatoHoraAceptado | public/js/app.js:184 | every `HH:mm:ss` the server writes passes the client's pattern |
| Frontend.PatronSinSaltos | public/js/app.js:184 | an accepted time holds no line feed |
| Frontend.ValidarHoraManual | public/js/app.js:177-187 | the field is refused as empty exactly when it trims to nothing, refused as malformed exactly when the trimmed text fails the pattern, and otherwise accepted as the trimmed text |
| Frontend.VaciaSoloConEspacios | public/js/app.js:177-182 | the empty-field warning is given exactly when the field is all white space |
| Frontend.ValidaEsHoraRodeada | public/js/app.js:177-187 | an accepted time is the field with its surrounding white space dropped, and it passes the pattern |
| Frontend.ValidaConEspacios | public/js/app.js:177-187 | a valid time surrounded by any white space is accepted as that time |
| Frontend.BuscarManual | public/js/app.js:176-204 | a request is made exactly when the time is accepted, to `/api/buscar-manual/<time>`; the two warnings, the error notice, the found-record text and the not-found text each appear in their own case |
| Frontend.GetCurrentTableName | public/js/app.js:352-361 | the name starts with `tiempo` and has at least eleven characters; outside the `Date` range it is `tiempoNaNNaNaN` |
| Frontend.TablaClienteIgualServidor | public/js/app.js:352-361 | for dates in the `Date` range with a year of at least 10, the client's table name equals the server's |
| Frontend.TablaClientePartes | public/js/app.js:352-361 | within the `Date` range and for years of at least two digits, the client's name is `tiempo` followed by the same three two-digit fields |
| Frontend.CamposCliente | public/js/app.js:357-359 | `padStart(2, '0')` of the day and month and `slice(-2)` of a year of at least two digits give the two-digit fields |
| Frontend.TablaClienteDesde1970 | public/js/app.js:352-361 | from 1970 on, the client's name has twelve characters and equals the server's |
| Frontend.LineasRegistro | public/js/app.js:336-350 | the found-record text has the entry count plus seven lines: the five heading lines, one `columna: valor` line per entry in order, an empty line and the save reminder |
| Frontend.AnexarEntradas | public/js/app.js:343-345 | the `for ... of Object.entries(registro)` loop appends one `columna: valor` line per entry, in the row's order |
| Frontend.FormatearRegistro | public/js/app.js:336-350 | the text built is that of the heading lines, one `columna: valor` line per entry in order, an empty line and the save reminder |
| Frontend.LineasDelRegistro | public/js/app.js:336-350 | read back, that text has the entry count plus seven lines, with the time, the table, each entry in order, and the reminder at their places |
| Frontend.ColumnasPresentes | public/js/app.js:316-321 | at most the listed columns, each one present in the row |
| Frontend.ColumnasPresentesExacta | public/js/app.js:316-321 | a column is shown exactly when it is listed and the row has it, null values included |
| Frontend.ColumnasPresentesOrden | public/js/app.js:316-321 | the shown columns keep the fixed order of the list |
| Frontend.AnexarColumnas | public/js/app.js:316-321 | the `forEach` appends exactly one line per listed column the row has, in list order |
| Frontend.EscribirDatos | public/js/app.js:301-306 | the first six heading lines are written in order |
| Frontend.EscribirEstado | public/js/app.js:307-309 | the status, connections, rule and empty lines are written in order |
| Frontend.EscribirEncabezado | public/js/app.js:301-309 | the ten heading lines are written in order |
| Frontend.EscribirBloque | public/js/app.js:311-325 | the record block's lines are written in order |
| Frontend.MostrarNuevoRegistro | public/js/app.js:298-334 | the text is the heading, the record block and the last-update line; the footer shows the last-update line |
| Frontend.ResumenMonitoreo | public/js/app.js:298-327 | read back, the summary has sixteen lines plus one per shown column; it reads `GUARDADO ✓` exactly when the row was forwarded and `DUPLICADO` exactly when not; the column lines are in order; and the count of other columns is the column count minus eight |
| Frontend.EstadoDistingue | public/js/app.js:307 | the status line tells a forwarded row from a duplicate |
| Frontend.MasColumnasNegativo | public/js/app.js:323 | a three-column row is summarised as having `-5` more columns |

## Left out

- Express routes, Socket.IO transport, `fetch`, the mysql2 pools and the SQL text are left out. Queries are modelled by their effect on tables held as values.
- Connection setup (`inicializarConexiones`) and the REST handlers of server.js are not part of this model. The well-data functions (server.js:272-327: `cargarDatosPozo`, `enviarActualizarDatosPozo`, `actualizarDatosPozo`) are not modelled either; they run outside the polling core.
- `buscarRegistroManual` (server.js:329-335), the server side of the manual search, is not modelled. The client receives its answer as a parameter.
- The DOM, `mostrarMensaje` rendering, `alert` and `console` logging are left out. Each text is returned instead of being assigned to `textContent`. A notice is returned as its type and message.
- Column values are text, integers or null. Floating-point values and their JavaScript rendering are left out.
- Clocks are parameters: the UTC readings of moment/`Date.now`, and the date `toLocaleDateString('es-VE')` gives, passed to `MostrarNuevoRegistro` as text.
- Asynchrony is reduced to where a stop request lands in an iteration (`Parada`). Interleavings beyond that are left out. So is the order of `sincronizando` and `monitoreo_iniciado`: `monitorear` runs up to its first `await` before `iniciarMonitoreo` emits.
- Monitor.MonitorTiempoReal.Monitorear: runs over a finite list of iterations, so a loop that never stops is seen through its finite prefixes. The forward and the `nuevo_registro` event of each pass are stated per pass (`Iteracion`), not collected over a whole run; the run-level lemmas state keys, rows, sleeps and `HORA` uniqueness.
- Reloj.NombreTablaActual: takes the year modulo 100 rounding down, so a negative year gives two digits (year -15 gives `85`). moment's `YY` uses JavaScript's truncating `%` and prints such a year as `-15`. Outside the `Date` range (more than 8.64e15 ms from 1970) moment prints `Invalid date`. Neither edge is modelled.
- A throw from the `sincronizado` emit (server.js:356-359), which would reach the loop's catch at server.js:369, is not modelled; only the `sincronizando` emit is modelled as throwing. A throw from the `nuevo_registro` emit, which `buscarRegistroRetrasado` catches at server.js:215, is not modelled either.
- The destination's column list is fixed for a whole run. The source re-runs `DESCRIBE tiempo` on every forward (server.js:240), so a schema change during a run is not modelled.
- `zona_horaria`, always the constant `Venezuela (UTC-4:30)`, is left off the modelled events.
- Frontend.TablaClienteIgualServidor: is stated only for years of at least two digits. For years 0 to 9, `slice(-2)` keeps a single digit and the names differ.
