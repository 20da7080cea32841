/**
 * The browser client of public/js/app.js: the time check of the manual
 * search, the client's own table name, and the two texts it writes into
 * the page — the found record of a manual search and the summary of each
 * `nuevo_registro` event the server broadcasts. The DOM is left out: each
 * text is returned instead of assigned to `textContent`.
 */
module Frontend {
  import opened Texto
  import opened Calendario
  import opened Reloj
  import opened Registros
  import opened Monitor

  // ---------------------------------------------------------------------
  // The HH:MM:SS pattern of `buscarManual`
  // ---------------------------------------------------------------------

  /** The group `([0-1]?[0-9]|2[0-3])`, matched against the whole of `h`. */
  predicate HoraDelPatron(h: string)
  {
    (|h| == 1 && EsDigito(h[0]))
    || (|h| == 2 && '0' <= h[0] <= '1' && EsDigito(h[1]))
    || (|h| == 2 && h[0] == '2' && '0' <= h[1] <= '3')
  }

  /** `[0-5][0-9]`, matched against the whole of `p`. */
  predicate SexagesimalDelPatron(p: string)
  {
    |p| == 2 && '0' <= p[0] <= '5' && EsDigito(p[1])
  }

  /**
   * `/^([0-1]?[0-9]|2[0-3]):[0-5][0-9]:[0-5][0-9]$/.test(s)`. Everything
   * after the hour group has a fixed length of six, so the hour is what
   * precedes the last six characters.
   */
  predicate CoincidePatronHora(s: string)
  {
    |s| >= 6 && HoraDelPatron(s[..|s| - 6]) && s[|s| - 6] == ':'
    && SexagesimalDelPatron(s[|s| - 5..|s| - 3]) && s[|s| - 3] == ':'
    && SexagesimalDelPatron(s[|s| - 2..])
  }

  /**
   * Reference rendering of a time of day: the hour with one digit (`corta`,
   * only below ten) or two, then two-digit minutes and seconds.
   */
  function TextoHora(h: nat, m: nat, sg: nat, corta: bool): string
    requires h < 24 && m < 60 && sg < 60 && (corta ==> h < 10)
  {
    (if corta then [Digito(h)] else Pad2(h)) + ":" + Pad2(m) + ":" + Pad2(sg)
  }

  lemma DigitoHasta(d: nat, tope: nat)
    requires d <= tope < 10
    ensures '0' <= Digito(d) <= Digito(tope)
  {
  }

  /** Every time of day, written with a one- or two-digit hour, passes the pattern. */
  lemma PatronAcepta(h: nat, m: nat, sg: nat, corta: bool)
    requires h < 24 && m < 60 && sg < 60 && (corta ==> h < 10)
    ensures CoincidePatronHora(TextoHora(h, m, sg, corta))
  {
    var hh := if corta then [Digito(h)] else Pad2(h);
    var s := TextoHora(h, m, sg, corta);
    assert s == hh + ":" + Pad2(m) + ":" + Pad2(sg);
    assert s[..|s| - 6] == hh;
    assert s[|s| - 5..|s| - 3] == Pad2(m);
    assert s[|s| - 2..] == Pad2(sg);
    DigitoHasta(m / 10, 5);
    DigitoHasta(sg / 10, 5);
    if !corta {
      if h / 10 < 2 {
        DigitoHasta(h / 10, 1);
      } else {
        DigitoHasta(h % 10, 3);
      }
    }
  }

  lemma Pad2DeValor(p: string)
    requires |p| == 2 && SoloDigitos(p)
    ensures ValorDecimal(p) == ValorDigito(p[0]) * 10 + ValorDigito(p[1])
    ensures ValorDecimal(p) < 100 && Pad2(ValorDecimal(p)) == p
  {
    assert p[..1][..0] == [];
    assert p[..2 - 1] == p[..1];
    assert ValorDecimal(p[..1]) == ValorDigito(p[0]);
    var q := Pad2(ValorDecimal(p));
    assert ValorDigito(q[0]) == ValorDigito(p[0]) && ValorDigito(q[1]) == ValorDigito(p[1]);
  }

  /** The hour, minute and second a string that passes the pattern denotes. */
  function CamposPatron(s: string): (nat, nat, nat)
    requires CoincidePatronHora(s)
  {
    (ValorDecimal(s[..|s| - 6]), ValorDecimal(s[|s| - 5..|s| - 3]), ValorDecimal(s[|s| - 2..]))
  }

  /**
   * Only such renderings pass: a string the pattern accepts is a time of day
   * below 24:00:00 written as `TextoHora` writes it, with a one-digit hour
   * exactly when it is seven characters long.
   */
  lemma PatronSoloAcepta(s: string)
    requires CoincidePatronHora(s)
    ensures var (h, m, sg) := CamposPatron(s);
            h < 24 && m < 60 && sg < 60 && (|s| == 7 ==> h < 10)
            && s == TextoHora(h, m, sg, |s| == 7)
  {
    var (h, m, sg) := CamposPatron(s);
    var hh, mm, ss := s[..|s| - 6], s[|s| - 5..|s| - 3], s[|s| - 2..];
    Pad2DeValor(mm);
    Pad2DeValor(ss);
    if |hh| == 1 {
      assert hh[..0] == [];
      assert ValorDecimal(hh) == ValorDigito(hh[0]);
      assert [Digito(h)] == hh;
    } else {
      Pad2DeValor(hh);
    }
    assert s == hh + ":" + mm + ":" + ss;
  }

  /** Every `HH:mm:ss` the server writes, `hora` and `hora_actual` of its events among them, passes the client's pattern. */
  lemma FormatoHoraAceptado(t: int)
    ensures CoincidePatronHora(FormatoHora(t))
  {
    assert FormatoHora(t) == TextoHora(Hora(t), Minuto(t), Segundo(t), false);
    PatronAcepta(Hora(t), Minuto(t), Segundo(t), false);
  }

  // ---------------------------------------------------------------------
  // buscarManual
  // ---------------------------------------------------------------------

  /** What the checks of `buscarManual` make of the typed text, before any request. */
  datatype Validacion = Vacia | FormatoIncorrecto | Valida(hora: string)

  /** The trim, the emptiness check and the pattern check of `buscarManual`. */
  function ValidarHoraManual(entrada: string): (v: Validacion)
    ensures v == Vacia <==> Recortar(entrada) == []
    ensures v == FormatoIncorrecto <==> Recortar(entrada) != [] && !CoincidePatronHora(Recortar(entrada))
    ensures v.Valida? ==> v.hora == Recortar(entrada) && CoincidePatronHora(v.hora)
  {
    var hora := Recortar(entrada);
    if hora == [] then Vacia
    else if !CoincidePatronHora(hora) then FormatoIncorrecto
    else Valida(hora)
  }

  /** A text that passes the pattern is one line: digits and colons only. */
  lemma PatronSinSaltos(s: string)
    requires CoincidePatronHora(s)
    ensures SinSaltos(s)
  {
    var n := |s|;
    forall k | 0 <= k < n ensures s[k] != '\n' {
      if k < n - 6 {
        assert s[k] == s[..n - 6][k];
      } else if n - 5 <= k < n - 3 {
        assert s[k] == s[n - 5..n - 3][k - (n - 5)];
      } else if n - 2 <= k {
        assert s[k] == s[n - 2..][k - (n - 2)];
      }
    }
  }

  /**
   * An accepted time is what the field holds once the white space around it
   * is dropped: it passes the pattern and is a single line.
   */
  lemma ValidaEsHoraRodeada(entrada: string)
    requires ValidarHoraManual(entrada).Valida?
    ensures var hora := ValidarHoraManual(entrada).hora;
            var k := EspaciosIniciales(entrada);
            CoincidePatronHora(hora) && SinSaltos(hora)
            && k + |hora| <= |entrada| && entrada == entrada[..k] + hora + entrada[k + |hora|..]
            && (forall i :: 0 <= i < k ==> EsEspacio(entrada[i]))
            && (forall i :: k + |hora| <= i < |entrada| ==> EsEspacio(entrada[i]))
  {
    var hora := Recortar(entrada);
    var k := EspaciosIniciales(entrada);
    PatronSinSaltos(hora);
    PartirEnTres(entrada, k, k + |hora|);
  }

  lemma PartirEnTres(s: string, i: nat, j: nat)
    requires i <= j <= |s|
    ensures s == s[..i] + s[i..j] + s[j..]
  {
    assert s[..j] == s[..i] + s[i..j];
  }

  /** The warning for an empty field is given exactly when the field holds nothing but white space. */
  lemma VaciaSoloConEspacios(entrada: string)
    ensures ValidarHoraManual(entrada) == Vacia <==> forall i :: 0 <= i < |entrada| ==> EsEspacio(entrada[i])
  {
    var r := Recortar(entrada);
    var k := EspaciosIniciales(entrada);
    if r != [] {
      assert r[0] == entrada[k] && !EsEspacio(entrada[k]);
    }
  }

  /** A time that passes the pattern is accepted however much white space surrounds it, and the white space is dropped. */
  lemma ValidaConEspacios(antes: string, hora: string, despues: string)
    requires forall i :: 0 <= i < |antes| ==> EsEspacio(antes[i])
    requires forall i :: 0 <= i < |despues| ==> EsEspacio(despues[i])
    requires CoincidePatronHora(hora)
    ensures ValidarHoraManual(antes + hora + despues) == Valida(hora)
  {
    PatronSoloAcepta(hora);
    assert EsDigito(hora[0]) && EsDigito(hora[|hora| - 1]);
    RecortarRodeado(antes, hora, despues);
  }

  lemma {:induction false} RecortarInicioTras(antes: string, s: string)
    requires forall i :: 0 <= i < |antes| ==> EsEspacio(antes[i])
    requires s != [] && !EsEspacio(s[0])
    ensures RecortarInicio(antes + s) == s
  {
    if antes != [] {
      assert (antes + s)[1..] == antes[1..] + s;
      RecortarInicioTras(antes[1..], s);
    }
  }

  lemma {:induction false} RecortarFinAntes(s: string, despues: string)
    requires forall i :: 0 <= i < |despues| ==> EsEspacio(despues[i])
    requires s != [] && !EsEspacio(s[|s| - 1])
    ensures RecortarFin(s + despues) == s
  {
    if despues != [] {
      var menos := despues[..|despues| - 1];
      assert (s + despues)[..|s + despues| - 1] == s + menos;
      RecortarFinAntes(s, menos);
    }
  }

  lemma RecortarRodeado(antes: string, s: string, despues: string)
    requires forall i :: 0 <= i < |antes| ==> EsEspacio(antes[i])
    requires forall i :: 0 <= i < |despues| ==> EsEspacio(despues[i])
    requires s != [] && !EsEspacio(s[0]) && !EsEspacio(s[|s| - 1])
    ensures Recortar(antes + s + despues) == s
  {
    assert antes + s + despues == antes + (s + despues);
    RecortarInicioTras(antes, s + despues);
    RecortarFinAntes(s, despues);
  }

  /** The JSON body of `/api/buscar-manual/:hora` the client reads: `success` and `datos`. */
  datatype Respuesta = Respuesta(success: bool, datos: seq<Registro>)

  /** What `buscarManual` leaves on screen: a `mostrarMensaje` notice, or the text of the manual-search box. */
  datatype Pantalla = Aviso(tipo: string, mensaje: string) | Salida(contenido: string)

  /** The "not found" text of the manual-search box. */
  function TextoNoEncontrado(hora: string): string
  {
    "No se encontraron registros para la hora: " + hora
  }

  /**
   * `buscarManual` with the typed text, the answer of the request (`None`
   * when `fetch` or `response.json()` throws) and the clock `getCurrentTableName`
   * reads. `peticion` is the path requested, if any.
   */
  method BuscarManual(entrada: string, respuesta: Option<Respuesta>, ahoraMs: int)
    returns (peticion: Option<string>, pantalla: Pantalla)
    ensures peticion.Some? <==> ValidarHoraManual(entrada).Valida?
    ensures ValidarHoraManual(entrada) == Vacia ==>
              pantalla == Aviso("warning", "Por favor ingrese una hora para buscar")
    ensures ValidarHoraManual(entrada) == FormatoIncorrecto ==>
              pantalla == Aviso("warning", "Formato de hora incorrecto. Use HH:MM:SS")
    ensures ValidarHoraManual(entrada).Valida? ==>
              var hora := ValidarHoraManual(entrada).hora;
              peticion == Some("/api/buscar-manual/" + hora)
              && pantalla == match respuesta
                             case None => Aviso("error", "Error en la b\U{00FA}squeda manual")
                             case Some(d) =>
                               if d.success && d.datos != []
                               then Salida(TextoRegistro(d.datos[0], hora, GetCurrentTableName(ahoraMs)))
                               else Salida(TextoNoEncontrado(hora))
  {
    var hora := Recortar(entrada);
    if hora == [] {
      return None, Aviso("warning", "Por favor ingrese una hora para buscar");
    }
    if !CoincidePatronHora(hora) {
      return None, Aviso("warning", "Formato de hora incorrecto. Use HH:MM:SS");
    }
    peticion := Some("/api/buscar-manual/" + hora);
    match respuesta
    case None =>
      pantalla := Aviso("error", "Error en la b\U{00FA}squeda manual");
    case Some(datos) =>
      if datos.success && datos.datos != [] {
        var texto := FormatearRegistro(datos.datos[0], hora, ahoraMs);
        pantalla := Salida(texto);
      } else {
        pantalla := Salida(TextoNoEncontrado(hora));
      }
  }

  // ---------------------------------------------------------------------
  // getCurrentTableName
  // ---------------------------------------------------------------------

  /** The largest magnitude of a JavaScript time value (section 21.4.1.31 of ECMA-262, TimeClip). */
  const MaxTiempo: int := 8_640_000_000_000_000

  /**
   * `getCurrentTableName`: the clock minus 4.5 hours read with the UTC
   * getters, day and month through `String(...).padStart(2, '0')`, the year
   * through `String(...).slice(-2)`. A shifted instant outside the range of
   * a `Date` makes every getter `NaN`.
   */
  function GetCurrentTableName(ahoraMs: int): (r: string)
    ensures |r| >= 11 && r[..6] == "tiempo"
    ensures ahoraMs - 16_200_000 < -MaxTiempo || ahoraMs - 16_200_000 > MaxTiempo ==> r == "tiempoNaNNaNaN"
  {
    var ajustado := ahoraMs - 16_200_000;
    if ajustado < -MaxTiempo || ajustado > MaxTiempo then "tiempoNaNNaNaN"
    else
      var f := FechaDeDia(ajustado / MsPorDia);
      var dd := RellenarInicio(CadenaEntero(f.dia), 2, '0');
      var mm := RellenarInicio(CadenaEntero(f.mes), 2, '0');
      var yy := Ultimos(CadenaEntero(f.anio), 2);
      "tiempo" + (dd + mm + yy)
  }

  /**
   * The client names the same table as the server whenever the local year
   * has at least two digits; in particular at every instant after 1970.
   */
  lemma TablaClienteIgualServidor(ahoraMs: int)
    requires -MaxTiempo <= ahoraMs - 16_200_000 <= MaxTiempo
    requires FechaLocal(ahoraMs).anio >= 10
    ensures GetCurrentTableName(ahoraMs) == NombreTablaActual(ahoraMs)
  {
    NombreTablaPartes(ahoraMs);
    TablaClientePartes(ahoraMs);
  }

  /** The client's name, within the `Date` range and for years of two digits or more, in the server's three fields. */
  lemma TablaClientePartes(ahoraMs: int)
    requires -MaxTiempo <= ahoraMs - 16_200_000 <= MaxTiempo
    requires FechaLocal(ahoraMs).anio >= 10
    ensures var f := FechaLocal(ahoraMs);
            GetCurrentTableName(ahoraMs) == "tiempo" + (Pad2(f.dia) + Pad2(f.mes) + Pad2(f.anio % 100))
  {
    var f := FechaLocal(ahoraMs);
    assert f == FechaDeDia((ahoraMs - 16_200_000) / MsPorDia);
    CamposCliente(f);
  }

  /** `padStart(2, '0')` of the day and month and `slice(-2)` of a year of two digits or more give the two-digit fields. */
  lemma CamposCliente(f: Fecha)
    requires FechaValida(f) && f.anio >= 10
    ensures RellenarInicio(CadenaEntero(f.dia), 2, '0') + RellenarInicio(CadenaEntero(f.mes), 2, '0')
              + Ultimos(CadenaEntero(f.anio), 2)
            == Pad2(f.dia) + Pad2(f.mes) + Pad2(f.anio % 100)
  {
    RellenarDecimalEsPad2(f.dia);
    RellenarDecimalEsPad2(f.mes);
    UltimosDosDecimal(f.anio);
  }

  /** From 1970 on, the client's name is twelve characters, `tiempo` and six digits, and agrees with the server's. */
  lemma TablaClienteDesde1970(ahoraMs: int)
    requires 0 <= ahoraMs <= MaxTiempo
    ensures |GetCurrentTableName(ahoraMs)| == 12
    ensures GetCurrentTableName(ahoraMs) == NombreTablaActual(ahoraMs)
  {
    assert HoraActualVenezuela(ahoraMs) == ahoraMs - 16_200_000;
    assert DiaLocal(ahoraMs - 16_200_000) >= -1;
    TablaClienteIgualServidor(ahoraMs);
  }

  // ---------------------------------------------------------------------
  // Building texts line by line
  // ---------------------------------------------------------------------

  /** The text of the first `k + 1` lines is that of the first `k`, then line `k` and a line feed. */
  lemma UnirPrefijo(ls: seq<string>, k: nat)
    requires k < |ls|
    ensures Unir(ls[..k + 1]) == Unir(ls[..k]) + ls[k] + "\n"
  {
    assert ls[..k + 1] == ls[..k] + [ls[k]];
    UnirConcatena(ls[..k], [ls[k]]);
    assert [ls[k]][1..] == [];
  }

  /** `contenido += linea + '\n'`, where `linea` is line `k` of `ls` and `contenido` holds the lines before it. */
  method AnexarLinea(contenido: string, ghost ls: seq<string>, ghost k: nat, linea: string) returns (r: string)
    requires k < |ls| && linea == ls[k] && contenido == Unir(ls[..k])
    ensures r == Unir(ls[..k + 1])
  {
    r := contenido + linea + "\n";
    UnirPrefijo(ls, k);
  }

  /** A value or column that holds no line feed of its own. */
  predicate EntradasSinSaltos(r: Registro)
  {
    forall i :: 0 <= i < |r| ==> SinSaltos(r[i].0) && (r[i].1.Cadena? ==> SinSaltos(r[i].1.s))
  }

  lemma CadenaEnteroSinSaltos(i: int)
    ensures SinSaltos(CadenaEntero(i))
  {
    var s := CadenaEntero(i);
    forall k | 0 <= k < |s| ensures s[k] != '\n' {
      if i < 0 && k > 0 {
        assert s[k] == s[1..][k - 1];
      }
    }
  }

  lemma MostrarSinSaltos(v: Valor)
    requires v.Cadena? ==> SinSaltos(v.s)
    ensures SinSaltos(Mostrar(v))
  {
    if v.Entero? {
      CadenaEnteroSinSaltos(v.n);
    }
  }

  lemma RepetirSinSaltos(c: char, n: nat)
    requires c != '\n'
    ensures SinSaltos(Repetir(c, n))
  {
  }

  /** Every element of `ls` is a single line. */
  predicate LineasSimples(ls: seq<string>)
  {
    forall k :: 0 <= k < |ls| ==> SinSaltos(ls[k])
  }

  lemma LineasSimplesConcatena(a: seq<string>, b: seq<string>)
    requires LineasSimples(a) && LineasSimples(b)
    ensures LineasSimples(a + b)
  {
    forall k | 0 <= k < |a + b| ensures SinSaltos((a + b)[k]) {
      if k >= |a| {
        assert (a + b)[k] == b[k - |a|];
      }
    }
  }

  // ---------------------------------------------------------------------
  // formatearRegistro
  // ---------------------------------------------------------------------

  /** `${columna}: ${valor}`, one entry of the record. */
  function LineaEntrada(e: (string, Valor)): string
  {
    e.0 + ": " + Mostrar(e.1)
  }

  function LineasEntradas(r: Registro): (ls: seq<string>)
    ensures |ls| == |r|
  {
    seq(|r|, i requires 0 <= i < |r| => LineaEntrada(r[i]))
  }

  /** The five heading lines of the found-record text. */
  function CabeceraRegistro(hora: string, tabla: string): seq<string>
  {
    ["=== REGISTRO ENCONTRADO ===", "Hora: " + hora, "Tabla: " + tabla,
     "Zona horaria: Venezuela (UTC-4:30)", Repetir('-', 50)]
  }

  const PieRegistro: string := "[Use el bot\U{00F3}n \"Guardar Manualmente\"" + " para guardar este registro]"

  /**
   * The lines of the found-record text: the heading with the time and the
   * table, one line per entry of the record in its own order, an empty line,
   * and the reminder to save by hand.
   */
  function LineasRegistro(r: Registro, hora: string, tabla: string): (ls: seq<string>)
    ensures |ls| == |r| + 7 && ls[..5] == CabeceraRegistro(hora, tabla)
    ensures forall k :: 0 <= k < |r| ==> ls[5 + k] == LineaEntrada(r[k])
    ensures ls[|r| + 5] == "" && ls[|r| + 6] == PieRegistro
  {
    CabeceraRegistro(hora, tabla) + LineasEntradas(r) + ["", PieRegistro]
  }

  function TextoRegistro(r: Registro, hora: string, tabla: string): string
  {
    Unir(LineasRegistro(r, hora, tabla))
  }

  /** `formatearRegistro(registro, hora)`, with the clock its `getCurrentTableName()` reads. */
  method FormatearRegistro(registro: Registro, hora: string, ahoraMs: int) returns (contenido: string)
    ensures contenido == TextoRegistro(registro, hora, GetCurrentTableName(ahoraMs))
  {
    var tabla := GetCurrentTableName(ahoraMs);
    contenido := EscribirCabeceraRegistro(hora, tabla);
    contenido := AnexarEntradas(contenido, registro);
    // the closing '\n[Use el botón ...]\n': an empty line, then the reminder
    contenido := contenido + "\n" + PieRegistro + "\n";
    TextoRegistroPartes(registro, hora, tabla);
  }

  /** The found-record text is its heading, its entries, then the empty line and the reminder. */
  lemma TextoRegistroPartes(r: Registro, hora: string, tabla: string)
    ensures TextoRegistro(r, hora, tabla)
         == Unir(CabeceraRegistro(hora, tabla)) + Unir(LineasEntradas(r)) + "\n" + PieRegistro + "\n"
  {
    var cabecera := CabeceraRegistro(hora, tabla);
    var entradas := LineasEntradas(r);
    UnirConcatena(cabecera + entradas, ["", PieRegistro]);
    UnirConcatena(cabecera, entradas);
    UnirCierreRegistro();
  }

  /** The closing of the found-record text: an empty line, then the reminder. */
  lemma UnirCierreRegistro()
    ensures Unir(["", PieRegistro]) == "\n" + PieRegistro + "\n"
  {
    var cierre := ["", PieRegistro];
    assert cierre[1..] == [PieRegistro] && [PieRegistro][1..] == [];
    assert Unir([PieRegistro]) == PieRegistro + "\n" + Unir([]);
    assert Unir(cierre) == "" + "\n" + Unir([PieRegistro]);
    assert "" + "\n" == "\n";
  }

  /** One more entry of the record gives one more line. */
  lemma LineasEntradasAlFinal(r: Registro, i: nat)
    requires i < |r|
    ensures LineasEntradas(r[..i + 1]) == LineasEntradas(r[..i]) + [LineaEntrada(r[i])]
  {
    var antes := LineasEntradas(r[..i]);
    var despues := LineasEntradas(r[..i + 1]);
    var esperado := antes + [LineaEntrada(r[i])];
    forall k | 0 <= k <= i
      ensures despues[k] == esperado[k]
    {
      assert r[..i + 1][k] == r[k];
      if k < i {
        assert r[..i][k] == r[k];
      }
    }
  }

  /** The five heading lines of the found-record text, one after another. */
  method EscribirCabeceraRegistro(hora: string, tabla: string) returns (contenido: string)
    ensures contenido == Unir(CabeceraRegistro(hora, tabla))
  {
    ghost var ls := CabeceraRegistro(hora, tabla);
    contenido := AnexarLinea("", ls, 0, "=== REGISTRO ENCONTRADO ===");
    contenido := AnexarLinea(contenido, ls, 1, "Hora: " + hora);
    contenido := AnexarLinea(contenido, ls, 2, "Tabla: " + tabla);
    contenido := AnexarLinea(contenido, ls, 3, "Zona horaria: Venezuela (UTC-4:30)");
    contenido := AnexarLinea(contenido, ls, 4, Repetir('-', 50));
    assert ls[..5] == ls;
  }

  /** The `for (const [columna, valor] of Object.entries(registro))` loop: one line per entry, in the record's order. */
  method AnexarEntradas(contenido: string, registro: Registro) returns (r: string)
    ensures r == contenido + Unir(LineasEntradas(registro))
  {
    r := contenido;
    for i := 0 to |registro|
      invariant r == contenido + Unir(LineasEntradas(registro[..i]))
    {
      var linea := LineaEntrada(registro[i]);
      LineasEntradasAlFinal(registro, i);
      UnirAlFinal(contenido, LineasEntradas(registro[..i]), linea);
      r := r + linea + "\n";
    }
    assert registro[..|registro|] == registro;
  }

  lemma TituloRegistroSinSaltos()
    ensures SinSaltos("=== REGISTRO ENCONTRADO ===") && SinSaltos("Hora: ") && SinSaltos("Tabla: ")
  {
  }

  lemma PieSinSaltos()
    ensures SinSaltos(PieRegistro)
  {
  }

  lemma CabeceraRegistroSimple(hora: string, tabla: string)
    requires SinSaltos(hora) && SinSaltos(tabla)
    ensures LineasSimples(CabeceraRegistro(hora, tabla))
  {
    TituloRegistroSinSaltos();
    ZonaSinSaltos();
    RepetirSinSaltos('-', 50);
  }

  lemma EntradasSimples(r: Registro)
    requires EntradasSinSaltos(r)
    ensures LineasSimples(LineasEntradas(r))
  {
    forall k | 0 <= k < |r| ensures SinSaltos(LineasEntradas(r)[k]) {
      MostrarSinSaltos(r[k].1);
    }
  }

  /**
   * Read back line by line, the found-record text has exactly one
   * `columna: valor` line per entry of the record, in the record's order,
   * between the five heading lines and the two closing ones.
   */
  lemma LineasDelRegistro(r: Registro, hora: string, tabla: string)
    requires SinSaltos(hora) && SinSaltos(tabla) && EntradasSinSaltos(r)
    ensures var ls := Lineas(TextoRegistro(r, hora, tabla));
            |ls| == |r| + 7 && ls[1] == "Hora: " + hora && ls[2] == "Tabla: " + tabla
            && (forall k :: 0 <= k < |r| ==> ls[5 + k] == r[k].0 + ": " + Mostrar(r[k].1))
            && ls[|r| + 6] == PieRegistro
  {
    CabeceraRegistroSimple(hora, tabla);
    EntradasSimples(r);
    PieSinSaltos();
    LineasSimplesConcatena(CabeceraRegistro(hora, tabla), LineasEntradas(r));
    LineasSimplesConcatena(CabeceraRegistro(hora, tabla) + LineasEntradas(r), ["", PieRegistro]);
    LineasDeUnir(LineasRegistro(r, hora, tabla));
  }

  // ---------------------------------------------------------------------
  // mostrarNuevoRegistro
  // ---------------------------------------------------------------------

  /** `columnasMostrar`: the drilling columns the summary lists when the record has them. */
  const ColumnasMostrar: seq<string> := ["HOOKLOAD", "PUMPPR", "FLOWOUT", "GASTOTAL", "TORQUE", "DEPTHMD", "WOB", "ROP"]

  /** The columns of `cols`, in their order, that the record has (`!== undefined`; a null value counts). */
  function ColumnasPresentes(r: Registro, cols: seq<string>): (p: seq<string>)
    ensures |p| <= |cols|
    ensures forall k :: 0 <= k < |p| ==> Buscar(r, p[k]).Some?
  {
    if cols == [] then []
    else
      var previo := ColumnasPresentes(r, cols[..|cols| - 1]);
      if Buscar(r, cols[|cols| - 1]).Some? then previo + [cols[|cols| - 1]] else previo
  }

  /** A column is listed exactly when it is one of `cols` and the record has it. */
  lemma {:induction false} ColumnasPresentesExacta(r: Registro, cols: seq<string>, c: string)
    ensures c in ColumnasPresentes(r, cols) <==> c in cols && Buscar(r, c).Some?
  {
    if cols != [] {
      ColumnasPresentesExacta(r, cols[..|cols| - 1], c);
      assert cols == cols[..|cols| - 1] + [cols[|cols| - 1]];
    }
  }

  /** The listed columns keep the order of `cols`. */
  lemma {:induction false} ColumnasPresentesOrden(r: Registro, cols: seq<string>)
    ensures EsSubsecuencia(ColumnasPresentes(r, cols), cols)
  {
    if cols != [] {
      var previo := ColumnasPresentes(r, cols[..|cols| - 1]);
      ColumnasPresentesOrden(r, cols[..|cols| - 1]);
      assert cols[..|cols| - 1] + [cols[|cols| - 1]] == cols;
      if Buscar(r, cols[|cols| - 1]).None? {
        SubsecuenciaDeMayor(previo, cols[..|cols| - 1], cols[|cols| - 1]);
      } else {
        assert (previo + [cols[|cols| - 1]])[..|previo|] == previo;
      }
    }
  }

  /** The columns listed after the first `i` of `cols` are looked at extend those listed before. */
  lemma {:induction false} ColumnasPresentesPrefijo(r: Registro, cols: seq<string>, i: nat)
    requires i <= |cols|
    ensures ColumnasPresentes(r, cols[..i]) <= ColumnasPresentes(r, cols)
  {
    if i < |cols| {
      var inicio := cols[..|cols| - 1];
      assert inicio[..i] == cols[..i];
      ColumnasPresentesPrefijo(r, inicio, i);
    } else {
      assert cols[..i] == cols;
    }
  }

  /** `  ${columna}: ${data.registro[columna]}` for a column the record has. */
  function LineaColumna(r: Registro, c: string): string
    requires Buscar(r, c).Some?
  {
    "  " + c + ": " + Mostrar(Buscar(r, c).value)
  }

  /** The column lines of the summary: one `LineaColumna` per column of `cols` the record has, in the order of `cols`. */
  function LineasColumnas(r: Registro, cols: seq<string>): (ls: seq<string>)
    ensures |ls| == |ColumnasPresentes(r, cols)|
  {
    if cols == [] then []
    else
      var previo := LineasColumnas(r, cols[..|cols| - 1]);
      var c := cols[|cols| - 1];
      if Buscar(r, c).Some? then previo + [LineaColumna(r, c)] else previo
  }

  /** Line `k` of the column lines is that of the `k`-th column shown. */
  lemma {:induction false} LineasColumnasIndice(r: Registro, cols: seq<string>)
    ensures forall k :: 0 <= k < |ColumnasPresentes(r, cols)| ==>
              LineasColumnas(r, cols)[k] == LineaColumna(r, ColumnasPresentes(r, cols)[k])
  {
    if cols != [] {
      LineasColumnasIndice(r, cols[..|cols| - 1]);
    }
  }

  /** `Estado: ...` of the summary. */
  function LineaEstado(guardado: bool): string
  {
    "Estado: " + if guardado then "GUARDADO \U{2713}" else "DUPLICADO"
  }

  /** `... y N columnas más`, where `N` is the record's column count minus eight, negative for a narrow record. */
  function LineaMasColumnas(r: Registro): string
  {
    "... y " + CadenaEntero(|r| - |ColumnasMostrar|) + " columnas m\U{00E1}s"
  }

  const PrefijoActualizacion: string := "\U{00DA}ltima actualizaci\U{00F3}n: "

  /**
   * The ten heading lines: the title, the zone, the date, the clock, the
   * table and the query time, then the status lines, a rule and an empty
   * line. The server always sends `zona_horaria`, so its fallback text is
   * the text shown.
   */
  function EncabezadoMonitoreo(hora: string, horaActual: string, guardado: bool,
                               tabla: string, fecha: string): seq<string>
  {
    DatosMonitoreo(hora, horaActual, tabla, fecha) + EstadoMonitoreo(guardado)
  }

  function DatosMonitoreo(hora: string, horaActual: string, tabla: string, fecha: string): seq<string>
  {
    ["=== MONITOREO EN TIEMPO REAL ===", "Zona horaria: Venezuela (UTC-4:30)", "Fecha: " + fecha,
     "Hora actual Venezuela: " + horaActual, "Tabla: " + tabla, "Registro de: " + hora]
  }

  function EstadoMonitoreo(guardado: bool): seq<string>
  {
    [LineaEstado(guardado), "Conexiones: Lectura[\U{2713}], Escritura[\U{2713}]", Repetir('=', 50), ""]
  }

  /**
   * The record block of the summary: its time, one line per listed column
   * the record has, the count of the other columns, a rule and an empty
   * line. A row object is always truthy, so the block is always written.
   */
  function BloqueRegistro(registro: Registro, hora: string): seq<string>
  {
    [">>> REGISTRO - Hora: " + hora, "Estado: REGISTRO ACTUAL \U{2713}"]
    + LineasColumnas(registro, ColumnasMostrar)
    + [LineaMasColumnas(registro), Repetir('-', 50), ""]
  }

  /** The lines of the summary of a `nuevo_registro` event. */
  function LineasMonitoreo(registro: Registro, hora: string, horaActual: string,
                           guardado: bool, tabla: string, fecha: string): seq<string>
  {
    EncabezadoMonitoreo(hora, horaActual, guardado, tabla, fecha) + BloqueRegistro(registro, hora)
    + [PrefijoActualizacion + horaActual]
  }

  /** Where the status line, the column lines and the column count sit among the summary's lines. */
  lemma PosicionesMonitoreo(registro: Registro, hora: string, horaActual: string,
                            guardado: bool, tabla: string, fecha: string)
    ensures var ls := LineasMonitoreo(registro, hora, horaActual, guardado, tabla, fecha);
            var p := ColumnasPresentes(registro, ColumnasMostrar);
            |ls| == 16 + |p| && ls[6] == LineaEstado(guardado)
            && (forall k :: 0 <= k < |p| ==> ls[12 + k] == LineaColumna(registro, p[k]))
            && ls[12 + |p|] == LineaMasColumnas(registro)
  {
    var encabezado := EncabezadoMonitoreo(hora, horaActual, guardado, tabla, fecha);
    var bloque := BloqueRegistro(registro, hora);
    var p := ColumnasPresentes(registro, ColumnasMostrar);
    PosicionesBloque(registro, hora);
    assert |encabezado| == 10 && encabezado[6] == LineaEstado(guardado);
    EnMedio(encabezado, bloque, [PrefijoActualizacion + horaActual]);
    LineasColumnasIndice(registro, ColumnasMostrar);
    var columnas := LineasColumnas(registro, ColumnasMostrar);
    assert forall k :: 0 <= k < |p| ==> bloque[2 + k] == bloque[2..2 + |p|][k] == columnas[k];
  }

  /** Indexing into the middle part of a three-part concatenation. */
  lemma EnMedio<T>(a: seq<T>, b: seq<T>, c: seq<T>)
    ensures |a + b + c| == |a| + |b| + |c|
    ensures forall k :: 0 <= k < |a| ==> (a + b + c)[k] == a[k]
    ensures forall k :: 0 <= k < |b| ==> (a + b + c)[|a| + k] == b[k]
    ensures (a + b + c)[|a|..|a| + |b|] == b
  {
    assert (a + b + c)[|a|..|a| + |b|] == b;
  }

  /**
   * `mostrarNuevoRegistro(data)` for a `nuevo_registro` event, with the date
   * `toLocaleDateString('es-VE')` gives: the text of the results box and
   * the text of the footer's last-update field.
   */
  method MostrarNuevoRegistro(data: Evento, fecha: string) returns (contenido: string, pie: string)
    requires data.NuevoRegistro?
    ensures contenido == Unir(LineasMonitoreo(data.registro, data.hora, data.horaActual,
                                              data.guardado, data.tabla, fecha))
    ensures pie == PrefijoActualizacion + data.horaActual
  {
    var encabezado := EscribirEncabezado(data.hora, data.horaActual, data.guardado, data.tabla, fecha);
    var bloque := EscribirBloque(data.registro, data.hora);
    var cierre := PrefijoActualizacion + data.horaActual;
    contenido := encabezado + bloque + cierre + "\n";
    UnirSumario(EncabezadoMonitoreo(data.hora, data.horaActual, data.guardado, data.tabla, fecha),
                BloqueRegistro(data.registro, data.hora), cierre);
    pie := PrefijoActualizacion + data.horaActual;
  }

  lemma UnirSumario(encabezado: seq<string>, bloque: seq<string>, cierre: string)
    ensures Unir(encabezado + bloque + [cierre]) == Unir(encabezado) + Unir(bloque) + cierre + "\n"
  {
    UnirConcatena(encabezado + bloque, [cierre]);
    UnirConcatena(encabezado, bloque);
    assert [cierre][1..] == [];
  }

  /** The heading lines of `mostrarNuevoRegistro`, up to the rule and the empty line after it. */
  method EscribirEncabezado(hora: string, horaActual: string, guardado: bool, tabla: string, fecha: string)
    returns (contenido: string)
    ensures contenido == Unir(EncabezadoMonitoreo(hora, horaActual, guardado, tabla, fecha))
  {
    var datos := EscribirDatos(hora, horaActual, tabla, fecha);
    var estado := EscribirEstado(guardado);
    contenido := datos + estado;
    UnirConcatena(DatosMonitoreo(hora, horaActual, tabla, fecha), EstadoMonitoreo(guardado));
  }

  method EscribirDatos(hora: string, horaActual: string, tabla: string, fecha: string)
    returns (contenido: string)
    ensures contenido == Unir(DatosMonitoreo(hora, horaActual, tabla, fecha))
  {
    ghost var ls := DatosMonitoreo(hora, horaActual, tabla, fecha);
    contenido := AnexarLinea("", ls, 0, "=== MONITOREO EN TIEMPO REAL ===");
    contenido := AnexarLinea(contenido, ls, 1, "Zona horaria: Venezuela (UTC-4:30)");
    contenido := AnexarLinea(contenido, ls, 2, "Fecha: " + fecha);
    contenido := AnexarLinea(contenido, ls, 3, "Hora actual Venezuela: " + horaActual);
    contenido := AnexarLinea(contenido, ls, 4, "Tabla: " + tabla);
    contenido := AnexarLinea(contenido, ls, 5, "Registro de: " + hora);
    assert ls[..6] == ls;
  }

  method EscribirEstado(guardado: bool) returns (contenido: string)
    ensures contenido == Unir(EstadoMonitoreo(guardado))
  {
    ghost var ls := EstadoMonitoreo(guardado);
    contenido := AnexarLinea("", ls, 0, "Estado: " + if guardado then "GUARDADO \U{2713}" else "DUPLICADO");
    contenido := AnexarLinea(contenido, ls, 1, "Conexiones: Lectura[\U{2713}], Escritura[\U{2713}]");
    contenido := AnexarLinea(contenido, ls, 2, Repetir('=', 50));
    contenido := AnexarLinea(contenido, ls, 3, "");
    assert ls[..4] == ls;
  }

  /** Where the parts of a record block sit among the lines `ls`. */
  ghost predicate PartesBloque(ls: seq<string>, registro: Registro, hora: string)
  {
    var p := ColumnasPresentes(registro, ColumnasMostrar);
    |ls| == 5 + |p| && ls[0] == ">>> REGISTRO - Hora: " + hora
    && ls[1] == "Estado: REGISTRO ACTUAL \U{2713}"
    && ls[2..2 + |p|] == LineasColumnas(registro, ColumnasMostrar)
    && ls[2 + |p|] == LineaMasColumnas(registro) && ls[3 + |p|] == Repetir('-', 50)
    && ls[4 + |p|] == ""
  }

  lemma PosicionesBloque(registro: Registro, hora: string)
    ensures PartesBloque(BloqueRegistro(registro, hora), registro, hora)
  {
    var apertura := [">>> REGISTRO - Hora: " + hora, "Estado: REGISTRO ACTUAL \U{2713}"];
    var cierre := [LineaMasColumnas(registro), Repetir('-', 50), ""];
    var columnas := LineasColumnas(registro, ColumnasMostrar);
    EnMedio(apertura, columnas, cierre);
    EnMedio(apertura + columnas, cierre, []);
  }

  /** The `if (data.registro)` block of `mostrarNuevoRegistro`. */
  method EscribirBloque(registro: Registro, hora: string) returns (contenido: string)
    ensures contenido == Unir(BloqueRegistro(registro, hora))
  {
    PosicionesBloque(registro, hora);
    contenido := EscribirBloqueEn(BloqueRegistro(registro, hora), registro, hora);
  }

  /** The block's lines written one after the other into `ls`, of which only the positions of the parts are known. */
  method EscribirBloqueEn(ghost ls: seq<string>, registro: Registro, hora: string) returns (contenido: string)
    requires PartesBloque(ls, registro, hora)
    ensures contenido == Unir(ls)
  {
    ghost var p := ColumnasPresentes(registro, ColumnasMostrar);
    contenido := AnexarLinea("", ls, 0, ">>> REGISTRO - Hora: " + hora);
    contenido := AnexarLinea(contenido, ls, 1, "Estado: REGISTRO ACTUAL \U{2713}");
    contenido := AnexarColumnas(contenido, registro, ColumnasMostrar);
    UnirTramo(ls, 2, 2 + |p|);
    contenido := AnexarLinea(contenido, ls, 2 + |p|, LineaMasColumnas(registro));
    contenido := AnexarLinea(contenido, ls, 3 + |p|, Repetir('-', 50));
    contenido := AnexarLinea(contenido, ls, 4 + |p|, "");
    assert ls[..|ls|] == ls;
  }

  /**
   * The `columnasMostrar.forEach(...)` loop: appends to `contenido` a line
   * for each column of `cols` the record has, in the order of `cols`.
   */
  method AnexarColumnas(contenido: string, registro: Registro, cols: seq<string>) returns (r: string)
    ensures r == contenido + Unir(LineasColumnas(registro, cols))
  {
    r := contenido;
    for i := 0 to |cols|
      invariant r == contenido + Unir(LineasColumnas(registro, cols[..i]))
    {
      var columna := cols[i];
      assert cols[..i + 1][..i] == cols[..i];
      if Buscar(registro, columna).Some? {
        var linea := LineaColumna(registro, columna);
        UnirAlFinal(contenido, LineasColumnas(registro, cols[..i]), linea);
        r := r + linea + "\n";
      }
    }
    assert cols[..|cols|] == cols;
  }

  /** One more line at the end of a text that follows `prefijo`. */
  lemma UnirAlFinal(prefijo: string, ls: seq<string>, linea: string)
    ensures prefijo + Unir(ls + [linea]) == prefijo + Unir(ls) + linea + "\n"
  {
    UnirConcatena(ls, [linea]);
    assert [linea][1..] == [];
    assert Unir([linea]) == linea + "\n";
  }

  /** The text of the first `j` lines is that of the first `i`, then that of lines `i` to `j`. */
  lemma UnirTramo(ls: seq<string>, i: nat, j: nat)
    requires i <= j <= |ls|
    ensures Unir(ls[..j]) == Unir(ls[..i]) + Unir(ls[i..j])
  {
    assert ls[..j] == ls[..i] + ls[i..j];
    UnirConcatena(ls[..i], ls[i..j]);
  }

  lemma TituloMonitoreoSinSaltos()
    ensures SinSaltos("=== MONITOREO EN TIEMPO REAL ===")
  {
  }

  lemma ZonaSinSaltos()
    ensures SinSaltos("Zona horaria: Venezuela (UTC-4:30)")
  {
  }

  lemma CamposSinSaltos()
    ensures SinSaltos("Fecha: ") && SinSaltos("Hora actual Venezuela: ")
    ensures SinSaltos("Tabla: ") && SinSaltos("Registro de: ")
  {
  }

  lemma EstadosSinSaltos()
    ensures SinSaltos("Estado: GUARDADO \U{2713}") && SinSaltos("Estado: DUPLICADO")
  {
  }

  lemma ConexionesSinSaltos()
    ensures SinSaltos("Conexiones: Lectura[\U{2713}], Escritura[\U{2713}]")
  {
  }

  lemma AperturaSinSaltos()
    ensures SinSaltos(">>> REGISTRO - Hora: ") && SinSaltos("Estado: REGISTRO ACTUAL \U{2713}")
  {
  }

  lemma CierreSinSaltos()
    ensures SinSaltos("... y ") && SinSaltos(" columnas m\U{00E1}s") && SinSaltos(PrefijoActualizacion)
  {
  }

  lemma EncabezadoSimple(hora: string, horaActual: string, guardado: bool, tabla: string, fecha: string)
    requires SinSaltos(hora) && SinSaltos(horaActual) && SinSaltos(tabla) && SinSaltos(fecha)
    ensures LineasSimples(EncabezadoMonitoreo(hora, horaActual, guardado, tabla, fecha))
  {
    TituloMonitoreoSinSaltos();
    ZonaSinSaltos();
    CamposSinSaltos();
    EstadosSinSaltos();
    ConexionesSinSaltos();
    RepetirSinSaltos('=', 50);
  }

  lemma ColumnasSimples(registro: Registro)
    requires EntradasSinSaltos(registro)
    ensures LineasSimples(LineasColumnas(registro, ColumnasMostrar))
  {
    var p := ColumnasPresentes(registro, ColumnasMostrar);
    LineasColumnasIndice(registro, ColumnasMostrar);
    forall k | 0 <= k < |p| ensures SinSaltos(LineaColumna(registro, p[k])) {
      var c := p[k];
      var v := Buscar(registro, c).value;
      assert (c, v) in registro;
      assert SinSaltos(c) && (v.Cadena? ==> SinSaltos(v.s));
      MostrarSinSaltos(v);
    }
  }

  lemma BloqueSimple(registro: Registro, hora: string)
    requires SinSaltos(hora) && EntradasSinSaltos(registro)
    ensures LineasSimples(BloqueRegistro(registro, hora))
  {
    AperturaSinSaltos();
    CierreSinSaltos();
    CadenaEnteroSinSaltos(|registro| - 8);
    RepetirSinSaltos('-', 50);
    ColumnasSimples(registro);
    var apertura := [">>> REGISTRO - Hora: " + hora, "Estado: REGISTRO ACTUAL \U{2713}"];
    var columnas := LineasColumnas(registro, ColumnasMostrar);
    LineasSimplesConcatena(apertura, columnas);
    LineasSimplesConcatena(apertura + columnas, [LineaMasColumnas(registro), Repetir('-', 50), ""]);
  }

  /**
   * Read back line by line, the summary shows the status `GUARDADO ✓`
   * exactly when the event says the record was forwarded and `DUPLICADO`
   * otherwise, then one line per listed column the record has, in the fixed
   * order, then the count of the remaining columns.
   */
  lemma ResumenMonitoreo(registro: Registro, hora: string, horaActual: string,
                         guardado: bool, tabla: string, fecha: string)
    requires SinSaltos(hora) && SinSaltos(horaActual) && SinSaltos(tabla) && SinSaltos(fecha)
    requires EntradasSinSaltos(registro)
    ensures var ls := Lineas(Unir(LineasMonitoreo(registro, hora, horaActual, guardado, tabla, fecha)));
            var p := ColumnasPresentes(registro, ColumnasMostrar);
            |ls| == 16 + |p|
            && (ls[6] == "Estado: GUARDADO \U{2713}" <==> guardado)
            && (ls[6] == "Estado: DUPLICADO" <==> !guardado)
            && (forall k :: 0 <= k < |p| ==> ls[12 + k] == "  " + p[k] + ": " + Mostrar(Buscar(registro, p[k]).value))
            && ls[12 + |p|] == "... y " + CadenaEntero(|registro| - 8) + " columnas m\U{00E1}s"
  {
    MonitoreoSimple(registro, hora, horaActual, guardado, tabla, fecha);
    LineasDeUnir(LineasMonitoreo(registro, hora, horaActual, guardado, tabla, fecha));
    PosicionesMonitoreo(registro, hora, horaActual, guardado, tabla, fecha);
    EstadoDistingue(guardado);
  }

  lemma MonitoreoSimple(registro: Registro, hora: string, horaActual: string,
                        guardado: bool, tabla: string, fecha: string)
    requires SinSaltos(hora) && SinSaltos(horaActual) && SinSaltos(tabla) && SinSaltos(fecha)
    requires EntradasSinSaltos(registro)
    ensures LineasSimples(LineasMonitoreo(registro, hora, horaActual, guardado, tabla, fecha))
  {
    var encabezado := EncabezadoMonitoreo(hora, horaActual, guardado, tabla, fecha);
    var bloque := BloqueRegistro(registro, hora);
    EncabezadoSimple(hora, horaActual, guardado, tabla, fecha);
    BloqueSimple(registro, hora);
    CierreSinSaltos();
    LineasSimplesConcatena(encabezado, bloque);
    LineasSimplesConcatena(encabezado + bloque, [PrefijoActualizacion + horaActual]);
  }

  /** The status line tells a forwarded record from a duplicate. */
  lemma EstadoDistingue(guardado: bool)
    ensures LineaEstado(guardado) == "Estado: GUARDADO \U{2713}" <==> guardado
    ensures LineaEstado(guardado) == "Estado: DUPLICADO" <==> !guardado
  {
    assert "Estado: GUARDADO \U{2713}"[8] != "Estado: DUPLICADO"[8];
  }

  /** A record with only three columns is summarised as having minus five more. */
  lemma MasColumnasNegativo(a: (string, Valor), b: (string, Valor), c: (string, Valor))
    ensures LineaMasColumnas([a, b, c]) == "... y -5 columnas m\U{00E1}s"
  {
    assert CadenaEntero(-5) == "-" + Decimal(5);
  }
}
