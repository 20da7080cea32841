/**
 * The server's clock arithmetic (server.js, `MonitorTiempoReal`): the local
 * time of Venezuela at a fixed offset of UTC-4:30, the wait until the next
 * 5-second tick, the delayed query moment and the day-named source table.
 *
 * Instants are integer milliseconds since 1970-01-01T00:00:00: a UTC instant
 * is what `moment().utc()` reads, a local instant is the same count shifted
 * by the offset, whose calendar and clock fields Moment.js then prints.
 * Reading the clock is left to the caller, who passes the reading in.
 */
module Reloj {
  import opened Texto
  import opened Calendario

  const MsPorSegundo: int := 1000
  const MsPorMinuto: int := 60_000
  const MsPorHora: int := 3_600_000
  const MsPorDia: int := 86_400_000

  /** `retraso_segundos`: how far behind the tick the source is queried. */
  const RetrasoSegundos: nat := 5

  function DiaLocal(t: int): int { t / MsPorDia }

  function Hora(t: int): (h: nat)
    ensures h < 24
  {
    (t / MsPorHora) % 24
  }

  function Minuto(t: int): (m: nat)
    ensures m < 60
  {
    (t / MsPorMinuto) % 60
  }

  function Segundo(t: int): (s: nat)
    ensures s < 60
  {
    (t / MsPorSegundo) % 60
  }

  function Milis(t: int): (ms: nat)
    ensures ms < 1000
  {
    t % MsPorSegundo
  }

  lemma Multiplo(d: int, k: int)
    requires k > 0
    ensures d >= 1 ==> d * k >= k
    ensures d <= -1 ==> d * k <= -k
  {
  }

  /** Quotient and remainder are the only split of `x` into whole `k`s plus a smaller rest. */
  lemma DivisionUnica(x: int, k: int, q: int, r: int)
    requires 0 < k && 0 <= r < k && x == q * k + r
    ensures x / k == q && x % k == r
  {
    Multiplo(x / k - q, k);
    assert (x / k - q) * k == r - x % k;
  }

  /** The clock fields of an instant add back up to the instant. */
  lemma Descomposicion(t: int)
    ensures t == DiaLocal(t) * MsPorDia + Hora(t) * MsPorHora + Minuto(t) * MsPorMinuto
                 + Segundo(t) * MsPorSegundo + Milis(t)
  {
    var segundos := t / 1000;
    var minutos := segundos / 60;
    var horas := minutos / 60;
    var dias := horas / 24;
    DivisionUnica(t, MsPorMinuto, minutos, (segundos % 60) * 1000 + t % 1000);
    DivisionUnica(t, MsPorHora, horas, (minutos % 60) * MsPorMinuto + (segundos % 60) * 1000 + t % 1000);
    DivisionUnica(t, MsPorDia, dias, (horas % 24) * MsPorHora + (minutos % 60) * MsPorMinuto + (segundos % 60) * 1000 + t % 1000);
  }

  /** Conversely, fields in range determine the instant they add up to. */
  lemma CamposExactos(t: int, d: int, h: nat, m: nat, s: nat, ms: nat)
    requires h < 24 && m < 60 && s < 60 && ms < 1000
    requires t == d * MsPorDia + h * MsPorHora + m * MsPorMinuto + s * MsPorSegundo + ms
    ensures DiaLocal(t) == d && Hora(t) == h && Minuto(t) == m && Segundo(t) == s && Milis(t) == ms
  {
    DivisionUnica(t, MsPorSegundo, d * 86400 + h * 3600 + m * 60 + s, ms);
    DivisionUnica(d * 86400 + h * 3600 + m * 60 + s, 60, d * 1440 + h * 60 + m, s);
    DivisionUnica(t, MsPorMinuto, d * 1440 + h * 60 + m, s * 1000 + ms);
    DivisionUnica(d * 1440 + h * 60 + m, 60, d * 24 + h, m);
    DivisionUnica(t, MsPorHora, d * 24 + h, m * MsPorMinuto + s * 1000 + ms);
    DivisionUnica(d * 24 + h, 24, d, h);
    DivisionUnica(t, MsPorDia, d, h * MsPorHora + m * MsPorMinuto + s * 1000 + ms);
  }

  /** `obtener_hora_actual_venezuela`: UTC minus 4 hours, then minus 30 minutes. */
  function HoraActualVenezuela(utc: int): (t: int)
    ensures t == utc - 16_200_000
  {
    utc - 4 * MsPorHora - 30 * MsPorMinuto
  }

  /**
   * The local clock reads the UTC clock four and a half hours back: the same
   * seconds and milliseconds, 270 minutes fewer in the day, and the previous
   * calendar day when UTC is not yet past 04:30.
   */
  lemma DesfaseVenezuela(utc: int)
    ensures Segundo(HoraActualVenezuela(utc)) == Segundo(utc)
    ensures Milis(HoraActualVenezuela(utc)) == Milis(utc)
    ensures var local := HoraActualVenezuela(utc);
            var minutoDelDia := Hora(utc) * 60 + Minuto(utc);
            if minutoDelDia >= 270
            then DiaLocal(local) == DiaLocal(utc) && Hora(local) * 60 + Minuto(local) == minutoDelDia - 270
            else DiaLocal(local) == DiaLocal(utc) - 1 && Hora(local) * 60 + Minuto(local) == minutoDelDia + 1170
  {
    var local := HoraActualVenezuela(utc);
    Descomposicion(utc);
    var d, h, m, s, ms := DiaLocal(utc), Hora(utc), Minuto(utc), Segundo(utc), Milis(utc);
    if h * 60 + m >= 270 {
      var minutoLocal := h * 60 + m - 270;
      CamposExactos(local, d, minutoLocal / 60, minutoLocal % 60, s, ms);
    } else {
      var minutoLocal := h * 60 + m + 1170;
      CamposExactos(local, d - 1, minutoLocal / 60, minutoLocal % 60, s, ms);
    }
  }

  lemma Avanzar(t: int, k: int)
    ensures (t + k * MsPorSegundo) / MsPorSegundo == t / MsPorSegundo + k
    ensures Milis(t + k * MsPorSegundo) == Milis(t)
  {
  }

  /** Moving forward `k` seconds within the minute adds `k` to the second field; reaching 60 wraps it to 0. */
  lemma AvanzarSegundos(t: int, k: nat)
    requires Segundo(t) + k <= 60
    ensures Milis(t + k * MsPorSegundo) == Milis(t)
    ensures Segundo(t + k * MsPorSegundo) == (Segundo(t) + k) % 60
  {
    var n := t / MsPorSegundo;
    Avanzar(t, k);
    if Segundo(t) + k < 60 {
      DivisionUnica(n + k, 60, n / 60, n % 60 + k);
    } else {
      DivisionUnica(n + k, 60, n / 60 + 1, 0);
    }
  }

  lemma SegundoModulo5(t: int)
    ensures Segundo(t) % 5 == (t / MsPorSegundo) % 5
  {
    var n := t / MsPorSegundo;
    DivisionUnica(n, 5, 12 * (n / 60) + (n % 60) / 5, n % 60 % 5);
  }

  /** What `calcular_proximo_multiplo_5` returns: whole seconds to wait, and the reported boundary. */
  datatype Sincronizacion = Sincronizacion(espera: nat, proximo: int)

  /**
   * `calcular_proximo_multiplo_5`. The wait counts whole seconds to the next
   * second that is a multiple of 5 and ignores the milliseconds. The reported
   * boundary is `ahora` moved by `5 - second % 5` seconds with its second
   * field then set to 0 and its milliseconds kept: the start of the current
   * minute, or of the next one from second 55 on.
   */
  function ProximoMultiplo5(ahora: int): (r: Sincronizacion)
    ensures r.espera < 5
    ensures r.espera == 0 <==> Segundo(ahora) % 5 == 0
    ensures (Segundo(ahora) + r.espera) % 5 == 0
    ensures Segundo(r.proximo) == 0 && Milis(r.proximo) == Milis(ahora)
    ensures Segundo(ahora) < 55 ==> r.proximo == ahora - Segundo(ahora) * MsPorSegundo
    ensures Segundo(ahora) >= 55 ==> r.proximo == ahora + (60 - Segundo(ahora)) * MsPorSegundo
  {
    var s := Segundo(ahora);
    var restantes := 5 - s % 5;
    var espera := if restantes == 5 then 0 else restantes;
    var movido := ahora + restantes * MsPorSegundo;
    AvanzarSegundos(ahora, restantes);
    assert Segundo(movido) == if s < 55 then s + restantes else 0;
    Avanzar(movido, -(Segundo(movido) as int));
    assert Segundo(movido - Segundo(movido) * MsPorSegundo) == 0 by {
      DivisionUnica(movido / MsPorSegundo - Segundo(movido), 60, (movido / MsPorSegundo) / 60, 0);
    }
    Sincronizacion(espera, movido - Segundo(movido) * MsPorSegundo)
  }

  /** Sleeping exactly the wait lands on a second that is a multiple of 5, with the milliseconds of `ahora`. */
  lemma EsperaAterrizaEnMultiplo(ahora: int)
    ensures var t := ahora + ProximoMultiplo5(ahora).espera * MsPorSegundo;
            Segundo(t) % 5 == 0 && Milis(t) == Milis(ahora)
  {
    AvanzarSegundos(ahora, ProximoMultiplo5(ahora).espera);
  }

  /**
   * The instant `calcular_hora_consulta_sincronizada` formats: the second
   * rounded down to a multiple of 5, the milliseconds zeroed, `retraso`
   * seconds subtracted. It is the one whole second, `retraso` seconds before
   * a multiple of 5 seconds, that is at most 5 seconds older than `ahora`
   * minus the delay.
   */
  function InstanteConsulta(ahora: int, retraso: nat): (q: int)
    ensures Milis(q) == 0
    ensures (q + retraso * MsPorSegundo) % 5000 == 0
    ensures q + retraso * MsPorSegundo <= ahora < q + retraso * MsPorSegundo + 5000
  {
    var s := Segundo(ahora);
    var redondeados := (s / 5) * 5;
    var redondeada := ahora + (redondeados - s) * MsPorSegundo - Milis(ahora);
    SegundoModulo5(ahora);
    var n := ahora / MsPorSegundo;
    var m := n - n % 5;
    assert redondeada == m * MsPorSegundo;
    var q := (m - retraso) * MsPorSegundo;
    DivisionUnica(q, MsPorSegundo, m - retraso, 0);
    DivisionUnica(m * MsPorSegundo, 5000, m / 5, 0);
    assert q == redondeada - retraso * MsPorSegundo;
    q
  }

  /** `HH:mm:ss` of an instant. */
  function FormatoHora(t: int): (r: string)
    ensures |r| == 8 && r[2] == ':' && r[5] == ':'
  {
    Pad2(Hora(t)) + ":" + Pad2(Minuto(t)) + ":" + Pad2(Segundo(t))
  }

  /** The three fields of `HH:mm:ss` are two digits each and read back as the hour, minute and second. */
  lemma FormatoHoraCampos(t: int)
    ensures var r := FormatoHora(t);
            SoloDigitos(r[..2]) && SoloDigitos(r[3..5]) && SoloDigitos(r[6..])
            && ValorDecimal(r[..2]) == Hora(t) && ValorDecimal(r[3..5]) == Minuto(t)
            && ValorDecimal(r[6..]) == Segundo(t)
  {
    var r := FormatoHora(t);
    assert r[..2] == Pad2(Hora(t)) && r[3..5] == Pad2(Minuto(t)) && r[6..] == Pad2(Segundo(t));
    ValorPad2(Hora(t));
    ValorPad2(Minuto(t));
    ValorPad2(Segundo(t));
  }

  lemma ValorPad2(n: nat)
    requires n < 100
    ensures ValorDecimal(Pad2(n)) == n
  {
    var s := Pad2(n);
    assert s[..1][..0] == [];
    assert ValorDecimal(s[..1]) == ValorDigito(s[0]);
    assert s[..2 - 1] == s[..1];
  }

  /** `calcular_hora_consulta_sincronizada`, with the local reading of the clock passed in. */
  function HoraConsultaSincronizada(ahora: int, retraso: nat): (r: string)
    ensures |r| == 8 && r[2] == ':' && r[5] == ':'
    ensures SoloDigitos(r[6..]) && (retraso % 5 == 0 ==> ValorDecimal(r[6..]) % 5 == 0)
  {
    var q := InstanteConsulta(ahora, retraso);
    FormatoHoraCampos(q);
    SegundoModulo5(q);
    assert retraso % 5 == 0 ==> (q / MsPorSegundo) % 5 == 0 by {
      if retraso % 5 == 0 {
        var k := (q + retraso * MsPorSegundo) / 5000;
        DivisionUnica(q, MsPorSegundo, 5 * k - retraso, 0);
        DivisionUnica(5 * k - retraso, 5, k - retraso / 5, 0);
      }
    }
    FormatoHora(q)
  }

  /** After sleeping exactly the synchronisation wait, the query targets the tick woken on, minus the delay. */
  lemma ConsultaTrasEspera(ahora: int, retraso: nat)
    ensures var t := ahora + ProximoMultiplo5(ahora).espera * MsPorSegundo;
            InstanteConsulta(t, retraso) == t - Milis(ahora) - retraso * MsPorSegundo
  {
    var t := ahora + ProximoMultiplo5(ahora).espera * MsPorSegundo;
    EsperaAterrizaEnMultiplo(ahora);
    SegundoModulo5(t);
  }

  /** At 12:00:07.900 of any day the query reads 12:00:00. */
  lemma ConsultaEjemploMediodia(dia: int)
    ensures HoraConsultaSincronizada(dia * MsPorDia + 12 * MsPorHora + 7900, RetrasoSegundos) == "12:00:00"
  {
    var ahora := dia * MsPorDia + 12 * MsPorHora + 7900;
    CamposExactos(ahora, dia, 12, 0, 7, 900);
    var q := InstanteConsulta(ahora, RetrasoSegundos);
    assert q == dia * MsPorDia + 12 * MsPorHora;
    CamposExactos(q, dia, 12, 0, 0, 0);
    assert FormatoHora(q) == Pad2(12) + ":" + Pad2(0) + ":" + Pad2(0);
  }

  /** At 00:00:03 the query reaches back across midnight to 23:59:55 of the previous day. */
  lemma ConsultaEjemploMedianoche(dia: int)
    ensures DiaLocal(InstanteConsulta(dia * MsPorDia + 3000, RetrasoSegundos)) == dia - 1
    ensures HoraConsultaSincronizada(dia * MsPorDia + 3000, RetrasoSegundos) == "23:59:55"
  {
    var ahora := dia * MsPorDia + 3000;
    CamposExactos(ahora, dia, 0, 0, 3, 0);
    var q := InstanteConsulta(ahora, RetrasoSegundos);
    assert q == (dia - 1) * MsPorDia + 23 * MsPorHora + 59 * MsPorMinuto + 55 * MsPorSegundo;
    CamposExactos(q, dia - 1, 23, 59, 55, 0);
    assert FormatoHora(q) == Pad2(23) + ":" + Pad2(59) + ":" + Pad2(55);
  }

  /** The local calendar date at a UTC instant. */
  function FechaLocal(utc: int): (f: Fecha)
    ensures FechaValida(f)
  {
    FechaDeDia(DiaLocal(HoraActualVenezuela(utc)))
  }

  /** `obtener_nombre_tabla_actual`: `tiempo` followed by the local date as `DDMMYY`. */
  function NombreTablaActual(utc: int): (r: string)
    ensures |r| == 12 && r[..6] == "tiempo" && SoloDigitos(r[6..])
    ensures ValorDecimal(r[6..8]) == FechaLocal(utc).dia
    ensures ValorDecimal(r[8..10]) == FechaLocal(utc).mes
    ensures ValorDecimal(r[10..]) == FechaLocal(utc).anio % 100
  {
    var f := FechaLocal(utc);
    var r := "tiempo" + Pad2(f.dia) + Pad2(f.mes) + Pad2(f.anio % 100);
    assert r[6..8] == Pad2(f.dia) && r[8..10] == Pad2(f.mes) && r[10..] == Pad2(f.anio % 100);
    ValorPad2(f.dia);
    ValorPad2(f.mes);
    ValorPad2(f.anio % 100);
    r
  }

  /** The server's name, as `tiempo` followed by the three two-digit fields of the local date. */
  lemma NombreTablaPartes(utc: int)
    ensures var f := FechaLocal(utc);
            NombreTablaActual(utc) == "tiempo" + (Pad2(f.dia) + Pad2(f.mes) + Pad2(f.anio % 100))
  {
    var f := FechaLocal(utc);
    var dd, mm, yy := Pad2(f.dia), Pad2(f.mes), Pad2(f.anio % 100);
    assert NombreTablaActual(utc) == "tiempo" + dd + mm + yy;
    Asociar(dd, mm, yy);
    Asociar("tiempo", dd, mm + yy);
    Asociar("tiempo" + dd, mm, yy);
  }

  /** At the UTC epoch the local date is still 1969-12-31. */
  lemma FechaLocalEpoca()
    ensures FechaLocal(0) == Fecha(1969, 12, 31)
  {
    assert DiaLocal(HoraActualVenezuela(0)) == -1;
    assert FechaDeDia(-1) == Fecha(1969, 12, 31);
  }

  /** At the UTC epoch it is 19:30 of 1969-12-31 in local time, so the table is `tiempo311269`. */
  lemma NombreTablaEjemplo()
    ensures NombreTablaActual(0) == "tiempo311269"
  {
    FechaLocalEpoca();
  }
}
