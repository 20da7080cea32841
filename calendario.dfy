/**
 * The proleptic Gregorian calendar on day numbers counted from 1970-01-01
 * (day 0), as both Moment.js and the JavaScript `Date` object use it: the
 * `DD`, `MM` and `YY` fields of the server and `getUTCDate`,
 * `getUTCMonth() + 1` and `getUTCFullYear` of the client.
 */
module Calendario {

  predicate Bisiesto(y: int) { (y % 4 == 0 && y % 100 != 0) || y % 400 == 0 }

  function DiasDelAnio(y: int): (n: nat)
    ensures 365 <= n <= 366
  {
    if Bisiesto(y) then 366 else 365
  }

  /** Days in the months before month `m` of year `y`; `m` = 13 gives the length of the year. */
  function InicioMes(y: int, m: int): (k: nat)
    requires 1 <= m <= 13
    ensures m == 1 ==> k == 0
    ensures m == 13 ==> k == DiasDelAnio(y)
  {
    var acumulado := [0, 31, 59, 90, 120, 151, 181, 212, 243, 273, 304, 334, 365][m - 1];
    if m > 2 && Bisiesto(y) then acumulado + 1 else acumulado
  }

  function DiasDelMes(y: int, m: int): (n: nat)
    requires 1 <= m <= 12
    ensures 28 <= n <= 31
    ensures InicioMes(y, m) + n == InicioMes(y, m + 1)
  {
    InicioMes(y, m + 1) - InicioMes(y, m)
  }

  /** Days from January 1st of `desde` to January 1st of `hasta`. */
  function DiasEntre(desde: int, hasta: int): nat
    requires desde <= hasta
    decreases hasta - desde
  {
    if desde == hasta then 0 else DiasDelAnio(desde) + DiasEntre(desde + 1, hasta)
  }

  /** Signed number of days from January 1st of `desde` to January 1st of `hasta`. */
  function DiasHasta(desde: int, hasta: int): int
  {
    if hasta >= desde then DiasEntre(desde, hasta) else -(DiasEntre(hasta, desde) as int)
  }

  /**
   * The year holding the day `d` days after January 1st of `y`, and the day's
   * 0-based position in that year, found by walking year by year.
   */
  function AnioDesde(d: int, y: int): (r: (int, nat))
    ensures r.1 < DiasDelAnio(r.0)
    ensures d >= 0 ==> r.0 >= y
    ensures d < 0 ==> r.0 < y
    decreases if d >= 0 then d else 366 - d
  {
    if d < 0 then AnioDesde(d + DiasDelAnio(y - 1), y - 1)
    else if d < DiasDelAnio(y) then (y, d)
    else AnioDesde(d - DiasDelAnio(y), y + 1)
  }

  lemma {:induction false} DiasEntreAlFinal(desde: int, hasta: int)
    requires desde < hasta
    ensures DiasEntre(desde, hasta) == DiasEntre(desde, hasta - 1) + DiasDelAnio(hasta - 1)
    decreases hasta - desde
  {
    if desde + 1 < hasta {
      DiasEntreAlFinal(desde + 1, hasta);
    }
  }

  /** The year walk splits `d` into whole years from `y` plus a position inside the year reached. */
  lemma {:induction false} AnioDesdeCorrecto(d: int, y: int)
    ensures DiasHasta(y, AnioDesde(d, y).0) + AnioDesde(d, y).1 == d
    decreases if d >= 0 then d else 366 - d
  {
    var r := AnioDesde(d, y);
    if d < 0 {
      AnioDesdeCorrecto(d + DiasDelAnio(y - 1), y - 1);
      assert r == AnioDesde(d + DiasDelAnio(y - 1), y - 1);
      DiasEntreAlFinal(r.0, y);
      if r.0 < y - 1 {
        assert DiasHasta(y - 1, r.0) == -(DiasEntre(r.0, y - 1) as int);
      } else {
        assert DiasHasta(y - 1, r.0) == 0;
      }
      assert DiasHasta(y, r.0) == DiasHasta(y - 1, r.0) - DiasDelAnio(y - 1);
    } else if d >= DiasDelAnio(y) {
      AnioDesdeCorrecto(d - DiasDelAnio(y), y + 1);
      assert r == AnioDesde(d - DiasDelAnio(y), y + 1);
      assert DiasHasta(y, r.0) == DiasDelAnio(y) + DiasHasta(y + 1, r.0);
    }
  }

  /** Conversely, any such split is the one the year walk finds. */
  lemma {:induction false} AnioDesdeUnico(d: int, y: int, z: int, k: nat)
    requires k < DiasDelAnio(z)
    requires DiasHasta(y, z) + k == d
    ensures AnioDesde(d, y) == (z, k)
    decreases if z >= y then z - y else y - z
  {
    if z > y {
      AnioDesdeUnico(d - DiasDelAnio(y), y + 1, z, k);
    } else if z < y {
      DiasEntreAlFinal(z, y);
      if z < y - 1 {
        assert DiasEntre(z, y - 1) >= DiasDelAnio(z);
      }
      AnioDesdeUnico(d + DiasDelAnio(y - 1), y - 1, z, k);
    }
  }

  /** The month holding the `dia`-th (0-based) day of year `y`, searching down from month `m`. */
  function MesDe(y: int, dia: nat, m: int): (r: int)
    requires 1 <= m <= 12
    requires dia < InicioMes(y, m + 1)
    ensures 1 <= r <= m
    ensures InicioMes(y, r) <= dia < InicioMes(y, r + 1)
  {
    if InicioMes(y, m) <= dia then m else MesDe(y, dia, m - 1)
  }

  lemma {:induction false} MesDeUnico(y: int, dia: nat, m: int, mes: int)
    requires 1 <= mes <= m <= 12
    requires InicioMes(y, mes) <= dia < InicioMes(y, mes + 1)
    ensures MesDe(y, dia, m) == mes
  {
    if m > mes {
      assert InicioMes(y, mes + 1) <= InicioMes(y, m);
      MesDeUnico(y, dia, m - 1, mes);
    }
  }

  datatype Fecha = Fecha(anio: int, mes: int, dia: int)

  predicate FechaValida(f: Fecha)
  {
    1 <= f.mes <= 12 && 1 <= f.dia <= DiasDelMes(f.anio, f.mes)
  }

  /** The calendar date of day number `d`. */
  function FechaDeDia(d: int): (f: Fecha)
    ensures FechaValida(f)
    ensures d + DiasDelAnio(1969) >= 0 ==> f.anio >= 1969
  {
    var (anio, posicion) := AnioDesde(d, 1970);
    var mes := MesDe(anio, posicion, 12);
    Fecha(anio, mes, posicion - InicioMes(anio, mes) + 1)
  }

  /** The day number of a calendar date. */
  function DiaDeFecha(f: Fecha): int
    requires FechaValida(f)
  {
    DiasHasta(1970, f.anio) + InicioMes(f.anio, f.mes) + f.dia - 1
  }

  /** Every day number has exactly one date: the two conversions are inverse to each other. */
  lemma DiaDeFechaDeDia(d: int)
    ensures DiaDeFecha(FechaDeDia(d)) == d
  {
    AnioDesdeCorrecto(d, 1970);
  }

  lemma FechaDeDiaDeFecha(f: Fecha)
    requires FechaValida(f)
    ensures FechaDeDia(DiaDeFecha(f)) == f
  {
    var posicion := InicioMes(f.anio, f.mes) + f.dia - 1;
    assert posicion < DiasDelAnio(f.anio) by {
      assert InicioMes(f.anio, f.mes + 1) <= InicioMes(f.anio, 13);
    }
    AnioDesdeUnico(DiaDeFecha(f), 1970, f.anio, posicion);
    MesDeUnico(f.anio, posicion, 12, f.mes);
  }
}
