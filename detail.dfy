/** The employee detail: the year's salary figures over the payments dated
    in that year, the 12-row monthly table, and the approved leave days.
    The payments and requests are inputs, already narrowed to the employee
    and the year by the store. */
module MitarbeiterDetail {
  import opened Common
  import opened Calendar
  import opened Database
  import opened Lohnsummen
  import Urlaube

  /** The four figures of the year cards and the table footer. */
  datatype Jahreswerte = Jahreswerte(jahresGehalt: int, totalVorschuss: int, totalBonus: int, totalAusgezahlt: int)

  /** `jahresGehalt`, `totalVorschuss`, `totalBonus` and `totalAusgezahlt`:
      twelve base salaries, the advances and bonuses among the year's
      payments, and the unclamped payout of the year. */
  function Jahr(m: Mitarbeiter, zs: seq<Zahlung>): (r: Jahreswerte)
    ensures r.jahresGehalt == 12 * m.grundgehalt
    ensures r.totalVorschuss == Summe(zs, Vorschuss) && r.totalBonus == Summe(zs, Bonus)
    ensures r.totalAusgezahlt == r.jahresGehalt - r.totalVorschuss + r.totalBonus
    ensures r.totalAusgezahlt == Auszahlung(12 * m.grundgehalt, zs)
  {
    var jahresGehalt := m.grundgehalt * 12;
    var v, b := Summe(zs, Vorschuss), Summe(zs, Bonus);
    Jahreswerte(jahresGehalt, v, b, jahresGehalt - v + b)
  }

  /** The year's payout moves by exactly the amount of one more advance
      (down) or bonus (up); salary and other payments leave it as it is. */
  lemma JahrAfterPayment(m: Mitarbeiter, zs: seq<Zahlung>, z: Zahlung)
    ensures Jahr(m, zs + [z]).totalAusgezahlt ==
              Jahr(m, zs).totalAusgezahlt
              - (if z.zahlungsart == Vorschuss then z.betrag else 0)
              + (if z.zahlungsart == Bonus then z.betrag else 0)
  {
    SummeSnoc(zs, z, Vorschuss);
    SummeSnoc(zs, z, Bonus);
  }

  /** `monthlyData` for `selectedYear`: twelve rows keyed `YYYY-01` ..
      `YYYY-12`, each with the employee's base salary and its payout base −
      advances + bonuses of the payments booked under that month. */
  function MonthlyData(m: Mitarbeiter, year: nat, zs: seq<Zahlung>): (rows: seq<Monatszeile>)
    ensures |rows| == 12
    ensures forall i :: 0 <= i < 12 ==> rows[i].key == MonthKey(year, i + 1)
    ensures forall i :: 0 <= i < 12 ==> rows[i].gehalt == m.grundgehalt
    ensures forall i :: 0 <= i < 12 ==>
              rows[i].vorschuss == Summe(Select(zs, NachMonat, MonthKey(year, i + 1)), Vorschuss)
    ensures forall i :: 0 <= i < 12 ==>
              rows[i].bonus == Summe(Select(zs, NachMonat, MonthKey(year, i + 1)), Bonus)
    ensures forall i :: 0 <= i < 12 ==> rows[i].auszahlung == rows[i].gehalt - rows[i].vorschuss + rows[i].bonus
  {
    Monatsreihe(year, m.grundgehalt, zs)
  }

  /** When every payment is booked under a month of the selected year, the
      footer of the monthly table is the column sum of its rows. */
  lemma FooterIsColumnSum(m: Mitarbeiter, year: nat, zs: seq<Zahlung>)
    requires forall z :: z in zs ==> z.zahlungsmonat.Some? && z.zahlungsmonat.value in MonthKeys(year)
    ensures SumOf(MonthlyData(m, year, zs), ZeileGehalt) == Jahr(m, zs).jahresGehalt
    ensures SumOf(MonthlyData(m, year, zs), ZeileVorschuss) == Jahr(m, zs).totalVorschuss
    ensures SumOf(MonthlyData(m, year, zs), ZeileBonus) == Jahr(m, zs).totalBonus
    ensures SumOf(MonthlyData(m, year, zs), ZeileAuszahlung) == Jahr(m, zs).totalAusgezahlt
  {
    MonatsreiheTotals(year, m.grundgehalt, zs);
  }

  /** The payments are chosen by their payment date but the rows by their
      booking month, which the payments view sets independently: an advance
      dated in the year but booked under a key that is not one of the
      year's twelve (say a month of the next year, see `OtherYearKey`)
      counts in the footer and in no row. */
  lemma FooterMayDifferFromRows(m: Mitarbeiter, year: nat, z: Zahlung)
    requires z.zahlungsart == Vorschuss && z.betrag != 0
    requires z.zahlungsmonat.Some? && z.zahlungsmonat.value !in MonthKeys(year)
    ensures SumOf(MonthlyData(m, year, [z]), ZeileVorschuss) == 0
    ensures Jahr(m, [z]).totalVorschuss == z.betrag
  {
    RowsWithoutBookings(m, year, [z]);
    SummeSingle(z, Vorschuss);
  }

  lemma RowsWithoutBookings(m: Mitarbeiter, year: nat, zs: seq<Zahlung>)
    requires forall z :: z in zs ==> z.zahlungsmonat.None? || z.zahlungsmonat.value !in MonthKeys(year)
    ensures SumOf(MonthlyData(m, year, zs), ZeileVorschuss) == 0
    ensures SumOf(MonthlyData(m, year, zs), ZeileBonus) == 0
  {
    MonatsreiheOhneBuchungen(year, m.grundgehalt, zs);
  }

  /** A month of another year is not one of the year's keys. */
  lemma OtherYearKey(year: nat, year': nat, month: int)
    requires year != year' && 1 <= month <= 12
    ensures MonthKey(year', month) !in MonthKeys(year)
  {
    var keys := MonthKeys(year);
    forall i | 0 <= i < 12
      ensures keys[i] != MonthKey(year', month)
    {
      assert ParseMonthKey(keys[i]) == Some((year, i + 1));
    }
  }

  /** `u.urlaubsart === a && u.status === 'genehmigt'`. */
  function ApprovedArt(a: Urlaubsart): Urlaub -> bool {
    (u: Urlaub) => u.urlaubsart == a && u.status == Genehmigt
  }

  /** `jahresurlaub` (a = Jahresurlaub) and `krankheitstage` (a = Krankheit):
      the days of the approved requests of that kind, a missing count
      being zero. */
  function UrlaubTage(us: seq<Urlaub>, a: Urlaubsart): int {
    SumOf(Filter(us, ApprovedArt(a)), Urlaube.Tage)
  }

  /** One more request adds its days exactly when it is approved and of the
      kind; pending and rejected requests never count. */
  lemma UrlaubTageSnoc(us: seq<Urlaub>, u: Urlaub, a: Urlaubsart)
    ensures UrlaubTage(us + [u], a) ==
              UrlaubTage(us, a) + (if u.urlaubsart == a && u.status == Genehmigt then Urlaube.Tage(u) else 0)
  {
    var f := Filter(us, ApprovedArt(a));
    FilterSnoc(us, u, ApprovedArt(a));
    if ApprovedArt(a)(u) {
      assert Filter(us + [u], ApprovedArt(a)) == f + [u];
      SumOfSnoc(f, u, Urlaube.Tage);
    } else {
      assert Filter(us + [u], ApprovedArt(a)) == f;
    }
  }

  /** For the employee's own requests the detail shows the same totals as
      the leave view's summary. */
  lemma UrlaubTageMatchesSummary(us: seq<Urlaub>, mId: string, a: Urlaubsart)
    requires forall u :: u in us ==> u.mitarbeiterId == mId
    ensures UrlaubTage(us, a) == Urlaube.ApprovedTage(us, mId, a)
  {
    assert Filter(us, Urlaube.ApprovedOf(mId)) == Filter(us, Urlaube.HasStatus(Genehmigt)) by {
      FilterCongruent(us, Urlaube.ApprovedOf(mId), Urlaube.HasStatus(Genehmigt));
    }
    FilterConj(us, Urlaube.ApprovedOf(mId), Urlaube.HasArt(a), ApprovedArt(a));
  }
}
