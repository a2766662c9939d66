/** The dashboard: who is on leave today, the pending requests, the two
    document alarms (expiring within 30 days, already expired), the current
    month's payroll totals, the 12-month chart and the expiry-days text. */
module Dashboard {
  import opened Common
  import opened Text
  import opened Calendar
  import opened Database
  import opened Lohnsummen
  import Urlaube
  import Dokumente
  import Zahlungen

  /** `todayOnLeave`: the same filter as the leave view's `currentlyOnLeave`. */
  function TodayOnLeave(us: seq<Urlaub>, today: string): (r: seq<Urlaub>)
    ensures forall u :: u in r <==>
              u in us && u.status == Genehmigt && Le(u.startdatum, today) && Le(today, u.enddatum)
    ensures r == Urlaube.CurrentlyOnLeave(us, today)
  {
    Filter(us, Urlaube.OnLeave(today))
  }

  /** The count shown as "Personen" is a count of requests: one employee
      with two different approved requests covering today counts twice. */
  lemma TodayOnLeaveCountsRequests(u1: Urlaub, u2: Urlaub, today: string)
    requires u1 != u2 && u1.mitarbeiterId == u2.mitarbeiterId
    requires Urlaube.OnLeave(today)(u1) && Urlaube.OnLeave(today)(u2)
    ensures |TodayOnLeave([u1, u2], today)| == 2
  {
    assert [u1, u2] == [u1] + [u2];
    assert [u1] == [] + [u1];
    FilterSnoc([], u1, Urlaube.OnLeave(today));
    FilterSnoc([u1], u2, Urlaube.OnLeave(today));
  }

  /** `pendingLeaves`: exactly the pending requests, which is the leave
      view's "ausstehend" filter and counter. */
  function PendingLeaves(us: seq<Urlaub>): (r: seq<Urlaub>)
    ensures forall u :: u in r <==> u in us && u.status == Ausstehend
    ensures r == Urlaube.FilteredUrlaube(us, Urlaube.Nur(Ausstehend))
    ensures |r| == Urlaube.Stats(us).ausstehend
  {
    FilterCongruent(us, Urlaube.HasStatus(Ausstehend), Urlaube.Passes(Urlaube.Nur(Ausstehend)));
    Filter(us, Urlaube.HasStatus(Ausstehend))
  }

  /** A dated document whose expiry is at most 30 days away; past dates
      count too. A date that does not parse gives NaN days, which is not
      `<= 30`. */
  function Expiring(now: int): Dokument -> bool {
    (d: Dokument) =>
      d.ablaufdatum.Some? && d.ablaufdatum.value != "" &&
      var diff := DiffDays(d.ablaufdatum.value, now);
      diff.Some? && diff.value <= 30
  }

  /** `expiringDocs`. */
  function ExpiringDocs(ds: seq<Dokument>, now: int): (r: seq<Dokument>)
    ensures forall d :: d in r <==>
              d in ds && Dokumente.IsDated(d.ablaufdatum) && DayOf(d.ablaufdatum.value) - Today(now) <= 30
  {
    Filter(ds, Expiring(now))
  }

  function Expired(now: int): Dokument -> bool {
    (d: Dokument) => Dokumente.IsExpired(d, now)
  }

  /** `expiredDocs`: the employee detail's expired test. */
  function ExpiredDocs(ds: seq<Dokument>, now: int): (r: seq<Dokument>)
    ensures forall d :: d in r <==> d in ds && Dokumente.IsExpired(d, now)
  {
    Filter(ds, Expired(now))
  }

  /** Every expired document is also among the expiring ones. */
  lemma ExpiredAreExpiring(ds: seq<Dokument>, now: int)
    ensures forall d :: d in ExpiredDocs(ds, now) ==> d in ExpiringDocs(ds, now)
  {
  }

  /** A document without an expiry date raises neither alarm. */
  lemma UndatedInNeither(ds: seq<Dokument>, now: int, d: Dokument)
    requires d.ablaufdatum.None? || d.ablaufdatum == Some("")
    ensures d !in ExpiringDocs(ds, now) && d !in ExpiredDocs(ds, now)
  {
  }

  /** In terms of the documents view's tiers, the expiring documents are
      exactly the expired and the warning ones; the soon (31 to 90 days)
      documents are not. */
  lemma ExpiringByStatus(ds: seq<Dokument>, now: int)
    ensures forall d :: d in ExpiringDocs(ds, now) <==>
              d in ds && Dokumente.ExpiryStatus(d.ablaufdatum, now) in {Dokumente.Abgelaufen, Dokumente.Warnung}
  {
  }

  /** `totalGehalt`, `totalVorschuss`, `totalBonus`, `totalAuszahlung` of
      the current month. */
  datatype Totals = Totals(totalGehalt: int, totalVorschuss: int, totalBonus: int, totalAuszahlung: int)

  function MonthTotals(ms: seq<Mitarbeiter>, zs: seq<Zahlung>): (r: Totals)
    ensures r.totalGehalt == GehaltAktive(ms)
    ensures r.totalVorschuss == Summe(zs, Vorschuss) && r.totalBonus == Summe(zs, Bonus)
    ensures r.totalAuszahlung == r.totalGehalt - r.totalVorschuss + r.totalBonus
  {
    var g := GehaltAktive(ms);
    var v, b := Summe(zs, Vorschuss), Summe(zs, Bonus);
    Totals(g, v, b, g - v + b)
  }

  /** The dashboard and the payments view show the same payout for a month. */
  lemma TotalsAgreeWithPaymentsView(ms: seq<Mitarbeiter>, zs: seq<Zahlung>)
    ensures MonthTotals(ms, zs).totalAuszahlung == Zahlungen.Monatsinfo(ms, zs).auszuzahlen
    ensures MonthTotals(ms, zs).totalAuszahlung == Monatsauszahlung(ms, zs)
  {
  }

  /** `chartData` for the current year: twelve bars keyed `YYYY-01` ..
      `YYYY-12`, the same base salary total in each, and each payout the
      base minus the month's advances plus its bonuses. */
  function ChartData(ms: seq<Mitarbeiter>, year: nat, jz: seq<Zahlung>): (rows: seq<Monatszeile>)
    ensures |rows| == 12
    ensures forall i :: 0 <= i < 12 ==> rows[i].key == MonthKey(year, i + 1)
    ensures forall i :: 0 <= i < 12 ==> rows[i].gehalt == GehaltAktive(ms)
    ensures forall i :: 0 <= i < 12 ==>
              rows[i].vorschuss == Summe(Select(jz, NachMonat, MonthKey(year, i + 1)), Vorschuss)
    ensures forall i :: 0 <= i < 12 ==>
              rows[i].bonus == Summe(Select(jz, NachMonat, MonthKey(year, i + 1)), Bonus)
    ensures forall i :: 0 <= i < 12 ==> rows[i].auszahlung == rows[i].gehalt - rows[i].vorschuss + rows[i].bonus
  {
    Monatsreihe(year, GehaltAktive(ms), jz)
  }

  /** The bar of a month shows the payout the month card shows for the
      payments booked under that month. */
  lemma ChartBarIsMonthPayout(ms: seq<Mitarbeiter>, year: nat, jz: seq<Zahlung>, i: int)
    requires 0 <= i < 12
    ensures ChartData(ms, year, jz)[i].auszahlung ==
              MonthTotals(ms, Select(jz, NachMonat, MonthKey(year, i + 1))).totalAuszahlung
  {
    assert MonthKeys(year)[i] == MonthKey(year, i + 1);
  }

  /** When the year's payments are all booked under months of that year,
      the bars' payouts add up to twelve base salary totals minus all
      advances plus all bonuses. */
  lemma ChartAddsUp(ms: seq<Mitarbeiter>, year: nat, jz: seq<Zahlung>)
    requires forall z :: z in jz ==> z.zahlungsmonat.Some? && z.zahlungsmonat.value in MonthKeys(year)
    ensures SumOf(ChartData(ms, year, jz), ZeileAuszahlung) == Auszahlung(12 * GehaltAktive(ms), jz)
  {
    MonatsreiheTotals(year, GehaltAktive(ms), jz);
  }

  /** `getExpiryDays(date)`: "N Tage abgelaufen" for a past date, "Heute"
      for today, "N Tage" for a future date, and "NaN Tage" for a date that
      does not parse. Reading the text back gives the day difference. */
  function ExpiryDaysText(date: string, now: int): (r: string)
    ensures ReadExpiryDays(r) == DiffDays(date, now)
    ensures DiffDays(date, now).None? ==> r == "NaN Tage"
    ensures DiffDays(date, now) == Some(0) ==> r == "Heute"
  {
    match DiffDays(date, now)
    case None => "NaN Tage"
    case Some(diff) =>
      if diff < 0 then
        var t := ShowNat(-diff) + Abgelaufen;
        assert t[..|t| - |Abgelaufen|] == ShowNat(-diff) && t[|t| - |Abgelaufen|..] == Abgelaufen;
        t
      else if diff == 0 then "Heute"
      else
        var t := ShowNat(diff) + Tage;
        assert t[..|t| - |Tage|] == ShowNat(diff) && t[|t| - |Tage|..] == Tage;
        t
  }

  const Abgelaufen: string := " Tage abgelaufen"
  const Tage: string := " Tage"

  /** The day difference a text of `getExpiryDays` stands for; `None` for
      "NaN Tage" and any other text. */
  function ReadExpiryDays(t: string): Option<int> {
    if t == "Heute" then Some(0)
    else if |t| > |Abgelaufen| && t[|t| - |Abgelaufen|..] == Abgelaufen && AllDigits(t[..|t| - |Abgelaufen|])
    then Some(0 - Val(t[..|t| - |Abgelaufen|]) as int)
    else if |t| > |Tage| && t[|t| - |Tage|..] == Tage && AllDigits(t[..|t| - |Tage|])
    then Some(Val(t[..|t| - |Tage|]))
    else None
  }

  /** `getMitarbeiterName(id)`: "vorname nachname" of the employee, or
      "Unbekannt" for an id that is not in the list. */
  function MitarbeiterName(ms: seq<Mitarbeiter>, id: string): (r: string)
    ensures (forall m :: m in ms ==> m.id != id) ==> r == "Unbekannt"
    ensures (exists m :: m in ms && m.id == id) ==>
              exists m :: m in ms && m.id == id && r == m.vorname + " " + m.nachname
  {
    match Find(ms, id)
    case Some(m) => m.vorname + " " + m.nachname
    case None => "Unbekannt"
  }
}
