/** The payments view of one payroll month: the per-employee summary, the
    month's totals and payout, the default month key, and the insert of a
    payment booked under the selected month. */
module Zahlungen {
  import opened Common
  import opened Text
  import opened Calendar
  import opened Database
  import opened Lohnsummen

  /** What `getMitarbeiterSummary` returns for a known employee. */
  datatype Summary = Summary(grundgehalt: int, vorschuesse: int, bonusse: int, auszahlung: int)

  /** `zahlungen.filter(z => z.mitarbeiter_id === mId)`. */
  function PersonalZahlungen(zs: seq<Zahlung>, mId: string): (r: seq<Zahlung>)
    ensures forall z :: z in r <==> z in zs && z.mitarbeiterId == mId
  {
    Select(zs, NachMitarbeiter, mId)
  }

  /** `getMitarbeiterSummary(mId)`: null for an id that is not in the list;
      otherwise the base salary of the (first) employee with that id, the
      advances and the bonuses among that employee's payments, and the
      payout base − advances + bonuses, which is not clamped at zero. */
  function MitarbeiterSummary(ms: seq<Mitarbeiter>, zs: seq<Zahlung>, mId: string): (r: Option<Summary>)
    ensures r.None? <==> forall m :: m in ms ==> m.id != mId
    ensures r.Some? ==> exists m :: m in ms && m.id == mId && r.value.grundgehalt == m.grundgehalt
    ensures r.Some? ==> r.value.vorschuesse == Summe(PersonalZahlungen(zs, mId), Vorschuss)
    ensures r.Some? ==> r.value.bonusse == Summe(PersonalZahlungen(zs, mId), Bonus)
    ensures r.Some? ==> r.value.auszahlung == r.value.grundgehalt - r.value.vorschuesse + r.value.bonusse
  {
    match Find(ms, mId)
    case None => None
    case Some(m) =>
      var personal := PersonalZahlungen(zs, mId);
      var vorschuesse := Summe(personal, Vorschuss);
      var bonusse := Summe(personal, Bonus);
      Some(Summary(m.grundgehalt, vorschuesse, bonusse, m.grundgehalt - vorschuesse + bonusse))
  }

  /** With unique ids the summary of a listed employee uses that
      employee's own base salary. */
  lemma SummaryOfListed(ms: seq<Mitarbeiter>, zs: seq<Zahlung>, m: Mitarbeiter)
    requires UniqueIds(ms) && m in ms
    ensures MitarbeiterSummary(ms, zs, m.id).Some?
    ensures MitarbeiterSummary(ms, zs, m.id).value.grundgehalt == m.grundgehalt
  {
    FindUnique(ms, m);
  }

  /** An employee without payments this month keeps the base salary. */
  lemma SummaryWithoutPayments(ms: seq<Mitarbeiter>, zs: seq<Zahlung>, mId: string)
    requires forall z :: z in zs ==> z.mitarbeiterId != mId
    requires exists m :: m in ms && m.id == mId
    ensures MitarbeiterSummary(ms, zs, mId).Some?
    ensures MitarbeiterSummary(ms, zs, mId).value.vorschuesse == 0
    ensures MitarbeiterSummary(ms, zs, mId).value.bonusse == 0
    ensures MitarbeiterSummary(ms, zs, mId).value.auszahlung == MitarbeiterSummary(ms, zs, mId).value.grundgehalt
  {
    assert PersonalZahlungen(zs, mId) == [];
  }

  /** One more payment: an advance of the employee lowers the payout by its
      amount, a bonus of the employee raises it by its amount, and a salary
      or other payment, or any payment of someone else, changes nothing. */
  lemma SummaryAfterPayment(ms: seq<Mitarbeiter>, zs: seq<Zahlung>, mId: string, z: Zahlung)
    requires exists m :: m in ms && m.id == mId
    ensures MitarbeiterSummary(ms, zs + [z], mId).Some? && MitarbeiterSummary(ms, zs, mId).Some?
    ensures MitarbeiterSummary(ms, zs + [z], mId).value.auszahlung ==
              MitarbeiterSummary(ms, zs, mId).value.auszahlung
              - (if z.mitarbeiterId == mId && z.zahlungsart == Vorschuss then z.betrag else 0)
              + (if z.mitarbeiterId == mId && z.zahlungsart == Bonus then z.betrag else 0)
  {
    var p := PersonalZahlungen(zs, mId);
    FilterSnoc(zs, z, HasKey(NachMitarbeiter, mId));
    if z.mitarbeiterId == mId {
      assert PersonalZahlungen(zs + [z], mId) == p + [z];
      SummeSnoc(p, z, Vorschuss);
      SummeSnoc(p, z, Bonus);
    } else {
      assert PersonalZahlungen(zs + [z], mId) == p;
    }
  }

  /** Nothing clamps the payout: an advance larger than the base salary
      makes it negative. */
  lemma SummaryMayBeNegative(m: Mitarbeiter, z: Zahlung)
    requires z.mitarbeiterId == m.id && z.zahlungsart == Vorschuss && z.betrag > m.grundgehalt
    ensures MitarbeiterSummary([m], [z], m.id).Some?
    ensures MitarbeiterSummary([m], [z], m.id).value.auszahlung < 0
  {
    assert PersonalZahlungen([z], m.id) == [z];
    SummeSnoc([], z, Vorschuss);
    SummeSnoc([], z, Bonus);
    assert [] + [z] == [z];
  }

  /** The four figures of the month header: the base salaries of the active
      employees, `totalVorschuesse`, `totalBonusse` over every payment of
      the month, and `Auszuzahlen`. */
  datatype MonatsInfo = MonatsInfo(gesamteGehaelter: int, vorschuesse: int, boni: int, auszuzahlen: int)

  function Monatsinfo(ms: seq<Mitarbeiter>, zs: seq<Zahlung>): (r: MonatsInfo)
    ensures r.gesamteGehaelter == GehaltAktive(ms)
    ensures r.vorschuesse == Summe(zs, Vorschuss) && r.boni == Summe(zs, Bonus)
    ensures r.auszuzahlen == r.gesamteGehaelter - r.vorschuesse + r.boni
    ensures r.auszuzahlen == Monatsauszahlung(ms, zs)
  {
    var g := GehaltAktive(ms);
    var v, b := Summe(zs, Vorschuss), Summe(zs, Bonus);
    MonatsInfo(g, v, b, g - v + b)
  }

  /** The payout shown on an employee's card (zero for an unknown id, which
      the active list never holds). */
  function KartenAuszahlung(ms: seq<Mitarbeiter>, zs: seq<Zahlung>): Mitarbeiter -> int {
    (m: Mitarbeiter) =>
      match MitarbeiterSummary(ms, zs, m.id)
      case Some(s) => s.auszahlung
      case None => 0
  }

  function IdsOf(ms: seq<Mitarbeiter>): (r: seq<string>)
    ensures |r| == |ms|
    ensures forall i :: 0 <= i < |ms| ==> r[i] == ms[i].id
  {
    seq(|ms|, i requires 0 <= i < |ms| => ms[i].id)
  }

  function PersonVorschuss(zs: seq<Zahlung>): Mitarbeiter -> int {
    (m: Mitarbeiter) => Summe(Select(zs, NachMitarbeiter, m.id), Vorschuss)
  }

  function PersonBonus(zs: seq<Zahlung>): Mitarbeiter -> int {
    (m: Mitarbeiter) => Summe(Select(zs, NachMitarbeiter, m.id), Bonus)
  }

  /** Summing a kind per employee is summing it per employee id. */
  lemma {:induction false} PersonSumKeys(zs: seq<Zahlung>, act: seq<Mitarbeiter>)
    ensures SumOf(act, PersonVorschuss(zs)) == SumKeys(zs, NachMitarbeiter, IdsOf(act), Vorschuss)
    ensures SumOf(act, PersonBonus(zs)) == SumKeys(zs, NachMitarbeiter, IdsOf(act), Bonus)
    decreases |act|
  {
    if |act| > 0 {
      var init := act[..|act| - 1];
      assert IdsOf(act)[..|act| - 1] == IdsOf(init);
      PersonSumKeys(zs, init);
    }
  }

  /** With unique ids each active employee's card shows base − advances +
      bonuses of that employee, so the cards add up term by term. */
  lemma CardsLinear(ms: seq<Mitarbeiter>, zs: seq<Zahlung>)
    requires UniqueIds(ms)
    ensures SumOf(Filter(ms, IsAktiv), KartenAuszahlung(ms, zs)) ==
              SumOf(Filter(ms, IsAktiv), Grundgehalt) - SumOf(Filter(ms, IsAktiv), PersonVorschuss(zs))
              + SumOf(Filter(ms, IsAktiv), PersonBonus(zs))
  {
    var act := Filter(ms, IsAktiv);
    forall i | 0 <= i < |act|
      ensures KartenAuszahlung(ms, zs)(act[i]) ==
              Grundgehalt(act[i]) - PersonVorschuss(zs)(act[i]) + PersonBonus(zs)(act[i])
    {
      assert act[i] in ms;
      SummaryOfListed(ms, zs, act[i]);
    }
    SumOfLinear(act, KartenAuszahlung(ms, zs), Grundgehalt, PersonVorschuss(zs), PersonBonus(zs));
  }

  /** A payment owned by an active employee carries one of the active ids. */
  lemma ActiveIdsCover(ms: seq<Mitarbeiter>, zs: seq<Zahlung>)
    requires forall z :: z in zs ==> exists m :: m in ms && m.aktiv && m.id == z.mitarbeiterId
    ensures forall z :: z in zs ==> KeyOf(z, NachMitarbeiter).Some? &&
                                    KeyOf(z, NachMitarbeiter).value in IdsOf(Filter(ms, IsAktiv))
  {
    var act := Filter(ms, IsAktiv);
    forall z | z in zs
      ensures z.mitarbeiterId in IdsOf(act)
    {
      var m :| m in ms && m.aktiv && m.id == z.mitarbeiterId;
      assert m in act;
      var i :| 0 <= i < |act| && act[i] == m;
      assert IdsOf(act)[i] == m.id;
    }
  }

  /** When every payment of the month belongs to an active employee and the
      ids are unique, the payouts on the active employees' cards add up to
      the month's `Auszuzahlen`. */
  lemma CardsAddUpToMonth(ms: seq<Mitarbeiter>, zs: seq<Zahlung>)
    requires UniqueIds(ms)
    requires forall z :: z in zs ==> exists m :: m in ms && m.aktiv && m.id == z.mitarbeiterId
    ensures SumOf(Filter(ms, IsAktiv), KartenAuszahlung(ms, zs)) == Monatsauszahlung(ms, zs)
  {
    var act := Filter(ms, IsAktiv);
    CardsLinear(ms, zs);
    ActiveIdsCover(ms, zs);
    assert Distinct(IdsOf(act)) by {
      FilterKeepsUniqueIds(ms, IsAktiv);
    }
    PersonSumKeys(zs, act);
    SumKeysTotal(zs, NachMitarbeiter, IdsOf(act), Vorschuss);
    SumKeysTotal(zs, NachMitarbeiter, IdsOf(act), Bonus);
  }

  /** The month preselected on opening the view: `YYYY-MM` for the current
      year and `getMonth()` (0 for January), the month zero-padded to two
      digits. */
  function DefaultMonthKey(year: nat, monthIndex: int): (r: string)
    requires 0 <= monthIndex < 12
    ensures ParseMonthKey(r) == Some((year, monthIndex + 1))
    ensures 1000 <= year <= 9999 ==> |r| == 7 && r[4] == '-'
  {
    var r := MonthKey(year, monthIndex + 1);
    assert 1000 <= year <= 9999 ==> |r| == 7 by {
      if 1000 <= year <= 9999 {
        MonthKeyLength(year, monthIndex + 1);
      }
    }
    r
  }

  /** The payment form. The view offers only the advance and bonus buttons
      for the kind; the amount is the text of a required number field. */
  datatype ZahlungForm = ZahlungForm(
    mitarbeiterId: string,
    zahlungsart: Zahlungsart,
    betrag: string,
    zahlungsdatum: string,
    beschreibung: string)

  /** The reset form: an advance dated `today` (`toISOString().split('T')[0]`). */
  function EmptyForm(today: string): (f: ZahlungForm)
    ensures f.zahlungsart == Vorschuss && f.zahlungsdatum == today
    ensures f.mitarbeiterId == "" && f.betrag == "" && f.beschreibung == ""
  {
    ZahlungForm("", Vorschuss, "", today, "")
  }

  /** The row `handleSubmit` inserts: booked under the selected month
      whatever its payment date; the store assigns `id` and `erstellt_am`. */
  function NewZahlung(f: ZahlungForm, month: string, id: string, erstelltAm: string): (z: Zahlung)
    requires ParseAmount(f.betrag).Some?
    ensures z.zahlungsmonat == Some(month)
    ensures z.mitarbeiterId == f.mitarbeiterId && z.zahlungsart == f.zahlungsart
    ensures z.betrag == ParseAmount(f.betrag).value
    ensures z.zahlungsdatum == f.zahlungsdatum
    ensures z.beschreibung == NullIfEmpty(f.beschreibung)
  {
    Zahlung(id, erstelltAm, f.mitarbeiterId, f.zahlungsart, ParseAmount(f.betrag).value,
            f.zahlungsdatum, Some(month), NullIfEmpty(f.beschreibung))
  }

  /** After the insert the selected month lists the new payment after the
      ones it had, and every other month lists what it listed before. */
  lemma InsertShowsInSelectedMonth(rows: seq<Zahlung>, f: ZahlungForm, month: string, id: string,
                                   erstelltAm: string, k: string)
    requires ParseAmount(f.betrag).Some?
    ensures Select(rows + [NewZahlung(f, month, id, erstelltAm)], NachMonat, k) ==
              Select(rows, NachMonat, k) + (if k == month then [NewZahlung(f, month, id, erstelltAm)] else [])
  {
    FilterSnoc(rows, NewZahlung(f, month, id, erstelltAm), HasKey(NachMonat, k));
  }

  /** The `zahlungen` table, the selected month and the form. */
  class ZahlungenTabelle {
    var rows: seq<Zahlung>
    var selectedMonth: string
    var formData: ZahlungForm
    var showModal: bool
    var saving: bool

    constructor (rows0: seq<Zahlung>, year: nat, monthIndex: int, today: string)
      requires 0 <= monthIndex < 12
      ensures rows == rows0 && selectedMonth == DefaultMonthKey(year, monthIndex)
      ensures formData == EmptyForm(today) && !showModal && !saving
    {
      rows := rows0;
      selectedMonth := DefaultMonthKey(year, monthIndex);
      formData := EmptyForm(today);
      showModal := false;
      saving := false;
    }

    /** `fetchZahlungen`: the payments booked under the selected month. */
    function View(): (r: seq<Zahlung>)
      reads this
      ensures forall z :: z in r <==> z in rows && z.zahlungsmonat == Some(selectedMonth)
    {
      Select(rows, NachMonat, selectedMonth)
    }

    /** The month picker. */
    method SelectMonth(k: string)
      modifies this
      ensures selectedMonth == k
      ensures rows == old(rows) && formData == old(formData) && showModal == old(showModal) && saving == old(saving)
    {
      selectedMonth := k;
    }

    /** The two kind buttons of the form. */
    method ChooseArt(a: Zahlungsart)
      requires a == Vorschuss || a == Bonus
      modifies this
      ensures formData == old(formData).(zahlungsart := a)
      ensures rows == old(rows) && selectedMonth == old(selectedMonth) && showModal == old(showModal) && saving == old(saving)
    {
      formData := formData.(zahlungsart := a);
    }

    /** `handleSubmit`: insert the payment under the selected month and
        reset the form to an advance dated `today`. */
    method HandleSubmit(storeOk: bool, newId: string, erstelltAm: string, today: string)
      requires ParseAmount(formData.betrag).Some?
      modifies this
      ensures storeOk ==> rows == old(rows) + [NewZahlung(old(formData), old(selectedMonth), newId, erstelltAm)]
      ensures storeOk ==> View() == old(View()) + [NewZahlung(old(formData), old(selectedMonth), newId, erstelltAm)]
      ensures storeOk ==> formData == EmptyForm(today) && !showModal
      ensures !storeOk ==> rows == old(rows) && formData == old(formData) && showModal == old(showModal)
      ensures selectedMonth == old(selectedMonth) && !saving
    {
      saving := true;
      var z := NewZahlung(formData, selectedMonth, newId, erstelltAm);
      if storeOk {
        ghost var v := Select(rows + [z], NachMonat, selectedMonth);
        assert v == View() + [z] by {
          FilterSnoc(rows, z, HasKey(NachMonat, selectedMonth));
        }
        rows := rows + [z];
        assert View() == v;
        showModal := false;
        formData := EmptyForm(today);
      }
      saving := false;
    }
  }
}
