/** The payroll arithmetic that the payments view, the employee detail and
    the dashboard each spell out with `filter` and `reduce`: sums of one
    payment kind, payouts (base − advances + bonuses, never clamped), sums
    per key (employee or payroll month), and the 12-row monthly breakdown
    keyed by `YYYY-MM`. */
module Lohnsummen {
  import opened Common
  import opened Text
  import opened Calendar
  import opened Database

  function Betrag(z: Zahlung): int {
    z.betrag
  }

  function Grundgehalt(m: Mitarbeiter): int {
    m.grundgehalt
  }

  predicate IsAktiv(m: Mitarbeiter) {
    m.aktiv
  }

  function HasArt(a: Zahlungsart): Zahlung -> bool {
    (z: Zahlung) => z.zahlungsart == a
  }

  /** `zs.filter(z => z.zahlungsart === a).reduce((sum, z) => sum + z.betrag, 0)`. */
  function Summe(zs: seq<Zahlung>, a: Zahlungsart): int {
    SumOf(Filter(zs, HasArt(a)), Betrag)
  }

  lemma SummeEmpty(a: Zahlungsart)
    ensures Summe([], a) == 0
  {
  }

  /** A single payment sums to its amount under its own kind. */
  lemma SummeSingle(z: Zahlung, a: Zahlungsart)
    ensures Summe([z], a) == (if z.zahlungsart == a then z.betrag else 0)
  {
    assert [] + [z] == [z];
    SummeSnoc([], z, a);
  }

  /** One more payment adds its amount to the sum of its own kind and to no
      other. */
  lemma SummeSnoc(zs: seq<Zahlung>, z: Zahlung, a: Zahlungsart)
    ensures Summe(zs + [z], a) == Summe(zs, a) + (if z.zahlungsart == a then z.betrag else 0)
  {
    var f := Filter(zs, HasArt(a));
    FilterSnoc(zs, z, HasArt(a));
    if z.zahlungsart == a {
      assert Filter(zs + [z], HasArt(a)) == f + [z];
      SumOfSnoc(f, z, Betrag);
    } else {
      assert Filter(zs + [z], HasArt(a)) == f;
    }
  }

  /** The sum is additive over concatenated lists of payments. */
  lemma SummeAppend(zs: seq<Zahlung>, ys: seq<Zahlung>, a: Zahlungsart)
    ensures Summe(zs + ys, a) == Summe(zs, a) + Summe(ys, a)
  {
    FilterAppend(zs, ys, HasArt(a));
    SumOfAppend(Filter(zs, HasArt(a)), Filter(ys, HasArt(a)), Betrag);
  }

  /** `aktiveMitarbeiter.reduce((sum, m) => sum + m.grundgehalt, 0)`. */
  function GehaltAktive(ms: seq<Mitarbeiter>): int {
    SumOf(Filter(ms, IsAktiv), Grundgehalt)
  }

  /** Base pay minus the advances plus the bonuses among `zs`. */
  function Auszahlung(gehalt: int, zs: seq<Zahlung>): int {
    gehalt - Summe(zs, Vorschuss) + Summe(zs, Bonus)
  }

  /** The organisation's payout for the payments of one month, as the
      payments view (`Auszuzahlen`) and the dashboard (`totalAuszahlung`)
      compute it: the base salaries of the active employees, minus all
      advances, plus all bonuses. */
  function Monatsauszahlung(ms: seq<Mitarbeiter>, zs: seq<Zahlung>): int {
    Auszahlung(GehaltAktive(ms), zs)
  }

  /** What payments are grouped by: the employee they belong to, or the
      payroll month they are booked under. */
  datatype Schluessel = NachMitarbeiter | NachMonat

  function KeyOf(z: Zahlung, nach: Schluessel): Option<string> {
    match nach
    case NachMitarbeiter => Some(z.mitarbeiterId)
    case NachMonat => z.zahlungsmonat
  }

  function HasKey(nach: Schluessel, k: string): Zahlung -> bool {
    (z: Zahlung) => KeyOf(z, nach) == Some(k)
  }

  /** `zs.filter(z => z.mitarbeiter_id === k)` or `zs.filter(z => z.zahlungsmonat === k)`. */
  function Select(zs: seq<Zahlung>, nach: Schluessel, k: string): (r: seq<Zahlung>)
    ensures forall z :: z in r <==> z in zs && KeyOf(z, nach) == Some(k)
  {
    Filter(zs, HasKey(nach, k))
  }

  function KeyIn(nach: Schluessel, ks: seq<string>): Zahlung -> bool {
    (z: Zahlung) => KeyOf(z, nach).Some? && KeyOf(z, nach).value in ks
  }

  /** The sums of one kind for each of the keys, added up. */
  function SumKeys(zs: seq<Zahlung>, nach: Schluessel, keys: seq<string>, a: Zahlungsart): int
    decreases |keys|
  {
    if |keys| == 0 then 0
    else SumKeys(zs, nach, keys[..|keys| - 1], a) + Summe(Select(zs, nach, keys[|keys| - 1]), a)
  }

  predicate Distinct(keys: seq<string>) {
    forall i, j :: 0 <= i < j < |keys| ==> keys[i] != keys[j]
  }

  /** The summand of `Summe(Filter(zs, p), a)` on the whole list. */
  function Masked(p: Zahlung -> bool, a: Zahlungsart): Zahlung -> int {
    MaskBy(p, MaskBy(HasArt(a), Betrag))
  }

  lemma SummeFiltered(zs: seq<Zahlung>, p: Zahlung -> bool, a: Zahlungsart)
    ensures Summe(Filter(zs, p), a) == SumOf(zs, Masked(p, a))
  {
    SumOfFilter(Filter(zs, p), HasArt(a), Betrag);
    SumOfFilter(zs, p, MaskBy(HasArt(a), Betrag));
  }

  /** Summing per key over distinct keys counts every payment whose key is
      among them exactly once. */
  lemma {:induction false} SumKeysCovers(zs: seq<Zahlung>, nach: Schluessel, keys: seq<string>, a: Zahlungsart)
    requires Distinct(keys)
    ensures SumKeys(zs, nach, keys, a) == Summe(Filter(zs, KeyIn(nach, keys)), a)
    decreases |keys|
  {
    if |keys| == 0 {
      assert Filter(zs, KeyIn(nach, [])) == [];
    } else {
      var init, k := keys[..|keys| - 1], keys[|keys| - 1];
      assert keys == init + [k];
      assert k !in init;
      var m0, mk, m1 := Masked(KeyIn(nach, init), a), Masked(HasKey(nach, k), a), Masked(KeyIn(nach, keys), a);
      assert SumKeys(zs, nach, init, a) == SumOf(zs, m0) by {
        SumKeysCovers(zs, nach, init, a);
        SummeFiltered(zs, KeyIn(nach, init), a);
      }
      assert Summe(Select(zs, nach, k), a) == SumOf(zs, mk) by {
        SummeFiltered(zs, HasKey(nach, k), a);
      }
      assert SumOf(zs, m1) == SumOf(zs, m0) + SumOf(zs, mk) by {
        forall i | 0 <= i < |zs|
          ensures m1(zs[i]) == m0(zs[i]) + mk(zs[i])
        {
          MaskedSplit(nach, init, k, a, zs[i]);
        }
        SumOfPlus(zs, m1, m0, mk);
      }
      SummeFiltered(zs, KeyIn(nach, keys), a);
    }
  }

  /** A payment counts for a list of keys with one key more exactly when it
      counts for the shorter list or for that key. */
  lemma MaskedSplit(nach: Schluessel, ks: seq<string>, k: string, a: Zahlungsart, z: Zahlung)
    requires k !in ks
    ensures Masked(KeyIn(nach, ks + [k]), a)(z) == Masked(KeyIn(nach, ks), a)(z) + Masked(HasKey(nach, k), a)(z)
  {
  }

  /** When every payment's key is one of the distinct keys, the per-key sums
      add up to the plain sum. */
  lemma SumKeysTotal(zs: seq<Zahlung>, nach: Schluessel, keys: seq<string>, a: Zahlungsart)
    requires Distinct(keys)
    requires forall z :: z in zs ==> KeyOf(z, nach).Some? && KeyOf(z, nach).value in keys
    ensures SumKeys(zs, nach, keys, a) == Summe(zs, a)
  {
    SumKeysCovers(zs, nach, keys, a);
  }

  /** The keys `YYYY-01` .. `YYYY-12` of one year. */
  function MonthKeys(year: nat): (r: seq<string>)
    ensures |r| == 12
    ensures forall i :: 0 <= i < 12 ==> r[i] == MonthKey(year, i + 1)
  {
    seq(12, i requires 0 <= i < 12 => MonthKey(year, i + 1))
  }

  /** The twelve keys of a year are pairwise different. */
  lemma MonthKeysDistinct(year: nat)
    ensures Distinct(MonthKeys(year))
  {
    var r := MonthKeys(year);
    forall i, j | 0 <= i < j < 12
      ensures r[i] != r[j]
    {
      assert ParseMonthKey(r[i]) == Some((year, i + 1)) && ParseMonthKey(r[j]) == Some((year, j + 1));
    }
  }

  /** One row of the monthly breakdown (`monthlyData` of the employee
      detail, `chartData` of the dashboard); the locale month name is not
      modelled, the key it is computed for is kept instead. */
  datatype Monatszeile = Monatszeile(key: string, gehalt: int, vorschuss: int, bonus: int, auszahlung: int)

  function Zeile(key: string, gehalt: int, zs: seq<Zahlung>): (r: Monatszeile)
    ensures r.key == key && r.gehalt == gehalt
    ensures r.vorschuss == Summe(Select(zs, NachMonat, key), Vorschuss)
    ensures r.bonus == Summe(Select(zs, NachMonat, key), Bonus)
    ensures r.auszahlung == gehalt - r.vorschuss + r.bonus
  {
    var monat := Select(zs, NachMonat, key);
    var v, b := Summe(monat, Vorschuss), Summe(monat, Bonus);
    Monatszeile(key, gehalt, v, b, gehalt - v + b)
  }

  /** One row per key, in the order of the keys. */
  function Zeilen(keys: seq<string>, gehalt: int, zs: seq<Zahlung>): (rows: seq<Monatszeile>)
    ensures |rows| == |keys|
    ensures forall i :: 0 <= i < |keys| ==> rows[i] == Zeile(keys[i], gehalt, zs)
  {
    seq(|keys|, i requires 0 <= i < |keys| => Zeile(keys[i], gehalt, zs))
  }

  /** `Array.from({ length: 12 }, (_, i) => ...)`: row `i` sums the payments
      booked under `YYYY-MM` with `MM = i + 1`, against the same base pay in
      every row. */
  function Monatsreihe(year: nat, gehalt: int, zs: seq<Zahlung>): (rows: seq<Monatszeile>)
    ensures |rows| == 12
    ensures forall i :: 0 <= i < 12 ==> rows[i].key == MonthKey(year, i + 1)
    ensures forall i :: 0 <= i < 12 ==> rows[i].gehalt == gehalt
    ensures forall i :: 0 <= i < 12 ==>
              rows[i].vorschuss == Summe(Select(zs, NachMonat, MonthKey(year, i + 1)), Vorschuss)
    ensures forall i :: 0 <= i < 12 ==>
              rows[i].bonus == Summe(Select(zs, NachMonat, MonthKey(year, i + 1)), Bonus)
    ensures forall i :: 0 <= i < 12 ==> rows[i].auszahlung == rows[i].gehalt - rows[i].vorschuss + rows[i].bonus
  {
    Zeilen(MonthKeys(year), gehalt, zs)
  }

  function ZeileGehalt(z: Monatszeile): int { z.gehalt }
  function ZeileVorschuss(z: Monatszeile): int { z.vorschuss }
  function ZeileBonus(z: Monatszeile): int { z.bonus }
  function ZeileAuszahlung(z: Monatszeile): int { z.auszahlung }

  lemma SumKeysPrefixStep(zs: seq<Zahlung>, nach: Schluessel, keys: seq<string>, n: nat, a: Zahlungsart)
    requires 0 < n <= |keys|
    ensures SumKeys(zs, nach, keys[..n], a) == SumKeys(zs, nach, keys[..n - 1], a) + Summe(Select(zs, nach, keys[n - 1]), a)
  {
    assert keys[..n][..n - 1] == keys[..n - 1];
  }

  /** Prefix sums of the rows of a list of keys. */
  lemma {:induction false} ZeilenPrefix(keys: seq<string>, gehalt: int, zs: seq<Zahlung>, n: nat)
    requires n <= |keys|
    ensures SumOf(Zeilen(keys, gehalt, zs)[..n], ZeileVorschuss) == SumKeys(zs, NachMonat, keys[..n], Vorschuss)
    ensures SumOf(Zeilen(keys, gehalt, zs)[..n], ZeileBonus) == SumKeys(zs, NachMonat, keys[..n], Bonus)
    decreases n
  {
    if n > 0 {
      var rows := Zeilen(keys, gehalt, zs);
      ZeilenPrefix(keys, gehalt, zs, n - 1);
      SumOfPrefixStep(rows, n, ZeileVorschuss);
      SumOfPrefixStep(rows, n, ZeileBonus);
      SumKeysPrefixStep(zs, NachMonat, keys, n, Vorschuss);
      SumKeysPrefixStep(zs, NachMonat, keys, n, Bonus);
      assert rows[n - 1] == Zeile(keys[n - 1], gehalt, zs);
    }
  }

  /** Rows of keys no payment is booked under show no advances and no
      bonuses. */
  lemma ZeilenOhneBuchungen(keys: seq<string>, gehalt: int, zs: seq<Zahlung>)
    requires forall z :: z in zs ==> z.zahlungsmonat.None? || z.zahlungsmonat.value !in keys
    ensures SumOf(Zeilen(keys, gehalt, zs), ZeileVorschuss) == 0
    ensures SumOf(Zeilen(keys, gehalt, zs), ZeileBonus) == 0
  {
    var rows := Zeilen(keys, gehalt, zs);
    forall i | 0 <= i < |keys|
      ensures ZeileVorschuss(rows[i]) == 0 && ZeileBonus(rows[i]) == 0
    {
      assert Select(zs, NachMonat, keys[i]) == [];
    }
    SumOfConstant(rows, ZeileVorschuss, 0);
    SumOfConstant(rows, ZeileBonus, 0);
  }

  /** When every payment is booked under one of distinct keys, the rows of
      those keys together hold all of its advances and bonuses, their base
      pay is the monthly base once per key, and their payouts add up to the
      payout of all those months together. */
  lemma ZeilenTotals(keys: seq<string>, gehalt: int, zs: seq<Zahlung>)
    requires Distinct(keys)
    requires forall z :: z in zs ==> z.zahlungsmonat.Some? && z.zahlungsmonat.value in keys
    ensures SumOf(Zeilen(keys, gehalt, zs), ZeileVorschuss) == Summe(zs, Vorschuss)
    ensures SumOf(Zeilen(keys, gehalt, zs), ZeileBonus) == Summe(zs, Bonus)
    ensures SumOf(Zeilen(keys, gehalt, zs), ZeileGehalt) == |keys| * gehalt
    ensures SumOf(Zeilen(keys, gehalt, zs), ZeileAuszahlung) == Auszahlung(|keys| * gehalt, zs)
  {
    var rows := Zeilen(keys, gehalt, zs);
    assert SumOf(rows, ZeileVorschuss) == Summe(zs, Vorschuss) && SumOf(rows, ZeileBonus) == Summe(zs, Bonus) by {
      ZeilenPrefix(keys, gehalt, zs, |keys|);
      assert rows[..|keys|] == rows && keys[..|keys|] == keys;
      SumKeysTotal(zs, NachMonat, keys, Vorschuss);
      SumKeysTotal(zs, NachMonat, keys, Bonus);
    }
    assert SumOf(rows, ZeileGehalt) == |keys| * gehalt by {
      SumOfConstant(rows, ZeileGehalt, gehalt);
    }
    SumOfLinear(rows, ZeileAuszahlung, ZeileGehalt, ZeileVorschuss, ZeileBonus);
  }

  /** When every payment is booked under one of the year's twelve months,
      the twelve rows together hold all of its advances and bonuses, their
      base pay is twelve times the monthly base, and their payouts add up to
      the payout of the whole year. */
  lemma MonatsreiheTotals(year: nat, gehalt: int, zs: seq<Zahlung>)
    requires forall z :: z in zs ==> z.zahlungsmonat.Some? && z.zahlungsmonat.value in MonthKeys(year)
    ensures SumOf(Monatsreihe(year, gehalt, zs), ZeileVorschuss) == Summe(zs, Vorschuss)
    ensures SumOf(Monatsreihe(year, gehalt, zs), ZeileBonus) == Summe(zs, Bonus)
    ensures SumOf(Monatsreihe(year, gehalt, zs), ZeileGehalt) == 12 * gehalt
    ensures SumOf(Monatsreihe(year, gehalt, zs), ZeileAuszahlung) == Auszahlung(12 * gehalt, zs)
  {
    MonthKeysDistinct(year);
    ZeilenTotals(MonthKeys(year), gehalt, zs);
  }

  /** The twelve rows of a year hold no advances and no bonuses when no
      payment is booked under a month of that year. */
  lemma MonatsreiheOhneBuchungen(year: nat, gehalt: int, zs: seq<Zahlung>)
    requires forall z :: z in zs ==> z.zahlungsmonat.None? || z.zahlungsmonat.value !in MonthKeys(year)
    ensures SumOf(Monatsreihe(year, gehalt, zs), ZeileVorschuss) == 0
    ensures SumOf(Monatsreihe(year, gehalt, zs), ZeileBonus) == 0
  {
    ZeilenOhneBuchungen(MonthKeys(year), gehalt, zs);
  }
}
