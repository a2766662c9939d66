/** The employee list page: the create and edit forms with their 12-month
    salary map, the search, the counters above the list, and the writes on
    the `mitarbeiter` table. */
module Personal {
  import opened Common
  import opened Text
  import opened Database
  import opened Lohnsummen

  /** The twelve month fields `gehalt_jan` .. `gehalt_dez` of a form, as
      typed. */
  datatype GehaltFelder = GehaltFelder(
    jan: string, feb: string, mar: string, apr: string, mai: string, jun: string,
    jul: string, aug: string, sep: string, okt: string, nov: string, dez: string)
  {
    function Get(k: Monat): string {
      match k
      case Jan => jan case Feb => feb case Mar => mar case Apr => apr
      case Mai => mai case Jun => jun case Jul => jul case Aug => aug
      case Sep => sep case Okt => okt case Nov => nov case Dez => dez
    }
  }

  /** The twelve fields filled by a rule per month. */
  function FelderOf(g: Monat -> string): (r: GehaltFelder)
    ensures forall k: Monat :: r.Get(k) == g(k)
  {
    GehaltFelder(g(Jan), g(Feb), g(Mar), g(Apr), g(Mai), g(Jun), g(Jul), g(Aug), g(Sep), g(Okt), g(Nov), g(Dez))
  }

  const LeereFelder := GehaltFelder("", "", "", "", "", "", "", "", "", "", "", "")

  /** The employee form (`formData`, `editFormData`). The create form has no
      active switch; its `aktiv` is not read. */
  datatype Formular = Formular(
    vorname: string,
    nachname: string,
    geburtsdatum: string,
    telefon: string,
    email: string,
    adresse: string,
    position: string,
    grundgehalt: string,
    gehalt: GehaltFelder,
    notizen: string,
    aktiv: bool)

  /** The empty form, with the preselected position `Fahrer`. */
  const EmptyForm := Formular("", "", "", "", "", "", "Fahrer", "", LeereFelder, "", true)

  /** `parseFloat(grundgehalt) || 0`: the number typed, or 0 when the field
      is empty or not a number. */
  function BaseSalary(s: string): (r: int)
    ensures ParseAmount(s).Some? ==> r == ParseAmount(s).value
    ensures ParseAmount(s).None? ==> r == 0
  {
    match ParseAmount(s)
    case Some(n) => n
    case None => 0
  }

  /** One entry of `monatlicheGehaelter`: an empty field falls back to the
      base salary, any other text is parsed, and a text that is not a number
      is NaN, stored as null. */
  function MonthValue(field: string, base: int): Option<int> {
    if field != "" then ParseAmount(field) else Some(base)
  }

  /** `monatlicheGehaelter` as both submits build it: exactly the twelve
      month keys, each the base salary when its field is empty and the
      parsed field otherwise. */
  function BuildMonthMap(f: Formular): (r: Monatsgehaelter)
    ensures r.Keys == AlleMonate
    ensures forall k :: k in r && f.gehalt.Get(k) == "" ==> r[k] == Some(BaseSalary(f.grundgehalt))
    ensures forall k :: k in r && f.gehalt.Get(k) != "" ==> r[k] == ParseAmount(f.gehalt.Get(k))
  {
    map k | k in AlleMonate :: MonthValue(f.gehalt.Get(k), BaseSalary(f.grundgehalt))
  }

  /** The row `handleSubmit` inserts. The store assigns `id`, `erstellt_am`
      and, as column defaults, `eintrittsdatum` and `aktiv`. */
  function NewMitarbeiter(f: Formular, id: string, erstelltAm: string, eintrittsdatum: string, aktiv: bool): (m: Mitarbeiter)
    ensures m.vorname == f.vorname && m.nachname == f.nachname && m.position == f.position
    ensures m.geburtsdatum == NullIfEmpty(f.geburtsdatum) && m.telefon == NullIfEmpty(f.telefon)
    ensures m.email == NullIfEmpty(f.email) && m.adresse == NullIfEmpty(f.adresse)
    ensures m.notizen == NullIfEmpty(f.notizen)
    ensures m.grundgehalt == BaseSalary(f.grundgehalt)
    ensures m.monatlichesGehalt == BuildMonthMap(f)
  {
    Mitarbeiter(id, erstelltAm, f.vorname, f.nachname, NullIfEmpty(f.geburtsdatum), NullIfEmpty(f.telefon),
                NullIfEmpty(f.email), NullIfEmpty(f.adresse), f.position, eintrittsdatum,
                BaseSalary(f.grundgehalt), BuildMonthMap(f), aktiv, NullIfEmpty(f.notizen))
  }

  /** The fields `handleEditSubmit` writes onto a stored row; the id, the
      creation time and the entry date stay. */
  function ApplyEdit(m: Mitarbeiter, f: Formular): (r: Mitarbeiter)
    ensures r.id == m.id && r.erstelltAm == m.erstelltAm && r.eintrittsdatum == m.eintrittsdatum
    ensures r.vorname == f.vorname && r.nachname == f.nachname && r.position == f.position && r.aktiv == f.aktiv
    ensures r.geburtsdatum == NullIfEmpty(f.geburtsdatum) && r.telefon == NullIfEmpty(f.telefon)
    ensures r.email == NullIfEmpty(f.email) && r.adresse == NullIfEmpty(f.adresse)
    ensures r.notizen == NullIfEmpty(f.notizen)
    ensures r.grundgehalt == BaseSalary(f.grundgehalt)
    ensures r.monatlichesGehalt == BuildMonthMap(f)
  {
    m.(vorname := f.vorname, nachname := f.nachname, geburtsdatum := NullIfEmpty(f.geburtsdatum),
       telefon := NullIfEmpty(f.telefon), email := NullIfEmpty(f.email), adresse := NullIfEmpty(f.adresse),
       position := f.position, grundgehalt := BaseSalary(f.grundgehalt), monatlichesGehalt := BuildMonthMap(f),
       notizen := NullIfEmpty(f.notizen), aktiv := f.aktiv)
  }

  /** Create and edit store the same salary figures for the same form. */
  lemma CreateAndEditAgree(f: Formular, m: Mitarbeiter, id: string, erstelltAm: string, eintrittsdatum: string, aktiv: bool)
    ensures NewMitarbeiter(f, id, erstelltAm, eintrittsdatum, aktiv).monatlichesGehalt == ApplyEdit(m, f).monatlichesGehalt
    ensures NewMitarbeiter(f, id, erstelltAm, eintrittsdatum, aktiv).grundgehalt == ApplyEdit(m, f).grundgehalt
  {
  }

  /** `mg?.jan?.toString() || ''`: the stored month value as text, or empty
      when the key is missing or the value is null. */
  function LoadField(mg: Monatsgehaelter, k: Monat): string {
    if k in mg && mg[k].Some? then ShowAmount(mg[k].value) else ""
  }

  function LoadFields(mg: Monatsgehaelter): Monat -> string {
    (k: Monat) => LoadField(mg, k)
  }

  /** `openEditModal(m)`: the edit form filled from the stored row. */
  function LoadEditForm(m: Mitarbeiter): (f: Formular)
    ensures f.vorname == m.vorname && f.nachname == m.nachname && f.position == m.position && f.aktiv == m.aktiv
    ensures f.geburtsdatum == OrEmpty(m.geburtsdatum) && f.telefon == OrEmpty(m.telefon)
    ensures f.email == OrEmpty(m.email) && f.adresse == OrEmpty(m.adresse) && f.notizen == OrEmpty(m.notizen)
    ensures ParseAmount(f.grundgehalt) == Some(m.grundgehalt)
    ensures forall k :: (k in m.monatlichesGehalt && m.monatlichesGehalt[k].Some?) ==>
              ParseAmount(f.gehalt.Get(k)) == m.monatlichesGehalt[k]
    ensures forall k :: !(k in m.monatlichesGehalt && m.monatlichesGehalt[k].Some?) ==> f.gehalt.Get(k) == ""
  {
    Formular(m.vorname, m.nachname, OrEmpty(m.geburtsdatum), OrEmpty(m.telefon), OrEmpty(m.email),
             OrEmpty(m.adresse), m.position, ShowAmount(m.grundgehalt), FelderOf(LoadFields(m.monatlichesGehalt)),
             OrEmpty(m.notizen), m.aktiv)
  }

  /** Every month is one of the twelve keys. */
  lemma InAlleMonate(k: Monat)
    ensures k in AlleMonate
  {
  }

  /** Re-submitting an unchanged edit form, for one month: a stored value
      comes back, and a missing or null month becomes the base salary. */
  lemma ReloadMonth(m: Mitarbeiter, k: Monat)
    ensures k in BuildMonthMap(LoadEditForm(m))
    ensures BuildMonthMap(LoadEditForm(m))[k] ==
              if k in m.monatlichesGehalt && m.monatlichesGehalt[k].Some? then m.monatlichesGehalt[k]
              else Some(m.grundgehalt)
  {
    var f := LoadEditForm(m);
    InAlleMonate(k);
    if k in m.monatlichesGehalt && m.monatlichesGehalt[k].Some? {
      assert f.gehalt.Get(k) == ShowAmount(m.monatlichesGehalt[k].value);
    }
  }

  /** Re-submitting an unchanged edit form keeps every stored month value
      and fills a missing or null month with the base salary. */
  lemma ReloadMonthMap(m: Mitarbeiter)
    ensures forall k :: k in BuildMonthMap(LoadEditForm(m)) &&
              BuildMonthMap(LoadEditForm(m))[k] ==
                if k in m.monatlichesGehalt && m.monatlichesGehalt[k].Some? then m.monatlichesGehalt[k]
                else Some(m.grundgehalt)
  {
    forall k: Monat
      ensures k in BuildMonthMap(LoadEditForm(m)) &&
              BuildMonthMap(LoadEditForm(m))[k] ==
                if k in m.monatlichesGehalt && m.monatlichesGehalt[k].Some? then m.monatlichesGehalt[k]
                else Some(m.grundgehalt)
    {
      ReloadMonth(m, k);
    }
  }

  /** A complete salary map: all twelve months hold a number. */
  predicate CompleteMap(mg: Monatsgehaelter) {
    mg.Keys == AlleMonate && forall k :: k in mg ==> mg[k].Some?
  }

  /** Opening the edit form and saving it unchanged writes back the same
      row, when its salary map is complete and no optional text is stored
      as an empty string (which the save turns into null). */
  lemma ReloadIsIdentity(m: Mitarbeiter)
    requires CompleteMap(m.monatlichesGehalt)
    requires m.geburtsdatum != Some("") && m.telefon != Some("") && m.email != Some("")
    requires m.adresse != Some("") && m.notizen != Some("")
    ensures ApplyEdit(m, LoadEditForm(m)) == m
  {
    ReloadMonthMap(m);
    NullIfEmptyOrEmpty(m.geburtsdatum);
    NullIfEmptyOrEmpty(m.telefon);
    NullIfEmptyOrEmpty(m.email);
    NullIfEmptyOrEmpty(m.adresse);
    NullIfEmptyOrEmpty(m.notizen);
    assert BuildMonthMap(LoadEditForm(m)) == m.monatlichesGehalt;
  }

  /** The search: the lower-cased "vorname nachname" or the lower-cased
      position contains the lower-cased term. */
  function Matches(term: string): Mitarbeiter -> bool {
    (m: Mitarbeiter) =>
      Contains(Lower(m.vorname + " " + m.nachname), Lower(term)) || Contains(Lower(m.position), Lower(term))
  }

  /** `filteredMitarbeiter`: the matching employees in list order; an empty
      term keeps everyone. */
  function FilteredMitarbeiter(ms: seq<Mitarbeiter>, term: string): (r: seq<Mitarbeiter>)
    ensures forall m :: m in r <==>
              (m in ms && (Contains(Lower(m.vorname + " " + m.nachname), Lower(term)) || Contains(Lower(m.position), Lower(term))))
    ensures term == "" ==> r == ms
  {
    Filter(ms, Matches(term))
  }

  /** The search keeps the list order: filtering two lists one after the
      other is filtering each. */
  lemma FilteredKeepsOrder(ms: seq<Mitarbeiter>, ns: seq<Mitarbeiter>, term: string)
    ensures FilteredMitarbeiter(ms + ns, term) == FilteredMitarbeiter(ms, term) + FilteredMitarbeiter(ns, term)
  {
    FilterAppend(ms, ns, Matches(term));
  }

  /** Lower-casing twice is lower-casing once. */
  lemma LowerIdempotent(s: string)
    ensures Lower(Lower(s)) == Lower(s)
  {
  }

  /** The search ignores the case of the term: a lower-cased term finds the
      same employees. */
  lemma SearchIgnoresCase(ms: seq<Mitarbeiter>, term: string)
    ensures FilteredMitarbeiter(ms, Lower(term)) == FilteredMitarbeiter(ms, term)
  {
    LowerIdempotent(term);
    FilterCongruent(ms, Matches(Lower(term)), Matches(term));
  }

  /** The "Aktiv" counter. */
  function ActiveCount(ms: seq<Mitarbeiter>): (r: nat)
    ensures r == |Filter(ms, IsAktiv)|
    ensures r <= |ms|
    ensures r == |ms| <==> forall m :: m in ms ==> m.aktiv
  {
    ActiveCountFull(ms);
    |Filter(ms, IsAktiv)|
  }

  /** One more employee raises the active count by one exactly when the
      employee is active. */
  lemma ActiveCountSnoc(ms: seq<Mitarbeiter>, m: Mitarbeiter)
    ensures ActiveCount(ms + [m]) == ActiveCount(ms) + (if m.aktiv then 1 else 0)
  {
    FilterSnoc(ms, m, IsAktiv);
  }

  lemma {:induction false} ActiveCountFull(ms: seq<Mitarbeiter>)
    ensures |Filter(ms, IsAktiv)| == |ms| <==> forall m :: m in ms ==> m.aktiv
    decreases |ms|
  {
    if |ms| > 0 {
      var init, x := ms[..|ms| - 1], ms[|ms| - 1];
      assert ms == init + [x];
      FilterSnoc(init, x, IsAktiv);
      ActiveCountFull(init);
      if !x.aktiv && forall m :: m in init ==> m.aktiv {
        assert Filter(init, IsAktiv) == init;
      }
    }
  }

  function NotAktiv(m: Mitarbeiter): bool {
    !m.aktiv
  }

  /** The "Gehaltskosten" counter: the base salaries of all employees,
      inactive ones included. */
  function Gehaltskosten(ms: seq<Mitarbeiter>): (r: int)
    ensures r == GehaltAktive(ms) + SumOf(Filter(ms, NotAktiv), Grundgehalt)
  {
    SumOfFilter(ms, IsAktiv, Grundgehalt);
    SumOfFilter(ms, NotAktiv, Grundgehalt);
    SumOfPlus(ms, Grundgehalt, MaskBy(IsAktiv, Grundgehalt), MaskBy(NotAktiv, Grundgehalt));
    SumOf(ms, Grundgehalt)
  }

  /** `update(...).eq('id', id)`: every row with that id gets the form's
      fields, the others stay. */
  function EditRows(rows: seq<Mitarbeiter>, id: string, f: Formular): (r: seq<Mitarbeiter>)
    ensures |r| == |rows|
    ensures forall i :: 0 <= i < |rows| ==> r[i] == if rows[i].id == id then ApplyEdit(rows[i], f) else rows[i]
  {
    seq(|rows|, i requires 0 <= i < |rows| => if rows[i].id == id then ApplyEdit(rows[i], f) else rows[i])
  }

  /** The ids stay unique and the edited employee is found with the new
      fields. */
  lemma EditRowsFind(rows: seq<Mitarbeiter>, m: Mitarbeiter, f: Formular)
    requires UniqueIds(rows) && m in rows
    ensures UniqueIds(EditRows(rows, m.id, f))
    ensures Find(EditRows(rows, m.id, f), m.id) == Some(ApplyEdit(m, f))
  {
    var r := EditRows(rows, m.id, f);
    var i :| 0 <= i < |rows| && rows[i] == m;
    assert r[i] == ApplyEdit(m, f);
    FindUnique(r, ApplyEdit(m, f));
  }

  /** The `mitarbeiter` table with the two forms. `storeOk` is whether the
      store reports success. */
  class MitarbeiterTabelle {
    var rows: seq<Mitarbeiter>
    var formData: Formular
    var editFormData: Formular
    var editing: Option<Mitarbeiter>
    var showModal: bool
    var showEditModal: bool
    var saving: bool

    constructor (rows0: seq<Mitarbeiter>)
      ensures rows == rows0 && formData == EmptyForm && editFormData == EmptyForm && editing.None?
      ensures !showModal && !showEditModal && !saving
    {
      rows := rows0;
      formData := EmptyForm;
      editFormData := EmptyForm;
      editing := None;
      showModal := false;
      showEditModal := false;
      saving := false;
    }

    /** `handleSubmit`: insert the new employee and reset the form. */
    method HandleSubmit(storeOk: bool, newId: string, erstelltAm: string, eintrittsdatum: string, aktiv: bool)
      modifies this
      ensures storeOk ==> rows == old(rows) + [NewMitarbeiter(old(formData), newId, erstelltAm, eintrittsdatum, aktiv)]
      ensures storeOk ==> formData == EmptyForm && !showModal
      ensures !storeOk ==> rows == old(rows) && formData == old(formData) && showModal == old(showModal)
      ensures editFormData == old(editFormData) && editing == old(editing) && showEditModal == old(showEditModal)
      ensures !saving
    {
      saving := true;
      var m := NewMitarbeiter(formData, newId, erstelltAm, eintrittsdatum, aktiv);
      if storeOk {
        rows := rows + [m];
        showModal := false;
        formData := EmptyForm;
      }
      saving := false;
    }

    /** `openEditModal(m)`. */
    method OpenEditModal(m: Mitarbeiter)
      modifies this
      ensures editing == Some(m) && editFormData == LoadEditForm(m) && showEditModal
      ensures rows == old(rows) && formData == old(formData) && showModal == old(showModal) && saving == old(saving)
    {
      editing := Some(m);
      editFormData := LoadEditForm(m);
      showEditModal := true;
    }

    /** `handleEditSubmit`: without an employee under edit nothing happens;
        otherwise the rows with its id get the form's fields. */
    method HandleEditSubmit(storeOk: bool)
      modifies this
      ensures old(editing).None? ==> rows == old(rows) && editing == old(editing) && showEditModal == old(showEditModal)
      ensures old(editing).Some? && storeOk ==>
                rows == EditRows(old(rows), old(editing).value.id, old(editFormData)) && editing.None? && !showEditModal
      ensures old(editing).Some? && !storeOk ==>
                rows == old(rows) && editing == old(editing) && showEditModal == old(showEditModal)
      ensures formData == old(formData) && editFormData == old(editFormData) && showModal == old(showModal)
      ensures !saving || (old(editing).None? && saving == old(saving))
    {
      if editing.None? {
        return;
      }
      saving := true;
      if storeOk {
        rows := EditRows(rows, editing.value.id, editFormData);
        showEditModal := false;
        editing := None;
      }
      saving := false;
    }

    /** `handleDelete(id)`: nothing happens unless the user confirms. */
    method HandleDelete(id: string, confirmed: bool, storeOk: bool)
      modifies this
      ensures rows == (if confirmed && storeOk then DeleteById(old(rows), IdOfMitarbeiter, id) else old(rows))
      ensures formData == old(formData) && editFormData == old(editFormData) && editing == old(editing)
      ensures showModal == old(showModal) && showEditModal == old(showEditModal) && saving == old(saving)
    {
      if !confirmed {
        return;
      }
      if storeOk {
        rows := DeleteById(rows, IdOfMitarbeiter, id);
      }
    }
  }
}
