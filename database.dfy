/** The records of the four tables (`mitarbeiter`, `zahlungen`, `dokumente`,
    `urlaub`) and their closed enumerations. A nullable column is an
    `Option`; ids, timestamps and dates are the strings the store hands out. */
module Database {
  import opened Common

  /** `zahlungsart`: every payment has exactly one of these four kinds. */
  datatype Zahlungsart = Gehalt | Vorschuss | Bonus | Sonstiges {
    function Key(): string {
      match this
      case Gehalt => "gehalt"
      case Vorschuss => "vorschuss"
      case Bonus => "bonus"
      case Sonstiges => "sonstiges"
    }
  }

  /** The payment kind stored under a key, if the key is one of the four. */
  function ZahlungsartOf(key: string): (r: Option<Zahlungsart>)
    ensures r.Some? ==> r.value.Key() == key
    ensures forall a: Zahlungsart :: a.Key() == key ==> r == Some(a)
  {
    if key == "gehalt" then Some(Gehalt)
    else if key == "vorschuss" then Some(Vorschuss)
    else if key == "bonus" then Some(Bonus)
    else if key == "sonstiges" then Some(Zahlungsart.Sonstiges)
    else None
  }

  /** `dokumenttyp`, with the label the views show for it. */
  datatype Dokumenttyp = Fuehrerschein | Reisepass | Src | Personalausweis | Gesundheitszeugnis | Sonstiges {
    function Key(): string {
      match this
      case Fuehrerschein => "fuehrerschein"
      case Reisepass => "reisepass"
      case Src => "src"
      case Personalausweis => "personalausweis"
      case Gesundheitszeugnis => "gesundheitszeugnis"
      case Sonstiges => "sonstiges"
    }

    function Label(): (r: string)
      ensures r != ""
    {
      match this
      case Fuehrerschein => "F\U{00FC}hrerschein"
      case Reisepass => "Reisepass"
      case Src => "SRC-Karte"
      case Personalausweis => "Personalausweis"
      case Gesundheitszeugnis => "Gesundheitszeugnis"
      case Sonstiges => "Sonstiges"
    }
  }

  /** The document type stored under a key, if the key is one of the six. */
  function DokumenttypOf(key: string): (r: Option<Dokumenttyp>)
    ensures r.Some? ==> r.value.Key() == key
    ensures forall t: Dokumenttyp :: t.Key() == key ==> r == Some(t)
  {
    if key == "fuehrerschein" then Some(Fuehrerschein)
    else if key == "reisepass" then Some(Reisepass)
    else if key == "src" then Some(Src)
    else if key == "personalausweis" then Some(Personalausweis)
    else if key == "gesundheitszeugnis" then Some(Gesundheitszeugnis)
    else if key == "sonstiges" then Some(Dokumenttyp.Sonstiges)
    else None
  }

  /** `urlaubsart`. */
  datatype Urlaubsart = Jahresurlaub | Krankheit | Sonderurlaub | Unbezahlt | Sonstiges {
    function Key(): string {
      match this
      case Jahresurlaub => "jahresurlaub"
      case Krankheit => "krankheit"
      case Sonderurlaub => "sonderurlaub"
      case Unbezahlt => "unbezahlt"
      case Sonstiges => "sonstiges"
    }
  }

  /** The leave kind stored under a key, if the key is one of the five. */
  function UrlaubsartOf(key: string): (r: Option<Urlaubsart>)
    ensures r.Some? ==> r.value.Key() == key
    ensures forall a: Urlaubsart :: a.Key() == key ==> r == Some(a)
  {
    if key == "jahresurlaub" then Some(Jahresurlaub)
    else if key == "krankheit" then Some(Krankheit)
    else if key == "sonderurlaub" then Some(Sonderurlaub)
    else if key == "unbezahlt" then Some(Unbezahlt)
    else if key == "sonstiges" then Some(Urlaubsart.Sonstiges)
    else None
  }

  /** `status` of a leave request: exactly one of three. */
  datatype Status = Ausstehend | Genehmigt | Abgelehnt {
    function Key(): string {
      match this
      case Ausstehend => "ausstehend"
      case Genehmigt => "genehmigt"
      case Abgelehnt => "abgelehnt"
    }
  }

  /** The request status stored under a key, if the key is one of the three. */
  function StatusOf(key: string): (r: Option<Status>)
    ensures r.Some? ==> r.value.Key() == key
    ensures forall st: Status :: st.Key() == key ==> r == Some(st)
  {
    if key == "ausstehend" then Some(Ausstehend)
    else if key == "genehmigt" then Some(Genehmigt)
    else if key == "abgelehnt" then Some(Abgelehnt)
    else None
  }

  /** The twelve keys `jan` .. `dez` of the per-month salary object. */
  datatype Monat = Jan | Feb | Mar | Apr | Mai | Jun | Jul | Aug | Sep | Okt | Nov | Dez {
    function Key(): string {
      match this
      case Jan => "jan" case Feb => "feb" case Mar => "mar" case Apr => "apr"
      case Mai => "mai" case Jun => "jun" case Jul => "jul" case Aug => "aug"
      case Sep => "sep" case Okt => "okt" case Nov => "nov" case Dez => "dez"
    }
  }

  const AlleMonate: set<Monat> := {Jan, Feb, Mar, Apr, Mai, Jun, Jul, Aug, Sep, Okt, Nov, Dez}

  /** `monatliches_gehalt` as the forms store it: a value (or null, which is
      what a NaN becomes in the stored JSON) per month key. A key that is
      missing reads as undefined; an empty map also stands for a column that
      holds null or a plain number, since `mg?.jan` reads undefined then too. */
  type Monatsgehaelter = map<Monat, Option<int>>

  datatype Mitarbeiter = Mitarbeiter(
    id: string,
    erstelltAm: string,
    vorname: string,
    nachname: string,
    geburtsdatum: Option<string>,
    telefon: Option<string>,
    email: Option<string>,
    adresse: Option<string>,
    position: string,
    eintrittsdatum: string,
    grundgehalt: int,
    monatlichesGehalt: Monatsgehaelter,
    aktiv: bool,
    notizen: Option<string>)

  datatype Zahlung = Zahlung(
    id: string,
    erstelltAm: string,
    mitarbeiterId: string,
    zahlungsart: Zahlungsart,
    betrag: int,
    zahlungsdatum: string,
    zahlungsmonat: Option<string>,
    beschreibung: Option<string>)

  /** A document row, with the two columns the upload form adds to the
      declared ones: the encoded file and its content type. */
  datatype Dokument = Dokument(
    id: string,
    erstelltAm: string,
    mitarbeiterId: string,
    dokumenttyp: Dokumenttyp,
    dokumentname: Option<string>,
    dateiUrl: Option<string>,
    ablaufdatum: Option<string>,
    notizen: Option<string>,
    dateiInhalt: Option<string>,
    dateiTyp: Option<string>)

  datatype Urlaub = Urlaub(
    id: string,
    erstelltAm: string,
    mitarbeiterId: string,
    urlaubsart: Urlaubsart,
    startdatum: string,
    enddatum: string,
    gesamttage: Option<int>,
    status: Status,
    notizen: Option<string>)

  /** Declared for a per-month salary table; no view reads or writes it. */
  datatype MonatlichesGehalt = MonatlichesGehalt(
    id: string,
    erstelltAm: string,
    mitarbeiterId: string,
    jahr: int,
    monat: int,
    betrag: int,
    notizen: Option<string>)

  /** `mitarbeiter.find(x => x.id === id)`: the first employee with that id. */
  function Find(ms: seq<Mitarbeiter>, id: string): (r: Option<Mitarbeiter>)
    ensures r.None? <==> forall m :: m in ms ==> m.id != id
    ensures r.Some? ==> r.value in ms && r.value.id == id
    decreases |ms|
  {
    if |ms| == 0 then None
    else if ms[0].id == id then Some(ms[0])
    else Find(ms[1..], id)
  }

  /** No two employees share an id (the table's primary key). */
  predicate UniqueIds(ms: seq<Mitarbeiter>) {
    forall i, j :: 0 <= i < j < |ms| ==> ms[i].id != ms[j].id
  }

  lemma {:induction false} FindUnique(ms: seq<Mitarbeiter>, m: Mitarbeiter)
    requires UniqueIds(ms) && m in ms
    ensures Find(ms, m.id) == Some(m)
    decreases |ms|
  {
    if ms[0] != m {
      assert m in ms[1..];
      FindUnique(ms[1..], m);
    }
  }

  function IdOfMitarbeiter(m: Mitarbeiter): string { m.id }
  function IdOfDokument(d: Dokument): string { d.id }
  function IdOfUrlaub(u: Urlaub): string { u.id }

  function IdIsNot<T>(idOf: T -> string, id: string): T -> bool {
    (x: T) => idOf(x) != id
  }

  /** `delete().eq('id', id)` on a table: every row with that id goes, the
      others stay in their order. */
  function DeleteById<T(!new)>(rows: seq<T>, idOf: T -> string, id: string): (r: seq<T>)
    ensures forall x :: x in r <==> x in rows && idOf(x) != id
    ensures (forall x :: x in rows ==> idOf(x) != id) ==> r == rows
  {
    Filter(rows, IdIsNot(idOf, id))
  }

  /** Deleting a row that was just inserted under a new id restores the table. */
  lemma DeleteUndoesInsert<T(!new)>(rows: seq<T>, idOf: T -> string, x: T)
    requires forall y :: y in rows ==> idOf(y) != idOf(x)
    ensures DeleteById(rows + [x], idOf, idOf(x)) == rows
  {
    FilterSnoc(rows, x, IdIsNot(idOf, idOf(x)));
  }

  /** The last employee's id is not the id of any earlier one. */
  lemma LastIdFresh(ms: seq<Mitarbeiter>)
    requires UniqueIds(ms) && |ms| > 0
    ensures forall y :: y in ms[..|ms| - 1] ==> y.id != ms[|ms| - 1].id
  {
    forall y | y in ms[..|ms| - 1]
      ensures y.id != ms[|ms| - 1].id
    {
      var j :| 0 <= j < |ms| - 1 && ms[..|ms| - 1][j] == y;
      assert ms[j] == y;
    }
  }

  lemma UniqueIdsSnoc(ms: seq<Mitarbeiter>, x: Mitarbeiter)
    requires UniqueIds(ms) && forall y :: y in ms ==> y.id != x.id
    ensures UniqueIds(ms + [x])
  {
    forall i, j | 0 <= i < j < |ms| + 1
      ensures (ms + [x])[i].id != (ms + [x])[j].id
    {
      if j == |ms| {
        assert (ms + [x])[i] in ms;
      }
    }
  }

  /** A filtered list of employees still has unique ids. */
  lemma {:induction false} FilterKeepsUniqueIds(ms: seq<Mitarbeiter>, p: Mitarbeiter -> bool)
    requires UniqueIds(ms)
    ensures UniqueIds(Filter(ms, p))
    decreases |ms|
  {
    if |ms| > 0 {
      var init, x := ms[..|ms| - 1], ms[|ms| - 1];
      assert ms == init + [x];
      assert UniqueIds(init);
      FilterKeepsUniqueIds(init, p);
      FilterSnoc(init, x, p);
      if p(x) {
        LastIdFresh(ms);
        UniqueIdsSnoc(Filter(init, p), x);
      }
    }
  }
}
