/** The documents view: the five-way expiry status, the filter and counters
    built on it, the stored document name, the upload size guard and the
    writes on the `dokumente` table. The expired test that the dashboard
    and the employee detail apply instead is here too, with how it relates
    to the status. */
module Dokumente {
  import opened Common
  import opened Text
  import opened Calendar
  import opened Database

  /** `labels[typ] || typ`: the label of a known type key, the key itself
      for any other text. */
  function TypLabel(typ: string): (r: string)
    ensures forall t: Dokumenttyp :: typ == t.Key() ==> r == t.Label()
    ensures (forall t: Dokumenttyp :: typ != t.Key()) ==> r == typ
  {
    match DokumenttypOf(typ)
    case Some(t) => t.Label()
    case None => typ
  }

  /** `formData.dokumentname || getDokumentTypLabel(formData.dokumenttyp)`:
      the entered name, or the type's label when none was entered; never
      empty. */
  function StoredName(name: string, t: Dokumenttyp): (r: string)
    ensures r != ""
    ensures name != "" ==> r == name
    ensures name == "" ==> r == t.Label()
  {
    if name != "" then name else TypLabel(t.Key())
  }

  /** The `status` of `getExpiryStatus`. */
  datatype Ablaufstatus = Keine | Abgelaufen | Warnung | Bald | Ok

  /** A document with an expiry date that reads as a date. */
  predicate IsDated(ablaufdatum: Option<string>) {
    ablaufdatum.Some? && IsDateString(ablaufdatum.value)
  }

  /** `getExpiryStatus(ablaufdatum)` at the instant `now`. A missing or empty
      date is `keine`; otherwise the days `d` from today to the date decide:
      negative is expired, up to 30 is a warning, up to 90 is soon, and more
      is fine. A date that does not parse gives NaN, which fails all three
      comparisons, so it is `ok`. */
  function ExpiryStatus(ablaufdatum: Option<string>, now: int): (r: Ablaufstatus)
    ensures r.Keine? <==> ablaufdatum.None? || ablaufdatum == Some("")
    ensures ablaufdatum.Some? && ablaufdatum.value != "" && !IsDateString(ablaufdatum.value) ==> r.Ok?
    ensures IsDated(ablaufdatum) ==>
              var d := DayOf(ablaufdatum.value) - Today(now);
              && (r.Abgelaufen? <==> d < 0)
              && (r.Warnung? <==> 0 <= d <= 30)
              && (r.Bald? <==> 31 <= d <= 90)
              && (r.Ok? <==> d > 90)
  {
    match ablaufdatum
    case None => Keine
    case Some(s) =>
      if s == "" then Keine
      else
        match DiffDays(s, now)
        case None => Ok
        case Some(d) =>
          if d < 0 then Abgelaufen
          else if d <= 30 then Warnung
          else if d <= 90 then Bald
          else Ok
  }

  function HasStatus(s: Ablaufstatus, now: int): Dokument -> bool {
    (d: Dokument) => ExpiryStatus(d.ablaufdatum, now) == s
  }

  /** `['warnung', 'bald'].includes(status)`. */
  function IsWarnung(now: int): Dokument -> bool {
    (d: Dokument) => ExpiryStatus(d.ablaufdatum, now) in {Warnung, Bald}
  }

  /** The filter buttons. */
  datatype DokFilter = Alle | NurWarnung | NurAbgelaufen

  function Passes(f: DokFilter, now: int): Dokument -> bool {
    (d: Dokument) =>
      match f
      case Alle => true
      case NurWarnung => ExpiryStatus(d.ablaufdatum, now) in {Warnung, Bald}
      case NurAbgelaufen => ExpiryStatus(d.ablaufdatum, now) == Abgelaufen
  }

  /** `filteredDokumente`: the warning filter keeps both the `warnung` and
      the `bald` documents. */
  function FilteredDokumente(ds: seq<Dokument>, f: DokFilter, now: int): (r: seq<Dokument>)
    ensures f.Alle? ==> r == ds
    ensures f.NurWarnung? ==>
              forall d :: d in r <==> d in ds && ExpiryStatus(d.ablaufdatum, now) in {Warnung, Bald}
    ensures f.NurAbgelaufen? ==>
              forall d :: d in r <==> d in ds && ExpiryStatus(d.ablaufdatum, now) == Abgelaufen
  {
    Filter(ds, Passes(f, now))
  }

  datatype DokStats = DokStats(total: nat, abgelaufen: nat, warnung: nat, ok: nat)

  /** `stats`. */
  function Stats(ds: seq<Dokument>, now: int): (r: DokStats)
    ensures r.total == |ds|
    ensures r.abgelaufen == |Filter(ds, HasStatus(Abgelaufen, now))|
    ensures r.warnung == |Filter(ds, IsWarnung(now))|
    ensures r.ok == |Filter(ds, HasStatus(Ok, now))|
    ensures r.abgelaufen + r.warnung + r.ok + |Filter(ds, HasStatus(Keine, now))| == r.total
  {
    StatsPartition(ds, now);
    DokStats(|ds|, |Filter(ds, HasStatus(Abgelaufen, now))|, |Filter(ds, IsWarnung(now))|,
             |Filter(ds, HasStatus(Ok, now))|)
  }

  /** The statuses partition the documents: expired, warning or soon, fine,
      and undated together are all of them. */
  lemma StatsPartition(ds: seq<Dokument>, now: int)
    ensures |Filter(ds, HasStatus(Abgelaufen, now))| + |Filter(ds, IsWarnung(now))|
            + |Filter(ds, HasStatus(Ok, now))| + |Filter(ds, HasStatus(Keine, now))| == |ds|
  {
    FilterPartition4(ds, HasStatus(Abgelaufen, now), IsWarnung(now), HasStatus(Ok, now), HasStatus(Keine, now));
  }

  /** `dok.ablaufdatum && new Date(dok.ablaufdatum) < new Date()`, the expired
      test of the employee detail and of the dashboard's `expiredDocs`. */
  function IsExpired(d: Dokument, now: int): (r: bool)
    ensures r <==> IsDated(d.ablaufdatum) &&
                   (DayOf(d.ablaufdatum.value) < Today(now) ||
                    (DayOf(d.ablaufdatum.value) == Today(now) && now % MsPerDay != 0))
  {
    match d.ablaufdatum
    case None => false
    case Some(s) => s != "" && IsBefore(s, now)
  }

  /** The two expired tests differ only on the day of expiry: a document
      that is `abgelaufen` is expired, and an expired one is `abgelaufen`
      unless it expires today, when it shows as a warning. */
  lemma ExpiredVersusStatus(d: Dokument, now: int)
    ensures ExpiryStatus(d.ablaufdatum, now) == Abgelaufen ==> IsExpired(d, now)
    ensures IsExpired(d, now) ==>
              ExpiryStatus(d.ablaufdatum, now) == Abgelaufen ||
              (ExpiryStatus(d.ablaufdatum, now) == Warnung && DayOf(d.ablaufdatum.value) == Today(now))
  {
  }

  /** The upload chosen in the form: its size in bytes and content type. */
  datatype Datei = Datei(size: nat, mimeType: string)

  /** `5 * 1024 * 1024`. */
  const MaxFileSize: nat := 5 * 1024 * 1024

  predicate TooLarge(f: Datei) {
    f.size > MaxFileSize
  }

  /** The limit is inclusive: exactly 5 MiB is accepted, one byte more is not. */
  lemma SizeLimitBoundary(mimeType: string)
    ensures !TooLarge(Datei(5242880, mimeType))
    ensures TooLarge(Datei(5242881, mimeType))
  {
  }

  datatype DokumentForm = DokumentForm(
    mitarbeiterId: string,
    dokumenttyp: Dokumenttyp,
    dokumentname: string,
    ablaufdatum: string,
    notizen: string,
    datei: Option<Datei>,
    dateiPreview: string)

  const EmptyForm := DokumentForm("", Fuehrerschein, "", "", "", None, "")

  /** The row `handleSubmit` inserts. `dataUrl` is what the file reader
      produced for the chosen file; the store assigns `id` and
      `erstellt_am`. */
  function NewDokument(f: DokumentForm, id: string, erstelltAm: string, dataUrl: string): (d: Dokument)
    ensures d.mitarbeiterId == f.mitarbeiterId && d.dokumenttyp == f.dokumenttyp
    ensures d.dokumentname == Some(StoredName(f.dokumentname, f.dokumenttyp))
    ensures d.ablaufdatum.None? <==> f.ablaufdatum == ""
    ensures d.ablaufdatum.Some? ==> d.ablaufdatum.value == f.ablaufdatum
    ensures d.notizen == NullIfEmpty(f.notizen)
    ensures d.dateiUrl.None?
    ensures f.datei.None? ==> d.dateiInhalt.None? && d.dateiTyp.None?
    ensures f.datei.Some? ==> d.dateiInhalt == Some(dataUrl) && d.dateiTyp == Some(f.datei.value.mimeType)
  {
    var inhalt := if f.datei.Some? then Some(dataUrl) else None;
    var typ := if f.datei.Some? then Some(f.datei.value.mimeType) else None;
    Dokument(id, erstelltAm, f.mitarbeiterId, f.dokumenttyp,
             Some(StoredName(f.dokumentname, f.dokumenttyp)), None,
             NullIfEmpty(f.ablaufdatum), NullIfEmpty(f.notizen), inhalt, typ)
  }

  /** An empty expiry field stores a document without a date, which is
      `keine` from then on. */
  lemma EmptyExpiryIsKeine(f: DokumentForm, id: string, erstelltAm: string, dataUrl: string, now: int)
    requires f.ablaufdatum == ""
    ensures ExpiryStatus(NewDokument(f, id, erstelltAm, dataUrl).ablaufdatum, now) == Keine
  {
  }

  /** The `dokumente` table as the view writes it, with the upload form. */
  class DokumenteTabelle {
    var rows: seq<Dokument>
    var formData: DokumentForm
    var showModal: bool
    var saving: bool

    constructor (rows0: seq<Dokument>)
      ensures rows == rows0 && formData == EmptyForm && !showModal && !saving
    {
      rows := rows0;
      formData := EmptyForm;
      showModal := false;
      saving := false;
    }

    /** `handleFileChange`: a chosen file larger than 5 MiB is rejected with
        an alert and leaves the form as it was; no file changes nothing. */
    method HandleFileChange(file: Option<Datei>) returns (rejected: bool)
      modifies this
      ensures rejected <==> file.Some? && TooLarge(file.value)
      ensures formData == (if file.Some? && !rejected then old(formData).(datei := file) else old(formData))
      ensures rows == old(rows) && showModal == old(showModal) && saving == old(saving)
    {
      rejected := false;
      if file.Some? {
        if file.value.size > MaxFileSize {
          rejected := true;
          return;
        }
        formData := formData.(datei := file);
      }
    }

    /** `handleSubmit`. */
    method HandleSubmit(storeOk: bool, newId: string, erstelltAm: string, dataUrl: string)
      modifies this
      ensures storeOk ==> rows == old(rows) + [NewDokument(old(formData), newId, erstelltAm, dataUrl)]
      ensures storeOk ==> formData == EmptyForm && !showModal
      ensures !storeOk ==> rows == old(rows) && formData == old(formData) && showModal == old(showModal)
      ensures !saving
    {
      saving := true;
      var d := NewDokument(formData, newId, erstelltAm, dataUrl);
      if storeOk {
        rows := rows + [d];
        showModal := false;
        formData := EmptyForm;
      }
      saving := false;
    }

    /** `handleDelete(id)`. */
    method HandleDelete(id: string, confirmed: bool, storeOk: bool)
      modifies this
      ensures rows == (if confirmed && storeOk then DeleteById(old(rows), IdOfDokument, id) else old(rows))
      ensures formData == old(formData) && showModal == old(showModal) && saving == old(saving)
    {
      if !confirmed {
        return;
      }
      if storeOk {
        rows := DeleteById(rows, IdOfDokument, id);
      }
    }
  }
}
