/** The leave-request view: the inclusive day count, the status filter and
    counters, the per-employee totals, who is on leave today, and the three
    writes on the `urlaub` table (insert a pending request, set the status of
    one request, delete one request). */
module Urlaube {
  import opened Common
  import opened Text
  import opened Calendar
  import opened Database

  function Abs(x: int): nat {
    if x < 0 then -x else x
  }

  /** `calculateDays(start, end)`: both strings are read as dates (midnight
      UTC), the absolute difference is divided by a day, rounded up and one
      is added. `None` is the NaN an unreadable date produces, which the
      stored JSON turns into null. */
  function CalculateDays(start: string, end: string): (r: Option<int>)
    ensures r.Some? <==> IsDateString(start) && IsDateString(end)
    ensures r.Some? ==> r.value == Abs(DayOf(end) - DayOf(start)) + 1
  {
    match (ParseDate(start), ParseDate(end))
    case (Some(s), Some(e)) =>
      var diffTime := Abs(e * MsPerDay - s * MsPerDay);
      assert diffTime == Abs(e - s) * MsPerDay;
      CeilDivDays(Abs(e - s), 0);
      Some(CeilDiv(diffTime, MsPerDay) + 1)
    case _ => None
  }

  /** A request that starts and ends on the same day lasts one day. */
  lemma CalculateDaysSameDay(d: string)
    requires IsDateString(d)
    ensures CalculateDays(d, d) == Some(1)
  {
  }

  /** For a start no later than the end (as strings, which for dates is the
      calendar order) the count is the difference in days plus one, so at
      least one. */
  lemma CalculateDaysOrdered(start: string, end: string)
    requires IsDateString(start) && IsDateString(end) && Le(start, end)
    ensures CalculateDays(start, end) == Some(DayOf(end) - DayOf(start) + 1)
    ensures CalculateDays(start, end).value >= 1
  {
    DateStringOrder(start, end);
  }

  /** `Math.abs` makes the count independent of the order of the dates. */
  lemma CalculateDaysSymmetric(start: string, end: string)
    ensures CalculateDays(start, end) == CalculateDays(end, start)
  {
  }

  /** The leave form's fields. */
  datatype UrlaubForm = UrlaubForm(
    mitarbeiterId: string,
    urlaubsart: Urlaubsart,
    startdatum: string,
    enddatum: string,
    notizen: string)

  const EmptyForm := UrlaubForm("", Jahresurlaub, "", "", "")

  /** The row `handleSubmit` inserts; the store assigns `id` and `erstellt_am`. */
  function NewRequest(f: UrlaubForm, id: string, erstelltAm: string): (u: Urlaub)
    ensures u.status == Ausstehend
    ensures u.gesamttage == CalculateDays(f.startdatum, f.enddatum)
    ensures u.mitarbeiterId == f.mitarbeiterId && u.urlaubsart == f.urlaubsart
    ensures u.startdatum == f.startdatum && u.enddatum == f.enddatum
    ensures u.notizen == NullIfEmpty(f.notizen)
  {
    Urlaub(id, erstelltAm, f.mitarbeiterId, f.urlaubsart, f.startdatum, f.enddatum,
           CalculateDays(f.startdatum, f.enddatum), Ausstehend, NullIfEmpty(f.notizen))
  }

  function HasStatus(s: Status): Urlaub -> bool {
    (u: Urlaub) => u.status == s
  }

  /** The status filter buttons: all requests, or those of one status. */
  datatype StatusFilter = Alle | Nur(status: Status)

  function Passes(f: StatusFilter): Urlaub -> bool {
    (u: Urlaub) => f.Alle? || u.status == f.status
  }

  /** `filteredUrlaube`. */
  function FilteredUrlaube(us: seq<Urlaub>, f: StatusFilter): (r: seq<Urlaub>)
    ensures f.Alle? ==> r == us
    ensures f.Nur? ==> forall u :: u in r <==> u in us && u.status == f.status
  {
    Filter(us, Passes(f))
  }

  /** The counters above the list. */
  datatype UrlaubStats = UrlaubStats(ausstehend: nat, genehmigt: nat, abgelehnt: nat, total: nat)

  function Stats(us: seq<Urlaub>): (r: UrlaubStats)
    ensures r.ausstehend == |Filter(us, HasStatus(Ausstehend))|
    ensures r.genehmigt == |Filter(us, HasStatus(Genehmigt))|
    ensures r.abgelehnt == |Filter(us, HasStatus(Abgelehnt))|
    ensures r.ausstehend + r.genehmigt + r.abgelehnt == r.total == |us|
  {
    StatusCountsPartition(us);
    UrlaubStats(|Filter(us, HasStatus(Ausstehend))|, |Filter(us, HasStatus(Genehmigt))|,
                |Filter(us, HasStatus(Abgelehnt))|, |us|)
  }

  /** Every request has exactly one of the three statuses, so the three
      status counts add up to the number of requests. */
  lemma {:induction false} StatusCountsPartition(us: seq<Urlaub>)
    ensures |Filter(us, HasStatus(Ausstehend))| + |Filter(us, HasStatus(Genehmigt))|
            + |Filter(us, HasStatus(Abgelehnt))| == |us|
    decreases |us|
  {
    if |us| > 0 {
      StatusCountsPartition(us[..|us| - 1]);
    }
  }

  /** `u.gesamttage || 0`: a missing count is zero. */
  function Tage(u: Urlaub): int {
    match u.gesamttage
    case Some(n) => n
    case None => 0
  }

  function ApprovedOf(mId: string): Urlaub -> bool {
    (u: Urlaub) => u.mitarbeiterId == mId && u.status == Genehmigt
  }

  function HasArt(a: Urlaubsart): Urlaub -> bool {
    (u: Urlaub) => u.urlaubsart == a
  }

  /** Days of the approved requests of one employee and one kind. */
  function ApprovedTage(us: seq<Urlaub>, mId: string, a: Urlaubsart): int {
    SumOf(Filter(Filter(us, ApprovedOf(mId)), HasArt(a)), Tage)
  }

  datatype UrlaubSummary = UrlaubSummary(jahresurlaub: int, krankheit: int)

  /** `getMitarbeiterUrlaubSummary(mId)`. */
  function MitarbeiterUrlaubSummary(us: seq<Urlaub>, mId: string): (r: UrlaubSummary)
    ensures r.jahresurlaub == ApprovedTage(us, mId, Jahresurlaub)
    ensures r.krankheit == ApprovedTage(us, mId, Krankheit)
  {
    UrlaubSummary(ApprovedTage(us, mId, Jahresurlaub), ApprovedTage(us, mId, Krankheit))
  }

  /** Without requests every total is zero. */
  lemma ApprovedTageEmpty(mId: string, a: Urlaubsart)
    ensures ApprovedTage([], mId, a) == 0
  {
  }

  /** One more request adds its days (zero when missing) exactly when it is
      an approved request of that employee and kind; any other request,
      pending or rejected ones included, changes nothing. */
  lemma ApprovedTageSnoc(us: seq<Urlaub>, u: Urlaub, mId: string, a: Urlaubsart)
    ensures ApprovedTage(us + [u], mId, a) ==
              ApprovedTage(us, mId, a) +
              (if u.mitarbeiterId == mId && u.status == Genehmigt && u.urlaubsart == a then Tage(u) else 0)
  {
    var p := Filter(us, ApprovedOf(mId));
    FilterSnoc(us, u, ApprovedOf(mId));
    if ApprovedOf(mId)(u) {
      assert Filter(us + [u], ApprovedOf(mId)) == p + [u];
      var q := Filter(p, HasArt(a));
      FilterSnoc(p, u, HasArt(a));
      if HasArt(a)(u) {
        assert Filter(p + [u], HasArt(a)) == q + [u];
        SumOfSnoc(q, u, Tage);
      } else {
        assert Filter(p + [u], HasArt(a)) == q;
      }
    } else {
      assert Filter(us + [u], ApprovedOf(mId)) == p;
    }
  }

  /** The request is approved and today lies between its start and its end,
      both compared as strings (`startdatum <= today && enddatum >= today`). */
  function OnLeave(today: string): Urlaub -> bool {
    (u: Urlaub) => u.status == Genehmigt && Le(u.startdatum, today) && Le(today, u.enddatum)
  }

  /** `currentlyOnLeave`; the dashboard's `todayOnLeave` is the same filter.
      It lists requests, so an employee with two overlapping approved
      requests is listed twice. */
  function CurrentlyOnLeave(us: seq<Urlaub>, today: string): (r: seq<Urlaub>)
    ensures forall u :: u in r <==> u in us && OnLeave(today)(u)
  {
    Filter(us, OnLeave(today))
  }

  /** For date strings the string comparisons are the calendar order: a
      request is current iff it is approved and today's day lies in its
      inclusive range of days. */
  lemma OnLeaveByDay(u: Urlaub, today: string)
    requires IsDateString(u.startdatum) && IsDateString(u.enddatum) && IsDateString(today)
    ensures OnLeave(today)(u) <==>
              u.status == Genehmigt && DayOf(u.startdatum) <= DayOf(today) <= DayOf(u.enddatum)
  {
    DateStringOrder(u.startdatum, today);
    DateStringOrder(today, u.enddatum);
  }

  /** `update({ status }).eq('id', id)` on the table. */
  function SetStatus(us: seq<Urlaub>, id: string, s: Status): (r: seq<Urlaub>)
    ensures |r| == |us|
    ensures forall i :: 0 <= i < |us| ==> r[i].(status := us[i].status) == us[i]
    ensures forall i :: 0 <= i < |us| ==> r[i].status == if us[i].id == id then s else us[i].status
  {
    seq(|us|, i requires 0 <= i < |us| => if us[i].id == id then us[i].(status := s) else us[i])
  }

  /** The last status written to a request is the one it keeps; in
      particular SetStatus is idempotent. */
  lemma SetStatusLastWins(us: seq<Urlaub>, id: string, s: Status, t: Status)
    ensures SetStatus(SetStatus(us, id, s), id, t) == SetStatus(us, id, t)
  {
  }

  /** Updates of two different requests do not interfere. */
  lemma SetStatusCommutes(us: seq<Urlaub>, id: string, s: Status, id': string, t: Status)
    requires id != id'
    ensures SetStatus(SetStatus(us, id, s), id', t) == SetStatus(SetStatus(us, id', t), id, s)
  {
  }

  /** The range `fetchUrlaube` asks the store for: a start date from
      `` `${year}-01-01` `` to `` `${year}-12-31` ``, both included. */
  function InYear(year: nat): Urlaub -> bool {
    (u: Urlaub) => Le(YearStart(year), u.startdatum) && Le(u.startdatum, YearEnd(year))
  }

  /** The requests `fetchUrlaube` lists for a year. For a four-digit year
      and start dates that are date strings, these are exactly the requests
      starting in that year. */
  function YearView(us: seq<Urlaub>, year: nat): (r: seq<Urlaub>)
    ensures forall u :: u in r <==> u in us && InYear(year)(u)
    ensures 1000 <= year <= 9999 && (forall u :: u in us ==> IsDateString(u.startdatum)) ==>
              forall u :: u in r <==> u in us && Val(u.startdatum[..4]) == year
  {
    InYearByYear(us, year);
    Filter(us, InYear(year))
  }

  lemma InYearByYear(us: seq<Urlaub>, year: nat)
    ensures 1000 <= year <= 9999 && (forall u :: u in us ==> IsDateString(u.startdatum)) ==>
              forall u :: u in us ==> (InYear(year)(u) <==> Val(u.startdatum[..4]) == year)
  {
    if 1000 <= year <= 9999 && (forall u :: u in us ==> IsDateString(u.startdatum)) {
      forall u | u in us
        ensures InYear(year)(u) <==> Val(u.startdatum[..4]) == year
      {
        WithinYear(year, u.startdatum);
      }
    }
  }

  /** The `urlaub` table as the view writes it, the year the view lists,
      and the form state the writes reset. `storeOk` is whether the store
      reports success; on an error the view only shows an alert. After each
      write the view fetches `View()` again. */
  class UrlaubTabelle {
    var rows: seq<Urlaub>
    var selectedYear: nat
    var formData: UrlaubForm
    var showModal: bool
    var saving: bool

    /** The view opens on the current year. */
    constructor (rows0: seq<Urlaub>, currentYear: nat)
      ensures rows == rows0 && selectedYear == currentYear
      ensures formData == EmptyForm && !showModal && !saving
    {
      rows := rows0;
      selectedYear := currentYear;
      formData := EmptyForm;
      showModal := false;
      saving := false;
    }

    /** `fetchUrlaube`: the requests starting in the selected year. */
    function View(): (r: seq<Urlaub>)
      reads this
      ensures forall u :: u in r <==> u in rows && InYear(selectedYear)(u)
    {
      YearView(rows, selectedYear)
    }

    /** The year picker, which offers 2024 to 2027. */
    method SelectYear(year: nat)
      requires 2024 <= year <= 2027
      modifies this
      ensures selectedYear == year
      ensures rows == old(rows) && formData == old(formData) && showModal == old(showModal) && saving == old(saving)
    {
      selectedYear := year;
    }

    /** `handleSubmit`: insert the form as a pending request. */
    method HandleSubmit(storeOk: bool, newId: string, erstelltAm: string)
      modifies this
      ensures storeOk ==> rows == old(rows) + [NewRequest(old(formData), newId, erstelltAm)]
      ensures storeOk ==>
                View() == old(View()) + (if InYear(selectedYear)(NewRequest(old(formData), newId, erstelltAm))
                                         then [NewRequest(old(formData), newId, erstelltAm)] else [])
      ensures storeOk ==> formData == EmptyForm && !showModal
      ensures !storeOk ==> rows == old(rows) && formData == old(formData) && showModal == old(showModal)
      ensures selectedYear == old(selectedYear) && !saving
    {
      saving := true;
      var u := NewRequest(formData, newId, erstelltAm);
      if storeOk {
        FilterSnoc(rows, u, InYear(selectedYear));
        rows := rows + [u];
        showModal := false;
        formData := EmptyForm;
      }
      saving := false;
    }

    /** `updateStatus(id, status)`: approve or reject, whatever the request's
        current status is. */
    method UpdateStatus(id: string, s: Status, storeOk: bool)
      requires s == Genehmigt || s == Abgelehnt
      modifies this
      ensures rows == (if storeOk then SetStatus(old(rows), id, s) else old(rows))
      ensures selectedYear == old(selectedYear)
      ensures formData == old(formData) && showModal == old(showModal) && saving == old(saving)
    {
      if storeOk {
        rows := SetStatus(rows, id, s);
      }
    }

    /** `handleDelete(id)`: nothing happens unless the user confirms. */
    method HandleDelete(id: string, confirmed: bool, storeOk: bool)
      modifies this
      ensures rows == (if confirmed && storeOk then DeleteById(old(rows), IdOfUrlaub, id) else old(rows))
      ensures selectedYear == old(selectedYear)
      ensures formData == old(formData) && showModal == old(showModal) && saving == old(saving)
    {
      if !confirmed {
        return;
      }
      if storeOk {
        rows := DeleteById(rows, IdOfUrlaub, id);
      }
    }
  }
}
