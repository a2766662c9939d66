# MERO — a verified model of the HR app's rules

MERO is a small HR web app for a transport company. It keeps employees
(`mitarbeiter`), payments (`zahlungen`), documents (`dokumente`) and leave
requests (`urlaub`) in a hosted database. Its views compute everything they
show from the fetched lists in the browser. This project models those
rules in Dafny and proves properties of them:

- the leave rules: the inclusive day counter, new requests, status updates
  by id, filters and counters, per-employee approved days, and "on leave
  today";
- the document expiry tiers with their filter and counters, the default
  document name and the 5 MiB upload limit;
- the payroll arithmetic: advances, bonuses and payouts per employee, per
  month and per year, and the 12-row monthly breakdown keyed `YYYY-MM`;
- the employee forms: the 12-month salary map, reloading it into the edit
  form, the search, and the two header counters;
- the dashboard's variants of all of these.

The modules follow the views:

- `Database` holds the records and enumerations.
- `Urlaube`, `Dokumente`, `Zahlungen`, `MitarbeiterDetail`, `Dashboard` and
  `Personal` model one view each. `Personal` is the employee page.
- `Lohnsummen` holds the payroll sums the payment views share.
- `Calendar`, `Text` and `Common` model the JavaScript behaviour the views
  rely on: dates, string order and number text, and filter/reduce.

Where a view changes the database or its form state, the model is a class.
Its `seq` field is the table, its other fields are the form state, and its
methods are the handlers. A handler takes as parameters what the store or
the user decides:

- `storeOk`: whether the store call succeeded;
- `confirmed`: the answer to the `confirm` dialog;
- store-assigned values: the new id, `erstellt_am`, `eintrittsdatum` and
  the default `aktiv`;
- the data URL the file reader produced.

Each handler's `ensures` states the new table and form exactly.

Conventions:

- Amounts (salaries, payments) are integers counting cents, so 2500.50 €
  is 250050.
- An amount field is read by `Text.ParseAmount`, the model of `parseFloat`
  on what a `type="number"` field with `step="0.01"` submits: an optional
  minus sign, then one or more digits, optionally followed by a decimal
  point and one or more digits, or a decimal point and one or more digits
  with no integer part. `"500.00"` reads as 50000, `"2500.5"` as 250050
  and `".5"` as 50.
  Anything else is NaN, modelled as `None`. NaN is stored as `null`.
- `toString` of an amount is `Text.ShowAmount`: the euros, then no
  decimals for whole euros, one for a multiple of ten cents, two otherwise.
- A date is a `YYYY-MM-DD` string naming a real calendar day. It is read as
  a day number; any other string is an Invalid Date.
- "Now" is an instant in milliseconds and is passed as a parameter.
- The declared type of `monatliches_gehalt` in `src/types/database.ts:13`
  is `number | null`. The employee page stores a 12-key object there
  instead (`src/app/page.tsx:131-144`). The model follows the code:
  `Database.Monatsgehaelter` is a map from the twelve month keys to
  optional numbers.

## Model

| member | source | states |
|---|---|---|
| Database.ZahlungsartOf | src/types/database.ts:22 | a payment kind key names exactly one of the four kinds, and each kind has one key |
| Database.DokumenttypOf | src/types/database.ts:33 | a document type key names exactly one of the six types; no other key is a type |
| Database.UrlaubsartOf | src/types/database.ts:44 | a leave kind key names exactly one of the five kinds |
| Database.StatusOf | src/types/database.ts:48 | a status key names exactly one of the three statuses |
| Database.Dokumenttyp.Label | src/components/Dokumente.tsx:146-153 | every document type has a non-empty label |
| Database.Find | src/components/Zahlungen.tsx:94 | `find` gives none exactly when no employee has the id; otherwise a listed employee with that id |
| Database.FindUnique | src/components/Zahlungen.tsx:94 | with unique ids, `find` on a listed employee's id returns that employee |
| Database.DeleteById | src/components/Urlaub.tsx:124-127 | delete-where-id keeps exactly the rows with another id; a table without the id is unchanged |
| Database.DeleteUndoesInsert | src/components/Urlaub.tsx:124-127 | deleting a just-inserted row with a fresh id restores the table |
| Database.FilterKeepsUniqueIds | src/components/Zahlungen.tsx:135 | filtering employees (e.g. the active list) keeps ids unique |
| Common.NullIfEmpty | src/components/Urlaub.tsx:88 | `x \|\| null` is null exactly for the empty text and keeps any other text |
| Common.OrEmpty | src/app/page.tsx:199-202 | `x \|\| ''` loads null as the empty text and a text as itself |
| Common.NullIfEmptyOrEmpty | src/app/page.tsx:199-202 | loading then storing an optional text is the identity, except that a stored empty text becomes null |
| Common.Filter | src/components/Urlaub.tsx:185-188 | `filter` keeps exactly the elements that pass, is no longer than its input, and keeps everything or nothing when all pass or none do |
| Common.FilterAppend | src/app/page.tsx:291-294 | filtering distributes over concatenation, so the order is kept |
| Common.SumOfAppend | src/components/Zahlungen.tsx:138-143 | a `reduce` sum is additive over concatenation |
| Common.SumOfFilter | src/components/Zahlungen.tsx:98-103 | summing a filtered list equals summing the whole list with the summand masked by the filter |
| Common.FilterPartition4 | src/components/Dokumente.tsx:202-207 | when each element passes exactly one of four filters, the four counts sum to the length |
| Text.ShowNat | src/components/Dashboard.tsx:180-182 | `String(n)` is a digit string without leading zeros that denotes `n` |
| Text.ShowAmount | src/app/page.tsx:204 | `n.toString()` of an amount is non-empty and `parseFloat` reads it back as the same amount |
| Text.ShowUnsigned | src/app/page.tsx:204 | `toString` of a non-negative amount has no sign and reads back as that amount |
| Text.DigitRunAppend | src/app/page.tsx:130 | the digit run of digits followed by a non-digit is exactly those digits |
| Text.ParseWholeAmount | src/app/page.tsx:130 | digits without a decimal point read as that many euros, i.e. 100 × their value in cents |
| Text.ParseDecimalCents | src/components/Zahlungen.tsx:69 | `euros.fraction` reads as 100 × euros plus the fraction's cents, and as NaN when the fraction is not whole cents |
| Text.CentsDigits | src/components/Zahlungen.tsx:69 | one fraction digit counts tens of cents, two count cents, further digits must be zeros |
| Text.DecimalAmounts | src/components/Zahlungen.tsx:385-391 | the placeholder `"500.00"` reads as 50000 cents and `"2500.5"` as 250050 |
| Text.ParseFractionOnly | src/app/page.tsx:130 | a decimal point and digits with no integer part read as the cents of the fraction alone, or NaN when they are not whole cents |
| Text.FractionOnlyAmounts | src/components/Zahlungen.tsx:385-391 | `".5"`, which a number field submits, reads as 50 cents and `"-.5"` as −50 |
| Text.ParseNegativeAmount | src/components/Zahlungen.tsx:69 | a leading minus sign negates an unsigned amount and leaves NaN as NaN |
| Text.LtSplit | src/components/Urlaub.tsx:202-203 | string `<` on concatenations with equal-length first parts is decided by the first parts, then by the rest |
| Text.DigitsOrder | src/components/Urlaub.tsx:202-203 | on digit strings of one length, string order is numeric order and string equality is numeric equality |
| Text.Lower | src/app/page.tsx:292 | `toLowerCase` keeps the length and lowers each character by `LowerChar` |
| Text.ContainsAt | src/app/page.tsx:292 | `includes` holds exactly when the term occurs at some position |
| Calendar.DayNumberOrder | src/components/Urlaub.tsx:66-67 | day numbers order valid dates as (year, month, day) does, and are equal only for the same date |
| Calendar.ParseDate | src/components/Urlaub.tsx:66-67 | `new Date(s)` is valid exactly for a date string, and then gives its day number |
| Calendar.DateStringOrder | src/components/Urlaub.tsx:202-203 | for `YYYY-MM-DD` strings, string `<` and `<=` agree with the order of the days |
| Calendar.CeilDivDays | src/components/Dokumente.tsx:174 | `Math.ceil((n days − t) / day)` is `n` for `0 <= t <` one day |
| Calendar.DiffDays | src/components/Dokumente.tsx:172-174 | the `Math.ceil` day difference is NaN exactly for an invalid date, and otherwise the date's day minus today's day |
| Calendar.IsBefore | src/components/MitarbeiterDetail.tsx:303 | `new Date(date) < now` holds exactly when the date is before today, or is today and `now` is past midnight |
| Calendar.MonthKey | src/components/MitarbeiterDetail.tsx:85-86 | `${year}-${MM}` splits back into the year and the month |
| Calendar.MonthKeyInjective | src/components/MitarbeiterDetail.tsx:85-86 | two month keys are equal exactly when year and month are |
| Calendar.FourDigitYear | src/components/Urlaub.tsx:47-48 | a four-digit year is written with four digits |
| Calendar.YearBounds | src/components/Urlaub.tsx:47-48 | `${year}-01-01` and `${year}-12-31` are the date strings of the first and last day of a four-digit year |
| Calendar.WithinYear | src/components/Urlaub.tsx:50-54 | a date string lies between those two bounds in string order exactly when its year is that year |
| Calendar.MonthKeyLength | src/components/Zahlungen.tsx:27-30 | for a four-digit year the key has exactly seven characters |
| Urlaube.CalculateDays | src/components/Urlaub.tsx:65-71 | the count is defined exactly for two valid dates, and is then the absolute day difference plus one |
| Urlaube.CalculateDaysSameDay | src/components/Urlaub.tsx:65-71 | a one-day request counts 1 |
| Urlaube.CalculateDaysOrdered | src/components/Urlaub.tsx:65-71 | for start ≤ end the count is end − start + 1, so it is at least 1 |
| Urlaube.CalculateDaysSymmetric | src/components/Urlaub.tsx:68 | swapping start and end gives the same count |
| Urlaube.NewRequest | src/components/Urlaub.tsx:77-89 | a new request is `ausstehend`, stores the computed day count and the form's fields, and stores the notes, or null for empty notes |
| Urlaube.FilteredUrlaube | src/components/Urlaub.tsx:185-188 | filter `alle` keeps the whole list; a status filter keeps exactly the requests with that status |
| Urlaube.Stats | src/components/Urlaub.tsx:191-196 | each counter counts the requests with its status, and pending + approved + rejected = total = the number of requests |
| Urlaube.StatusCountsPartition | src/components/Urlaub.tsx:191-196 | the three status counts partition the list |
| Urlaube.MitarbeiterUrlaubSummary | src/components/Urlaub.tsx:173-182 | the summary holds the approved annual-leave days and the approved sick days of the employee |
| Urlaube.ApprovedTageEmpty | src/components/Urlaub.tsx:173-182 | no requests give zero days |
| Urlaube.ApprovedTageSnoc | src/components/Urlaub.tsx:173-182 | one more request adds its days (null counts 0) exactly when it is the employee's, approved and of the kind |
| Urlaube.CurrentlyOnLeave | src/components/Urlaub.tsx:199-204 | keeps exactly the approved requests with `startdatum <= today <= enddatum` as strings |
| Urlaube.OnLeaveByDay | src/components/Urlaub.tsx:199-204 | for date strings, on leave means approved with today's day inside the inclusive range of days |
| Urlaube.SetStatus | src/components/Urlaub.tsx:108-112 | the status update sets the status of the rows with the id, whatever their prior status, and changes no other row or field |
| Urlaube.SetStatusLastWins | src/components/Urlaub.tsx:108-112 | two updates of one id: the later one wins |
| Urlaube.SetStatusCommutes | src/components/Urlaub.tsx:108-112 | updates of different ids commute |
| Urlaube.YearView | src/components/Urlaub.tsx:45-54 | the listed requests are exactly those whose start lies in the year's range, and for a four-digit year and date strings exactly those starting in that year |
| Urlaube.UrlaubTabelle.constructor | src/components/Urlaub.tsx:27-39 | the view starts with the fetched rows, the current year, the empty form and no modal |
| Urlaube.UrlaubTabelle.View | src/components/Urlaub.tsx:45-54 | the view lists exactly the table's requests whose start lies in the selected year |
| Urlaube.UrlaubTabelle.SelectYear | src/components/Urlaub.tsx:223-230 | the picker sets the selected year to one of 2024 to 2027 and changes nothing else |
| Urlaube.UrlaubTabelle.HandleSubmit | src/components/Urlaub.tsx:73-106 | on success the new pending request is appended to the table and the form reset, and the listed requests gain it exactly when it starts in the selected year; on failure nothing changes; saving ends false |
| Urlaube.UrlaubTabelle.UpdateStatus | src/components/Urlaub.tsx:108-119 | on success the table becomes the status update of the old table; the form is untouched |
| Urlaube.UrlaubTabelle.HandleDelete | src/components/Urlaub.tsx:121-134 | only a confirmed, successful delete removes the rows with the id |
| Dokumente.TypLabel | src/components/Dokumente.tsx:145-155 | a known type key gets its label; an unknown key is returned as it is |
| Dokumente.StoredName | src/components/Dokumente.tsx:86 | the stored name is the entered name if non-empty, else the type's label; it is never empty |
| Dokumente.ExpiryStatus | src/components/Dokumente.tsx:169-185 | `keine` exactly for a null or empty date; for a valid date with day difference d: expired iff d < 0, warning iff 0 ≤ d ≤ 30, soon iff 31 ≤ d ≤ 90, fine iff d > 90; an unreadable date is `ok` |
| Dokumente.FilteredDokumente | src/components/Dokumente.tsx:193-199 | `alle` keeps everything; `warnung` keeps exactly the warning and soon documents; `abgelaufen` exactly the expired ones |
| Dokumente.Stats | src/components/Dokumente.tsx:202-207 | `abgelaufen`, `warnung` and `ok` count the documents of the expired, warning-or-soon and fine tiers, and with the undated ones they add up to the total, the number of documents |
| Dokumente.StatsPartition | src/components/Dokumente.tsx:202-207 | the four counts partition the list |
| Dokumente.IsExpired | src/components/MitarbeiterDetail.tsx:303 | expired exactly when a valid date lies before today, or is today with `now` past midnight |
| Dokumente.ExpiredVersusStatus | src/components/Dokumente.tsx:176-177 | an `abgelaufen` document is expired, and an expired one is `abgelaufen` unless it expires today |
| Dokumente.SizeLimitBoundary | src/components/Dokumente.tsx:130 | exactly 5 MiB is accepted; one byte more is too large |
| Dokumente.NewDokument | src/components/Dokumente.tsx:81-91 | the inserted row has the default name, the entered date or null for an empty field, the notes or null for empty notes, and the file content and type only when a file was chosen |
| Dokumente.EmptyExpiryIsKeine | src/components/Dokumente.tsx:87 | an empty expiry field stores a document without a date, which is `keine` |
| Dokumente.DokumenteTabelle.constructor | src/components/Dokumente.tsx:30-44 | the view starts with the fetched rows and the empty form |
| Dokumente.DokumenteTabelle.HandleFileChange | src/components/Dokumente.tsx:127-143 | a chosen file over the limit is rejected and leaves the form unchanged; otherwise a chosen file is put in the form |
| Dokumente.DokumenteTabelle.HandleSubmit | src/components/Dokumente.tsx:65-110 | on success the new row is appended and the form reset; on failure nothing changes |
| Dokumente.DokumenteTabelle.HandleDelete | src/components/Dokumente.tsx:112-125 | only a confirmed, successful delete removes the rows with the id |
| Lohnsummen.SummeSnoc | src/components/Zahlungen.tsx:98-103 | one more payment adds its amount to its own kind's sum and to no other |
| Lohnsummen.SummeAppend | src/components/Zahlungen.tsx:138-143 | the sum of a kind is additive over lists of payments |
| Lohnsummen.Select | src/components/Zahlungen.tsx:97 | selecting by employee or by month keeps exactly the payments with that key |
| Lohnsummen.SumKeysCovers | src/components/MitarbeiterDetail.tsx:84-95 | summing per key over distinct keys sums exactly the payments whose key is among them |
| Lohnsummen.SumKeysTotal | src/components/MitarbeiterDetail.tsx:84-95 | when every payment's key is among distinct keys, the per-key sums add up to the whole sum |
| Lohnsummen.MonthKeys | src/components/MitarbeiterDetail.tsx:84-86 | twelve keys, the i-th being `${year}-MM` with MM = i + 1 |
| Lohnsummen.MonthKeysDistinct | src/components/MitarbeiterDetail.tsx:84-86 | the twelve keys of a year are pairwise different |
| Lohnsummen.Zeile | src/components/MitarbeiterDetail.tsx:96-102 | a row carries its key, the base pay, the advances and the bonuses booked under the key, and payout base − advances + bonuses |
| Lohnsummen.Zeilen | src/components/MitarbeiterDetail.tsx:84 | one row per key, in the keys' order |
| Lohnsummen.Monatsreihe | src/components/MitarbeiterDetail.tsx:84-103 | twelve rows keyed by the year's months, all with the same base, each with the advances and bonuses booked under its month and payout base − advances + bonuses |
| Lohnsummen.ZeilenOhneBuchungen | src/components/MitarbeiterDetail.tsx:87-94 | rows whose keys no payment is booked under show no advances and no bonuses |
| Lohnsummen.ZeilenTotals | src/components/MitarbeiterDetail.tsx:84-95 | for distinct keys covering every booking, the column sums are the whole advance and bonus sums, |keys| × base, and the payout of all payments |
| Lohnsummen.MonatsreiheTotals | src/components/MitarbeiterDetail.tsx:75-95 | when every payment is booked under a month of the year, the twelve rows add up to the year's totals |
| Lohnsummen.MonatsreiheOhneBuchungen | src/components/MitarbeiterDetail.tsx:87-94 | when no payment is booked under a month of the year, the rows show no advances or bonuses |
| Zahlungen.PersonalZahlungen | src/components/Zahlungen.tsx:97 | keeps exactly the employee's payments |
| Zahlungen.MitarbeiterSummary | src/components/Zahlungen.tsx:93-112 | null exactly for an unknown id; otherwise a listed employee's base, that employee's advance and bonus sums, and payout base − advances + bonuses |
| Zahlungen.SummaryOfListed | src/components/Zahlungen.tsx:93-107 | with unique ids a listed employee's summary uses that employee's base salary |
| Zahlungen.SummaryWithoutPayments | src/components/Zahlungen.tsx:97-104 | without payments the advances and bonuses are 0 and the payout is the base |
| Zahlungen.SummaryAfterPayment | src/components/Zahlungen.tsx:98-104 | one more advance of the employee lowers the payout by its amount, a bonus raises it; any other payment changes nothing |
| Zahlungen.SummaryMayBeNegative | src/components/Zahlungen.tsx:104 | an advance above the base makes the payout negative: nothing clamps it |
| Zahlungen.Monatsinfo | src/components/Zahlungen.tsx:138-143 | the header shows the active base salaries, all advances and bonuses, and their payout |
| Zahlungen.IdsOf | src/components/Zahlungen.tsx:213 | the ids of the employees, in order |
| Zahlungen.PersonSumKeys | src/components/Zahlungen.tsx:213-215 | summing per employee is summing per employee id |
| Zahlungen.CardsLinear | src/components/Zahlungen.tsx:213-256 | with unique ids the card payouts sum to the base sum minus the per-person advances plus the per-person bonuses |
| Zahlungen.ActiveIdsCover | src/components/Zahlungen.tsx:135 | a payment of an active employee carries one of the active ids |
| Zahlungen.CardsAddUpToMonth | src/components/Zahlungen.tsx:205-256 | with unique ids and every payment owned by an active employee, the cards' payouts add up to `Auszuzahlen` |
| Zahlungen.DefaultMonthKey | src/components/Zahlungen.tsx:27-30 | the preselected key splits back into this year and `getMonth() + 1`; for a four-digit year it is `YYYY-MM` |
| Zahlungen.EmptyForm | src/components/Zahlungen.tsx:79-85 | the reset form is an advance dated today with empty fields |
| Zahlungen.NewZahlung | src/components/Zahlungen.tsx:64-73 | the inserted payment is booked under the selected month whatever its date, with the parsed amount and the description, or null for an empty one |
| Zahlungen.InsertShowsInSelectedMonth | src/components/Zahlungen.tsx:64-73 | after the insert the selected month lists the new payment last; every other month is unchanged |
| Zahlungen.ZahlungenTabelle.constructor | src/components/Zahlungen.tsx:24-38 | the view starts at the current month with the empty form |
| Zahlungen.ZahlungenTabelle.View | src/components/Zahlungen.tsx:44-50 | the listed payments are exactly those booked under the selected month |
| Zahlungen.ZahlungenTabelle.SelectMonth | src/components/Zahlungen.tsx:163 | the month picker changes the selected month and nothing else |
| Zahlungen.ZahlungenTabelle.ChooseArt | src/components/Zahlungen.tsx:346-353 | the kind buttons set the form's kind and nothing else |
| Zahlungen.ZahlungenTabelle.HandleSubmit | src/components/Zahlungen.tsx:60-90 | on success the payment is appended, the month's list grows by it, and the form is reset; on failure nothing changes |
| MitarbeiterDetail.Jahr | src/components/MitarbeiterDetail.tsx:74-81 | the annual salary is 12 × base; the totals are the year's advance and bonus sums; the payout is salary − advances + bonuses, unclamped |
| MitarbeiterDetail.JahrAfterPayment | src/components/MitarbeiterDetail.tsx:75-81 | one more advance lowers the year's payout by its amount, a bonus raises it, other kinds do nothing |
| MitarbeiterDetail.MonthlyData | src/components/MitarbeiterDetail.tsx:84-103 | twelve rows keyed `YYYY-01` .. `YYYY-12`, each with the base salary, that month's advances and bonuses, and payout base − advances + bonuses |
| MitarbeiterDetail.FooterIsColumnSum | src/components/MitarbeiterDetail.tsx:283-289 | when every payment is booked under a month of the year, the footer is the column sum of the rows |
| MitarbeiterDetail.FooterMayDifferFromRows | src/components/MitarbeiterDetail.tsx:45-51 | an advance dated in the year but booked outside its months counts in the footer and in no row |
| MitarbeiterDetail.RowsWithoutBookings | src/components/MitarbeiterDetail.tsx:87-94 | payments booked outside the year's months leave every row without advances and bonuses |
| MitarbeiterDetail.OtherYearKey | src/components/MitarbeiterDetail.tsx:86 | a month key of another year is not among the year's keys |
| MitarbeiterDetail.UrlaubTageSnoc | src/components/MitarbeiterDetail.tsx:106-111 | one more request adds its days exactly when it is approved and of the kind |
| MitarbeiterDetail.UrlaubTageMatchesSummary | src/components/MitarbeiterDetail.tsx:106-111 | for the employee's own requests the detail's leave totals equal the leave view's summary |
| Dashboard.TodayOnLeave | src/components/Dashboard.tsx:84-88 | exactly the approved requests covering today as strings; the same filter as the leave view's |
| Dashboard.TodayOnLeaveCountsRequests | src/components/Dashboard.tsx:84-88 | two current requests of one employee count twice |
| Dashboard.PendingLeaves | src/components/Dashboard.tsx:91 | exactly the pending requests; as many as the leave view's pending counter |
| Dashboard.ExpiringDocs | src/components/Dashboard.tsx:94-98 | exactly the documents with a valid date at most 30 days away, past dates included |
| Dashboard.ExpiredDocs | src/components/Dashboard.tsx:100-103 | exactly the documents whose date is before now |
| Dashboard.ExpiredAreExpiring | src/components/Dashboard.tsx:94-103 | every expired document is also expiring |
| Dashboard.UndatedInNeither | src/components/Dashboard.tsx:95-101 | a document without a date is in neither list |
| Dashboard.ExpiringByStatus | src/components/Dashboard.tsx:94-98 | expiring exactly when the documents view's tier is expired or warning |
| Dashboard.MonthTotals | src/components/Dashboard.tsx:106-113 | the active base salaries, the month's advance and bonus sums, and their payout, unclamped |
| Dashboard.TotalsAgreeWithPaymentsView | src/components/Dashboard.tsx:113 | the dashboard's month payout equals the payments view's `Auszuzahlen` |
| Dashboard.ChartData | src/components/Dashboard.tsx:116-137 | twelve bars keyed by the year's months, the same base in each, each with the advances and bonuses booked under its month and payout base − advances + bonuses |
| Dashboard.ChartBarIsMonthPayout | src/components/Dashboard.tsx:116-137 | a bar's payout is the month total of the payments booked under that month |
| Dashboard.ChartAddsUp | src/components/Dashboard.tsx:116-137 | when the year's payments are booked under its months, the bars add up to 12 × base − advances + bonuses |
| Dashboard.ExpiryDaysText | src/components/Dashboard.tsx:178-183 | the text reads back as the day difference: "N Tage abgelaufen" for past, "Heute" for today, "N Tage" for future, "NaN Tage" for an invalid date |
| Dashboard.MitarbeiterName | src/components/Dashboard.tsx:140-143 | "vorname nachname" of a listed employee, "Unbekannt" for an unknown id |
| Personal.BaseSalary | src/app/page.tsx:130 | the parsed amount in cents (`"2500.50"` gives 250050), or 0 when the field is not a number |
| Personal.BuildMonthMap | src/app/page.tsx:131-144 | exactly the twelve keys; an empty field gives the base salary, any other its parsed amount (null for NaN) |
| Personal.NewMitarbeiter | src/app/page.tsx:146-159 | the inserted row has the form's fields, each optional text or null when it is empty, the base salary and the month map |
| Personal.ApplyEdit | src/app/page.tsx:244-259 | the edit writes the form's fields (each optional text, or null when empty), salary and map, and keeps id, creation time and entry date |
| Personal.CreateAndEditAgree | src/app/page.tsx:228-242 | create and edit store the same base salary and month map for one form |
| Personal.LoadEditForm | src/app/page.tsx:193-221 | the edit form gets the stored fields, the base salary as text that parses back, and each stored month value as text or empty |
| Personal.ReloadMonth | src/app/page.tsx:205-242 | reloading and saving keeps a stored month value; a missing or null one becomes the base salary |
| Personal.ReloadMonthMap | src/app/page.tsx:205-242 | reloading and saving reproduces every stored month value |
| Personal.ReloadIsIdentity | src/app/page.tsx:193-259 | for a complete map and no stored empty texts, saving an unchanged edit form writes back the same row |
| Personal.FilteredMitarbeiter | src/app/page.tsx:291-294 | keeps exactly the employees whose lower-cased name or position contains the lower-cased term; an empty term keeps all |
| Personal.FilteredKeepsOrder | src/app/page.tsx:291-294 | the search distributes over concatenation, so it keeps the order |
| Personal.LowerIdempotent | src/app/page.tsx:292 | lower-casing twice is lower-casing once |
| Personal.SearchIgnoresCase | src/app/page.tsx:291-294 | a lower-cased term finds the same employees as the term |
| Personal.ActiveCount | src/app/page.tsx:521 | the number of active employees, so at most the number of employees, and equal exactly when all are active |
| Personal.ActiveCountSnoc | src/app/page.tsx:521 | one more employee raises the count by one exactly when the employee is active |
| Personal.ActiveCountFull | src/app/page.tsx:521 | the active list is the whole list exactly when all are active |
| Personal.Gehaltskosten | src/app/page.tsx:534 | the salary sum covers all employees: the active ones' plus the inactive ones' |
| Personal.EditRows | src/app/page.tsx:244-259 | update-where-id applies the edit to the rows with the id and keeps the others |
| Personal.EditRowsFind | src/app/page.tsx:244-259 | with unique ids the edit keeps ids unique and the employee is found with the new fields |
| Personal.MitarbeiterTabelle.constructor | src/app/page.tsx:31-66 | the page starts with the fetched rows, both forms empty and nothing under edit |
| Personal.MitarbeiterTabelle.HandleSubmit | src/app/page.tsx:126-191 | on success the new employee is appended and the form reset; on failure nothing changes |
| Personal.MitarbeiterTabelle.OpenEditModal | src/app/page.tsx:193-221 | the employee is put under edit with the loaded form and the edit modal open |
| Personal.MitarbeiterTabelle.HandleEditSubmit | src/app/page.tsx:223-269 | with nothing under edit nothing happens; on success the rows with the id get the edit and editing ends |
| Personal.MitarbeiterTabelle.HandleDelete | src/app/page.tsx:271-284 | only a confirmed, successful delete removes the rows with the id |

## Left out

- The database calls are left out. This covers fetching, ordering and the server-side range filters, such as the year range of the detail view (`src/components/MitarbeiterDetail.tsx:45-65`). The leave view's year range is the exception: its `View()` models it. Fetched lists are inputs, and a store call's outcome is the `storeOk` parameter.
- Re-fetching after a write is left out. A class's table is the whole database table the view writes. What the view fetches again is the class's `View()` where the view fetches a slice (the payments of the selected month, the leave requests starting in the selected year), and otherwise the table itself. Either way it matches only up to order: the views fetch sorted (the payments view by `zahlungsdatum`, newest first, `src/components/Zahlungen.tsx:50`), while the model appends a new row at the end. So "the new payment is listed last" in `Zahlungen.InsertShowsInSelectedMonth` and `Zahlungen.ZahlungenTabelle.HandleSubmit` is a property of the model's table, not of the displayed order.
- Authentication, the session and `src/components/Login.tsx` are left out. They are calls into the hosting service's auth, with no rules of their own.
- Rendering is left out. This covers JSX, styling, icons, modal toggles, `alert`, the `slice(0, n)` display caps and the generic `setFormData` field setters. Only the kind buttons, the month picker and the leave view's year picker are modelled, because they constrain state.
- Reading files as data URLs and the preview are left out. They are browser I/O, so the data URL is a parameter of `Dokumente.DokumenteTabelle.HandleSubmit`.
- Locale formatting is left out. This covers `toLocaleString`, `toLocaleDateString`, `getMonthName` and the month labels of the rows and bars.
- Floating point is left out. Amounts are whole cents, the unit of the fields' `step="0.01"`. A fraction with a non-zero third or later decimal reads as NaN in the model; the browser refuses to submit such a value because it is not a multiple of the step.
- Text.ParseAmount: does not read exponent notation such as `"5e2"`, which a number field accepts and `parseFloat` reads as 500; the model reads it as NaN. The lenient forms of `parseFloat` (leading spaces, trailing text) cannot come from a number field and are not modelled either.
- Dokumente.TypLabel: an unknown key is returned as it is. In the source, `labels[typ]` also finds the members of `Object.prototype` for keys such as `"constructor"`; the stored document types never have such a key.
- `toLowerCase` is modelled only for ASCII and Latin-1 letters.
- Other small JavaScript details are not modelled:
  - `toString` is only modelled for amounts in cents below 10^21 euros, where it writes no exponent.
  - `new Date(s)` is only modelled for `YYYY-MM-DD` strings.
  - Everything else reads as an Invalid Date.
- The clock and time zones are left out. "Now", today's date string, the current year and `getMonth()` are parameters. The model does not capture the mismatch between the local `getMonth` and the UTC `toISOString` near midnight.
- The year buttons of the detail view are left out. Only one selected year, a parameter, is modelled.
- Deleting an employee's payments, documents and leave with the employee is the database's cascade, and is not modelled.
- `MonatlichesGehalt` (`src/types/database.ts:52-60`) is declared as a record but never read or written.
- `getMitarbeiterInitials` and the style lookups are display only and are left out.
- Zahlungen.NewZahlung: requires the amount to parse. The field is a required number input with `step="0.01"` (`src/components/Zahlungen.tsx:385-391`), so the browser submits only a number in whole cents, such as `"500"`, `"500.00"`, `"12.5"` or `".5"`. It never submits an empty field. Only exponent notation is excluded beyond that; see `Text.ParseAmount` above.
- Zahlungen.ZahlungenTabelle.HandleSubmit: requires the amount to parse, for the same reason.
- Urlaube.UrlaubTabelle.SelectYear: requires a year from 2024 to 2027. These are the only options the picker offers (`src/components/Urlaub.tsx:228`).
- Zahlungen.ZahlungenTabelle.ChooseArt: requires the kind to be an advance or a bonus. These are the only two buttons the form offers.
- Zahlungen.DefaultMonthKey: requires a month index from 0 to 11, which is the range of `getMonth()`.
- Personal.MitarbeiterTabelle.HandleSubmit: the new row's `aktiv` and `eintrittsdatum` are store defaults and are passed as parameters.
