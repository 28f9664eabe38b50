# contractor-tracker core, in Dafny

This project models the core of the contractor time and expense tracker, the React
component in `src/App.jsx`. A contractor records work entries: a date, standard and
overtime hours, mileage, gas and other expenses with a description, notes and a receipt.
The component keeps these entries, shows their totals on a dashboard, and exports a PDF
report.

The model covers the following:

- **Entries** (`entries.dfy`): the entry form and the stored entry. The stored entry is
  the form stamped with an `id` and a `timestamp`. Form fields are the text typed into
  the inputs. JavaScript truthiness of a string is "non-empty".
- **Totals** (`totals.dfy`): the `reduce` fold that sums the five numeric fields, each
  coerced with `parseFloat(x) || 0`, and `totalExpenses`. `parseFloat` is the parameter
  `parse: string -> Option<real>`, where `None` stands for `NaN`. Amounts are `real`.
- **Date order** (`date_order.dfy`): the report's `entries.sort(...)` by date. It is a
  stable sort that works in place on an array. It is written as an insertion sort on an
  `array`, proved equal to a functional insertion sort. That sort is proved sorted, a
  permutation of its input, and stable.
- **Report** (`report.dfy`): `generatePDF` reduced to the text lines it emits, the
  cursor `yPos` each line is placed at, and the `addPage` calls. The model follows the
  cursor through the title, the contractor block, the summary and the `forEach` over the
  sorted entries. It also covers the page-break rule, which detail lines appear, and the
  notes truncation. The loops are methods, proved equal to the layout functions. The
  lemmas about those functions prove the layout rules.
- **Store** (`store.dfy`): the component's state as the class `Tracker`. Its methods are
  the handlers `addEntry`, `deleteEntry` and `updateContractorInfo`, each followed by the
  save to local storage. There is also the export button. It passes the state's own
  array to `generatePDF`, so the in-place sort leaves the stored entries in date order.

The clock and the storage are parameters:

- The new entry's `id` (`Date.now()`), its `timestamp` and today's date come in as
  arguments.
- Whether a `localStorage.setItem` call succeeds is the flag `storageOk`. A failed write
  is caught and only logged, so `savedEntries` and `savedInfo` keep their previous value.
- The page height of the PDF document is the parameter `pageHeight`.

## Model

| member | source | states |
|---|---|---|
| Totals.Step | src/App.jsx:259-263 | defines the reducer: the accumulator plus one entry's five coerced fields (its partner is `TotalsAppend`) |
| Totals.Fold | src/App.jsx:52-58 | defines `reduce` over the entries, a left fold from a given accumulator (its partner is `FoldFrom`) |
| Totals.FoldFrom | src/App.jsx:258-264 | folding from any accumulator adds that accumulator to the totals of the entries |
| Totals.TotalsOf | src/App.jsx:258-264 | defines the totals, the fold from the all-zero accumulator that both the dashboard and the report run (its partners are `TotalsAreFieldSums` and `TotalsPermutation`) |
| Totals.TotalExpenses | src/App.jsx:82 | defines `totalExpenses` as gas plus other expense of the totals (its partner is `TotalExpensesOf`) |
| Entries.BlankForm | src/App.jsx:150-160 | defines the blank form, dated today with every other field blank and no receipt, used both initially and by the reset at lines 233-243 |
| Totals.Coerce | src/App.jsx:53-57 | `parseFloat(x) \|\| 0`: a field `parseFloat` cannot read (`NaN`) counts 0; otherwise the parsed value counts, and a parsed 0 is 0 either way |
| Entries.OrZero | src/App.jsx:113 | `x \|\| 0` in the hours line: a filled-in field is shown as typed and a blank one as `0`, so the text shown is never blank |
| Totals.EmptyTotals | src/App.jsx:258-264 | the totals of no entries are zero in every field, since the fold starts from the all-zero accumulator |
| Totals.TotalsAppend | src/App.jsx:259-263 | appending an entry adds its coerced fields to the totals, field by field |
| Totals.TotalsConcat | src/App.jsx:258-264 | the totals of a concatenation are the field-wise sum of the totals of the parts |
| Totals.TotalsAreFieldSums | src/App.jsx:258-264 | each total equals an independent recursive sum of that field's coerced values over the entries |
| Totals.TotalExpensesOf | src/App.jsx:82 | `totalExpenses` is the summed gas expense plus the summed other expense |
| Totals.TotalsPermutation | src/App.jsx:52-58 | the totals do not depend on the order of the entries: any permutation has the same totals |
| Totals.BlankIsZero | src/App.jsx:259-263 | a blank numeric field and a field holding "0" give the same totals, when `parseFloat("")` is `NaN` and `parseFloat("0")` is 0 |
| DateOrder.DateLe | src/App.jsx:93 | defines the comparator on dates, as the lexicographic order of `YYYY-MM-DD` strings (its partners are the three lemmas below) |
| DateOrder.EntryLe | src/App.jsx:93 | defines the comparator on entries: by their dates |
| DateOrder.SortByDate | src/App.jsx:93 | defines the report's entry order, a stable insertion sort by `EntryLe` (its partners are `SortByDateCorrect` and `SortByDateStable`) |
| DateOrder.DateLeReflexive | src/App.jsx:93 | every date compares as not after itself |
| DateOrder.DateLeTotal | src/App.jsx:93 | any two dates are ordered one way or the other |
| DateOrder.DateLeTransitive | src/App.jsx:93 | the date order is transitive |
| DateOrder.SortByDateCorrect | src/App.jsx:93 | the report's entry order is ascending by date and a permutation of the entries |
| DateOrder.SortByDateStable | src/App.jsx:93 | entries with the same date keep their relative order (a stable sort) |
| DateOrder.SortInPlace | src/App.jsx:93 | sorting the array in place leaves it holding the insertion-sorted sequence of its old contents |
| DateOrder.InsertAt | src/App.jsx:93 | one step of the in-place sort: the sorted prefix with the next element inserted, the rest untouched |
| DateOrder.ShiftLater | src/App.jsx:93 | the shifting loop moves up exactly the prefix elements that do not sort before the new one, leaves the rest in place, and stops just after the last element that sorts before it |
| Report.TruncateNotes | src/App.jsx:134 | notes of at most 60 characters are shown whole; longer notes are shown as their first 60 characters followed by `...`, 63 characters in all |
| Report.BlockStart | src/App.jsx:94-110 | defines the start of an entry's block: the page break when the cursor is below `pageHeight - 40`, the date line 3 below the top, the cursor 10 below it |
| Report.EmitOther | src/App.jsx:124-130 | defines the other-expense line, with the description drawn beside it on the same line |
| Report.Details | src/App.jsx:112-138 | defines the detail lines, in the order the source checks them (its partner is `DetailsShape`) |
| Report.EntryBlock | src/App.jsx:94-140 | defines one entry's block and the cursor after it (its partners are `EntryBlockShape` and `EntryBlockAdvance`) |
| Report.Layout | src/App.jsx:93-141 | defines the blocks of all entries one after another, each starting at the cursor the previous one left (its partners are the `Layout...` lemmas) |
| Report.DrawDetails | src/App.jsx:112-138 | the conditional detail lines, each moving the cursor down 6, equal the `Details` layout function |
| Report.DrawEntry | src/App.jsx:94-140 | the loop body (page check, date line, details, final +8) equals the `EntryBlock` layout function |
| Report.LayoutEntries | src/App.jsx:93-141 | the `forEach` with its mutable cursor equals the `Layout` function, block after block |
| Report.DetailsShape | src/App.jsx:112-131 | detail lines only append, lie within 24 below where they start, and move the cursor 6 for each present line among hours, mileage, gas, other and notes |
| Report.EntryBlockShape | src/App.jsx:94-131 | a page is added first in a block exactly when the cursor is below `pageHeight - 40`, the block then starts at the margin 20, the date line is 3 below the top, and after it come only detail lines 10 to 34 below the top |
| Report.EntryBlockAdvance | src/App.jsx:94-140 | one entry moves the cursor to its block's top plus 10 + 6·k + 8, where k counts its present detail lines |
| Report.EntryBlockBreaks | src/App.jsx:94-97 | inside a block a page is added only right before its date line |
| Report.EntryBlockExtent | src/App.jsx:94-140 | every line of a block lies between 3 and 34 below the block's top |
| Report.EntryBlockDates | src/App.jsx:106 | a block shows exactly one date line, carrying its own entry's date string before formatting |
| Report.LayoutDates | src/App.jsx:93-106 | the date lines carry the entries' date strings, one per entry, in the order given |
| Report.LayoutPageBreaks | src/App.jsx:93-97 | in the entries part every `addPage` is followed at once by an entry's date line |
| Report.LayoutOnPage | src/App.jsx:94-140 | on a page at least 60 high, no entry line is placed lower than 6 above the page's bottom |
| Report.LayoutLines | src/App.jsx:106-131 | the entries part holds only date lines and detail lines |
| Report.LayoutNoAmounts | src/App.jsx:106-131 | the entries part shows no summary amount |
| Report.AmountLinesShown | src/App.jsx:71-84 | the amount lines show their amounts once each, in order, and no entry date |
| Report.SummaryContents | src/App.jsx:63-91 | the summary shows the five totals and `totalExpenses` in order, and no entry date |
| Report.InfoBlock | src/App.jsx:28-49 | defines the contractor block drawn from 60 down when a name or business is filled in, and the cursor after it |
| Report.SummaryBlock | src/App.jsx:60-91 | defines the summary: its heading, the six amount lines 7 apart, the entries heading, and the cursor 75 below where it starts (its partner is `SummaryContents`) |
| Report.Header | src/App.jsx:15-91 | defines everything above the entries: the title lines, the contractor block and the summary (its partners are `HeaderCursor`, `HeaderContents` and `HeaderLines`) |
| Report.ReportOf | src/App.jsx:5-141 | defines the whole report: the header over the totals of the entries as given, then the entries' blocks in date order from the header's cursor (its partners are the `Report...` lemmas) |
| Report.HeaderCursor | src/App.jsx:28-91 | the entries start at cursor 135 with no name or business, and otherwise at 148 plus 6 for each of the two that is filled in (154 or 160) |
| Report.HeaderContents | src/App.jsx:22-91 | the header shows exactly the summary's six amounts and no entry date |
| Report.HeaderLines | src/App.jsx:22-91 | the header adds no page |
| Report.ReportSummary | src/App.jsx:52-84 | the report's amounts are the totals of the entries it was given, the same fold the dashboard shows, then gas plus other expense |
| Report.SortKeepsTotals | src/App.jsx:93 | sorting the entries for the report does not change their totals |
| Report.ReportEntries | src/App.jsx:93-106 | the report has one date line per entry, carrying the entries' date strings before formatting, in the order of the date sort |
| Report.ReportPageBreaks | src/App.jsx:28-97 | the report adds pages only in front of an entry, never in the header |
| Report.GenerateReport | src/App.jsx:5-141 | `generatePDF` sorts the array it is given by date in place and emits the report of the entries as they were given |
| Store.Without | src/App.jsx:247 | the filter never lengthens the list |
| Store.WithoutMembers | src/App.jsx:247 | an entry is kept exactly when it was in the list and its id differs from the deleted one |
| Store.WithoutCounts | src/App.jsx:247 | each entry whose id differs is kept as many times as it occurs, and an entry with the deleted id not at all |
| Store.WithoutIsKeep | src/App.jsx:247 | the filter equals `Keep` with the predicate "the id differs", the filter the stability proof of the sort uses |
| Store.WithoutAbsent | src/App.jsx:247 | deleting an id that no entry carries changes nothing |
| Store.WithoutSubsequence | src/App.jsx:247 | the kept entries are a subsequence of the list: their order is preserved |
| Store.WithoutIdempotent | src/App.jsx:247 | deleting twice by the same id deletes nothing more |
| Store.WithoutConcat | src/App.jsx:247 | filtering a concatenation filters each part |
| Store.DeleteUndoesAdd | src/App.jsx:228 | deleting the entry just appended, by its id, restores the list when no earlier entry has that id |
| Store.UpdateInfo | src/App.jsx:253 | the edited field holds the new value, every other field is unchanged, and the profile gains no key but that field |
| Store.UpdateInfoWrites | src/App.jsx:253 | the last edit of a field wins, and the report's contractor block reads the edited value |
| Store.UpdateInfoCommutes | src/App.jsx:253 | edits of two different fields commute |
| Store.Tracker.constructor | src/App.jsx:149-164 | the initial state: no entries, a blank form dated today, an empty name and business, nothing saved yet |
| Store.Tracker.SaveEntries | src/App.jsx:188-194 | the list is stored when the write succeeds; a failed write changes nothing |
| Store.Tracker.SaveContractorInfo | src/App.jsx:197-203 | the profile is stored when the write succeeds; a failed write changes nothing |
| Store.Tracker.AddEntry | src/App.jsx:216-244 | without a date it alerts, and entries, form and storage stay as they were; otherwise exactly one entry (the form plus `id` and `timestamp`) is appended at the end, the earlier entries stay in order, the new list is saved, the form is reset to blanks dated today, and the profile is untouched |
| Store.Tracker.DeleteEntry | src/App.jsx:246-250 | the entries become the filtered list, which is saved; form and profile are untouched |
| Store.Tracker.UpdateContractorInfo | src/App.jsx:252-256 | the profile becomes the one-field update, which is saved; entries and form are untouched |
| Store.Tracker.ExportReport | src/App.jsx:604 | the export emits the report of the current entries; since the state's own array is sorted in place, the stored entries end up in date order with unchanged totals, and nothing is saved |

## Left out

- Loading from local storage and JSON (de)serialisation, lines 169-185: these are browser I/O. The model starts from the constructor's empty state.
- The receipt upload through `FileReader`, lines 205-214: it is asynchronous browser I/O. The receipt is an opaque `Option<string>`.
- The form's `onChange` handlers that copy input text into `currentEntry`: each one is a plain record update. `Tracker.currentEntry` is a field, so a caller can set it directly.
- The PDF library: the dynamic import from the CDN, the `async` function, fills, rectangles, colours, fonts, `doc.save` and the file name (lines 7-26, 99-101, 143-145). Only the cursor, the emitted lines and `addPage` are modelled.
- Store.Tracker.ExportReport: the model assumes the import resolves and `new jsPDF()` succeeds (lines 7-9). If either throws, nothing after it runs: no sort and no report. It also assumes no other handler runs during the `await`. If one does, the sort at line 93 reorders an array that is no longer the state.
- Number formatting with `toFixed`: the amount lines carry the unformatted numbers.
- Report.EntryBlockDates: the date line carries the entry's date string before formatting. The source prints `new Date(entry.date).toLocaleDateString()`. ECMAScript reads a date-only `YYYY-MM-DD` string as UTC midnight, and `toLocaleDateString` formats it in local time. So in every time zone west of UTC the printed day is one day earlier than the entry's date. The same holds for `LayoutDates` and `ReportEntries`.
- Report.TruncateNotes: lengths are counted in characters (Unicode scalar values), while JavaScript's `length` and `substring(0, 60)` count UTF-16 code units. Notes holding characters outside the Basic Multilingual Plane, such as emoji, are therefore cut at a different place than the source cuts them. The source can even split a surrogate pair.
- The real `parseFloat`: it is the parameter `parse`. IEEE floating point and its rounding are not modelled; amounts are exact `real`s.
- `Date.now()`, `new Date()` and `toISOString()`: they read the host clock and locale, so `id`, `timestamp` and today's date are parameters.
- `alert`: `AddEntry` returns `alerted` instead of showing a dialog.
- React rendering, the dashboard cards and the loading screen, lines 266-697. The dashboard's totals are `TotalsOf`, the same fold as the report's.
- DateOrder.SortByDate: the comparator `new Date(a.date) - new Date(b.date)` is modelled as the lexicographic order of the `YYYY-MM-DD` strings the date input produces. That is the chronological order for such dates. Dates that parse to `NaN` are not modelled.
- DateOrder.SortInPlace: the engine's sorting algorithm is not specified by JavaScript, so an insertion sort stands in for it. Any stable sort under a total preorder gives this same order.
- Store.Without: the function's own contract promises only that the list does not grow. Membership, multiplicity, order, the no-op case and idempotence are stated in the lemmas beside it (`WithoutMembers`, `WithoutCounts`, `WithoutSubsequence`, `WithoutAbsent`, `WithoutIdempotent`).
