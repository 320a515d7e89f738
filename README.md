# Mood-map diary: export rows, footers and entry forms

This project models the parts of the mood-map diary web client that have
behaviour of their own:

- **PDF export** (`PdfExport`). The diary export turns an ordered list of
  diary entries into rows `[date and time, capitalised mood, text]`. The
  timeline export turns life events into rows `[date, category label, title,
  description]`, where the category label falls back to the raw value.
  Each export draws a banner, hands head and body to the table-layout library,
  writes the footer "Documento confidencial - Para uso profissional | Página i
  de N" on every page, and saves the file as `diario-autocuidado-dd-MM-yyyy.pdf`
  or `linha-do-tempo-dd-MM-yyyy.pdf`.
- **Document state** (`PdfExport.PdfDocument`). A class holding the texts
  written on each page, the current page, the table and the saved name. The
  footer loop (`WriteFooters`) calls `SetPage` and `Text` on it page by page.
- **Entry forms** (`DailyEntryForm`, `TimelineEventForm`). Classes over the
  form fields, the `loading` flag and a log of outside effects: the insert
  request, toasts and the refresh event. The asynchronous `handleSubmit` is
  split at its one `await`. `Submit` validates and sends the untrimmed fields.
  `Settle` handles the backend's answer and the `finally`. `HandleSubmit` runs
  both.
- **Helpers.** `JsText` models `trim` and the first-letter capitalisation.
  `DateFormat` models the zero-padded `dd`, `MM`, `yyyy`, `HH` and `mm` fields.
  `LabelAgreement` proves that the export and the forms use the same captions.

Inputs standing in for what the code cannot see:

- `addedPages`: the pages the table-layout library adds to the first page.
  The final page count is `1 + addedPages`.
- `bannerClock` and `saveClock`: the two wall-clock readings, one for the
  banner line and one for the file name.
- `createdAt`: a record's creation time, already broken down into local
  date fields.
- `InsertOutcome`: the backend's answer to an insert, supplied by the caller.

The parsers `ParseDate` and `ParseDateTime` are not part of the program. They
are reference inverses: proving that they read every formatted date back shows
that the formatting is zero-padded, fixed-width and loses no field.

The document's strings and the stored mood and category values are Portuguese
(`Página i de N`, `feliz`, `infancia`, …), as in the code.

## Model

| member | source | states |
|---|---|---|
| `JsText.IsWhitespace` | src/components/DailyEntryForm.tsx:33 | The characters `trim()` removes: ECMAScript white space and line terminators. `Trim`'s contract states that it removes exactly the runs of these at both ends. |
| `JsText.Trim` | src/components/DailyEntryForm.tsx:33 | `trim()` keeps one slice of the input. Everything removed is white space. The slice neither starts nor ends with white space. It is empty exactly when the input is all ECMAScript white space or line terminators. |
| `JsText.Capitalize` | src/utils/pdfExport.ts:49 | Same length as the input. The first character is upper-cased and every later character is unchanged. The empty mood gives the empty cell. |
| `JsText.IsBlank` | src/components/DailyEntryForm.tsx:33 | `!s.trim()`: trimming leaves nothing. By `Trim`'s contract this holds exactly when every character is white space; `CanSubmit` states it for the form fields. |
| `JsText.UpperAscii` | src/utils/pdfExport.ts:49 | `toUpperCase` on the first character, for a-z only. `Capitalize` and `LabelAgreement.EmotionCaptionsAreCapitalisedValues` state what it gives for the stored moods. |
| `DateFormat.Digits` | src/utils/pdfExport.ts:82 | `${n}`: a non-empty string of decimal digits whose value is `n`, with no leading zero unless `n` is 0. |
| `DateFormat.PadZeros` | src/utils/pdfExport.ts:48 | Pads with '0' on the left to at least the width. The original digits end the string. |
| `DateFormat.PaddedDigits` | src/utils/pdfExport.ts:48 | A number below 10^w, padded to width w, is exactly w digits denoting that number. |
| `DateFormat.TwoDigits` | src/utils/pdfExport.ts:48 | `dd`, `MM`, `HH`, `mm`: the number zero-padded to two digits. `PaddedDigits` states that for a number below 100 this is exactly two digits with that value. |
| `DateFormat.FourDigits` | src/utils/pdfExport.ts:89 | `yyyy`: the year zero-padded to four digits. `PaddedDigits` states that for a year below 10000 this is exactly four digits with that value. |
| `DateFormat.FormatDate` | src/utils/pdfExport.ts:109 | `dd/MM/yyyy`, or `dd-MM-yyyy` in file names (line 89). `DateRoundTrip` states its length and that it reads back to the same date. |
| `DateFormat.FormatTime` | src/utils/pdfExport.ts:41 | `HH:mm` (also line 48). `DateTimeRoundTrip` states that its hour and minute read back in the last five characters. |
| `DateFormat.FormatDateTime` | src/utils/pdfExport.ts:48 | `dd/MM/yyyy HH:mm`. `DateTimeRoundTrip` states its length and that it reads back to the same date and time. |
| `DateFormat.DateRoundTrip` | src/utils/pdfExport.ts:109 | For in-range fields, `dd/MM/yyyy` (or `dd-MM-yyyy`) is 10 characters and reads back as the same day, month and year. |
| `DateFormat.DateTimeRoundTrip` | src/utils/pdfExport.ts:48 | For in-range fields, `dd/MM/yyyy HH:mm` is 16 characters and reads back as the same date and time. |
| `FormSubmission.FailureMessage` | src/components/DailyEntryForm.tsx:56 | The toast text is the error's message whenever that is non-empty, and the fallback exactly when it is empty. It is blank only when both are blank. |
| `PdfExport.CategoryLabel` | src/utils/pdfExport.ts:110 | A key of the label table gives its label. Any other category gives itself unchanged. A non-empty category never gives an empty cell. |
| `PdfExport.CategoryLabels` | src/utils/pdfExport.ts:21-29 | The seven category labels. `LabelAgreement.CategoryLabelsCoverPicker` and `CategoryCaptionsAgree` state that its keys are the picker's values and its labels the picker's captions. |
| `PdfExport.DiaryTitle` | src/utils/pdfExport.ts:39 | "Diário de Autocuidado". `ExportDiary` states that it is page 1's first text. |
| `PdfExport.TimelineTitle` | src/utils/pdfExport.ts:100 | "Linha do Tempo". `ExportTimeline` states that it is page 1's first text. |
| `PdfExport.ExportedAt` | src/utils/pdfExport.ts:41 | The banner's second line, `Exportado em dd/MM/yyyy 'às' HH:mm` (also line 102). `ExportDiary` and `ExportTimeline` state that it is page 1's second text. |
| `PdfExport.DiaryHead` | src/utils/pdfExport.ts:56 | The head "Data/Hora, Emoção, Registro". `ExportDiary` states that it is the table's head; `DiaryTableMatchesEntries` states that every row has `|DiaryHead|` cells. |
| `PdfExport.TimelineHead` | src/utils/pdfExport.ts:118 | The head "Data, Categoria, Título, Descrição". `ExportTimeline` states that it is the table's head; `TimelineTableMatchesEvents` states that every row has `|TimelineHead|` cells. |
| `PdfExport.DiaryRow` | src/utils/pdfExport.ts:47-51 | One diary row. `DiaryTableMatchesEntries`, `DiaryTableDates` and `DiaryDateCell` state its cells. |
| `PdfExport.TimelineRow` | src/utils/pdfExport.ts:108-113 | One timeline row. `TimelineTableMatchesEvents`, `TimelineTableDates` and `TimelineDateCell` state its cells. |
| `PdfExport.Rows` | src/utils/pdfExport.ts:47 | `records.map(row)`. `RowsCorrespond` and `RowsAppend` state that it keeps count and order. |
| `PdfExport.DiaryTable` | src/utils/pdfExport.ts:47-51 | The diary `tableData`. `ExportDiary` states that it is the table's body; `DiaryTableMatchesEntries` and `DiaryTableDates` state its rows. |
| `PdfExport.TimelineTable` | src/utils/pdfExport.ts:108-113 | The timeline `tableData`. `ExportTimeline` states that it is the table's body; `TimelineTableMatchesEvents` and `TimelineTableDates` state its rows. |
| `PdfExport.RowsCorrespond` | src/utils/pdfExport.ts:47-51 | The body has exactly one row per record, and row i is built from record i. Nothing is sorted, filtered or deduplicated. |
| `PdfExport.RowsAppend` | src/utils/pdfExport.ts:108-113 | The rows of a concatenation are the concatenation of the rows, so record order is kept. |
| `PdfExport.DiaryDateCell` | src/utils/pdfExport.ts:48 | For an in-range time, the first cell of a diary row (`dd/MM/yyyy HH:mm`) parses back to exactly the entry's creation time. |
| `PdfExport.TimelineDateCell` | src/utils/pdfExport.ts:109 | For an in-range date, the first cell of a timeline row (`dd/MM/yyyy`, no time) parses back to the event's day, month and year. |
| `PdfExport.DiaryTableMatchesEntries` | src/utils/pdfExport.ts:47-51 | The diary body has one row per entry, in order, each with one cell per heading (3). Row i holds entry i's capitalised mood and its text verbatim. An empty list gives zero rows. |
| `PdfExport.DiaryTableDates` | src/utils/pdfExport.ts:47-48 | Row i's date cell parses back to entry i's creation time, for every in-range time. |
| `PdfExport.TimelineTableMatchesEvents` | src/utils/pdfExport.ts:108-113 | The timeline body has one row per event, in order, each with one cell per heading (4). Row i holds event i's category label, then its title and description verbatim. |
| `PdfExport.TimelineTableDates` | src/utils/pdfExport.ts:108-109 | Row i's date cell parses back to event i's day, month and year, for every in-range date. |
| `PdfExport.FooterPrefix` | src/utils/pdfExport.ts:82 | The fixed footer text up to and including "Página " (also line 145). `FooterText` begins with it. |
| `PdfExport.FooterText` | src/utils/pdfExport.ts:82 | The footer of page i of N (also line 145). `WriteFooters` puts it on each page; `FooterTextInjective` states that it determines i and N; `Digits` states that the numbers have no leading zeros. |
| `PdfExport.FooterTextInjective` | src/utils/pdfExport.ts:81-86 | Equal footers have equal page numbers and equal page counts, so every page's footer is different. |
| `PdfExport.DiaryBase` | src/utils/pdfExport.ts:89 | "diario-autocuidado". `ExportDiary` states that the file is saved under `FileName(DiaryBase, saveClock)`. |
| `PdfExport.TimelineBase` | src/utils/pdfExport.ts:152 | "linha-do-tempo". `ExportTimeline` states that the file is saved under `FileName(TimelineBase, saveClock)`. |
| `PdfExport.FileName` | src/utils/pdfExport.ts:89 | `<base>-dd-MM-yyyy.pdf` (also line 152). `FileNameShape` and `FileNameDate` state its layout and that the date reads back. |
| `PdfExport.FileNameShape` | src/utils/pdfExport.ts:89 | A file name is the base, a dash, ten more characters and `.pdf`, so it is 15 characters longer than the base: `diario-autocuidado-…` (line 89) or `linha-do-tempo-…` (line 152). |
| `PdfExport.FileNameDate` | src/utils/pdfExport.ts:89 | The ten characters between the base's dash and `.pdf` parse back, with `-` as separator, to the save date. |
| `PdfExport.PdfDocument.constructor` | src/utils/pdfExport.ts:32 | A new document has one blank page, which is current. It has no table and is not saved. |
| `PdfExport.PdfDocument.SetPage` | src/utils/pdfExport.ts:78 | Makes page n current and changes nothing else. |
| `PdfExport.PdfDocument.Text` | src/utils/pdfExport.ts:81-86 | Appends the text to the current page only. |
| `PdfExport.PdfDocument.AutoTable` | src/utils/pdfExport.ts:54-73 | Records the head and body. Adds the layout's pages and leaves the last page current. |
| `PdfExport.PdfDocument.Save` | src/utils/pdfExport.ts:89 | Records the file name and changes nothing else. |
| `PdfExport.WriteFooters` | src/utils/pdfExport.ts:76-87 | Page k (1-based) of N gains exactly one text, "…Página k de N". N is the same on every page. No page is added or lost. The same loop is at lines 139-150. |
| `PdfExport.Render` | src/utils/pdfExport.ts:31-90 | The steps both exports share: a new document takes the title and "Exportado em" line on page 1, then the table with its head and body, then one footer per page, then the file name. The result has 1 + addedPages pages and is saved under the given name. The last page is current. |
| `PdfExport.ExportDiary` | src/utils/pdfExport.ts:31-90 | The table is the diary head with one row per entry. There are 1 + addedPages pages. Page 1 holds the title, the "Exportado em" line and its footer. Every other page holds only its footer. The file is saved as `diario-autocuidado-<save date>.pdf`. The last page is current. |
| `PdfExport.ExportTimeline` | src/utils/pdfExport.ts:92-153 | The same as the diary export, with the timeline title, head and rows. The file is saved as `linha-do-tempo-<save date>.pdf`. The last page is current. |
| `DailyEntryForm.Emotions` | src/components/DailyEntryForm.tsx:10-19 | The eight emotion buttons' values and captions. `LabelAgreement.EmotionCaptionsAreCapitalisedValues` states that each caption is its value capitalised. |
| `DailyEntryForm.CanSubmit` | src/components/DailyEntryForm.tsx:33-36 | Submission passes exactly when the text has a character that is not white space and an emotion is chosen. Whitespace-only text is blank. |
| `DailyEntryForm.EntryForm.constructor` | src/components/DailyEntryForm.tsx:26-28 | Empty text, no emotion, not loading, no effects. |
| `DailyEntryForm.EntryForm.ChangeTexto` | src/components/DailyEntryForm.tsx:78 | Sets the text and nothing else. |
| `DailyEntryForm.EntryForm.ChooseEmotion` | src/components/DailyEntryForm.tsx:93 | Sets the emotion to button i's value, which is one of the eight `Emotions`. The invariant `Valid()` keeps the emotion unset or one of them. |
| `DailyEntryForm.EntryForm.Submit` | src/components/DailyEntryForm.tsx:30-45 | A rejected submission only logs the "preencha todos os campos" toast and leaves the fields and `loading` as they were. A passing one sets `loading` and sends user id, text and emotion exactly as held. |
| `DailyEntryForm.EntryForm.Settle` | src/components/DailyEntryForm.tsx:47-59 | On success both fields become "" and the log gains the success toast and one `refreshEntries`. On an error the fields are kept and the log gains only the error toast. `loading` ends false either way. |
| `DailyEntryForm.EntryForm.HandleSubmit` | src/components/DailyEntryForm.tsx:30-60 | The whole handler: no insert when rejected. When the submission passes, `loading` ends false, a successful insert clears the fields and emits exactly one refresh, and a failed insert keeps the fields and emits none. |
| `TimelineEventForm.Categories` | src/components/TimelineEventForm.tsx:11-19 | The seven category options' values and captions. `LabelAgreement.CategoryCaptionsAgree` states that the export shows each value as its caption. |
| `TimelineEventForm.CanSubmit` | src/components/TimelineEventForm.tsx:34-37 | Submission passes exactly when title and description each have a character that is not white space and a category is chosen. |
| `TimelineEventForm.EventForm.constructor` | src/components/TimelineEventForm.tsx:26-29 | All fields empty, not loading, no effects. |
| `TimelineEventForm.EventForm.ChangeTitulo` | src/components/TimelineEventForm.tsx:97 | Sets the title and nothing else. |
| `TimelineEventForm.EventForm.ChangeDescricao` | src/components/TimelineEventForm.tsx:108 | Sets the description and nothing else. |
| `TimelineEventForm.EventForm.ChooseCategory` | src/components/TimelineEventForm.tsx:77-86 | Sets the category to option i's value, which is one of the seven `Categories`. `Valid()` keeps the category unset or one of them. |
| `TimelineEventForm.EventForm.Submit` | src/components/TimelineEventForm.tsx:31-47 | A rejected submission only logs the toast and leaves every field and `loading` unchanged. A passing one sets `loading` and sends title, description and category untrimmed. |
| `TimelineEventForm.EventForm.Settle` | src/components/TimelineEventForm.tsx:49-62 | On success all three fields become "" and the log gains the success toast and one `refreshTimeline`. On an error the fields are kept and only the error toast is logged. `loading` ends false. |
| `TimelineEventForm.EventForm.HandleSubmit` | src/components/TimelineEventForm.tsx:31-63 | The whole handler, with the same rules as the daily form over three fields. |
| `LabelAgreement.EmotionCaptionsAreCapitalisedValues` | src/components/DailyEntryForm.tsx:11-18 | Capitalising each of the eight stored emotion values gives that button's caption. |
| `LabelAgreement.CapitalisedAs` | src/utils/pdfExport.ts:49 | A caption of the same length as the value, whose first character is the value's first upper-cased and whose tail is the value's tail, is exactly what the mood column prints for that value. |
| `LabelAgreement.MoodCellIsEmotionCaption` | src/utils/pdfExport.ts:49 | The mood cell of an entry saved from the form is the chosen button's caption. |
| `LabelAgreement.CategoryLabelsCoverPicker` | src/components/TimelineEventForm.tsx:12-18 | The export's label table has keys for exactly the seven picker values. |
| `LabelAgreement.CategoryCaptionsAgree` | src/components/TimelineEventForm.tsx:12-18 | Every picker value is exported as that option's own caption. |
| `LabelAgreement.CategoryCellIsPickerCaption` | src/utils/pdfExport.ts:110 | The category cell of an event saved from the form is the chosen option's caption. |

## Left out

- JsText.Capitalize: upper-cases only the ASCII letters a-z. JavaScript's `toUpperCase` also maps other letters, and some of them to two characters (ß to SS), which the model does not follow.
- PdfExport.CategoryLabel: a lookup of inherited object keys such as `"toString"` would find a prototype member in the source. The model treats the table as a plain map with a default.
- DateFormat.DateTimeRoundTrip, DateFormat.DateRoundTrip: stated only for years 1 to 9999. `yyyy` prints longer years in full, and the formatting functions do so too, but the fixed-width claims do not hold for them. Year 0 is excluded because the date library prints the year of the era there (1 BC as `0001`), which `FourDigits` does not model.
- Drawing: fill colours, the banner rectangle, font sizes, text colours, coordinates and centring (pdfExport.ts lines 35-44, 79-85). These are rendering details of the PDF library.
- Table layout: column widths, margins, styles, and where rows break across pages, including the header repeated on each page. The layout library decides these and the model cannot see them. The model takes the number of pages it adds as input, and records the head and body it is given rather than their place on the pages.
- Time: turning `created_at` into local time and reading the wall clock. These depend on the time zone and the date library. Records carry broken-down local fields, and the two clock readings are parameters.
- The backend: what the insert does and which error it reports. The outcome is an input. Toasts and the `window` refresh event appear only as entries in the effect log.
- Scheduling: interleavings of other events between `Submit` and `Settle`. The model does not check that the disabled button prevents a second submission while `loading` is true.
- Browser form checks: the `required` attribute on the inputs. The browser may refuse an empty field before `handleSubmit` runs. The model covers the handler's own check, which the browser check does not replace.
- The entry lists, the dashboard, authentication and the landing page (src/components/EntriesList.tsx, TimelineList.tsx, src/pages/*). These are fetches, event listeners and rendering. The only guard there, which skips export on an empty list, is not part of this model.
- The icons and colour classes of the emotion buttons: they only affect rendering.
