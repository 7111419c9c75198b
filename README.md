# Lead store and CSV export of the course landing page

The site is a course landing page. Its lead form and its admin page share
one key of the browser's local storage, `'applications'`, which holds the
list of submitted lead records in submission order. This project models
that shared record store and the pure text functions the admin page builds
from it:

- `Store`: the record (`Application`) and the storage key, as the class
  `LocalStorage` whose one field is `None` while nothing was written and
  `Some(list)` afterwards. It also holds the read-or-empty rule and the
  delete-by-id filter.
- `Landing`: the form state and the submit handler as the class `LandingPage`.
- `Admin`: the admin page as the class `AdminConsole`. Its in-memory list is
  the field `applications`. Its methods load, export, delete one id and clear
  everything, and they share the same `LocalStorage` object with the form.
  The module also holds the Telegram link of a record and a client method
  (`SubmitThenDelete`) that runs the store's life cycle across both pages.
- `CsvExport`: the exported file's name and content as functions, and lemmas
  about the content's exact shape.
- `Strings`: the JavaScript primitives the pages use. These are
  `Array.prototype.join`, `split(c)[0]` and `replace(c, '')` with a
  one-character string pattern.

The clock (`Date.now()`, `new Date().toISOString()`) and the locale
formatting of a timestamp (`toLocaleString('ru-RU')`) are parameters. These
are `now`, `isoNow` and the function `localize`. The confirmation dialog of
"clear all" is the `bool` parameter `confirmed`.

The CSV quoting is naive. Each cell is put between double quotes and
nothing inside it is escaped. The model states the exact text produced and
does not claim that a CSV reader recovers the records. `QuotingIsAmbiguous`
shows two different records whose rows are the same text. `ExportLineFeeds`
shows that a line feed inside a cell adds a line to the file. Of the cells
typed into the form, only the comment can hold one, since the other three
inputs are single lines.

Two points about reading and deleting:

- Reading defaults only a missing key, or an empty stored text, to `[]`
  (`getItem(...) || '[]'`; the empty string is falsy). A stored text that is
  not valid JSON is not defaulted: `JSON.parse` throws. The model's storage
  holds decoded lists or nothing, so neither an empty nor an unparsable text
  can be represented.
- Delete removes every record with the id, duplicates included. It filters
  the list the admin page shows, not a fresh read of storage, and writes
  that result back.

## Model

| member | source | states |
|---|---|---|
| Store.StoredOrEmpty | src/pages/Admin.tsx:25 | an absent key reads as the empty list; a present one reads as exactly what was written |
| Store.WithoutId | src/pages/Admin.tsx:59 | an id no record has leaves the list unchanged; the list never grows |
| Store.WithoutIdMembers | src/pages/Admin.tsx:59 | the kept records are exactly the old ones whose id differs from the argument |
| Store.WithoutIdAppend | src/pages/Admin.tsx:59 | the filter keeps relative order: filtering `xs + ys` is filtering `xs` followed by filtering `ys` |
| Store.WithoutIdLength | src/pages/Admin.tsx:59 | the length drops by exactly the number of records carrying the id, duplicates included |
| Store.WithoutIdAfterAppend | src/pages/Index.tsx:21-25 | submit never checks id uniqueness: deleting the id of a just-appended record also removes every older record that shares that id |
| Landing.LandingPage.constructor | src/pages/Index.tsx:10-15 | the form starts with all four fields empty |
| Landing.LandingPage.HandleSubmit | src/pages/Index.tsx:17-30 | the stored list is the previous list (empty if the key was absent) with every old record kept in place and exactly one record appended: the form's four fields verbatim, `isoNow` as timestamp and `now` as id; the key becomes `[record]` if it was absent; afterwards all four form fields are empty |
| Admin.AdminConsole.constructor | src/pages/Admin.tsx:18-27 | on mount the page shows the stored list, or the empty list when the key is absent |
| Admin.AdminConsole.LoadApplications | src/pages/Admin.tsx:24-27 | the shown list becomes the stored list, or the empty list when the key is absent; storage is not changed |
| Admin.AdminConsole.ExportToCsv | src/pages/Admin.tsx:29-56 | the outcome is the `Export` of the shown list; it is the refusal notice exactly when the list is empty; nothing is changed |
| Admin.AdminConsole.DeleteApplication | src/pages/Admin.tsx:58-63 | the shown list becomes its `WithoutId` filter, and storage then holds exactly the shown list |
| Admin.AdminConsole.ClearAll | src/pages/Admin.tsx:65-71 | when confirmed, both storage and the shown list are empty; when not, neither changes |
| CsvExport.Export | src/pages/Admin.tsx:29-56 | an empty list gives the refusal and no file; a non-empty one gives a download named by `FileName` whose content is the byte-order mark, the header line and the record lines, exactly |
| CsvExport.Quote | src/pages/Admin.tsx:46 | a quoted cell is the cell unchanged between a leading and a trailing double quote |
| CsvExport.HeaderLine | src/pages/Admin.tsx:35-45 | the header line is `Дата,ФИО,Telegram,Email,Комментарий`, unquoted |
| CsvExport.Cells | src/pages/Admin.tsx:36-42 | a record gives five cells: the name, telegram and email verbatim in places two to four, and a comment cell that is never empty and is the message verbatim whenever the message is not empty |
| CsvExport.RowLineExact | src/pages/Admin.tsx:36-46 | `RowLine`, the text of one record's row, is exactly five quoted cells joined by commas: localized date, full name, telegram, email, and the message (or `-` when it is empty) |
| CsvExport.CsvContent | src/pages/Admin.tsx:44-47 | the content built by joining is the header line followed, for each record in store order, by a line feed and that record's row (`Lines`, defined record by record) |
| CsvExport.FileName | src/pages/Admin.tsx:52 | the name is `заявки_`, then a prefix of the ISO time text that contains no `T` and stops at its first `T` (or at its end), then `.csv` |
| CsvExport.LinesAppend | src/pages/Admin.tsx:36-47 | rows appear in store order: the lines of `xs + ys` are the lines of `xs` followed by those of `ys` |
| CsvExport.LinesEndWithQuote | src/pages/Admin.tsx:44-47 | the record lines of a non-empty list end with a double quote |
| CsvExport.ExportHasNoTrailingNewline | src/pages/Admin.tsx:44-49 | a non-empty export's content ends with the last row's closing quote, not with a line feed |
| CsvExport.NoLineFeedOutsideRows | src/pages/Admin.tsx:35-49 | neither the byte-order mark nor the header line contains a line feed |
| CsvExport.RowLineCount | src/pages/Admin.tsx:46 | every character of the cells reaches the row unescaped: a row holds the cells' commas plus 4, their double quotes plus 10, and any other character exactly as often as the cells do |
| CsvExport.QuoteAllCount | src/pages/Admin.tsx:46 | quoting adds exactly two double quotes per cell and no other character |
| CsvExport.LinesLineFeeds | src/pages/Admin.tsx:44-47 | the record lines hold one line feed per record plus every line feed inside a cell |
| CsvExport.ExportLineFeeds | src/pages/Admin.tsx:44-49 | the exported content holds one line feed per record plus the cells' own line feeds, so it is the header plus one line per record exactly when no cell contains a line feed |
| CsvExport.QuotingIsAmbiguous | src/pages/Admin.tsx:46 | two different records give the same row text: one whose name is `x","y` with telegram `z`, and one whose name is `x` with telegram `y","z`, because the quote inside a cell is not escaped |
| CsvExport.FileNameFromIso | src/pages/Admin.tsx:52 | for an ISO time stamp `date + "T" + time` with no `T` in `date`, the file name is `заявки_` + date + `.csv` |
| Strings.CountJoin | src/pages/Admin.tsx:44-47 | `Join` (`Array.prototype.join`) keeps every character of the parts and adds exactly one separator between neighbouring parts |
| Strings.JoinLength | src/pages/Admin.tsx:44-47 | the length of a join is the parts' total length plus one separator per gap |
| Strings.Before | src/pages/Admin.tsx:52 | `split('T')[0]` is a prefix of the input that contains no `T` and ends where the input's first `T` stands, or at the end when there is none |
| Strings.BeforeUnique | src/pages/Admin.tsx:52 | `split` stops at the first separator: for a separator-free `d` followed by the separator and anything else, the result is `d` |
| Strings.RemoveFirst | src/pages/Admin.tsx:171 | `replace('@', '')` leaves the text unchanged exactly when it has no `@`; otherwise it deletes the first `@` and keeps everything before and after it |
| Strings.RemoveFirstCount | src/pages/Admin.tsx:171 | when there is an `@`, the result is one character shorter and has exactly one `@` fewer |
| Admin.TelegramLink | src/pages/Admin.tsx:171 | the link is `https://t.me/` followed by the handle, which is the telegram text unchanged when it has no `@`, and otherwise the text with its first `@` deleted and everything before and after it kept |
| Admin.TelegramLinkIgnoresLeadingAt | src/pages/Admin.tsx:171 | a handle typed with or without its leading `@` gives the same link |
| Admin.TelegramLinkKeepsLaterAt | src/pages/Admin.tsx:171 | only the first `@` is dropped: `@@name` links to `@name` |

## Left out

- Rendering is not modelled: the JSX, the static course content (`modules`, `faq`), layout and styling of both pages. This is presentation only.
- The toast notices are not modelled. The refused export is the outcome `NothingToExport`; success notices have no counterpart.
- The form's `onChange` handlers are not modelled. They copy typed text into one field of `formData`; the client method sets `formData` directly instead.
- The export and clear buttons are disabled on an empty list. This is rendering, so the model still handles an export of an empty list, as `exportToCSV` itself does.
- The `confirm()` dialog is the parameter `confirmed`.
- `Blob`, `URL.createObjectURL` and `link.click()` are browser download I/O. The model stops at the file's name and text.
- `Date.now()`, `new Date().toISOString()` and `toLocaleString('ru-RU')` are clock and locale calls, passed in as `now`, `isoNow` and `localize`.
- The "today" count on the admin page is not modelled, because it depends on `toDateString()` and the current date.
- A write the browser rejects is not modelled. When the storage quota is exceeded, `setItem` throws before the page state changes: the form is not reset and the shown list is not updated. In the model every write succeeds.
- The form's input constraints are not modelled: the `required` name, Telegram and email fields, the email input type and the single-line inputs. The model accepts any four strings.
- `JSON.parse`/`JSON.stringify` are not modelled. Storage holds decoded records. A stored text that fails to parse (which would throw) is not modelled.
- `message` is always a string in the model. The code's `app.message || '-'` also maps a missing field to `-`; that case is not modelled.
- `id` is an unbounded integer. JavaScript numbers represent millisecond clock readings exactly, so nothing is lost.
- Several tabs writing the key at once is not modelled. This is concurrency, which the code does not address.
