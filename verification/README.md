# BAES sheet upload, modelled in Dafny

The application is a small web form. A user uploads an Excel sheet of BAES
beneficiaries. The form checks that the sheet's header has every required
column: the beneficiary's RUT and check digit, the site (SEDE), the validity
(VIGENCIA), the names, and one status/payment pair per month from March to
December. If a column is missing, the form lists the missing columns and
stops. Otherwise it:

- names the file after the SEDE cell of the first data row;
- makes sure a folder called `<next month's English name> - <current year>`
  exists at the root of a Dropbox account, treating "already exists" as
  success;
- writes the sheet into that folder, overwriting any earlier file of the
  same name.

The project has five modules, one per concern of `app.py`:

- `wrappers.dfy` (`Wrappers`): the `Option` type, for the script's `None`.
- `sequences.dfy` (`Sequences`): the first position of an element in a
  sequence, used for the SEDE column lookup and for reading names back.
- `columns.dfy` (`Columns`): `validate_columns` and the required-column
  list, with the properties of the missing-column list (order,
  multiplicity, concatenation, dependence on the set of columns only).
- `destination.dfy` (`Destination`): `get_next_month_folder`, with the date
  as a parameter, and the folder path, file name and file path built from
  it. The folder name and the file name each have a parser as their
  partner: the folder name reads back as the next month and the year, and
  the file name as the site. The paths have no parser of their own; the
  joined file path is split back into folder name and file name.
- `upload.dfy` (`Upload`): the validate → create folder → upload flow.
  - The Dropbox account is a `Store` value: folders, files by path, and a
    fixed set of paths at which every request fails.
  - `Deliver` and `Process` state the flow as pure functions of the store.
    They return the outcome, the new store and the calls made.
  - The class `Storage` holds the same state as mutable fields. Its methods
    `CreateFolder` and `Upload` change it in place and log each call.
  - The methods `SaveSheet` and `Run` are the script's statement sequence
    against a `Storage`. Each is proved to do exactly what `Deliver` or
    `Process` says.

Notes on the model:

- The required list has 25 columns, VIGENCIA among them.
- The header is an ordered list, and the missing columns come back in the
  required list's order.
- A path conflict is anything in the way of the write: a folder or a file
  at the path, or a file above it. A path with a stored file below it is a
  folder too, because an upload creates the folders above its file.
  Creating the month folder treats every conflict as success. An upload
  beneath a file then fails with a write conflict
  (`Upload.FileAtFolderPathRaises`).
- The site is user text and may hold '/'. The file then goes into a
  sub-folder of the month folder, and a later upload whose path is that
  sub-folder fails with a write conflict
  (`Upload.NestedSiteBlocksLaterUpload`).
- The script has no error of its own for an empty sheet. Reading row 0 of
  an empty frame raises, so the model makes "a valid sheet has at least
  one row" a precondition (`Upload.Admissible`).
- In December the folder is named January of the *current* year. That is
  what `today.month % 12 + 1` with `year = today.year` computes, and the
  model keeps it (`Destination.DecemberFolderKeepsYear`).

## Model

| member | source | states |
|---|---|---|
| Columns.Missing | app.py:21 | A column is in the result exactly when it is required and absent from the header; the result is no longer than the required list |
| Columns.ValidateColumns | app.py:20-25 | Valid exactly when every required column is in the header; valid ⇔ no list is returned; when invalid, the list returned is the missing columns and is non-empty |
| Columns.MissingKeepsOrder | app.py:21 | The missing columns appear in the same relative order as in the required list |
| Columns.MissingMultiplicity | app.py:21 | A required name listed k times appears k times in the result if absent from the header, and 0 times if present |
| Columns.MissingOfConcat | app.py:21 | Checking a concatenation of required lists gives the concatenation of the separate results |
| Columns.MissingDependsOnlyOnColumnSet | app.py:21 | Two headers with the same set of column names miss the same columns, whatever their order or repetitions |
| Columns.EmptyHeaderMissesAll | app.py:21 | A sheet with no columns misses every required column, in order |
| Columns.ValidHeaderHasSede | app.py:58-71 | A header accepted against the required list has a SEDE column, so the SEDE lookup is defined |
| Columns.VigenciaAloneMissing | app.py:58-65 | A header with all required columns except VIGENCIA, whatever other columns it carries, is rejected with exactly ["VIGENCIA"] |
| Destination.NextMonth | app.py:30 | The result is a month 1..12; months 1..11 go to the following month, 12 goes to 1; it is the successor modulo 12 |
| Destination.DecimalText | app.py:33 | The year is written as a non-empty string of digits with no leading zero, "0" exactly for zero |
| Destination.DecimalTextRoundTrip | app.py:31-33 | The year's decimal text parses back to the year |
| Destination.MonthNumberOfName | app.py:32 | Each month name looks up to its own month number, so names identify months |
| Destination.MonthFolderNameParses | app.py:32-33 | A month's name, " - " and a year's digits read back as that month and year, and contain no '/' |
| Destination.FolderName | app.py:28-34 | The folder name parses back to (next month, current year) and is a single path segment |
| Destination.FolderNameDistinguishesMonths | app.py:28-34 | Two dates get the same folder name if and only if they have the same next month and the same year |
| Destination.DecemberFolderKeepsYear | app.py:30-33 | A December date gives January of the same year |
| Destination.MarchUploadGoesToApril | app.py:28-34 | 15 March 2024 gives "April - 2024" |
| Destination.DecemberUploadGoesToJanuarySameYear | app.py:28-34 | 10 December 2024 gives "January - 2024" |
| Destination.FolderPath | app.py:76 | The folder path is the folder name directly under the root |
| Destination.FileName | app.py:72 | The file name strips back, less ".xlsx", to the site |
| Destination.FilePath | app.py:88 | The file path is the folder path, a slash, then the file name, so the file lies inside the folder |
| Destination.FilePathSplits | app.py:76-88 | Joining the folder path and the file name splits back into the same folder name and file name |
| Destination.Resolve | app.py:71-88 | The folder, folder path, file name and file path name the next month and year, the file lies inside the folder, and its name recovers the site |
| Upload.FirstSite | app.py:71 | The site is the first row's cell in the first column named SEDE |
| Upload.CreateFolderStep | app.py:79-85 | Conflict exactly when a folder or file is at the path, a file is below it, or a file is above it; otherwise an error exactly when the path is refused; otherwise the folder is added; files never change |
| Upload.UploadStep | app.py:94 | A write conflict exactly when a folder is at the path, a file is below it (making it a folder), or a file is above it; otherwise an error exactly when refused; on success the content replaces whatever is stored at the path and nothing else changes |
| Upload.Deliver | app.py:74-96 | The folder is always requested first; a non-conflict folder error raises before any upload; otherwise the upload is made and a created folder stays whatever happens next; the sheet is saved exactly when the upload is neither blocked nor refused, and then the file is at its path; a failed upload raises its own error and leaves the files unchanged |
| Upload.FileAtFolderPathRaises | app.py:78-94 | A file where the month folder should be passes the folder step as a conflict, and the upload beneath it raises a write conflict with the store unchanged |
| Upload.NestedSiteBlocksLaterUpload | app.py:71-94 | After a sheet is saved under a site name holding '/', a later upload to the same month whose file path is a folder above that file raises a write conflict and leaves the store as it was |
| Upload.Process | app.py:54-100 | Rejected exactly when a required column is missing, reporting exactly the missing columns with no request made and nothing changed; otherwise the delivery of the sheet to its target |
| Upload.RedeliveryOverwrites | app.py:79-94 | Delivering the same sheet again after a save gives the same outcome, the same store and the same two requests; the save adds exactly the file path to the stored files |
| Upload.RepeatedRunOverwrites | app.py:54-100 | Submitting the same sheet twice on the same day leaves the store as the first save did: one file per site, overwritten |
| Upload.Storage.CreateFolder | app.py:79 | The new state and result are those of CreateFolderStep, and the request is logged |
| Upload.Storage.Upload | app.py:94 | The new state and result are those of UploadStep, and the request is logged |
| Upload.SaveSheet | app.py:70-96 | The outcome, new state and logged requests are exactly those of Deliver to the sheet's target |
| Upload.Run | app.py:54-100 | The outcome, new state and logged requests are exactly those of Process |

## Left out

- The Streamlit page is not modelled: the title, the template link, the
  file picker, and the success, error and progress messages. None of them
  affects what is stored.
- The branch with no uploaded file (app.py:101-102) is not modelled. It
  only displays a message.
- Loading `.env`, reading the access token and building the Dropbox client
  (app.py:10-17) are left out. The client is the `Storage` object given to
  `Upload.Run`.
- `share_folder` (app.py:37-43) is left out. The script never calls it.
- Reading the Excel file and `to_excel` are left out. The model receives
  the header and rows, and the serialised bytes are an opaque `content`
  parameter.
- The Dropbox service is abstract:
  - Every error other than a path conflict is the fixed `refused` path
    set.
  - Real exception types, rate limits, retries and network failures are not
    modelled.
- Upload.CreateFolderStep: paths are compared exactly, character by
  character. Dropbox compares paths without regard to case, so a folder
  "april - 2024" would conflict with "April - 2024" there but not in the
  model. Upload.UploadStep and Upload.Deliver share this limitation.
- `datetime.today()` is replaced by a `Date` parameter. The day of the
  month plays no part.
- `calendar.month_name` is locale-dependent. The model fixes the English
  names.
- Upload.Admissible: a valid sheet with no rows is excluded by
  precondition. The script raises on `df.loc[0, 'SEDE']` in that case.
- Upload.FirstSite: the SEDE cell is taken to be text. A numeric or empty
  cell would be formatted by Python, and that formatting is not modelled.
- Duplicate column names are not modelled as pandas handles them (it
  renames them on reading). A header is any list of names.
- Upload.Run: the exception that the script re-raises is modelled as an
  outcome (`Raised`), not as control leaving the script.
