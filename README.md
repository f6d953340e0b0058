# MedVi session and report workflow, modelled in Dafny

MedVi is a small desktop tool. A clinic operator logs in with a patient id
and phone number. The operator then takes an image of a handwritten note
with the webcam, with a hardware button, or by uploading a file. The image
goes to a handwriting-recognition service. The recognised text appears in a
text box, where the operator can edit it. Finally the operator saves it to a
local `reports` table or downloads it as a text file.

This project models that workflow without the GUI, camera, database engine
or network:

- `Workflow` (workflow.dfy) gives each callback as a pure step on a
  `Session` value. The session holds the patient id, phone number, current
  image path, text-box content and whether the dashboard is shown. Each step
  takes the values the outside world supplied (entry fields, camera read,
  dialog path, recognition reply, clock) and returns the new state and the
  message the operator would see.
- `Medvi.Controller` (medvi.dfy) is the application's module-level state
  written as a class. Its fields are updated in place by one method per
  callback. Each method is proved to perform the matching `Workflow` step
  and to keep the invariant `Consistent`.
- `Reports` (reports.dfy) models the `reports` table. It is an append-only
  sequence of records plus SQLite's AUTOINCREMENT counter, as a value and as
  the `ReportStore` class.
- `Ocr` (ocr.dfy) models the recognition wrapper that never raises.
  `Export` (export.dfy) models the download file format and a reader that
  gives back what was written. `Blank` (blank.dfy) models Python's
  `str.strip()`, which the blank-report guards use.

Things the model follows exactly as the code has them:

- A failed login still overwrites the stored patient id and phone number.
  Only the dashboard stays hidden.
- A new capture or upload replaces the image path but leaves the report box
  as it was. The old report is not cleared.
- Tk's `Text.get("1.0", END)` always appends one newline. So the text stored
  by saving, and written by downloading, is the box content plus `"\n"`
  (`BoxText`). In the P100 scenario the stored text is therefore
  `"Blood pressure 120/80\n"`.
- Both the camera path and the upload path are assigned before the preview
  is drawn. An exception while writing the frame or drawing the preview
  still leaves the new path current. The model has `stagingFault` and
  `previewFault` parameters for this.
- Downloading needs non-blank report text but no image. Saving needs both.
- medvi.py:126-127 is mis-indented and would not parse as written. The
  model follows the evident intent there: warn, then return.
- The login button sits on the login frame, which is hidden once the
  dashboard is shown. So `Controller.LoginUser` requires that the dashboard
  is not shown yet. The upload, generate, save and download buttons and the
  report box sit on the dashboard, so their methods require that it is
  shown. The hardware button is wired up at start-up, so capture can happen
  before login.

## Model

| member | source | states |
|---|---|---|
| `Blank.TrimStart` | medvi.py:115 | the result is a suffix of the input that does not start with whitespace, and everything removed is whitespace |
| `Blank.TrimEnd` | medvi.py:115 | the result is a prefix of the input that does not end with whitespace, and everything removed is whitespace |
| `Blank.Strip` | medvi.py:115 | `strip()` gives the middle slice of its input left after removing only whitespace at both ends; that slice is empty or starts and ends with non-whitespace |
| `Blank.StripEmptyIffAllSpace` | medvi.py:115 | `s.strip() == ""` holds exactly when every character of `s` is Python whitespace |
| `Blank.BlankIffAllSpace` | medvi.py:125 | the blank test used by save and download holds exactly when the text is all whitespace |
| `Blank.BlankIgnoresFinalNewline` | medvi.py:115 | the newline Tk appends when the box is read never changes the outcome of the blank test |
| `Ocr.ExtractTextFromImage` | medvi.py:37-49 | the wrapper returns the service's text on success; on any exception it returns `"Error extracting text: "` followed by the message, which can be read back after the prefix |
| `Ocr.DiagnosticNeverBlank` | medvi.py:48-49 | the diagnostic for a failed call is never blank, even with an empty message and with Tk's newline |
| `Reports.NextId` | medvi.py:22 | AUTOINCREMENT gives an id above the counter (the largest id ever handed out, so no id is reused), above every existing id and at most 2^63-1; no id exists exactly when the counter is exhausted |
| `Reports.Insert` | medvi.py:119-121 | an INSERT keeps the table valid, keeps every earlier record, adds exactly one record with the given row and the fresh id, and moves the counter to that id; with no id left the table is unchanged |
| `Reports.InsertTwiceNoDedup` | medvi.py:119-121 | inserting twice gives two records with the given rows and strictly increasing ids; nothing is merged |
| `Reports.ReportStore.Open` | medvi.py:19-29 | opening keeps the table already on disk (`CREATE TABLE IF NOT EXISTS`) |
| `Reports.ReportStore.Append` | medvi.py:119-121 | the in-place insert returns `NextId` of the old table and leaves exactly `Insert` of the old table |
| `Export.ExportText` | medvi.py:131-132 | the file starts with `"Patient ID: "`, ends with the report body, and is the header and body lengths long |
| `Export.ExportRoundTrip` | medvi.py:131-132 | parsing a rendered file gives back the patient id, phone and body, provided the two ids contain no newline |
| `Workflow.Login` | medvi.py:52-60 | id and phone are always overwritten; login fails exactly when either is empty; the dashboard is shown after exactly a success, or if it already was; image and report are untouched; the invariant holds from the login screen |
| `Workflow.EmptyFieldLoginStaysOut` | medvi.py:54-58 | from the login screen, an empty field leaves the dashboard hidden and changes only the stored id and phone |
| `Workflow.Capture` | medvi.py:66-79 | a read frame sets the image to `"captured_image.jpg"`; no frame or a device exception leaves the image unchanged; report, id and phone are never touched; an exception after the path is assigned (frame write or preview) is reported but the path is still set |
| `Workflow.Upload` | medvi.py:99-104 | a cancelled dialog changes nothing; a chosen path replaces the current image and nothing else; a preview failure is reported after the path is set |
| `Workflow.Generate` | medvi.py:106-112 | with no image nothing changes and the recogniser is not consulted; otherwise the report box is replaced entirely by the wrapper's text for the current image |
| `Workflow.GenerateReadsLatestImage` | medvi.py:66-112 | after an upload, or a capture with no fault after the read, generating hands the recogniser only the newly set path, whatever was current before |
| `Workflow.Save` | medvi.py:114-121 | with no image or a blank box (and only then) the table is unchanged with a warning; with both and an id left the save happens: the new table is exactly `Insert` of the old one with the session's id, phone, timestamp, image path and box text, and the reported id is `NextId` of the old table; with ids exhausted the table is unchanged |
| `Workflow.CanSaveIff` | medvi.py:115 | saving is allowed exactly when there is an image and the box content is not blank |
| `Workflow.SaveTwiceTwoRecords` | medvi.py:114-121 | saving twice appends two records with increasing ids that are identical apart from id and timestamp |
| `Workflow.FailedRecognitionIsSaved` | medvi.py:106-121 | after a failed recognition, generate puts the diagnostic in the box and save stores it verbatim, with Tk's newline |
| `Workflow.SavedFromDashboardNamesPatient` | medvi.py:114-120 | in a reachable dashboard state, every saved record has a non-empty patient id and phone |
| `Workflow.Download` | medvi.py:124-133 | a blank box means no report; otherwise a cancelled dialog means no file; otherwise the chosen path gets the header and the box text |
| `Workflow.DownloadReadsBack` | medvi.py:124-133 | two downloads of the same state write identical content, and that content reads back as the session's id, phone and box text |
| `Workflow.EndToEndScenario` | medvi.py:52-121 | login as P100, upload, recognise "Blood pressure 120/80", save into an empty table: exactly one record, id 1, for P100 and that text |
| `Medvi.Controller.constructor` | medvi.py:31-34 | start-up state: empty id and phone, no image, empty box, login screen |
| `Medvi.Controller.LoginUser` | medvi.py:52-60 | performs `Workflow.Login` on the fields and keeps `Consistent` |
| `Medvi.Controller.CaptureImage` | medvi.py:66-79 | performs `Workflow.Capture` on the fields and keeps `Consistent` |
| `Medvi.Controller.ButtonPressed` | medvi.py:81-82 | a hardware button press is exactly a capture |
| `Medvi.Controller.UploadImage` | medvi.py:99-104 | performs `Workflow.Upload` on the fields and keeps `Consistent` |
| `Medvi.Controller.GenerateReport` | medvi.py:106-112 | clearing and then refilling the box performs `Workflow.Generate` |
| `Medvi.Controller.EditReport` | medvi.py:171 | the operator's edits to the box change only the report text |
| `Medvi.Controller.SaveToDb` | medvi.py:114-122 | the session fields are unchanged and the table becomes what `Workflow.Save` gives; a successful save appends one record, and it names a patient and a phone number |
| `Medvi.Controller.DownloadReport` | medvi.py:124-133 | the result is `Workflow.Download` of the current state, with no change to session or table |

## Left out

- Tk widgets, layout, colours and the `show_dashboard` geometry are not modelled. Message boxes become the outcome tags of each step.
- The `update_preview` thumbnail is not modelled. Only its failure is kept, as the `stagingFault` and `previewFault` parameters.
- OpenCV camera access is not modelled, because it is a device driver. `VideoCapture`, `read`, `release` and `imwrite` become the `CameraRead` input.
- The Gemini SDK, the API key setup and reading the image bytes are not modelled, because they are network and file I/O. Their combined effect is a `Recogniser` parameter: a function from the image path to a reply or an exception message.
- The SQLite engine, the connection, `commit` and I/O failures of the database are not modelled. The table is a value with an AUTOINCREMENT counter, and the `SQLITE_FULL` case is kept.
- `datetime.now().strftime(...)` is not modelled, because it is a clock. The formatted timestamp is a parameter.
- File dialogs are not modelled. Their result is a path parameter, and `""` means cancelled. The dialogs' file-type filters are not modelled either, so any path may be chosen.
- The file write in `download_report` and its I/O errors are not modelled. The step returns the path and the string passed to `f.write`. `open(save_path, "w")` (medvi.py:130) encodes that string with the locale's encoding and translates `"\n"` to the platform's line ending, so the bytes on disk may differ from it; the model does not capture this.
- `Workflow.GenerateReadsLatestImage`: the recogniser is keyed by path, so the model assumes the staging file `captured_image.jpg` holds the newly read frame. A failed `cv2.imwrite`, silent (returning False) or raising, leaves the previous frame under the same path, and the next generate would then send that old frame; the model does not capture this.
- The GPIO `Button(17)` listener thread, `pause()` and the printed button error are not modelled, because they are concurrency and hardware. A button press is another call to capture.
- The model does not capture the interleaving of the listener thread's captures with Tk callbacks. Each callback runs as one atomic step. The source holds no lock around camera access, so concurrent captures are not serialised there.
