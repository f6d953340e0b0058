/**
 * The session workflow of the MedVi report generator as pure state steps.
 * A `Session` is the application's module-level state (`patient_id`,
 * `phone_number`, `captured_image_path`), the text shown in the report box
 * and whether the dashboard is shown. Each operation takes the state and the
 * values the outside world supplied (entry fields, camera read, dialog path,
 * recognition reply, clock) and gives the new state and the message the
 * operator sees. The `Medvi.Controller` class is proved against these steps.
 */
module Workflow {
  import opened Wrappers
  import opened Blank
  import opened Ocr
  import opened Reports
  import opened Export

  /** `report` is the text box's content; reading it back through Tk's
      `get("1.0", END)` yields that content followed by one newline. */
  datatype Session = Session(patientId: string, phoneNumber: string,
                             imagePath: Option<string>, report: string,
                             dashboard: bool)

  /** Start-up state: empty identifiers, no image, empty box, login screen. */
  const Initial: Session := Session("", "", None, "", false)

  /** Where a camera frame is staged (medvi.py:73). */
  const StagingPath: string := "captured_image.jpg"

  /** The text box as `output_box.get("1.0", tk.END)` returns it. */
  function BoxText(report: string): string {
    report + "\n"
  }

  /** Python truthiness of `captured_image_path`: neither None nor "". */
  predicate HasImage(s: Session) {
    s.imagePath.Some? && s.imagePath.value != ""
  }

  /** What every reachable state satisfies: a current image path is never
      empty, and the dashboard is shown only for a non-empty id and phone. */
  predicate Consistent(s: Session) {
    (s.imagePath.Some? ==> s.imagePath.value != "") &&
    (s.dashboard ==> s.patientId != "" && s.phoneNumber != "")
  }

  // ---------------------------------------------------------------- login

  datatype LoginOutcome = LoggedIn | LoginFailed

  /** `login_user`: the entries are stored first, then checked. */
  function Login(s: Session, enteredId: string, enteredPhone: string): (r: (Session, LoginOutcome))
    ensures r.0.patientId == enteredId && r.0.phoneNumber == enteredPhone
    ensures r.1 == LoginFailed <==> (enteredId == "" || enteredPhone == "")
    ensures r.0.dashboard == (s.dashboard || r.1 == LoggedIn)
    ensures r.0.imagePath == s.imagePath && r.0.report == s.report
    ensures Consistent(s) && !s.dashboard ==> Consistent(r.0)
  {
    var stored := s.(patientId := enteredId, phoneNumber := enteredPhone);
    if enteredId == "" || enteredPhone == "" then (stored, LoginFailed)
    else (stored.(dashboard := true), LoggedIn)
  }

  // -------------------------------------------------------------- capture

  /** What opening the camera and reading one frame produced. */
  datatype CameraRead = Frame | NoFrame | DeviceFault(message: string)

  datatype CaptureOutcome = Captured | CaptureFailed | CaptureError(message: string)

  /** `capture_image` (and `button_pressed`, which only calls it).
      `stagingFault` is an exception raised while writing the frame or
      drawing the preview, i.e. after the path has already been assigned. */
  function Capture(s: Session, read: CameraRead, stagingFault: Option<string>): (r: (Session, CaptureOutcome))
    ensures r.0 == s.(imagePath := if read == Frame then Some(StagingPath) else s.imagePath)
    ensures r.1 == Captured <==> read == Frame && stagingFault == None
    ensures r.1 == CaptureFailed <==> read == NoFrame
    ensures read.DeviceFault? ==> r.1 == CaptureError(read.message)
    ensures read == Frame && stagingFault.Some? ==> r.1 == CaptureError(stagingFault.value)
    ensures Consistent(s) ==> Consistent(r.0)
  {
    match read
    case DeviceFault(message) => (s, CaptureError(message))
    case NoFrame => (s, CaptureFailed)
    case Frame =>
      var captured := s.(imagePath := Some(StagingPath));
      match stagingFault
      case None => (captured, Captured)
      case Some(message) => (captured, CaptureError(message))
  }

  // --------------------------------------------------------------- upload

  datatype UploadOutcome = Uploaded | UploadCancelled | PreviewError(message: string)

  /** `upload_image`: `chosen` is what the open dialog returned ("" when
      cancelled); `previewFault` is an exception from the preview, raised
      after the path has been assigned. */
  function Upload(s: Session, chosen: string, previewFault: Option<string>): (r: (Session, UploadOutcome))
    ensures chosen == "" ==> r == (s, UploadCancelled)
    ensures chosen != "" ==> r.0 == s.(imagePath := Some(chosen))
    ensures r.1 == Uploaded <==> chosen != "" && previewFault == None
    ensures chosen != "" && previewFault.Some? ==> r.1 == PreviewError(previewFault.value)
    ensures Consistent(s) ==> Consistent(r.0)
  {
    if chosen == "" then (s, UploadCancelled)
    else
      var uploaded := s.(imagePath := Some(chosen));
      match previewFault
      case None => (uploaded, Uploaded)
      case Some(message) => (uploaded, PreviewError(message))
  }

  // ------------------------------------------------------------- generate

  datatype GenerateOutcome = Generated | NoImage

  /** `generate_report`: with an image, the box is cleared and refilled with
      whatever the recognition wrapper returns; without one, nothing happens
      and the recogniser is not consulted. */
  function Generate(s: Session, recognise: Recogniser): (r: (Session, GenerateOutcome))
    ensures !HasImage(s) ==> r == (s, NoImage)
    ensures HasImage(s) ==> (r.1 == Generated &&
      r.0 == s.(report := ExtractTextFromImage(recognise, s.imagePath.value)))
    ensures Consistent(s) ==> Consistent(r.0)
  {
    if !HasImage(s) then (s, NoImage)
    else
      var text := ExtractTextFromImage(recognise, s.imagePath.value);
      (s.(report := "").(report := text), Generated)
  }

  // ----------------------------------------------------------------- save

  datatype SaveOutcome = Saved(id: int) | EmptyFields | StoreFull

  /** The guard of `save_to_db`: an image and a box that is not blank. */
  predicate CanSave(s: Session) {
    HasImage(s) && !IsBlank(BoxText(s.report))
  }

  /** The row `save_to_db` inserts at time `now`. */
  function SavedRow(s: Session, now: string): Row
    requires HasImage(s)
  {
    Row(s.patientId, s.phoneNumber, now, s.imagePath.value, BoxText(s.report))
  }

  /** `save_to_db`: the session is not touched; the table gains one record
      holding the session's fields and a fresh id, or stays as it was. */
  function Save(s: Session, t: Table, now: string): (r: (Table, SaveOutcome))
    requires ValidTable(t)
    ensures ValidTable(r.0)
    ensures !CanSave(s) ==> r == (t, EmptyFields)
    ensures r.1.Saved? ==> (CanSave(s) &&
      r.0.records == t.records + [Record(r.1.id, SavedRow(s, now))] &&
      forall i :: 0 <= i < |t.records| ==> t.records[i].id < r.1.id)
    ensures r.1.Saved? ==> r.0 == Insert(t, SavedRow(s, now)) && r.1 == Saved(NextId(t).value)
    ensures r.1 == EmptyFields <==> !CanSave(s)
    ensures CanSave(s) && t.lastId < MaxRowId ==> r.1.Saved?
    ensures r.1 == StoreFull <==> CanSave(s) && t.lastId == MaxRowId
    ensures r.1 == StoreFull ==> r.0 == t
  {
    if !HasImage(s) || IsBlank(BoxText(s.report)) then (t, EmptyFields)
    else
      match NextId(t)
      case None => (t, StoreFull)
      case Some(id) => (Insert(t, SavedRow(s, now)), Saved(id))
  }

  /** The save guard in terms of the box as the operator sees it. */
  lemma CanSaveIff(s: Session)
    ensures CanSave(s) <==> HasImage(s) && !IsBlank(s.report)
  {
    BlankIgnoresFinalNewline(s.report);
  }

  // ------------------------------------------------------------- download

  datatype DownloadOutcome = NoReport | DownloadCancelled | Written(path: string, content: string)

  /** `download_report`: `chosen` is what the save dialog returned ("" when
      cancelled). It needs report text but, unlike saving, no image. */
  function Download(s: Session, chosen: string): (r: DownloadOutcome)
    ensures r == NoReport <==> IsBlank(s.report)
    ensures r == DownloadCancelled <==> !IsBlank(s.report) && chosen == ""
    ensures r.Written? ==> (r.path == chosen &&
      r.content == ExportText(s.patientId, s.phoneNumber, BoxText(s.report)))
  {
    BlankIgnoresFinalNewline(s.report);
    if IsBlank(BoxText(s.report)) then NoReport
    else if chosen == "" then DownloadCancelled
    else Written(chosen, ExportText(s.patientId, s.phoneNumber, BoxText(s.report)))
  }

  // ------------------------------------------------------------- properties

  /** Only the most recent acquisition counts: generating after an upload or
      a capture whose frame was staged without fault hands the recogniser the
      newly set path, whatever was current before. This is about the path:
      the recogniser is keyed by path, so the content behind the staging path
      is whatever the last successful frame write left there. */
  lemma GenerateReadsLatestImage(s: Session, recognise: Recogniser, chosen: string,
                                 previewFault: Option<string>, stagingFault: Option<string>)
    ensures chosen != "" ==>
      Generate(Upload(s, chosen, previewFault).0, recognise).0.report ==
      ExtractTextFromImage(recognise, chosen)
    ensures stagingFault == None ==>
      Generate(Capture(s, Frame, stagingFault).0, recognise).0.report ==
      ExtractTextFromImage(recognise, StagingPath)
  {
  }

  /** Saving twice with no change in between stores two records that differ
      only in id and timestamp, the second with the larger id. */
  lemma {:induction false} SaveTwiceTwoRecords(s: Session, t: Table, now1: string, now2: string)
    requires ValidTable(t) && CanSave(s) && t.lastId + 2 <= MaxRowId
    ensures var (t1, o1) := Save(s, t, now1);
            var (t2, o2) := Save(s, t1, now2);
            o1.Saved? && o2.Saved? && o1.id < o2.id &&
            |t2.records| == |t.records| + 2 &&
            t2.records[..|t.records|] == t.records &&
            t2.records[|t.records|] == Record(o1.id, SavedRow(s, now1)) &&
            t2.records[|t.records| + 1] == Record(o2.id, SavedRow(s, now2)) &&
            SavedRow(s, now1).(timestamp := now2) == SavedRow(s, now2)
  {
    var (t1, o1) := Save(s, t, now1);
    var (t2, o2) := Save(s, t1, now2);
    assert t1.lastId == t.lastId + 1;
    assert t2.records == t.records + [Record(o1.id, SavedRow(s, now1))] + [Record(o2.id, SavedRow(s, now2))];
  }

  /** A recognition failure does not block saving: generate puts the
      diagnostic in the box, and save then stores it verbatim. */
  lemma FailedRecognitionIsSaved(s: Session, recognise: Recogniser, t: Table, now: string)
    requires HasImage(s) && recognise(s.imagePath.value).Raised?
    requires ValidTable(t) && t.lastId < MaxRowId
    ensures var g := Generate(s, recognise).0;
            var (t1, o) := Save(g, t, now);
            o.Saved? && |t1.records| == |t.records| + 1 &&
            t1.records[|t.records|].row.extractedText ==
              ErrorPrefix + recognise(s.imagePath.value).message + "\n"
  {
    DiagnosticNeverBlank(recognise, s.imagePath.value);
  }

  /** Every record saved from the dashboard of a reachable state names a
      patient: its id and phone are non-empty. */
  lemma SavedFromDashboardNamesPatient(s: Session, t: Table, now: string)
    requires Consistent(s) && s.dashboard && ValidTable(t)
    ensures var (t1, o) := Save(s, t, now);
            o.Saved? ==> t1.records[|t.records|].row.patientId != "" &&
                         t1.records[|t.records|].row.phoneNumber != ""
  {
  }

  /** Downloading is a function of the session: any two downloads that
      write a file write the same content, which reads back as the session's
      identifiers and the box text when the identifiers are single-line. */
  lemma DownloadReadsBack(s: Session, chosen1: string, chosen2: string)
    requires Download(s, chosen1).Written? && Download(s, chosen2).Written?
    requires '\n' !in s.patientId && '\n' !in s.phoneNumber
    ensures Download(s, chosen1).content == Download(s, chosen2).content
    ensures ParseExport(Download(s, chosen1).content) ==
      Some(Exported(s.patientId, s.phoneNumber, BoxText(s.report)))
  {
    ExportRoundTrip(s.patientId, s.phoneNumber, BoxText(s.report));
  }

  /** A stand-in for the recognition service that reads every image the same. */
  function BloodPressureNote(imagePath: string): Reply {
    Recognised("Blood pressure 120/80")
  }

  /** Log in as P100, upload a note, recognise "Blood pressure 120/80", save
      into an empty table: one record, for P100, holding that text as read
      back from the box (with Tk's final newline). */
  lemma EndToEndScenario(now: string)
    ensures var (s1, o1) := Login(Initial, "P100", "5551234");
            var (s2, o2) := Upload(s1, "note.jpg", None);
            var (s3, o3) := Generate(s2, BloodPressureNote);
            var (t, o4) := Save(s3, EmptyTable, now);
            o1 == LoggedIn && o2 == Uploaded && o3 == Generated && o4 == Saved(1) &&
            t.records == [Record(1, Row("P100", "5551234", now, "note.jpg", "Blood pressure 120/80" + "\n"))]
  {
    var (s1, o1) := Login(Initial, "P100", "5551234");
    assert s1 == Session("P100", "5551234", None, "", true);
    var (s2, o2) := Upload(s1, "note.jpg", None);
    assert s2 == Session("P100", "5551234", Some("note.jpg"), "", true);
    var (s3, o3) := Generate(s2, BloodPressureNote);
    assert s3 == Session("P100", "5551234", Some("note.jpg"), "Blood pressure 120/80", true);
    NotBlankWitness(BoxText(s3.report), 0);
    var (t, o4) := Save(s3, EmptyTable, now);
    assert o4 == Saved(1) && t.records == [Record(1, SavedRow(s3, now))];
  }

  /** Logging in with an empty field from the login screen leaves the
      dashboard hidden, so the failed attempt opens no session. */
  lemma EmptyFieldLoginStaysOut(s: Session, enteredId: string, enteredPhone: string)
    requires !s.dashboard && (enteredId == "" || enteredPhone == "")
    ensures Login(s, enteredId, enteredPhone) == (s.(patientId := enteredId, phoneNumber := enteredPhone), LoginFailed)
  {
  }
}
