/**
 * The MedVi controller: the module-level globals of the application and the
 * callbacks wired to its buttons, with the widgets, camera, dialogs, clock and
 * recognition service replaced by the values they deliver. Each callback is
 * proved to perform the corresponding `Workflow` step on the controller's
 * state and, for saving, on the reports table.
 */
module Medvi {
  import opened Wrappers
  import opened Blank
  import opened Ocr
  import opened Reports
  import opened Export
  import opened Workflow

  class Controller {
    var patientId: string
    var phoneNumber: string
    var capturedImagePath: Option<string>
    /** Content of the report text box (`output_box`). */
    var outputText: string
    /** Whether the login frame has been replaced by the dashboard. */
    var dashboardShown: bool
    /** The `reports` table behind the module-level cursor. */
    const store: ReportStore

    function State(): Session
      reads this
    {
      Session(patientId, phoneNumber, capturedImagePath, outputText, dashboardShown)
    }

    predicate Valid()
      reads this, store
    {
      Consistent(State()) && store.Valid()
    }

    /** Start-up: the globals of medvi.py:32-34, an empty box and the login
        frame, over the table the database file already holds. */
    constructor (db: ReportStore)
      requires db.Valid()
      ensures Valid() && State() == Initial && store == db
    {
      patientId, phoneNumber := "", "";
      capturedImagePath := None;
      outputText := "";
      dashboardShown := false;
      store := db;
    }

    /** `login_user`. Its button lives on the login frame, which is hidden
        once the dashboard is shown, so it is only pressed before that. */
    method LoginUser(enteredId: string, enteredPhone: string) returns (outcome: LoginOutcome)
      requires Valid() && !dashboardShown
      modifies this
      ensures Valid()
      ensures (State(), outcome) == Login(old(State()), enteredId, enteredPhone)
    {
      patientId := enteredId;
      phoneNumber := enteredPhone;
      if patientId == "" || phoneNumber == "" {
        outcome := LoginFailed;
        return;
      }
      dashboardShown := true;
      outcome := LoggedIn;
    }

    /** `capture_image`. */
    method CaptureImage(read: CameraRead, stagingFault: Option<string>) returns (outcome: CaptureOutcome)
      requires Valid()
      modifies this
      ensures Valid()
      ensures (State(), outcome) == Capture(old(State()), read, stagingFault)
    {
      match read {
        case DeviceFault(message) =>
          outcome := CaptureError(message);
        case NoFrame =>
          outcome := CaptureFailed;
        case Frame =>
          capturedImagePath := Some(StagingPath);
          if stagingFault.Some? {
            outcome := CaptureError(stagingFault.value);
          } else {
            outcome := Captured;
          }
      }
    }

    /** `button_pressed`: the hardware button's handler, a plain capture. It
        runs on the listener thread and is not gated by the login screen. */
    method ButtonPressed(read: CameraRead, stagingFault: Option<string>) returns (outcome: CaptureOutcome)
      requires Valid()
      modifies this
      ensures Valid()
      ensures (State(), outcome) == Capture(old(State()), read, stagingFault)
    {
      outcome := CaptureImage(read, stagingFault);
    }

    /** `upload_image`. This and the callbacks below sit on the dashboard
        (medvi.py:161-178), which is shown only after a successful login. */
    method UploadImage(chosen: string, previewFault: Option<string>) returns (outcome: UploadOutcome)
      requires Valid() && dashboardShown
      modifies this
      ensures Valid()
      ensures (State(), outcome) == Upload(old(State()), chosen, previewFault)
    {
      if chosen == "" {
        outcome := UploadCancelled;
        return;
      }
      capturedImagePath := Some(chosen);
      if previewFault.Some? {
        outcome := PreviewError(previewFault.value);
      } else {
        outcome := Uploaded;
      }
    }

    /** `generate_report`: delete the box's content, then insert the text. */
    method GenerateReport(recognise: Recogniser) returns (outcome: GenerateOutcome)
      requires Valid() && dashboardShown
      modifies this
      ensures Valid()
      ensures (State(), outcome) == Generate(old(State()), recognise)
    {
      if capturedImagePath.None? || capturedImagePath.value == "" {
        outcome := NoImage;
        return;
      }
      var text := ExtractTextFromImage(recognise, capturedImagePath.value);
      outputText := "";
      outputText := outputText + text;
      assert outputText == text;
      outcome := Generated;
    }

    /** The operator typing into the report box between generating and saving. */
    method EditReport(text: string)
      requires Valid() && dashboardShown
      modifies this
      ensures Valid()
      ensures State() == old(State()).(report := text)
    {
      outputText := text;
    }

    /** `save_to_db`: `now` is the formatted clock reading. */
    method SaveToDb(now: string) returns (outcome: SaveOutcome)
      requires Valid() && dashboardShown
      modifies store
      ensures Valid()
      ensures State() == old(State())
      ensures (store.Contents(), outcome) == Save(State(), old(store.Contents()), now)
      ensures outcome.Saved? ==> (|store.records| == |old(store.records)| + 1 &&
        store.records[|old(store.records)|].row.patientId != "" &&
        store.records[|old(store.records)|].row.phoneNumber != "")
    {
      var box := outputText + "\n";
      if capturedImagePath.None? || capturedImagePath.value == "" || IsBlank(box) {
        outcome := EmptyFields;
        return;
      }
      var id := store.Append(Row(patientId, phoneNumber, now, capturedImagePath.value, box));
      match id {
        case None => outcome := StoreFull;
        case Some(n) => outcome := Saved(n);
      }
    }

    /** `download_report`: `chosen` is what the save dialog returned. Changes
        neither the session nor the table. */
    method DownloadReport(chosen: string) returns (outcome: DownloadOutcome)
      requires Valid() && dashboardShown
      ensures outcome == Download(State(), chosen)
    {
      var box := outputText + "\n";
      if IsBlank(box) {
        outcome := NoReport;
        return;
      }
      if chosen == "" {
        outcome := DownloadCancelled;
        return;
      }
      var header := IdLabel + patientId + "\n" + PhoneLabel + phoneNumber + "\n\n";
      outcome := Written(chosen, header + box);
    }
  }
}
