/**
 * The confirmation request models: what a client sends to create, edit,
 * submit and export a confirmation, with the defaults a body that omits a
 * field receives.
 */
module ConfirmationModels {
  import opened Wrappers
  import opened Values

  /** `trial_id` and `confirmation_type` are required; `due_date` and `notes` are optional. */
  datatype ConfirmationCreate = ConfirmationCreate(
    trialId: Uuid,
    confirmationType: string,
    dueDate: Option<Date>,
    notes: Option<string>)

  /**
   * A confirmation update as dumped with `exclude_unset`: it names only the
   * due date and the notes, so an update never changes the status, the type
   * or the trial.
   */
  datatype ConfirmationUpdate = ConfirmationUpdate(dueDate: Patch<Date>, notes: Patch<string>)

  datatype ConfirmationSubmit = ConfirmationSubmit(notes: Option<string>, captureSnapshots: bool)

  /** The body `{}`: no notes, and snapshots are captured. */
  function DefaultSubmit(): (r: ConfirmationSubmit)
    ensures r.notes.None? && r.captureSnapshots
  {
    ConfirmationSubmit(None, true)
  }

  datatype ExportRequest = ExportRequest(
    confirmationId: Uuid,
    exportFormat: string,
    includeSnapshots: bool,
    includeValidationDetails: bool)

  /** A body naming only the confirmation: a PDF including snapshots and validation details. */
  function DefaultExportRequest(confirmationId: Uuid): (r: ExportRequest)
    ensures r.confirmationId == confirmationId && r.exportFormat == "PDF"
    ensures r.includeSnapshots && r.includeValidationDetails
  {
    ExportRequest(confirmationId, "PDF", true, true)
  }

  /** What `generate_export` answers. */
  datatype ExportResponse = ExportResponse(
    exportId: Uuid,
    confirmationId: Uuid,
    exportFormat: string,
    status: string,
    fileName: Option<string>,
    fileSizeBytes: Option<int>,
    downloadUrl: Option<string>,
    generatedAt: DateTime,
    expiresAt: Option<DateTime>)
}
