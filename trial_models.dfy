/**
 * The trial and trial-system link request models: field constraints,
 * defaults, and the fields an update payload can touch.
 */
module TrialModels {
  import opened Wrappers
  import opened Values
  import opened DbModels

  /** The `trial_status` a create request defaults to. */
  const RequestTrialStatus: string := "ACTIVE"

  /** The request default is not the column default, so the column default never applies. */
  lemma RequestStatusOverridesColumnDefault()
    ensures RequestTrialStatus != DefaultTrialStatus
  {
  }

  /** Everything `model_dump()` writes into a new `trials` row. */
  datatype TrialCreate = TrialCreate(
    protocolNumber: string,
    trialTitle: Option<string>,
    trialPhase: Option<string>,
    trialStatus: string,
    therapeuticArea: Option<string>,
    trialStartDate: Option<Date>,
    trialCloseDate: Option<Date>,
    trialLeadName: Option<string>,
    trialLeadEmail: Option<string>,
    ctmsTrialId: Option<string>)
  {
    /** What a request body must satisfy to reach the service. */
    predicate Valid()
    {
      && 1 <= |protocolNumber| <= 50
      && AtMost(trialTitle, 500)
      && AtMost(therapeuticArea, 100)
      && AtMost(trialLeadName, 200)
      && AtMost(trialLeadEmail, 200)
      && AtMost(ctmsTrialId, 100)
    }
  }

  /** A body holding only the required `protocol_number`: the defaults fill the rest. */
  function MinimalTrialCreate(protocolNumber: string): (r: TrialCreate)
    ensures r.protocolNumber == protocolNumber && r.trialStatus == RequestTrialStatus
    ensures r.trialTitle.None? && r.trialPhase.None? && r.therapeuticArea.None?
    ensures r.trialStartDate.None? && r.trialCloseDate.None?
    ensures r.trialLeadName.None? && r.trialLeadEmail.None? && r.ctmsTrialId.None?
    ensures 1 <= |protocolNumber| <= 50 ==> r.Valid()
  {
    TrialCreate(protocolNumber, None, None, RequestTrialStatus, None, None, None, None, None, None)
  }

  /**
   * A trial update as dumped with `exclude_unset`. It has no
   * `protocol_number`, so no update can change a trial's protocol.
   */
  datatype TrialUpdate = TrialUpdate(
    trialTitle: Patch<string>,
    trialPhase: Patch<string>,
    trialStatus: Patch<string>,
    therapeuticArea: Patch<string>,
    trialStartDate: Patch<Date>,
    trialCloseDate: Patch<Date>,
    trialLeadName: Patch<string>,
    trialLeadEmail: Patch<string>,
    ctmsTrialId: Patch<string>,
    nextConfirmationDue: Patch<Date>)
  {
    predicate Valid()
    {
      && PatchAtMost(trialTitle, 500)
      && PatchAtMost(therapeuticArea, 100)
      && PatchAtMost(trialLeadName, 200)
      && PatchAtMost(trialLeadEmail, 200)
      && PatchAtMost(ctmsTrialId, 100)
    }

    /** The payload writes null into `trial_title` or `trial_status`, both NOT NULL. */
    predicate NullsRequiredColumn()
    {
      trialTitle.SetNull? || trialStatus.SetNull?
    }
  }

  /** The body of `link_system`. */
  datatype SystemLinkCreate = SystemLinkCreate(
    instanceId: Uuid,
    criticalityCode: string,
    criticalityOverrideReason: Option<string>,
    usageStartDate: Option<Date>,
    usageEndDate: Option<Date>)
  {
    predicate Valid()
    {
      AtMost(criticalityOverrideReason, 500)
    }
  }

  /**
   * A link update as dumped with `exclude_unset`. It names neither
   * `trial_id` nor `instance_id`, so a link never moves to another pair.
   */
  datatype SystemLinkUpdate = SystemLinkUpdate(
    assignmentStatus: Patch<string>,
    criticalityCode: Patch<string>,
    criticalityOverrideReason: Patch<string>,
    usageStartDate: Patch<Date>,
    usageEndDate: Patch<Date>)
  {
    predicate Valid()
    {
      PatchAtMost(criticalityOverrideReason, 500)
    }

    /** The payload writes null into a NOT NULL link column. */
    predicate NullsRequiredColumn()
    {
      assignmentStatus.SetNull? || criticalityCode.SetNull? || usageStartDate.SetNull?
    }
  }
}
