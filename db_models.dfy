/**
 * The CTSR tables: one datatype per row shape, the constraints the database
 * enforces on each table, the column defaults, and the `Session` that holds
 * every table a service call reads or writes.
 *
 * NOT NULL columns are plain fields, nullable columns are `Option` fields;
 * generated identifiers and server-side timestamps are supplied by callers.
 */
module DbModels {
  import opened Wrappers
  import opened Values
  import opened Exceptions
  import opened Seqs

  /**
   * What a service call returns and the tables it leaves committed; after an
   * error the transaction is rolled back and the tables are the old ones.
   */
  datatype Outcome<T, S> = Outcome(result: Result<T>, after: S)

  // ---------------------------------------------------------------------------
  // Lookup tables
  // ---------------------------------------------------------------------------

  datatype SystemCategory = SystemCategory(
    categoryCode: string,
    categoryName: string,
    description: Option<string>,
    defaultCriticality: string,
    sortOrder: int,
    isActive: bool)

  datatype ValidationStatus = ValidationStatus(
    statusCode: string,
    statusName: string,
    description: Option<string>,
    requiresAttention: bool,
    sortOrder: int,
    isActive: bool)

  datatype Criticality = Criticality(
    criticalityCode: string,
    criticalityName: string,
    description: Option<string>,
    sortOrder: int,
    isActive: bool)

  // ---------------------------------------------------------------------------
  // Core tables
  // ---------------------------------------------------------------------------

  datatype Vendor = Vendor(
    vendorId: Uuid,
    vendorCode: string,
    vendorName: string,
    vendorType: string,
    contactName: Option<string>,
    contactEmail: Option<string>,
    isActive: bool,
    createdAt: DateTime,
    updatedAt: DateTime,
    createdBy: Option<string>,
    updatedBy: Option<string>)

  /** One element of the JSONB `interfaces` list of a system instance. */
  datatype Interface = Interface(systemName: string, direction: string, dataType: Option<string>)

  datatype SystemInstance = SystemInstance(
    instanceId: Uuid,
    instanceCode: string,
    platformVendorId: Option<Uuid>,
    serviceProviderId: Option<Uuid>,
    categoryCode: string,
    platformName: string,
    platformVersion: Option<string>,
    instanceName: Option<string>,
    instanceEnvironment: string,
    validationStatusCode: string,
    validationDate: Option<Date>,
    validationExpiry: Option<Date>,
    validationEvidenceLink: Option<string>,
    hostingModel: Option<string>,
    dataHostingRegion: Option<string>,
    description: Option<string>,
    supportedStudies: Option<seq<string>>,
    interfaces: Option<seq<Interface>>,
    part11Compliant: Option<bool>,
    annex11Compliant: Option<bool>,
    soc2Certified: Option<bool>,
    iso27001Certified: Option<bool>,
    lastMajorChangeDate: Option<Date>,
    lastMajorChangeDesc: Option<string>,
    nextPlannedChangeDate: Option<Date>,
    nextPlannedChangeDesc: Option<string>,
    isActive: bool,
    createdAt: DateTime,
    updatedAt: DateTime,
    createdBy: Option<string>,
    updatedBy: Option<string>)

  datatype Trial = Trial(
    trialId: Uuid,
    protocolNumber: string,
    trialTitle: string,
    trialPhase: Option<string>,
    trialStatus: string,
    therapeuticArea: Option<string>,
    indication: Option<string>,
    trialStartDate: Option<Date>,
    plannedDbLockDate: Option<Date>,
    actualDbLockDate: Option<Date>,
    trialCloseDate: Option<Date>,
    trialLeadName: Option<string>,
    trialLeadEmail: Option<string>,
    ctmsTrialId: Option<string>,
    lastCtmsSync: Option<DateTime>,
    nextConfirmationDue: Option<Date>,
    createdAt: DateTime,
    updatedAt: DateTime)

  datatype TrialSystemLink = TrialSystemLink(
    linkId: Uuid,
    trialId: Uuid,
    instanceId: Uuid,
    assignmentStatus: string,
    criticalityCode: string,
    criticalityOverrideReason: Option<string>,
    usageStartDate: Date,
    usageEndDate: Option<Date>,
    linkedBy: Option<string>,
    linkedAt: DateTime,
    unlinkedBy: Option<string>,
    unlinkedAt: Option<DateTime>,
    createdAt: DateTime,
    updatedAt: DateTime)

  datatype Confirmation = Confirmation(
    confirmationId: Uuid,
    trialId: Uuid,
    confirmationType: string,
    confirmationStatus: string,
    dueDate: Option<Date>,
    confirmedDate: Option<Date>,
    confirmedBy: Option<string>,
    notes: Option<string>,
    systemsCount: Option<int>,
    validationAlertsCount: Option<int>,
    exportGenerated: bool,
    exportId: Option<Uuid>,
    createdAt: DateTime)

  /**
   * The keys of a snapshot's `instance_state` dictionary; each constructor
   * stands for its snake-case key (`StateInstanceCode` for `"instance_code"`).
   */
  datatype SnapshotField =
    | StateInstanceCode | StatePlatformName | StatePlatformVersion | StateCategoryCode
    | StateValidationStatusCode | StateValidationDate | StateValidationExpiry | StateHostingModel
    | StateDataHostingRegion | StateCriticalityCode | StateAssignmentStatus

  datatype LinkSnapshot = LinkSnapshot(
    snapshotId: Uuid,
    confirmationId: Uuid,
    linkId: Uuid,
    instanceId: Uuid,
    instanceState: map<SnapshotField, Value>,
    validationStatusAt: Option<string>,
    platformVersionAt: Option<string>,
    createdAt: DateTime)

  /**
   * The keys of a dumped `SystemResponse`, which the audit dictionaries use:
   * each constructor stands for its snake-case key (`InstanceId` for
   * `"instance_id"`). `created_by` and `updated_by` are not among them.
   */
  datatype SystemField =
    | InstanceId | InstanceCode | PlatformVendorId | ServiceProviderId | CategoryCode | PlatformName
    | PlatformVersion | InstanceName | InstanceEnvironment | ValidationStatusCode | ValidationDate
    | ValidationExpiry | ValidationEvidenceLink | HostingModel | DataHostingRegion | Description
    | SupportedStudies | Interfaces | Part11Compliant | Annex11Compliant | Soc2Certified
    | Iso27001Certified | LastMajorChangeDate | LastMajorChangeDesc | NextPlannedChangeDate
    | NextPlannedChangeDesc | IsActive | CreatedAt | UpdatedAt

  datatype SystemInstanceAudit = SystemInstanceAudit(
    auditId: Uuid,
    instanceId: Uuid,
    action: string,
    changedAt: DateTime,
    changedBy: Option<string>,
    oldValues: Option<map<SystemField, Value>>,
    newValues: Option<map<SystemField, Value>>)

  // ---------------------------------------------------------------------------
  // Column defaults and closed code lists
  // ---------------------------------------------------------------------------

  const DefaultAssignmentStatus: string := "ACTIVE"
  const DefaultTrialStatus: string := "PLANNED"
  const DefaultConfirmationStatus: string := "PENDING"
  const DefaultInstanceEnvironment: string := "PRODUCTION"

  /** The codes of the `vendor_type IN (...)` check. */
  const VendorTypes: seq<string> := [
    "CRO", "FSP", "TECH_VENDOR", "CENTRAL_LAB", "IMAGING",
    "ECG_VENDOR", "BIOANALYTICAL", "LOGISTICS", "SPECIALTY", "INTERNAL"]

  /** A confirmation row as created: the column defaults fill status and export flag. */
  function NewConfirmation(id: Uuid, trialId: Uuid, confirmationType: string, dueDate: Option<Date>,
                           notes: Option<string>, systemsCount: int, now: DateTime): (c: Confirmation)
    ensures c.confirmationStatus == DefaultConfirmationStatus && !c.exportGenerated && c.exportId.None?
    ensures c.confirmedDate.None? && c.confirmedBy.None? && c.validationAlertsCount.None?
    ensures c.confirmationId == id && c.trialId == trialId && c.systemsCount == Some(systemsCount)
  {
    Confirmation(id, trialId, confirmationType, DefaultConfirmationStatus, dueDate, None, None, notes,
                 Some(systemsCount), None, false, None, now)
  }

  // ---------------------------------------------------------------------------
  // The liveness tests the code applies to links; they are deliberately distinct
  // ---------------------------------------------------------------------------

  /** Trials and confirmations: a link is live while `unlinked_at` is null. */
  predicate IsLinked(l: TrialSystemLink)
  {
    l.unlinkedAt.None?
  }

  /** A link of the trial whose `unlinked_at` is null. */
  predicate LiveOnTrial(l: TrialSystemLink, trialId: Uuid)
  {
    l.trialId == trialId && IsLinked(l)
  }

  /** A confirmation still PENDING whose due date has passed; a null due date is never overdue. */
  predicate IsOverdue(c: Confirmation, today: Date)
  {
    c.confirmationStatus == "PENDING" && c.dueDate.Some? && DateBefore(c.dueDate.value, today)
  }

  /** The partial unique index covers rows whose status is not REPLACED or LOCKED. */
  predicate IndexCounts(l: TrialSystemLink)
  {
    l.assignmentStatus != "REPLACED" && l.assignmentStatus != "LOCKED"
  }

  /** A system's detail page lists ACTIVE and CONFIRMED links. */
  predicate ShownOnSystem(l: TrialSystemLink)
  {
    l.assignmentStatus == "ACTIVE" || l.assignmentStatus == "CONFIRMED"
  }

  /** The dashboard counts ACTIVE links only. */
  predicate CountsOnDashboard(l: TrialSystemLink)
  {
    l.assignmentStatus == "ACTIVE"
  }

  /** A link for the pair (trial, system). */
  predicate LinksPair(l: TrialSystemLink, trialId: Uuid, instanceId: Uuid)
  {
    l.trialId == trialId && l.instanceId == instanceId
  }

  // ---------------------------------------------------------------------------
  // Table constraints the database enforces at flush/commit time
  // ---------------------------------------------------------------------------

  predicate VendorsConstraint(vs: seq<Vendor>)
  {
    && (forall i, j :: 0 <= i < j < |vs| ==> vs[i].vendorId != vs[j].vendorId)
    && (forall i, j :: 0 <= i < j < |vs| ==> vs[i].vendorCode != vs[j].vendorCode)
    && (forall i :: 0 <= i < |vs| ==> vs[i].vendorType in VendorTypes)
  }

  predicate SystemsConstraint(ss: seq<SystemInstance>)
  {
    && (forall i, j :: 0 <= i < j < |ss| ==> ss[i].instanceId != ss[j].instanceId)
    && (forall i, j :: 0 <= i < j < |ss| ==> ss[i].instanceCode != ss[j].instanceCode)
  }

  predicate TrialsConstraint(ts: seq<Trial>)
  {
    && (forall i, j :: 0 <= i < j < |ts| ==> ts[i].trialId != ts[j].trialId)
    && (forall i, j :: 0 <= i < j < |ts| ==> ts[i].protocolNumber != ts[j].protocolNumber)
  }

  /** `idx_links_unique_active`: one indexed row per (trial_id, instance_id). */
  predicate UniqueActiveIndex(ls: seq<TrialSystemLink>)
  {
    forall i, j :: 0 <= i < j < |ls| && IndexCounts(ls[i]) && IndexCounts(ls[j]) ==>
      !LinksPair(ls[j], ls[i].trialId, ls[i].instanceId)
  }

  predicate LinksConstraint(ls: seq<TrialSystemLink>)
  {
    && (forall i, j :: 0 <= i < j < |ls| ==> ls[i].linkId != ls[j].linkId)
    && UniqueActiveIndex(ls)
  }

  predicate ConfirmationsConstraint(cs: seq<Confirmation>)
  {
    forall i, j :: 0 <= i < j < |cs| ==> cs[i].confirmationId != cs[j].confirmationId
  }

  predicate SnapshotsConstraint(ss: seq<LinkSnapshot>)
  {
    forall i, j :: 0 <= i < j < |ss| ==> ss[i].snapshotId != ss[j].snapshotId
  }

  predicate AuditsConstraint(rows: seq<SystemInstanceAudit>)
  {
    forall i, j :: 0 <= i < j < |rows| ==> rows[i].auditId != rows[j].auditId
  }

  // ---------------------------------------------------------------------------
  // Lookup by primary key
  // ---------------------------------------------------------------------------

  /** The position of the vendor with primary key `id`. */
  function VendorIndex(vendors: seq<Vendor>, id: Uuid): (k: Option<nat>)
    ensures k.Some? ==> k.value < |vendors| && vendors[k.value].vendorId == id
    ensures k.Some? ==> forall j :: 0 <= j < k.value ==> vendors[j].vendorId != id
    ensures k.None? <==> forall j :: 0 <= j < |vendors| ==> vendors[j].vendorId != id
  {
    Find(vendors, (v: Vendor) => v.vendorId == id)
  }

  /** The position of the system instance with primary key `id`. */
  function SystemIndex(systems: seq<SystemInstance>, id: Uuid): (k: Option<nat>)
    ensures k.Some? ==> k.value < |systems| && systems[k.value].instanceId == id
    ensures k.Some? ==> forall j :: 0 <= j < k.value ==> systems[j].instanceId != id
    ensures k.None? <==> forall j :: 0 <= j < |systems| ==> systems[j].instanceId != id
  {
    Find(systems, (s: SystemInstance) => s.instanceId == id)
  }

  /** The position of the trial with primary key `id`. */
  function TrialIndex(trials: seq<Trial>, id: Uuid): (k: Option<nat>)
    ensures k.Some? ==> k.value < |trials| && trials[k.value].trialId == id
    ensures k.Some? ==> forall j :: 0 <= j < k.value ==> trials[j].trialId != id
    ensures k.None? <==> forall j :: 0 <= j < |trials| ==> trials[j].trialId != id
  {
    Find(trials, (t: Trial) => t.trialId == id)
  }

  /** The position of the confirmation with primary key `id`. */
  function ConfirmationIndex(cs: seq<Confirmation>, id: Uuid): (k: Option<nat>)
    ensures k.Some? ==> k.value < |cs| && cs[k.value].confirmationId == id
    ensures k.Some? ==> forall j :: 0 <= j < k.value ==> cs[j].confirmationId != id
    ensures k.None? <==> forall j :: 0 <= j < |cs| ==> cs[j].confirmationId != id
  {
    Find(cs, (c: Confirmation) => c.confirmationId == id)
  }

  // ---------------------------------------------------------------------------
  // The checks the database makes on one written row (at position `at`;
  // `|table|` for an insert)
  // ---------------------------------------------------------------------------

  predicate VendorFits(vs: seq<Vendor>, row: Vendor, at: nat)
  {
    && row.vendorType in VendorTypes
    && forall i :: 0 <= i < |vs| && i != at ==> vs[i].vendorId != row.vendorId && vs[i].vendorCode != row.vendorCode
  }

  predicate SystemFits(ss: seq<SystemInstance>, row: SystemInstance, at: nat)
  {
    forall i :: 0 <= i < |ss| && i != at ==> ss[i].instanceId != row.instanceId && ss[i].instanceCode != row.instanceCode
  }

  predicate TrialFits(ts: seq<Trial>, row: Trial, at: nat)
  {
    forall i :: 0 <= i < |ts| && i != at ==> ts[i].trialId != row.trialId && ts[i].protocolNumber != row.protocolNumber
  }

  predicate LinkFits(ls: seq<TrialSystemLink>, row: TrialSystemLink, at: nat)
  {
    && (forall i :: 0 <= i < |ls| && i != at ==> ls[i].linkId != row.linkId)
    && (IndexCounts(row) ==>
          forall i :: 0 <= i < |ls| && i != at && IndexCounts(ls[i]) ==> !LinksPair(ls[i], row.trialId, row.instanceId))
  }

  predicate ConfirmationFits(cs: seq<Confirmation>, row: Confirmation, at: nat)
  {
    forall i :: 0 <= i < |cs| && i != at ==> cs[i].confirmationId != row.confirmationId
  }

  predicate AuditFits(rows: seq<SystemInstanceAudit>, row: SystemInstanceAudit)
  {
    forall i :: 0 <= i < |rows| ==> rows[i].auditId != row.auditId
  }

  lemma VendorFitsKeeps(vs: seq<Vendor>, row: Vendor, at: nat)
    requires at <= |vs| && VendorFits(vs, row, at)
    ensures VendorsConstraint(vs) && at == |vs| ==> VendorsConstraint(vs + [row])
    ensures VendorsConstraint(vs) && at < |vs| ==> VendorsConstraint(vs[at := row])
  {
    if VendorsConstraint(vs) {
      var t := if at == |vs| then vs + [row] else vs[at := row];
      forall i, j | 0 <= i < j < |t|
        ensures t[i].vendorId != t[j].vendorId && t[i].vendorCode != t[j].vendorCode
      {
        if i == at {
          assert t[j] == vs[j];
        } else if j == at {
          assert t[i] == vs[i];
        } else {
          assert t[i] == vs[i] && t[j] == vs[j];
        }
      }
    }
  }

  lemma SystemFitsKeeps(ss: seq<SystemInstance>, row: SystemInstance, at: nat)
    requires at <= |ss| && SystemFits(ss, row, at)
    ensures SystemsConstraint(ss) && at == |ss| ==> SystemsConstraint(ss + [row])
    ensures SystemsConstraint(ss) && at < |ss| ==> SystemsConstraint(ss[at := row])
  {
    if SystemsConstraint(ss) {
      var t := if at == |ss| then ss + [row] else ss[at := row];
      forall i, j | 0 <= i < j < |t|
        ensures t[i].instanceId != t[j].instanceId && t[i].instanceCode != t[j].instanceCode
      {
        if i == at {
          assert t[j] == ss[j];
        } else if j == at {
          assert t[i] == ss[i];
        } else {
          assert t[i] == ss[i] && t[j] == ss[j];
        }
      }
    }
  }

  lemma TrialFitsKeeps(ts: seq<Trial>, row: Trial, at: nat)
    requires at <= |ts| && TrialFits(ts, row, at)
    ensures TrialsConstraint(ts) && at == |ts| ==> TrialsConstraint(ts + [row])
    ensures TrialsConstraint(ts) && at < |ts| ==> TrialsConstraint(ts[at := row])
  {
    if TrialsConstraint(ts) {
      var t := if at == |ts| then ts + [row] else ts[at := row];
      forall i, j | 0 <= i < j < |t|
        ensures t[i].trialId != t[j].trialId && t[i].protocolNumber != t[j].protocolNumber
      {
        if i == at {
          assert t[j] == ts[j];
        } else if j == at {
          assert t[i] == ts[i];
        } else {
          assert t[i] == ts[i] && t[j] == ts[j];
        }
      }
    }
  }

  lemma LinkFitsKeeps(ls: seq<TrialSystemLink>, row: TrialSystemLink, at: nat)
    requires at <= |ls| && LinkFits(ls, row, at)
    ensures LinksConstraint(ls) && at == |ls| ==> LinksConstraint(ls + [row])
    ensures LinksConstraint(ls) && at < |ls| ==> LinksConstraint(ls[at := row])
  {
    if LinksConstraint(ls) {
      var t := if at == |ls| then ls + [row] else ls[at := row];
      forall i, j | 0 <= i < j < |t|
        ensures t[i].linkId != t[j].linkId
        ensures IndexCounts(t[i]) && IndexCounts(t[j]) ==> !LinksPair(t[j], t[i].trialId, t[i].instanceId)
      {
        if i == at {
          assert t[j] == ls[j];
        } else if j == at {
          assert t[i] == ls[i];
        } else {
          assert t[i] == ls[i] && t[j] == ls[j];
        }
      }
    }
  }

  lemma ConfirmationFitsKeeps(cs: seq<Confirmation>, row: Confirmation, at: nat)
    requires at <= |cs| && ConfirmationFits(cs, row, at)
    ensures ConfirmationsConstraint(cs) && at == |cs| ==> ConfirmationsConstraint(cs + [row])
    ensures ConfirmationsConstraint(cs) && at < |cs| ==> ConfirmationsConstraint(cs[at := row])
  {
    if ConfirmationsConstraint(cs) {
      var t := if at == |cs| then cs + [row] else cs[at := row];
      forall i, j | 0 <= i < j < |t|
        ensures t[i].confirmationId != t[j].confirmationId
      {
        if i == at {
          assert t[j] == cs[j];
        } else if j == at {
          assert t[i] == cs[i];
        } else {
          assert t[i] == cs[i] && t[j] == cs[j];
        }
      }
    }
  }

  lemma AuditFitsKeeps(rows: seq<SystemInstanceAudit>, row: SystemInstanceAudit)
    requires AuditFits(rows, row)
    ensures AuditsConstraint(rows) ==> AuditsConstraint(rows + [row])
  {
  }

  /**
   * The partial unique index allows at most one indexed row per pair; stated
   * pointwise: two indexed rows for the same pair are the same row.
   */
  lemma IndexedPairUnique(ls: seq<TrialSystemLink>, i: nat, j: nat)
    requires UniqueActiveIndex(ls)
    requires i < |ls| && j < |ls|
    requires IndexCounts(ls[i]) && IndexCounts(ls[j])
    requires LinksPair(ls[j], ls[i].trialId, ls[i].instanceId)
    ensures i == j
  {
    if i < j {
    } else if j < i {
      assert LinksPair(ls[i], ls[j].trialId, ls[j].instanceId);
    }
  }

  /**
   * Appending a row keeps the index satisfied exactly when the new row is not
   * indexed or no indexed row for its pair exists yet.
   */
  lemma {:induction false} AppendToIndex(ls: seq<TrialSystemLink>, l: TrialSystemLink)
    requires UniqueActiveIndex(ls)
    ensures UniqueActiveIndex(ls + [l]) <==>
      (!IndexCounts(l) || forall k :: 0 <= k < |ls| && IndexCounts(ls[k]) ==> !LinksPair(ls[k], l.trialId, l.instanceId))
  {
    var ext := ls + [l];
    if UniqueActiveIndex(ext) && IndexCounts(l) {
      forall k | 0 <= k < |ls| && IndexCounts(ls[k])
        ensures !LinksPair(ls[k], l.trialId, l.instanceId)
      {
        assert ext[k] == ls[k] && ext[|ls|] == l;
      }
    }
  }

  /** Every table the services touch, as one database session sees them. */
  class Session {
    var vendors: seq<Vendor>
    var systems: seq<SystemInstance>
    var audits: seq<SystemInstanceAudit>
    var trials: seq<Trial>
    var links: seq<TrialSystemLink>
    var confirmations: seq<Confirmation>
    var snapshots: seq<LinkSnapshot>
    var categories: seq<SystemCategory>
    var validationStatuses: seq<ValidationStatus>
    var criticalities: seq<Criticality>

    /** Committed data satisfies every enforced constraint. */
    ghost predicate Valid()
      reads this
    {
      && VendorsConstraint(vendors)
      && SystemsConstraint(systems)
      && AuditsConstraint(audits)
      && TrialsConstraint(trials)
      && LinksConstraint(links)
      && ConfirmationsConstraint(confirmations)
      && SnapshotsConstraint(snapshots)
    }

    /** A fresh database holding only the seeded lookup tables. */
    constructor (categories: seq<SystemCategory>, statuses: seq<ValidationStatus>, criticalities: seq<Criticality>)
      ensures Valid()
      ensures vendors == [] && systems == [] && audits == [] && trials == []
      ensures links == [] && confirmations == [] && snapshots == []
      ensures this.categories == categories && validationStatuses == statuses
      ensures this.criticalities == criticalities
    {
      vendors := [];
      systems := [];
      audits := [];
      trials := [];
      links := [];
      confirmations := [];
      snapshots := [];
      this.categories := categories;
      validationStatuses := statuses;
      this.criticalities := criticalities;
    }

    /** The flush of changed `system_instances` and `system_instance_audit` rows. */
    method WriteSystems(systems: seq<SystemInstance>, audits: seq<SystemInstanceAudit>)
      requires Valid() && SystemsConstraint(systems) && AuditsConstraint(audits)
      modifies this`systems, this`audits
      ensures Valid() && this.systems == systems && this.audits == audits
    {
      this.systems := systems;
      this.audits := audits;
    }
  }
}
