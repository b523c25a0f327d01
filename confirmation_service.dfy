/**
 * Confirmations of a trial's systems: listing, creation with the count of
 * the trial's live links, lookup with the captured snapshots, editing while
 * pending, submission (which may capture a snapshot of every live linked
 * system and counts validation alerts), and export of a completed
 * confirmation.
 *
 * COMPLETED is final: editing and resubmitting a completed confirmation are
 * refused, and no operation here moves a confirmation out of COMPLETED.
 */
module ConfirmationService {
  import opened Wrappers
  import opened Values
  import opened Text
  import opened Seqs
  import opened Exceptions
  import opened Pagination
  import opened DbModels
  import opened ConfirmationModels

  const Completed: string := "COMPLETED"

  /**
   * Between two states of the table: no row disappears or moves, and no
   * COMPLETED row leaves COMPLETED.
   */
  predicate KeepsCompleted(before: seq<Confirmation>, after: seq<Confirmation>)
  {
    && |before| <= |after|
    && forall j :: 0 <= j < |before| ==>
         && after[j].confirmationId == before[j].confirmationId
         && (before[j].confirmationStatus == Completed ==> after[j].confirmationStatus == Completed)
  }

  /** Writing row `k` back with its own id keeps the primary key unique. */
  lemma SameIdKeeps(cs: seq<Confirmation>, k: nat, row: Confirmation)
    requires k < |cs| && row.confirmationId == cs[k].confirmationId
    ensures ConfirmationsConstraint(cs) ==> ConfirmationsConstraint(cs[k := row])
  {
    if ConfirmationsConstraint(cs) {
      forall i | 0 <= i < |cs| && i != k
        ensures cs[i].confirmationId != row.confirmationId
      {
        if i > k {
          assert cs[k].confirmationId != cs[i].confirmationId;
        }
      }
      ConfirmationFitsKeeps(cs, row, k);
    }
  }

  /** After row `k` is rewritten with its own id, looking the id up still finds row `k`. */
  lemma {:induction false} LookupAfterRewrite(cs: seq<Confirmation>, k: nat, row: Confirmation)
    requires ConfirmationIndex(cs, row.confirmationId) == Some(k)
    ensures ConfirmationIndex(cs[k := row], row.confirmationId) == Some(k)
  {
    var t := cs[k := row];
    assert t[k].confirmationId == row.confirmationId;
    assert forall j :: 0 <= j < k ==> t[j] == cs[j];
  }

  // ---------------------------------------------------------------------------
  // list_confirmations
  // ---------------------------------------------------------------------------

  /**
   * The WHERE clause of `list_confirmations`. A UUID is always truthy, so a
   * given trial id always filters; the overdue test uses today's date.
   */
  predicate Listed(c: Confirmation, trialId: Option<Uuid>, status: Option<string>, confirmationType: Option<string>,
                   overdueOnly: bool, today: Date)
  {
    && (trialId.Some? ==> c.trialId == trialId.value)
    && (Truthy(status) ==> c.confirmationStatus == status.value)
    && (Truthy(confirmationType) ==> c.confirmationType == confirmationType.value)
    && (overdueOnly ==> IsOverdue(c, today))
  }

  /** `ORDER BY due_date DESC`, where PostgreSQL puts a null due date first. */
  predicate DueDateOrder(a: Confirmation, b: Confirmation)
  {
    DateDescNullsFirst(a.dueDate, b.dueDate)
  }

  lemma DueDateOrderTotal()
    ensures TotalPreorder(DueDateOrder)
  {
    forall a: Confirmation, b: Confirmation, c: Confirmation
      ensures DueDateOrder(a, b) || DueDateOrder(b, a)
      ensures DueDateOrder(a, b) && DueDateOrder(b, c) ==> DueDateOrder(a, c)
    {
      DateDescNullsFirstTotalOrder(a.dueDate, b.dueDate, c.dueDate);
    }
  }

  /**
   * One page of confirmations: the total counts every match, the page holds
   * at most `limit` of them, latest due date first.
   */
  function ListConfirmations(cs: seq<Confirmation>, p: PaginationParams, trialId: Option<Uuid>,
                             status: Option<string>, confirmationType: Option<string>, overdueOnly: bool,
                             today: Date): (r: Listing<Confirmation>)
    requires p.Valid()
    ensures r.meta == PaginationMeta(|Filter(cs, c => Listed(c, trialId, status, confirmationType, overdueOnly, today))|,
                                     p.limit, p.offset)
    ensures |r.data| <= p.limit
    ensures forall c :: c in r.data ==> c in cs && Listed(c, trialId, status, confirmationType, overdueOnly, today)
    ensures SortedBy(r.data, DueDateOrder)
    ensures |r.data| == if p.offset >= r.meta.total then 0 else Min(p.limit, r.meta.total - p.offset)
    ensures IsSortedPage(r.data, Filter(cs, c => Listed(c, trialId, status, confirmationType, overdueOnly, today)),
                         DueDateOrder, p.limit, p.offset)
    ensures p.offset == 0 && r.meta.total <= p.limit ==>
      multiset(r.data) == multiset(Filter(cs, c => Listed(c, trialId, status, confirmationType, overdueOnly, today)))
  {
    var matching := Filter(cs, c => Listed(c, trialId, status, confirmationType, overdueOnly, today));
    DueDateOrderTotal();
    SortedPageSorted(matching, DueDateOrder, p.limit, p.offset);
    Listing(SortedPage(matching, DueDateOrder, p.limit, p.offset), PaginationMeta(|matching|, p.limit, p.offset))
  }

  // ---------------------------------------------------------------------------
  // create_confirmation
  // ---------------------------------------------------------------------------

  /**
   * `count()` of the trial's links whose `unlinked_at` is null. There is no
   * join: a link whose system no longer exists still counts.
   */
  function SystemsCount(links: seq<TrialSystemLink>, trialId: Uuid): nat
  {
    |Filter(links, l => LiveOnTrial(l, trialId))|
  }

  const CreateFailed: Error := ConflictError("Failed to create confirmation due to constraint violation", None)

  /**
   * `create_confirmation` on the table: NotFound for an unknown trial; the
   * generic Conflict when the generated key is in use; otherwise a new
   * PENDING row counting the trial's live links is appended.
   */
  function CreateConfirmationOutcome(trials: seq<Trial>, links: seq<TrialSystemLink>, cs: seq<Confirmation>,
                                     data: ConfirmationCreate, newId: Uuid, now: DateTime)
    : (o: Outcome<Confirmation, seq<Confirmation>>)
    ensures TrialIndex(trials, data.trialId).None? ==>
      o == Outcome(Err(NotFoundError("Trial", data.trialId.canonical, None)), cs)
    ensures o.result.Err? ==> o.after == cs
    ensures o.result.Err? && TrialIndex(trials, data.trialId).Some? ==> o.result.error == CreateFailed
    ensures o.result.Ok? <==>
      TrialIndex(trials, data.trialId).Some? && forall j :: 0 <= j < |cs| ==> cs[j].confirmationId != newId
    ensures o.result.Ok? ==>
      && o.result.value == NewConfirmation(newId, data.trialId, data.confirmationType, data.dueDate, data.notes,
                                           SystemsCount(links, data.trialId), now)
      && o.after == cs + [o.result.value]
    ensures ConfirmationsConstraint(cs) ==> ConfirmationsConstraint(o.after)
    ensures KeepsCompleted(cs, o.after)
  {
    if TrialIndex(trials, data.trialId).None? then
      Outcome(Err(NotFoundError("Trial", data.trialId.canonical, None)), cs)
    else
      var row := NewConfirmation(newId, data.trialId, data.confirmationType, data.dueDate, data.notes,
                                 SystemsCount(links, data.trialId), now);
      if ConfirmationFits(cs, row, |cs|) then
        ConfirmationFitsKeeps(cs, row, |cs|);
        Outcome(Ok(row), cs + [row])
      else Outcome(Err(CreateFailed), cs)
  }

  // ---------------------------------------------------------------------------
  // get_confirmation
  // ---------------------------------------------------------------------------

  datatype SystemSnapshotSummary = SystemSnapshotSummary(
    snapshotId: Uuid,
    instanceId: Uuid,
    instanceCode: string,
    platformName: string,
    validationStatusAt: Option<string>,
    platformVersionAt: Option<string>,
    createdAt: DateTime)

  /** The confirmation, the protocol number of its trial, and its snapshots. */
  datatype ConfirmationDetail = ConfirmationDetail(
    confirmation: Confirmation,
    trialProtocolNumber: string,
    snapshots: seq<SystemSnapshotSummary>)

  /**
   * The inner join of one snapshot with the system it names; None when that
   * system no longer exists. The code and name are the system's current ones.
   */
  function JoinedSnapshot(s: LinkSnapshot, systems: seq<SystemInstance>): (r: Option<SystemSnapshotSummary>)
    ensures r.Some? <==> SystemIndex(systems, s.instanceId).Some?
    ensures r.Some? ==>
      var system := systems[SystemIndex(systems, s.instanceId).value];
      && r.value.snapshotId == s.snapshotId && r.value.instanceId == s.instanceId
      && r.value.instanceCode == system.instanceCode && r.value.platformName == system.platformName
      && r.value.validationStatusAt == s.validationStatusAt && r.value.platformVersionAt == s.platformVersionAt
      && r.value.createdAt == s.createdAt
  {
    match SystemIndex(systems, s.instanceId)
    case None => None
    case Some(j) =>
      Some(SystemSnapshotSummary(s.snapshotId, s.instanceId, systems[j].instanceCode, systems[j].platformName,
                                 s.validationStatusAt, s.platformVersionAt, s.createdAt))
  }

  /** `ORDER BY created_at DESC`. */
  predicate NewestSnapshotFirst(a: SystemSnapshotSummary, b: SystemSnapshotSummary)
  {
    NotBefore(a.createdAt, b.createdAt)
  }

  lemma NewestSnapshotFirstTotal()
    ensures TotalPreorder(NewestSnapshotFirst)
  {
    forall a: SystemSnapshotSummary, b: SystemSnapshotSummary, c: SystemSnapshotSummary
      ensures NewestSnapshotFirst(a, b) || NewestSnapshotFirst(b, a)
      ensures NewestSnapshotFirst(a, b) && NewestSnapshotFirst(b, c) ==> NewestSnapshotFirst(a, c)
    {
      NotBeforeTotalOrder(a.createdAt, b.createdAt, c.createdAt);
    }
  }

  /** The confirmation's snapshots whose system still exists, newest first. */
  function SnapshotSummaries(snapshots: seq<LinkSnapshot>, systems: seq<SystemInstance>, id: Uuid)
    : (r: seq<SystemSnapshotSummary>)
    ensures |r| <= |Filter(snapshots, (s: LinkSnapshot) => s.confirmationId == id)|
    ensures forall x :: x in r <==>
      exists s :: s in snapshots && s.confirmationId == id && JoinedSnapshot(s, systems) == Some(x)
    ensures SortedBy(r, NewestSnapshotFirst)
    ensures multiset(r) ==
      multiset(FilterMap(Filter(snapshots, (s: LinkSnapshot) => s.confirmationId == id), s => JoinedSnapshot(s, systems)))
    ensures |r| == |Joinable(Filter(snapshots, (s: LinkSnapshot) => s.confirmationId == id), s => JoinedSnapshot(s, systems))|
  {
    var own := Filter(snapshots, (s: LinkSnapshot) => s.confirmationId == id);
    var joined := FilterMap(own, s => JoinedSnapshot(s, systems));
    assert |joined| == |Joinable(own, s => JoinedSnapshot(s, systems))| by {
      FilterMapJoins(own, s => JoinedSnapshot(s, systems));
    }
    NewestSnapshotFirstTotal();
    SortBySorted(joined, NewestSnapshotFirst);
    SortByPermutation(joined, NewestSnapshotFirst);
    var r := SortBy(joined, NewestSnapshotFirst);
    SameMembers(r, joined);
    r
  }

  /**
   * `get_confirmation`: the confirmation joined with its trial; NotFound
   * when either is missing.
   */
  function GetConfirmation(cs: seq<Confirmation>, trials: seq<Trial>, snapshots: seq<LinkSnapshot>,
                           systems: seq<SystemInstance>, id: Uuid): (r: Result<ConfirmationDetail>)
    ensures r.Ok? <==>
      ConfirmationIndex(cs, id).Some? && TrialIndex(trials, cs[ConfirmationIndex(cs, id).value].trialId).Some?
    ensures r.Err? ==> r.error == NotFoundError("Confirmation", id.canonical, None)
    ensures r.Ok? ==> r.value.confirmation in cs && r.value.confirmation.confirmationId == id
    ensures r.Ok? ==> exists j :: 0 <= j < |trials| && trials[j].trialId == r.value.confirmation.trialId
                                 && trials[j].protocolNumber == r.value.trialProtocolNumber
    ensures r.Ok? ==> r.value.snapshots == SnapshotSummaries(snapshots, systems, id)
  {
    match ConfirmationIndex(cs, id)
    case None => Err(NotFoundError("Confirmation", id.canonical, None))
    case Some(k) =>
      match TrialIndex(trials, cs[k].trialId)
      case None => Err(NotFoundError("Confirmation", id.canonical, None))
      case Some(t) => Ok(ConfirmationDetail(cs[k], trials[t].protocolNumber, SnapshotSummaries(snapshots, systems, id)))
  }

  // ---------------------------------------------------------------------------
  // update_confirmation
  // ---------------------------------------------------------------------------

  const CompletedIsFinal: Error := ValidationError("Cannot update a completed confirmation", None)

  /** The row after the `setattr` loop: only the due date and the notes can change. */
  function ApplyConfirmationUpdate(c: Confirmation, data: ConfirmationUpdate): (r: Confirmation)
    ensures r.dueDate == data.dueDate.ApplyNullable(c.dueDate)
    ensures r.notes == data.notes.ApplyNullable(c.notes)
    ensures r == c.(dueDate := r.dueDate, notes := r.notes)
  {
    c.(dueDate := data.dueDate.ApplyNullable(c.dueDate), notes := data.notes.ApplyNullable(c.notes))
  }

  /**
   * `update_confirmation` on the table: NotFound for an unknown id; a
   * ValidationError for a COMPLETED confirmation; otherwise the patched row
   * replaces the stored one.
   */
  function UpdateConfirmationOutcome(cs: seq<Confirmation>, id: Uuid, data: ConfirmationUpdate)
    : (o: Outcome<Confirmation, seq<Confirmation>>)
    ensures ConfirmationIndex(cs, id).None? ==> o == Outcome(Err(NotFoundError("Confirmation", id.canonical, None)), cs)
    ensures o.result.Err? ==> o.after == cs
    ensures ConfirmationIndex(cs, id).Some? ==>
      var k := ConfirmationIndex(cs, id).value;
      && (cs[k].confirmationStatus == Completed ==> o == Outcome(Err(CompletedIsFinal), cs))
      && (cs[k].confirmationStatus != Completed ==>
            o.result == Ok(ApplyConfirmationUpdate(cs[k], data)) && o.after == cs[k := o.result.value])
    ensures ConfirmationsConstraint(cs) ==> ConfirmationsConstraint(o.after)
    ensures KeepsCompleted(cs, o.after)
  {
    match ConfirmationIndex(cs, id)
    case None => Outcome(Err(NotFoundError("Confirmation", id.canonical, None)), cs)
    case Some(k) =>
      if cs[k].confirmationStatus == Completed then Outcome(Err(CompletedIsFinal), cs)
      else
        var row := ApplyConfirmationUpdate(cs[k], data);
        SameIdKeeps(cs, k, row);
        Outcome(Ok(row), cs[k := row])
  }

  // ---------------------------------------------------------------------------
  // _capture_snapshots
  // ---------------------------------------------------------------------------

  /** One row of `SELECT link, system ... JOIN system_instances`. */
  datatype LiveRow = LiveRow(link: TrialSystemLink, system: SystemInstance)

  /** The inner join of one link with its system; None when the system is missing. */
  function JoinedRow(l: TrialSystemLink, systems: seq<SystemInstance>): (r: Option<LiveRow>)
    ensures r.Some? <==> SystemIndex(systems, l.instanceId).Some?
    ensures r.Some? ==> r.value.link == l && r.value.system == systems[SystemIndex(systems, l.instanceId).value]
  {
    match SystemIndex(systems, l.instanceId)
    case None => None
    case Some(j) => Some(LiveRow(l, systems[j]))
  }

  /**
   * The trial's links whose `unlinked_at` is null, each with its system;
   * a link whose system is missing drops out of the join.
   */
  function LiveRows(links: seq<TrialSystemLink>, systems: seq<SystemInstance>, trialId: Uuid): (r: seq<LiveRow>)
    ensures |r| <= SystemsCount(links, trialId)
    ensures forall x :: x in r <==> exists l :: l in links && LiveOnTrial(l, trialId) && JoinedRow(l, systems) == Some(x)
    ensures |r| == |Joinable(Filter(links, l => LiveOnTrial(l, trialId)), l => JoinedRow(l, systems))|
  {
    FilterMapJoins(Filter(links, l => LiveOnTrial(l, trialId)), l => JoinedRow(l, systems));
    FilterMap(Filter(links, l => LiveOnTrial(l, trialId)), l => JoinedRow(l, systems))
  }

  /** Row `i` of the join is the `i`-th live link whose system exists, paired with that system. */
  lemma LiveRowsInLinkOrder(links: seq<TrialSystemLink>, systems: seq<SystemInstance>, trialId: Uuid)
    ensures forall i :: 0 <= i < |LiveRows(links, systems, trialId)| ==>
      JoinedRow(Joinable(Filter(links, l => LiveOnTrial(l, trialId)), l => JoinedRow(l, systems))[i], systems)
      == Some(LiveRows(links, systems, trialId)[i])
  {
    FilterMapJoins(Filter(links, l => LiveOnTrial(l, trialId)), l => JoinedRow(l, systems));
  }

  /** The keys `instance_state` is written with. */
  const StateFields: set<SnapshotField> := {
    StateInstanceCode, StatePlatformName, StatePlatformVersion, StateCategoryCode, StateValidationStatusCode,
    StateValidationDate, StateValidationExpiry, StateHostingModel, StateDataHostingRegion, StateCriticalityCode,
    StateAssignmentStatus}

  lemma EveryStateFieldIsCaptured(f: SnapshotField)
    ensures f in StateFields
  {
  }

  /** A stored value that, where it is text, parses back as the date `d`. */
  predicate ReadsBackAs(v: Value, d: Option<Date>)
  {
    v.VStr? ==> ParseIsoDate(v.s) == d
  }

  /** `str(d) if d else None` for a date column. */
  function DateText(d: Option<Date>): (v: Value)
    ensures d.None? ==> v == VNull
    ensures d.Some? ==> v.VStr? && ReadsBackAs(v, d)
  {
    match d
    case None => VNull
    case Some(day) => IsoDateRoundTrip(day); VStr(IsoDate(day))
  }

  /** One entry of `instance_state`: system columns, and the link's criticality and status. */
  function StateValue(row: LiveRow, f: SnapshotField): (v: Value)
    ensures JsonSafe(v)
    ensures f == StateValidationDate ==> ReadsBackAs(v, row.system.validationDate)
    ensures f == StateValidationExpiry ==> ReadsBackAs(v, row.system.validationExpiry)
  {
    match f
    case StateInstanceCode => VStr(row.system.instanceCode)
    case StatePlatformName => VStr(row.system.platformName)
    case StatePlatformVersion => OptStr(row.system.platformVersion)
    case StateCategoryCode => VStr(row.system.categoryCode)
    case StateValidationStatusCode => VStr(row.system.validationStatusCode)
    case StateValidationDate => DateText(row.system.validationDate)
    case StateValidationExpiry => DateText(row.system.validationExpiry)
    case StateHostingModel => OptStr(row.system.hostingModel)
    case StateDataHostingRegion => OptStr(row.system.dataHostingRegion)
    case StateCriticalityCode => VStr(row.link.criticalityCode)
    case StateAssignmentStatus => VStr(row.link.assignmentStatus)
  }

  /** The `instance_state` dictionary: every key present, each holding its column's value. */
  function InstanceState(row: LiveRow): (m: map<SnapshotField, Value>)
    ensures forall f :: f in m && m[f] == StateValue(row, f)
  {
    var m := map f | f in StateFields :: StateValue(row, f);
    forall f ensures f in m {
      EveryStateFieldIsCaptured(f);
    }
    m
  }

  /** Every value of `instance_state` is one JSONB stores as it is: dates are written as their ISO text. */
  lemma InstanceStateIsJson(row: LiveRow)
    ensures forall f :: JsonSafe(InstanceState(row)[f])
  {
    var m := InstanceState(row);
    forall f ensures JsonSafe(m[f]) {
      assert m[f] == StateValue(row, f);
    }
  }

  /** The dates of `instance_state` read back as the system's dates. */
  lemma InstanceStateDates(row: LiveRow)
    ensures ReadsBackAs(InstanceState(row)[StateValidationDate], row.system.validationDate)
    ensures ReadsBackAs(InstanceState(row)[StateValidationExpiry], row.system.validationExpiry)
  {
    var m := InstanceState(row);
    assert m[StateValidationDate] == StateValue(row, StateValidationDate);
    assert m[StateValidationExpiry] == StateValue(row, StateValidationExpiry);
  }

  /**
   * The snapshot of one joined row, taken for confirmation `confirmationId`
   * with primary key `id` at the server time `now`.
   */
  function NewSnapshot(row: LiveRow, confirmationId: Uuid, id: Uuid, now: DateTime): (s: LinkSnapshot)
    ensures s.snapshotId == id && s.confirmationId == confirmationId && s.createdAt == now
    ensures s.linkId == row.link.linkId && s.instanceId == row.system.instanceId
    ensures s.validationStatusAt == Some(row.system.validationStatusCode)
    ensures s.platformVersionAt == row.system.platformVersion
    ensures s.instanceState == InstanceState(row)
  {
    LinkSnapshot(id, confirmationId, row.link.linkId, row.system.instanceId, InstanceState(row),
                 Some(row.system.validationStatusCode), row.system.platformVersion, now)
  }

  /** One snapshot per joined row, in row order; row `k` gets the key `freshId(k)`. */
  function NewSnapshots(rows: seq<LiveRow>, confirmationId: Uuid, freshId: nat -> Uuid, now: DateTime)
    : (r: seq<LinkSnapshot>)
    ensures |r| == |rows|
    ensures forall k :: 0 <= k < |rows| ==> r[k] == NewSnapshot(rows[k], confirmationId, freshId(k), now)
  {
    seq(|rows|, k requires 0 <= k < |rows| => NewSnapshot(rows[k], confirmationId, freshId(k), now))
  }

  lemma NewSnapshotsExtend(rows: seq<LiveRow>, i: nat, confirmationId: Uuid, freshId: nat -> Uuid, now: DateTime)
    requires i < |rows|
    ensures NewSnapshots(rows[..i + 1], confirmationId, freshId, now)
         == NewSnapshots(rows[..i], confirmationId, freshId, now) + [NewSnapshot(rows[i], confirmationId, freshId(i), now)]
  {
    var longer := NewSnapshots(rows[..i + 1], confirmationId, freshId, now);
    var shorter := NewSnapshots(rows[..i], confirmationId, freshId, now);
    forall j | 0 <= j < i
      ensures longer[j] == shorter[j]
    {
      assert rows[..i + 1][j] == rows[..i][j];
    }
  }

  /**
   * `_capture_snapshots`: one pending snapshot is added to the session for
   * each joined row, in the order of the join.
   */
  method CaptureSnapshots(db: Session, trialId: Uuid, confirmationId: Uuid, freshId: nat -> Uuid, now: DateTime)
    modifies db`snapshots
    ensures db.snapshots ==
      old(db.snapshots) + NewSnapshots(LiveRows(db.links, db.systems, trialId), confirmationId, freshId, now)
  {
    var rows := LiveRows(db.links, db.systems, trialId);
    ghost var pending := db.snapshots;
    var i := 0;
    while i < |rows|
      invariant 0 <= i <= |rows|
      invariant db.snapshots == pending + NewSnapshots(rows[..i], confirmationId, freshId, now)
    {
      NewSnapshotsExtend(rows, i, confirmationId, freshId, now);
      db.snapshots := db.snapshots + [NewSnapshot(rows[i], confirmationId, freshId(i), now)];
      i := i + 1;
    }
    assert rows[..i] == rows;
  }

  // ---------------------------------------------------------------------------
  // submit_confirmation
  // ---------------------------------------------------------------------------

  /** `validation_status_code IN ('VAL_EXPIRED', 'NOT_VALIDATED')`. */
  predicate RaisesAlert(row: LiveRow)
  {
    row.system.validationStatusCode == "VAL_EXPIRED" || row.system.validationStatusCode == "NOT_VALIDATED"
  }

  /** The alerts count: joined live rows whose system is expired or not validated. */
  function ValidationAlerts(links: seq<TrialSystemLink>, systems: seq<SystemInstance>, trialId: Uuid): nat
  {
    |Filter(LiveRows(links, systems, trialId), RaisesAlert)|
  }

  /** There are never more alerts than live links the confirmation was created with in mind. */
  lemma AlertsWithinSystemsCount(links: seq<TrialSystemLink>, systems: seq<SystemInstance>, trialId: Uuid)
    ensures ValidationAlerts(links, systems, trialId) <= SystemsCount(links, trialId)
  {
  }

  /** A trial whose live systems are all VALIDATED has no alerts. */
  lemma ValidatedTrialHasNoAlerts(links: seq<TrialSystemLink>, systems: seq<SystemInstance>, trialId: Uuid)
    requires forall l, j :: (l in links && LiveOnTrial(l, trialId) && 0 <= j < |systems|
                             && systems[j].instanceId == l.instanceId) ==> systems[j].validationStatusCode == "VALIDATED"
    ensures ValidationAlerts(links, systems, trialId) == 0
  {
    var rows := LiveRows(links, systems, trialId);
    forall i | 0 <= i < |rows|
      ensures !RaisesAlert(rows[i])
    {
      assert rows[i] in rows;
    }
    FilterNone(rows, RaisesAlert);
  }

  /**
   * The notes after submission: submitted notes are appended on a new line
   * after truthy existing notes, or replace empty ones; absent or empty
   * submitted notes leave the notes as they were.
   */
  function MergeNotes(existing: Option<string>, added: Option<string>): (r: Option<string>)
    ensures !Truthy(added) ==> r == existing
    ensures Truthy(added) ==> r.Some? && |added.value| <= |r.value|
                              && r.value[|r.value| - |added.value|..] == added.value
    ensures Truthy(existing) ==> r.Some? && existing.value <= r.value
    ensures Truthy(existing) && Truthy(added) ==>
      |r.value| == |existing.value| + 1 + |added.value| && r.value[|existing.value|] == '\n'
    ensures !Truthy(existing) && Truthy(added) ==> r == added
  {
    if !Truthy(added) then existing
    else if Truthy(existing) then
      var merged := existing.value + "\n" + added.value;
      assert merged[|merged| - |added.value|..] == added.value;
      assert merged[..|existing.value|] == existing.value;
      Some(merged)
    else added
  }

  /** The row `submit_confirmation` commits. */
  function Submitted(c: Confirmation, notes: Option<string>, actor: string, alerts: nat, today: Date)
    : (r: Confirmation)
    ensures r.confirmationStatus == Completed && r.confirmedDate == Some(today) && r.confirmedBy == Some(actor)
    ensures r.validationAlertsCount == Some(alerts) && r.notes == MergeNotes(c.notes, notes)
    ensures r == c.(confirmationStatus := Completed, confirmedDate := r.confirmedDate, confirmedBy := r.confirmedBy,
                    notes := r.notes, validationAlertsCount := r.validationAlertsCount)
  {
    c.(confirmationStatus := Completed, confirmedDate := Some(today), confirmedBy := Some(actor),
       notes := MergeNotes(c.notes, notes), validationAlertsCount := Some(alerts))
  }

  /** The two tables `submit_confirmation` writes. */
  datatype Ledger = Ledger(confirmations: seq<Confirmation>, snapshots: seq<LinkSnapshot>)
  {
    predicate Valid()
    {
      ConfirmationsConstraint(confirmations) && SnapshotsConstraint(snapshots)
    }
  }

  /** The snapshots a submission adds: none unless `capture_snapshots` is set. */
  function CapturedOnSubmit(links: seq<TrialSystemLink>, systems: seq<SystemInstance>, c: Confirmation,
                            data: ConfirmationSubmit, freshId: nat -> Uuid, now: DateTime): (r: seq<LinkSnapshot>)
    ensures !data.captureSnapshots ==> r == []
    ensures data.captureSnapshots ==>
      r == NewSnapshots(LiveRows(links, systems, c.trialId), c.confirmationId, freshId, now)
  {
    if data.captureSnapshots then NewSnapshots(LiveRows(links, systems, c.trialId), c.confirmationId, freshId, now)
    else []
  }

  const AlreadySubmitted: Error := ValidationError("Confirmation has already been submitted", None)
  const SubmitFailed: Error := ConflictError("Failed to submit confirmation due to constraint violation", None)

  /**
   * The commit of a submission: it succeeds exactly when the snapshot keys
   * stay unique, and then writes the completed row and the new snapshots;
   * otherwise nothing is written.
   */
  function SubmitCommit(l: Ledger, k: nat, row: Confirmation, added: seq<LinkSnapshot>)
    : (o: Outcome<Confirmation, Ledger>)
    requires k < |l.confirmations| && row.confirmationId == l.confirmations[k].confirmationId
    requires row.confirmationStatus == Completed
    ensures o.result.Ok? <==> SnapshotsConstraint(l.snapshots + added)
    ensures o.result.Err? ==> o == Outcome(Err(SubmitFailed), l)
    ensures o.result.Ok? ==> o.result.value == row && o.after == Ledger(l.confirmations[k := row], l.snapshots + added)
    ensures l.Valid() ==> o.after.Valid()
    ensures KeepsCompleted(l.confirmations, o.after.confirmations)
  {
    if SnapshotsConstraint(l.snapshots + added) then
      SameIdKeeps(l.confirmations, k, row);
      Outcome(Ok(row), Ledger(l.confirmations[k := row], l.snapshots + added))
    else Outcome(Err(SubmitFailed), l)
  }

  /**
   * `submit_confirmation` on the two tables: NotFound for an unknown id; a
   * ValidationError for a COMPLETED confirmation; a Conflict, with nothing
   * written, when a captured snapshot's key is in use; otherwise the row is
   * COMPLETED by `actor` today with its alerts counted, and the captured
   * snapshots are appended.
   */
  function SubmitOutcome(l: Ledger, links: seq<TrialSystemLink>, systems: seq<SystemInstance>, id: Uuid,
                         data: ConfirmationSubmit, actor: string, freshId: nat -> Uuid, now: DateTime, today: Date)
    : (o: Outcome<Confirmation, Ledger>)
    ensures ConfirmationIndex(l.confirmations, id).None? ==>
      o == Outcome(Err(NotFoundError("Confirmation", id.canonical, None)), l)
    ensures o.result.Err? ==> o.after == l
    ensures ConfirmationIndex(l.confirmations, id).Some? ==>
      var k := ConfirmationIndex(l.confirmations, id).value;
      var c := l.confirmations[k];
      var added := CapturedOnSubmit(links, systems, c, data, freshId, now);
      && (c.confirmationStatus == Completed ==> o == Outcome(Err(AlreadySubmitted), l))
      && (c.confirmationStatus != Completed ==>
            && (o.result.Ok? <==> SnapshotsConstraint(l.snapshots + added))
            && (o.result.Err? ==> o.result.error == SubmitFailed)
            && (o.result.Ok? ==>
                  && o.result.value == Submitted(c, data.notes, actor, ValidationAlerts(links, systems, c.trialId), today)
                  && o.after == Ledger(l.confirmations[k := o.result.value], l.snapshots + added)))
    ensures l.Valid() ==> o.after.Valid()
    ensures KeepsCompleted(l.confirmations, o.after.confirmations)
  {
    match ConfirmationIndex(l.confirmations, id)
    case None => Outcome(Err(NotFoundError("Confirmation", id.canonical, None)), l)
    case Some(k) =>
      var c := l.confirmations[k];
      if c.confirmationStatus == Completed then Outcome(Err(AlreadySubmitted), l)
      else
        SubmitCommit(l, k, Submitted(c, data.notes, actor, ValidationAlerts(links, systems, c.trialId), today),
                     CapturedOnSubmit(links, systems, c, data, freshId, now))
  }

  /** A confirmation submitted once cannot be submitted again. */
  lemma SubmitTwiceRefused(l: Ledger, links: seq<TrialSystemLink>, systems: seq<SystemInstance>, id: Uuid,
                           data: ConfirmationSubmit, actor: string, freshId: nat -> Uuid, now: DateTime, today: Date,
                           again: ConfirmationSubmit, actor2: string, freshId2: nat -> Uuid, later: DateTime,
                           laterDay: Date)
    requires SubmitOutcome(l, links, systems, id, data, actor, freshId, now, today).result.Ok?
    ensures var first := SubmitOutcome(l, links, systems, id, data, actor, freshId, now, today);
            SubmitOutcome(first.after, links, systems, id, again, actor2, freshId2, later, laterDay)
              == Outcome(Err(AlreadySubmitted), first.after)
  {
    var first := SubmitOutcome(l, links, systems, id, data, actor, freshId, now, today);
    var k := ConfirmationIndex(l.confirmations, id).value;
    LookupAfterRewrite(l.confirmations, k, first.result.value);
  }

  /** A submitted confirmation can no longer be edited. */
  lemma UpdateAfterSubmitRefused(l: Ledger, links: seq<TrialSystemLink>, systems: seq<SystemInstance>, id: Uuid,
                                 data: ConfirmationSubmit, actor: string, freshId: nat -> Uuid, now: DateTime,
                                 today: Date, edit: ConfirmationUpdate)
    requires SubmitOutcome(l, links, systems, id, data, actor, freshId, now, today).result.Ok?
    ensures var first := SubmitOutcome(l, links, systems, id, data, actor, freshId, now, today);
            UpdateConfirmationOutcome(first.after.confirmations, id, edit)
              == Outcome(Err(CompletedIsFinal), first.after.confirmations)
  {
    var first := SubmitOutcome(l, links, systems, id, data, actor, freshId, now, today);
    var k := ConfirmationIndex(l.confirmations, id).value;
    LookupAfterRewrite(l.confirmations, k, first.result.value);
  }

  /**
   * Capturing changes only the snapshots: with or without it, a successful
   * submission commits the same confirmation row, alerts count included.
   */
  lemma CaptureDoesNotChangeRow(l: Ledger, links: seq<TrialSystemLink>, systems: seq<SystemInstance>, id: Uuid,
                                notes: Option<string>, actor: string, freshId: nat -> Uuid, now: DateTime, today: Date)
    requires SubmitOutcome(l, links, systems, id, ConfirmationSubmit(notes, true), actor, freshId, now, today).result.Ok?
    ensures var with := SubmitOutcome(l, links, systems, id, ConfirmationSubmit(notes, true), actor, freshId, now, today);
            var without := SubmitOutcome(l, links, systems, id, ConfirmationSubmit(notes, false), actor, freshId, now, today);
            without.result == with.result && without.after.snapshots == l.snapshots
  {
    var k := ConfirmationIndex(l.confirmations, id).value;
    var c := l.confirmations[k];
    var row := Submitted(c, notes, actor, ValidationAlerts(links, systems, c.trialId), today);
    var added := NewSnapshots(LiveRows(links, systems, c.trialId), id, freshId, now);
    assert SubmitOutcome(l, links, systems, id, ConfirmationSubmit(notes, true), actor, freshId, now, today)
        == SubmitCommit(l, k, row, added);
    assert SubmitOutcome(l, links, systems, id, ConfirmationSubmit(notes, false), actor, freshId, now, today)
        == SubmitCommit(l, k, row, []);
    assert l.snapshots + [] == l.snapshots;
    forall i, j | 0 <= i < j < |l.snapshots|
      ensures l.snapshots[i].snapshotId != l.snapshots[j].snapshotId
    {
      assert (l.snapshots + added)[i] == l.snapshots[i] && (l.snapshots + added)[j] == l.snapshots[j];
    }
  }

  /** The snapshots of the joined rows belong to the confirmation and cover every live link with a system. */
  lemma SnapshotsCoverLiveLinks(links: seq<TrialSystemLink>, systems: seq<SystemInstance>, trialId: Uuid,
                                confirmationId: Uuid, freshId: nat -> Uuid, now: DateTime)
    ensures var added := NewSnapshots(LiveRows(links, systems, trialId), confirmationId, freshId, now);
            && (forall s :: s in added ==> s.confirmationId == confirmationId)
            && (forall lk :: lk in links && LiveOnTrial(lk, trialId) && SystemIndex(systems, lk.instanceId).Some? ==>
                  exists s :: s in added && s.linkId == lk.linkId && s.instanceId == lk.instanceId)
  {
    var rows := LiveRows(links, systems, trialId);
    var added := NewSnapshots(rows, confirmationId, freshId, now);
    forall s | s in added
      ensures s.confirmationId == confirmationId
    {
      var i :| 0 <= i < |added| && added[i] == s;
    }
    forall lk | lk in links && LiveOnTrial(lk, trialId) && SystemIndex(systems, lk.instanceId).Some?
      ensures exists s :: s in added && s.linkId == lk.linkId && s.instanceId == lk.instanceId
    {
      var x := JoinedRow(lk, systems).value;
      assert x in rows;
      var i :| 0 <= i < |rows| && rows[i] == x;
      assert added[i] in added;
    }
  }

  /**
   * With capture on, a successful submission appends one snapshot per
   * joined live row, each belonging to the confirmation, and covers every
   * live link whose system exists.
   */
  lemma CaptureCoversLiveLinks(l: Ledger, links: seq<TrialSystemLink>, systems: seq<SystemInstance>, id: Uuid,
                               notes: Option<string>, actor: string, freshId: nat -> Uuid, now: DateTime, today: Date)
    requires SubmitOutcome(l, links, systems, id, ConfirmationSubmit(notes, true), actor, freshId, now, today).result.Ok?
    ensures var o := SubmitOutcome(l, links, systems, id, ConfirmationSubmit(notes, true), actor, freshId, now, today);
            var trialId := o.result.value.trialId;
            var added := o.after.snapshots[|l.snapshots|..];
            && o.after.snapshots[..|l.snapshots|] == l.snapshots
            && |added| == |LiveRows(links, systems, trialId)| <= SystemsCount(links, trialId)
            && (forall s :: s in added ==> s.confirmationId == id)
            && (forall lk :: lk in links && LiveOnTrial(lk, trialId) && SystemIndex(systems, lk.instanceId).Some? ==>
                  exists s :: s in added && s.linkId == lk.linkId && s.instanceId == lk.instanceId)
  {
    var k := ConfirmationIndex(l.confirmations, id).value;
    var c := l.confirmations[k];
    var row := Submitted(c, notes, actor, ValidationAlerts(links, systems, c.trialId), today);
    var added := NewSnapshots(LiveRows(links, systems, c.trialId), id, freshId, now);
    assert SubmitOutcome(l, links, systems, id, ConfirmationSubmit(notes, true), actor, freshId, now, today)
        == SubmitCommit(l, k, row, added);
    var after := l.snapshots + added;
    assert after[|l.snapshots|..] == added;
    assert after[..|l.snapshots|] == l.snapshots;
    SnapshotsCoverLiveLinks(links, systems, c.trialId, id, freshId, now);
  }

  // ---------------------------------------------------------------------------
  // generate_export
  // ---------------------------------------------------------------------------

  const ExportNotReady: Error := ValidationError("Can only export completed confirmations", None)

  /** The simulated file size, 500 KiB. */
  const ExportFileSize: int := 1024 * 500

  /** The days an export stays downloadable. */
  const ExportLifetimeDays: nat := 30

  /**
   * `datetime + timedelta` past the year 9999 raises OverflowError, which no
   * handler of the service catches; the application's catch-all answers 500.
   */
  const ExpiryOverflow: Error := BaseError("An unexpected error occurred", Some(500), Some("INTERNAL_SERVER_ERROR"), None)

  /**
   * `confirmation_{id}_{%Y%m%d_%H%M%S}.{format.lower()}`: the file name names
   * the confirmation and ends with the lower-cased format as extension.
   */
  function ExportFileName(id: Uuid, at: DateTime, format: string): (r: string)
    ensures |r| > 14 + |id.canonical| + |format| && r[..13] == "confirmation_" && r[13..13 + |id.canonical|] == id.canonical
    ensures r[13 + |id.canonical|] == '_'
    ensures r[|r| - |format|..] == AsciiLower(format) && r[|r| - |format| - 1] == '.'
    ensures r[14 + |id.canonical|..|r| - |format| - 1] == CompactStamp(at)
  {
    var r := "confirmation_" + id.canonical + "_" + CompactStamp(at) + "." + AsciiLower(format);
    assert r[..13] == "confirmation_";
    assert r[13..13 + |id.canonical|] == id.canonical;
    assert r[|r| - |format|..] == AsciiLower(format);
    r
  }

  function DownloadUrl(exportId: Uuid): string
  {
    "/api/v1/exports/" + exportId.canonical + "/download"
  }

  /**
   * The row change of `generate_export`: row `k` is flagged as exported
   * under `exportId`; no other row and no status changes.
   */
  function MarkExported(cs: seq<Confirmation>, k: nat, exportId: Uuid): (after: seq<Confirmation>)
    requires k < |cs|
    ensures |after| == |cs| && after[k].exportGenerated && after[k].exportId == Some(exportId)
    ensures after[k] == cs[k].(exportGenerated := true, exportId := Some(exportId))
    ensures forall j :: 0 <= j < |cs| && j != k ==> after[j] == cs[j]
    ensures forall j :: 0 <= j < |cs| ==> after[j].confirmationStatus == cs[j].confirmationStatus
    ensures ConfirmationsConstraint(cs) ==> ConfirmationsConstraint(after)
    ensures KeepsCompleted(cs, after)
  {
    var row := cs[k].(exportGenerated := true, exportId := Some(exportId));
    SameIdKeeps(cs, k, row);
    cs[k := row]
  }

  /**
   * The response `generate_export` builds for a completed confirmation: the
   * export of the requested format, downloadable for 30 days; the error the
   * expiry overflow raises past the year 9999.
   */
  function ExportResponseFor(request: ExportRequest, exportId: Uuid, now: DateTime): (r: Result<ExportResponse>)
    ensures r.Err? <==> AddDaysToDateTime(now, ExportLifetimeDays).None?
    ensures r.Err? ==> r.error == ExpiryOverflow
    ensures r.Ok? ==>
      && r.value.exportId == exportId && r.value.confirmationId == request.confirmationId
      && r.value.exportFormat == request.exportFormat && r.value.status == Completed
      && r.value.fileName == Some(ExportFileName(request.confirmationId, now, request.exportFormat))
      && r.value.fileSizeBytes == Some(ExportFileSize) && r.value.downloadUrl == Some(DownloadUrl(exportId))
      && r.value.generatedAt == now && r.value.expiresAt == AddDaysToDateTime(now, ExportLifetimeDays)
      && r.value.expiresAt.Some? && DateTimeBefore(r.value.generatedAt, r.value.expiresAt.value)
  {
    match AddDaysToDateTime(now, ExportLifetimeDays)
    case None => Err(ExpiryOverflow)
    case Some(expires) =>
      Ok(ExportResponse(exportId, request.confirmationId, request.exportFormat, Completed,
                        Some(ExportFileName(request.confirmationId, now, request.exportFormat)),
                        Some(ExportFileSize), Some(DownloadUrl(exportId)), now, Some(expires)))
  }

  /**
   * `generate_export` on the table: NotFound for an unknown id; a
   * ValidationError unless the confirmation is COMPLETED; otherwise the row
   * is marked exported and committed before the response is built, so the
   * mark stays even when building the response fails.
   */
  function ExportOutcome(cs: seq<Confirmation>, request: ExportRequest, exportId: Uuid, now: DateTime)
    : (o: Outcome<ExportResponse, seq<Confirmation>>)
    ensures ConfirmationIndex(cs, request.confirmationId).None? ==>
      o == Outcome(Err(NotFoundError("Confirmation", request.confirmationId.canonical, None)), cs)
    ensures ConfirmationIndex(cs, request.confirmationId).Some? ==>
      var k := ConfirmationIndex(cs, request.confirmationId).value;
      && (cs[k].confirmationStatus != Completed ==> o == Outcome(Err(ExportNotReady), cs))
      && (cs[k].confirmationStatus == Completed ==>
            o == Outcome(ExportResponseFor(request, exportId, now), MarkExported(cs, k, exportId)))
    ensures |o.after| == |cs| && forall j :: 0 <= j < |cs| ==> o.after[j].confirmationStatus == cs[j].confirmationStatus
    ensures ConfirmationsConstraint(cs) ==> ConfirmationsConstraint(o.after)
    ensures KeepsCompleted(cs, o.after)
  {
    match ConfirmationIndex(cs, request.confirmationId)
    case None => Outcome(Err(NotFoundError("Confirmation", request.confirmationId.canonical, None)), cs)
    case Some(k) =>
      if cs[k].confirmationStatus != Completed then Outcome(Err(ExportNotReady), cs)
      else Outcome(ExportResponseFor(request, exportId, now), MarkExported(cs, k, exportId))
  }

  /** A confirmation whose submission succeeded can be exported. */
  lemma SubmittedCanBeExported(l: Ledger, links: seq<TrialSystemLink>, systems: seq<SystemInstance>, id: Uuid,
                               data: ConfirmationSubmit, actor: string, freshId: nat -> Uuid, now: DateTime,
                               today: Date, exportId: Uuid, later: DateTime)
    requires SubmitOutcome(l, links, systems, id, data, actor, freshId, now, today).result.Ok?
    requires AddDaysToDateTime(later, ExportLifetimeDays).Some?
    ensures var first := SubmitOutcome(l, links, systems, id, data, actor, freshId, now, today);
            ExportOutcome(first.after.confirmations, DefaultExportRequest(id), exportId, later).result.Ok?
  {
    var first := SubmitOutcome(l, links, systems, id, data, actor, freshId, now, today);
    var k := ConfirmationIndex(l.confirmations, id).value;
    LookupAfterRewrite(l.confirmations, k, first.result.value);
  }

  /** A confirmation still PENDING cannot be exported. */
  lemma PendingCannotBeExported(cs: seq<Confirmation>, request: ExportRequest, exportId: Uuid, now: DateTime)
    requires ConfirmationIndex(cs, request.confirmationId).Some?
    requires cs[ConfirmationIndex(cs, request.confirmationId).value].confirmationStatus == DefaultConfirmationStatus
    ensures ExportOutcome(cs, request, exportId, now) == Outcome(Err(ExportNotReady), cs)
  {
  }

  /** A newly created confirmation is found by its id, PENDING and without snapshots. */
  lemma CreatedConfirmationIsFound(trials: seq<Trial>, links: seq<TrialSystemLink>, cs: seq<Confirmation>,
                                   snapshots: seq<LinkSnapshot>, systems: seq<SystemInstance>,
                                   data: ConfirmationCreate, newId: Uuid, now: DateTime)
    requires forall i :: 0 <= i < |snapshots| ==> snapshots[i].confirmationId != newId
    requires CreateConfirmationOutcome(trials, links, cs, data, newId, now).result.Ok?
    ensures var o := CreateConfirmationOutcome(trials, links, cs, data, newId, now);
            var r := GetConfirmation(o.after, trials, snapshots, systems, newId);
            && r.Ok? && r.value.confirmation == o.result.value
            && r.value.confirmation.confirmationStatus == DefaultConfirmationStatus && r.value.snapshots == []
  {
    var o := CreateConfirmationOutcome(trials, links, cs, data, newId, now);
    assert forall j :: 0 <= j < |cs| ==> o.after[j] == cs[j];
    assert o.after[|cs|].confirmationId == newId;
    assert ConfirmationIndex(o.after, newId) == Some(|cs|);
    FilterNone(snapshots, (s: LinkSnapshot) => s.confirmationId == newId);
  }

  // ---------------------------------------------------------------------------
  // The service methods on a session
  // ---------------------------------------------------------------------------

  method CreateConfirmation(db: Session, data: ConfirmationCreate, newId: Uuid, now: DateTime)
    returns (r: Result<Confirmation>)
    requires db.Valid()
    modifies db`confirmations
    ensures db.Valid()
    ensures var o := CreateConfirmationOutcome(db.trials, db.links, old(db.confirmations), data, newId, now);
            r == o.result && db.confirmations == o.after
  {
    if TrialIndex(db.trials, data.trialId).None? {
      return Err(NotFoundError("Trial", data.trialId.canonical, None));
    }
    var systemsCount := SystemsCount(db.links, data.trialId);
    var confirmation := NewConfirmation(newId, data.trialId, data.confirmationType, data.dueDate, data.notes,
                                        systemsCount, now);
    if !ConfirmationFits(db.confirmations, confirmation, |db.confirmations|) {
      return Err(CreateFailed);
    }
    ConfirmationFitsKeeps(db.confirmations, confirmation, |db.confirmations|);
    db.confirmations := db.confirmations + [confirmation];
    r := Ok(confirmation);
  }

  method UpdateConfirmation(db: Session, id: Uuid, data: ConfirmationUpdate) returns (r: Result<Confirmation>)
    requires db.Valid()
    modifies db`confirmations
    ensures db.Valid()
    ensures var o := UpdateConfirmationOutcome(old(db.confirmations), id, data);
            r == o.result && db.confirmations == o.after
  {
    var found := ConfirmationIndex(db.confirmations, id);
    if found.None? {
      return Err(NotFoundError("Confirmation", id.canonical, None));
    }
    var k := found.value;
    if db.confirmations[k].confirmationStatus == Completed {
      return Err(CompletedIsFinal);
    }
    var row := ApplyConfirmationUpdate(db.confirmations[k], data);
    SameIdKeeps(db.confirmations, k, row);
    db.confirmations := db.confirmations[k := row];
    r := Ok(row);
  }

  /**
   * The snapshots are added to the session before the confirmation is
   * changed; when the commit refuses them they are discarded again.
   */
  method SubmitConfirmation(db: Session, id: Uuid, data: ConfirmationSubmit, actor: string, freshId: nat -> Uuid,
                            now: DateTime, today: Date) returns (r: Result<Confirmation>)
    requires db.Valid()
    modifies db`confirmations, db`snapshots
    ensures db.Valid()
    ensures var o := SubmitOutcome(Ledger(old(db.confirmations), old(db.snapshots)), db.links, db.systems, id, data,
                                   actor, freshId, now, today);
            r == o.result && db.confirmations == o.after.confirmations && db.snapshots == o.after.snapshots
  {
    var found := ConfirmationIndex(db.confirmations, id);
    if found.None? {
      return Err(NotFoundError("Confirmation", id.canonical, None));
    }
    var k := found.value;
    var confirmation := db.confirmations[k];
    if confirmation.confirmationStatus == Completed {
      return Err(AlreadySubmitted);
    }
    ghost var before := Ledger(db.confirmations, db.snapshots);
    var committed := db.snapshots;
    CaptureOnSubmit(db, confirmation, data, freshId, now);
    ghost var added := CapturedOnSubmit(db.links, db.systems, confirmation, data, freshId, now);
    var alerts := ValidationAlerts(db.links, db.systems, confirmation.trialId);
    var row := Submitted(confirmation, data.notes, actor, alerts, today);
    assert SubmitOutcome(before, db.links, db.systems, id, data, actor, freshId, now, today)
        == SubmitCommit(before, k, row, added);
    r := CommitSubmission(db, k, row, committed, added);
  }

  /** Adds the snapshots of `capture_snapshots` to the session, or nothing when it is unset. */
  method CaptureOnSubmit(db: Session, c: Confirmation, data: ConfirmationSubmit, freshId: nat -> Uuid, now: DateTime)
    modifies db`snapshots
    ensures db.snapshots == old(db.snapshots) + CapturedOnSubmit(db.links, db.systems, c, data, freshId, now)
  {
    if data.captureSnapshots {
      CaptureSnapshots(db, c.trialId, c.confirmationId, freshId, now);
    } else {
      assert db.snapshots == old(db.snapshots) + [];
    }
  }

  /**
   * The commit of a submission: the pending snapshots `added` are flushed
   * behind `committed`; when they break a constraint the whole transaction
   * is rolled back.
   */
  method CommitSubmission(db: Session, k: nat, row: Confirmation, committed: seq<LinkSnapshot>,
                          ghost added: seq<LinkSnapshot>) returns (r: Result<Confirmation>)
    requires k < |db.confirmations| && db.confirmations[k].confirmationId == row.confirmationId
    requires row.confirmationStatus == Completed
    requires db.snapshots == committed + added
    requires VendorsConstraint(db.vendors) && SystemsConstraint(db.systems) && AuditsConstraint(db.audits)
    requires TrialsConstraint(db.trials) && LinksConstraint(db.links)
    requires ConfirmationsConstraint(db.confirmations) && SnapshotsConstraint(committed)
    modifies db`confirmations, db`snapshots
    ensures db.Valid()
    ensures var o := SubmitCommit(Ledger(old(db.confirmations), committed), k, row, added);
            r == o.result && db.confirmations == o.after.confirmations && db.snapshots == o.after.snapshots
  {
    if !SnapshotsConstraint(db.snapshots) {
      db.snapshots := committed;
      return Err(SubmitFailed);
    }
    SameIdKeeps(db.confirmations, k, row);
    db.confirmations := db.confirmations[k := row];
    r := Ok(row);
  }

  method GenerateExport(db: Session, request: ExportRequest, exportId: Uuid, now: DateTime)
    returns (r: Result<ExportResponse>)
    requires db.Valid()
    modifies db`confirmations
    ensures db.Valid()
    ensures var o := ExportOutcome(old(db.confirmations), request, exportId, now);
            r == o.result && db.confirmations == o.after
  {
    var found := ConfirmationIndex(db.confirmations, request.confirmationId);
    if found.None? {
      return Err(NotFoundError("Confirmation", request.confirmationId.canonical, None));
    }
    var k := found.value;
    if db.confirmations[k].confirmationStatus != Completed {
      return Err(ExportNotReady);
    }
    db.confirmations := MarkExported(db.confirmations, k, exportId);
    var expires := AddDaysToDateTime(now, ExportLifetimeDays);
    if expires.None? {
      return Err(ExpiryOverflow);
    }
    var fileName := ExportFileName(request.confirmationId, now, request.exportFormat);
    r := Ok(ExportResponse(exportId, request.confirmationId, request.exportFormat, Completed, Some(fileName),
                           Some(ExportFileSize), Some(DownloadUrl(exportId)), now, expires));
  }
}
