/**
 * Trials and their links to system instances: listing, lookup with the
 * live linked systems, creation with a protocol-uniqueness check, partial
 * update, linking, link update and soft unlinking.
 *
 * A link is live for this service while `unlinked_at` is null; the
 * database's partial unique index uses a different test (`IndexCounts`),
 * and unlinking never changes the column that test reads.
 */
module TrialService {
  import opened Wrappers
  import opened Values
  import opened Text
  import opened Seqs
  import opened Exceptions
  import opened Pagination
  import opened DbModels
  import opened TrialModels

  // ---------------------------------------------------------------------------
  // list_trials
  // ---------------------------------------------------------------------------

  /** The WHERE clause of `list_trials`: every truthy filter must hold. */
  predicate Listed(t: Trial, search: Option<string>, status: Option<string>, phase: Option<string>,
                   area: Option<string>, leadEmail: Option<string>)
  {
    && (Truthy(search) ==>
          SearchHits(Some(t.protocolNumber), search.value) || SearchHits(Some(t.trialTitle), search.value)
          || SearchHits(t.therapeuticArea, search.value))
    && (Truthy(status) ==> t.trialStatus == status.value)
    && (Truthy(phase) ==> t.trialPhase == Some(phase.value))
    && (Truthy(area) ==> SearchHits(t.therapeuticArea, area.value))
    && (Truthy(leadEmail) ==> t.trialLeadEmail == Some(leadEmail.value))
  }

  /** `ORDER BY protocol_number`. */
  predicate ProtocolOrder(a: Trial, b: Trial)
  {
    StrLeq(a.protocolNumber, b.protocolNumber)
  }

  lemma ProtocolOrderTotal()
    ensures TotalPreorder(ProtocolOrder)
  {
    forall a: Trial, b: Trial
      ensures ProtocolOrder(a, b) || ProtocolOrder(b, a)
    {
      StrLeqTotal(a.protocolNumber, b.protocolNumber);
    }
    forall a: Trial, b: Trial, c: Trial | ProtocolOrder(a, b) && ProtocolOrder(b, c)
      ensures ProtocolOrder(a, c)
    {
      StrLeqTransitive(a.protocolNumber, b.protocolNumber, c.protocolNumber);
    }
  }

  /**
   * One page of trials: the total counts every matching trial, the page
   * holds at most `limit` of them, in protocol order.
   */
  function ListTrials(trials: seq<Trial>, p: PaginationParams, search: Option<string>, status: Option<string>,
                      phase: Option<string>, area: Option<string>, leadEmail: Option<string>): (r: Listing<Trial>)
    requires p.Valid()
    ensures r.meta == PaginationMeta(|Filter(trials, t => Listed(t, search, status, phase, area, leadEmail))|,
                                     p.limit, p.offset)
    ensures |r.data| <= p.limit
    ensures forall t :: t in r.data ==> t in trials && Listed(t, search, status, phase, area, leadEmail)
    ensures SortedBy(r.data, ProtocolOrder)
    ensures |r.data| == if p.offset >= r.meta.total then 0 else Min(p.limit, r.meta.total - p.offset)
    ensures IsSortedPage(r.data, Filter(trials, t => Listed(t, search, status, phase, area, leadEmail)),
                         ProtocolOrder, p.limit, p.offset)
    ensures p.offset == 0 && r.meta.total <= p.limit ==>
      multiset(r.data) == multiset(Filter(trials, t => Listed(t, search, status, phase, area, leadEmail)))
  {
    var matching := Filter(trials, t => Listed(t, search, status, phase, area, leadEmail));
    ProtocolOrderTotal();
    SortedPageSorted(matching, ProtocolOrder, p.limit, p.offset);
    Listing(SortedPage(matching, ProtocolOrder, p.limit, p.offset), PaginationMeta(|matching|, p.limit, p.offset))
  }

  // ---------------------------------------------------------------------------
  // get_trial
  // ---------------------------------------------------------------------------

  datatype LinkedSystemDetail = LinkedSystemDetail(
    linkId: Uuid,
    instanceId: Uuid,
    instanceCode: string,
    platformName: string,
    categoryCode: string,
    assignmentStatus: string,
    criticalityCode: string,
    criticalityOverrideReason: Option<string>,
    usageStartDate: Date,
    usageEndDate: Option<Date>,
    linkedAt: DateTime)

  datatype TrialDetail = TrialDetail(trial: Trial, linkedSystems: seq<LinkedSystemDetail>)

  /** The inner join of one link with its system; None when the system is missing. */
  function JoinedDetail(l: TrialSystemLink, systems: seq<SystemInstance>): (r: Option<LinkedSystemDetail>)
    ensures r.Some? <==> exists j :: 0 <= j < |systems| && systems[j].instanceId == l.instanceId
    ensures r.Some? ==> r.value.linkId == l.linkId && r.value.instanceId == l.instanceId
    ensures r.Some? ==> r.value.linkedAt == l.linkedAt && r.value.assignmentStatus == l.assignmentStatus
  {
    match SystemIndex(systems, l.instanceId)
    case None => None
    case Some(j) =>
      Some(LinkedSystemDetail(l.linkId, l.instanceId, systems[j].instanceCode, systems[j].platformName,
                              systems[j].categoryCode, l.assignmentStatus, l.criticalityCode,
                              l.criticalityOverrideReason, l.usageStartDate, l.usageEndDate, l.linkedAt))
  }

  /** `JOIN system_instances`: one detail per link whose system exists, in link order. */
  function JoinSystems(links: seq<TrialSystemLink>, systems: seq<SystemInstance>): (r: seq<LinkedSystemDetail>)
    ensures |r| <= |links|
    ensures forall x :: x in r <==> exists l :: l in links && JoinedDetail(l, systems) == Some(x)
    ensures |r| == |Joinable(links, l => JoinedDetail(l, systems))|
    ensures forall i :: 0 <= i < |r| ==>
      JoinedDetail(Joinable(links, l => JoinedDetail(l, systems))[i], systems) == Some(r[i])
  {
    FilterMapJoins(links, l => JoinedDetail(l, systems));
    FilterMap(links, l => JoinedDetail(l, systems))
  }

  /** `ORDER BY linked_at DESC`. */
  predicate NewestLinkFirst(a: LinkedSystemDetail, b: LinkedSystemDetail)
  {
    NotBefore(a.linkedAt, b.linkedAt)
  }

  lemma NewestLinkFirstTotal()
    ensures TotalPreorder(NewestLinkFirst)
  {
    forall a: LinkedSystemDetail, b: LinkedSystemDetail, c: LinkedSystemDetail
      ensures NewestLinkFirst(a, b) || NewestLinkFirst(b, a)
      ensures NewestLinkFirst(a, b) && NewestLinkFirst(b, c) ==> NewestLinkFirst(a, c)
    {
      NotBeforeTotalOrder(a.linkedAt, b.linkedAt, c.linkedAt);
    }
  }

  /**
   * The trial's live links joined with their systems, newest link first;
   * a link whose `unlinked_at` is set never appears, whatever its status.
   */
  function LinkedSystems(links: seq<TrialSystemLink>, systems: seq<SystemInstance>, trialId: Uuid)
    : (r: seq<LinkedSystemDetail>)
    ensures |r| <= |Filter(links, l => LiveOnTrial(l, trialId))|
    ensures forall x :: x in r <==> exists l :: l in links && LiveOnTrial(l, trialId) && JoinedDetail(l, systems) == Some(x)
    ensures SortedBy(r, NewestLinkFirst)
    ensures multiset(r) == multiset(JoinSystems(Filter(links, l => LiveOnTrial(l, trialId)), systems))
    ensures |r| == |Joinable(Filter(links, l => LiveOnTrial(l, trialId)), l => JoinedDetail(l, systems))|
  {
    var live := Filter(links, l => LiveOnTrial(l, trialId));
    var joined := JoinSystems(live, systems);
    NewestLinkFirstTotal();
    SortBySorted(joined, NewestLinkFirst);
    SortByPermutation(joined, NewestLinkFirst);
    var r := SortBy(joined, NewestLinkFirst);
    SameMembers(r, joined);
    r
  }

  /** `get_trial`: the trial and its live linked systems, or NotFound("Trial", id). */
  function GetTrial(trials: seq<Trial>, links: seq<TrialSystemLink>, systems: seq<SystemInstance>, id: Uuid)
    : (r: Result<TrialDetail>)
    ensures r.Ok? <==> exists j :: 0 <= j < |trials| && trials[j].trialId == id
    ensures r.Err? ==> r.error == NotFoundError("Trial", id.canonical, None)
    ensures r.Ok? ==> r.value.trial in trials && r.value.trial.trialId == id
    ensures r.Ok? ==> r.value.linkedSystems == LinkedSystems(links, systems, id)
  {
    match TrialIndex(trials, id)
    case None => Err(NotFoundError("Trial", id.canonical, None))
    case Some(k) => Ok(TrialDetail(trials[k], LinkedSystems(links, systems, id)))
  }

  // ---------------------------------------------------------------------------
  // create_trial
  // ---------------------------------------------------------------------------

  predicate ProtocolTaken(trials: seq<Trial>, protocol: string)
  {
    exists j :: 0 <= j < |trials| && trials[j].protocolNumber == protocol
  }

  function DuplicateProtocolError(protocol: string): Error
  {
    ConflictError("Trial with protocol '" + protocol + "' already exists", None)
  }

  const CreateFailed: Error := ConflictError("Failed to create trial due to constraint violation", None)

  /**
   * `Trial(**trial_data.model_dump())`: every request field is written, so
   * the request's status wins over the column default. None when
   * `trial_title` is absent: the column is NOT NULL and the insert fails.
   */
  function NewTrial(data: TrialCreate, id: Uuid, now: DateTime): (r: Option<Trial>)
    ensures r.None? <==> data.trialTitle.None?
    ensures r.Some? ==> r.value.trialId == id && r.value.protocolNumber == data.protocolNumber
    ensures r.Some? ==> r.value.trialTitle == data.trialTitle.value && r.value.trialStatus == data.trialStatus
    ensures r.Some? ==> r.value.trialPhase == data.trialPhase && r.value.therapeuticArea == data.therapeuticArea
    ensures r.Some? ==> r.value.trialStartDate == data.trialStartDate && r.value.trialCloseDate == data.trialCloseDate
    ensures r.Some? ==> r.value.trialLeadName == data.trialLeadName && r.value.trialLeadEmail == data.trialLeadEmail
    ensures r.Some? ==> r.value.ctmsTrialId == data.ctmsTrialId
    ensures r.Some? ==> r.value.indication.None? && r.value.plannedDbLockDate.None? && r.value.actualDbLockDate.None?
    ensures r.Some? ==> r.value.lastCtmsSync.None? && r.value.nextConfirmationDue.None?
    ensures r.Some? ==> r.value.createdAt == now && r.value.updatedAt == now
  {
    match data.trialTitle
    case None => None
    case Some(title) =>
      Some(Trial(id, data.protocolNumber, title, data.trialPhase, data.trialStatus, data.therapeuticArea, None,
                 data.trialStartDate, None, None, data.trialCloseDate, data.trialLeadName, data.trialLeadEmail,
                 data.ctmsTrialId, None, None, now, now))
  }

  /**
   * `create_trial` on a table: a duplicate protocol is a Conflict naming it;
   * a row the database refuses (no title, or the generated key in use) is
   * the generic Conflict; otherwise the new row is appended.
   */
  function CreateTrialOutcome(trials: seq<Trial>, data: TrialCreate, newId: Uuid, now: DateTime)
    : (o: Outcome<Trial, seq<Trial>>)
    ensures ProtocolTaken(trials, data.protocolNumber) ==>
      o == Outcome(Err(DuplicateProtocolError(data.protocolNumber)), trials)
    ensures o.result.Err? ==> o.after == trials && o.result.error.kind == Conflict
    ensures o.result.Err? && !ProtocolTaken(trials, data.protocolNumber) ==> o.result.error == CreateFailed
    ensures o.result.Ok? <==>
      && !ProtocolTaken(trials, data.protocolNumber) && data.trialTitle.Some?
      && forall j :: 0 <= j < |trials| ==> trials[j].trialId != newId
    ensures o.result.Ok? ==> Some(o.result.value) == NewTrial(data, newId, now) && o.after == trials + [o.result.value]
    ensures TrialsConstraint(trials) ==> TrialsConstraint(o.after)
  {
    if ProtocolTaken(trials, data.protocolNumber) then
      Outcome(Err(DuplicateProtocolError(data.protocolNumber)), trials)
    else
      match NewTrial(data, newId, now)
      case None => Outcome(Err(CreateFailed), trials)
      case Some(row) =>
        if TrialFits(trials, row, |trials|) then
          TrialFitsKeeps(trials, row, |trials|);
          Outcome(Ok(row), trials + [row])
        else Outcome(Err(CreateFailed), trials)
  }

  // ---------------------------------------------------------------------------
  // update_trial
  // ---------------------------------------------------------------------------

  /**
   * The row after the `setattr` loop and `updated_at = utcnow()`, which is
   * assigned whatever the payload; None when the payload writes null into a
   * NOT NULL column, which the commit rejects.
   */
  function ApplyTrialUpdate(t: Trial, data: TrialUpdate, now: DateTime): (r: Option<Trial>)
    ensures r.None? <==> data.NullsRequiredColumn()
    ensures r.Some? ==> r.value.trialId == t.trialId && r.value.protocolNumber == t.protocolNumber
    ensures r.Some? ==> r.value.updatedAt == now && r.value.createdAt == t.createdAt
    ensures r.Some? ==> r.value.indication == t.indication && r.value.lastCtmsSync == t.lastCtmsSync
    ensures r.Some? ==> r.value.plannedDbLockDate == t.plannedDbLockDate
    ensures r.Some? ==> r.value.actualDbLockDate == t.actualDbLockDate
    ensures r.Some? ==> Some(r.value.trialTitle) == data.trialTitle.ApplyNotNull(t.trialTitle)
    ensures r.Some? ==> Some(r.value.trialStatus) == data.trialStatus.ApplyNotNull(t.trialStatus)
    ensures r.Some? ==> r.value.trialPhase == data.trialPhase.ApplyNullable(t.trialPhase)
    ensures r.Some? ==> r.value.therapeuticArea == data.therapeuticArea.ApplyNullable(t.therapeuticArea)
    ensures r.Some? ==> r.value.trialStartDate == data.trialStartDate.ApplyNullable(t.trialStartDate)
    ensures r.Some? ==> r.value.trialCloseDate == data.trialCloseDate.ApplyNullable(t.trialCloseDate)
    ensures r.Some? ==> r.value.trialLeadName == data.trialLeadName.ApplyNullable(t.trialLeadName)
    ensures r.Some? ==> r.value.trialLeadEmail == data.trialLeadEmail.ApplyNullable(t.trialLeadEmail)
    ensures r.Some? ==> r.value.ctmsTrialId == data.ctmsTrialId.ApplyNullable(t.ctmsTrialId)
    ensures r.Some? ==> r.value.nextConfirmationDue == data.nextConfirmationDue.ApplyNullable(t.nextConfirmationDue)
  {
    var title := data.trialTitle.ApplyNotNull(t.trialTitle);
    var status := data.trialStatus.ApplyNotNull(t.trialStatus);
    if title.None? || status.None? then None
    else
      Some(t.(trialTitle := title.value, trialStatus := status.value,
              trialPhase := data.trialPhase.ApplyNullable(t.trialPhase),
              therapeuticArea := data.therapeuticArea.ApplyNullable(t.therapeuticArea),
              trialStartDate := data.trialStartDate.ApplyNullable(t.trialStartDate),
              trialCloseDate := data.trialCloseDate.ApplyNullable(t.trialCloseDate),
              trialLeadName := data.trialLeadName.ApplyNullable(t.trialLeadName),
              trialLeadEmail := data.trialLeadEmail.ApplyNullable(t.trialLeadEmail),
              ctmsTrialId := data.ctmsTrialId.ApplyNullable(t.ctmsTrialId),
              nextConfirmationDue := data.nextConfirmationDue.ApplyNullable(t.nextConfirmationDue),
              updatedAt := now))
  }

  const UpdateFailed: Error := ConflictError("Failed to update trial due to constraint violation", None)

  /** A row keeping its stored id and protocol still satisfies the table's unique constraints. */
  lemma SameKeysFit(trials: seq<Trial>, k: nat, row: Trial)
    requires k < |trials|
    requires row.trialId == trials[k].trialId && row.protocolNumber == trials[k].protocolNumber
    ensures TrialsConstraint(trials) ==> TrialFits(trials, row, k)
  {
    if TrialsConstraint(trials) {
      forall i | 0 <= i < |trials| && i != k
        ensures trials[i].trialId != row.trialId && trials[i].protocolNumber != row.protocolNumber
      {
        if i > k {
          assert trials[k].trialId != trials[i].trialId;
        }
      }
    }
  }

  /**
   * `update_trial` on a table: NotFound for an unknown id; a Conflict when
   * the payload nulls a required column; otherwise the patched row, with a
   * new `updated_at` even for an empty payload, replaces the stored one.
   */
  function UpdateTrialOutcome(trials: seq<Trial>, id: Uuid, data: TrialUpdate, now: DateTime)
    : (o: Outcome<Trial, seq<Trial>>)
    ensures TrialIndex(trials, id).None? ==> o == Outcome(Err(NotFoundError("Trial", id.canonical, None)), trials)
    ensures o.result.Err? ==> o.after == trials
    ensures o.result.Err? && TrialIndex(trials, id).Some? ==> o.result.error == UpdateFailed
    ensures TrialIndex(trials, id).Some? ==>
      var k := TrialIndex(trials, id).value;
      var patched := ApplyTrialUpdate(trials[k], data, now);
      && (TrialsConstraint(trials) ==> (o.result.Ok? <==> patched.Some?))
      && (o.result.Ok? ==> patched == Some(o.result.value) && o.after == trials[k := o.result.value])
    ensures TrialsConstraint(trials) ==> TrialsConstraint(o.after)
  {
    match TrialIndex(trials, id)
    case None => Outcome(Err(NotFoundError("Trial", id.canonical, None)), trials)
    case Some(k) =>
      match ApplyTrialUpdate(trials[k], data, now)
      case None => Outcome(Err(UpdateFailed), trials)
      case Some(row) =>
        SameKeysFit(trials, k, row);
        if TrialFits(trials, row, k) then
          TrialFitsKeeps(trials, row, k);
          Outcome(Ok(row), trials[k := row])
        else Outcome(Err(UpdateFailed), trials)
  }

  // ---------------------------------------------------------------------------
  // Live links of a pair
  // ---------------------------------------------------------------------------

  /** The link of the pair that has not been unlinked. */
  predicate LiveFor(l: TrialSystemLink, trialId: Uuid, instanceId: Uuid)
  {
    LinksPair(l, trialId, instanceId) && IsLinked(l)
  }

  /**
   * What the service itself keeps: at most one link per pair has a null
   * `unlinked_at`, so the single-row lookups of a live link are well defined.
   */
  predicate LiveLinksUnique(links: seq<TrialSystemLink>)
  {
    forall i, j :: 0 <= i < j < |links| && IsLinked(links[i]) && IsLinked(links[j]) ==>
      !LinksPair(links[j], links[i].trialId, links[i].instanceId)
  }

  /** The position of the pair's live link (the first one, should there be several). */
  function LiveLinkIndex(links: seq<TrialSystemLink>, trialId: Uuid, instanceId: Uuid): (k: Option<nat>)
    ensures k.Some? ==> k.value < |links| && LiveFor(links[k.value], trialId, instanceId)
    ensures k.Some? ==> forall j :: 0 <= j < k.value ==> !LiveFor(links[j], trialId, instanceId)
    ensures k.None? <==> forall j :: 0 <= j < |links| ==> !LiveFor(links[j], trialId, instanceId)
  {
    Find(links, (l: TrialSystemLink) => LiveFor(l, trialId, instanceId))
  }

  /** Under the service's invariant, the pair's live link is the only one. */
  lemma LiveLinkIsUnique(links: seq<TrialSystemLink>, trialId: Uuid, instanceId: Uuid, j: nat)
    requires LiveLinksUnique(links)
    requires j < |links| && LiveFor(links[j], trialId, instanceId)
    ensures LiveLinkIndex(links, trialId, instanceId) == Some(j)
  {
  }

  /** `NotFoundError("Active link", f"system {instance_id} in trial {trial_id}")`. */
  function NoActiveLink(trialId: Uuid, instanceId: Uuid): (e: Error)
    ensures e.kind == NotFound
    ensures e.message == "Active link not found: system " + instanceId.canonical + " in trial " + trialId.canonical
  {
    NotFoundError("Active link", "system " + instanceId.canonical + " in trial " + trialId.canonical, None)
  }

  // ---------------------------------------------------------------------------
  // link_system
  // ---------------------------------------------------------------------------

  function AlreadyLinked(trialId: Uuid, instanceId: Uuid): Error
  {
    ConflictError("System " + instanceId.canonical + " is already linked to trial " + trialId.canonical, None)
  }

  const LinkFailed: Error := ConflictError("Failed to link system due to constraint violation", None)

  /**
   * The row `link_system` adds: linked by the caller, starting on the given
   * date or else today, with the column default ACTIVE.
   */
  function NewLink(trialId: Uuid, data: SystemLinkCreate, actor: string, id: Uuid, now: DateTime, today: Date)
    : (l: TrialSystemLink)
    ensures l.linkId == id && l.trialId == trialId && l.instanceId == data.instanceId
    ensures l.assignmentStatus == DefaultAssignmentStatus && IndexCounts(l) && IsLinked(l)
    ensures l.criticalityCode == data.criticalityCode && l.criticalityOverrideReason == data.criticalityOverrideReason
    ensures data.usageStartDate.Some? ==> l.usageStartDate == data.usageStartDate.value
    ensures data.usageStartDate.None? ==> l.usageStartDate == today
    ensures l.usageEndDate == data.usageEndDate && l.linkedBy == Some(actor) && l.unlinkedBy.None?
    ensures l.linkedAt == now && l.createdAt == now && l.updatedAt == now
  {
    TrialSystemLink(id, trialId, data.instanceId, DefaultAssignmentStatus, data.criticalityCode,
                    data.criticalityOverrideReason, data.usageStartDate.GetOr(today), data.usageEndDate,
                    Some(actor), now, None, None, now, now)
  }

  /** No row counted by the partial unique index is for the pair. */
  predicate PairFreeInIndex(links: seq<TrialSystemLink>, trialId: Uuid, instanceId: Uuid)
  {
    forall i :: 0 <= i < |links| && IndexCounts(links[i]) ==> !LinksPair(links[i], trialId, instanceId)
  }

  /**
   * `link_system` on the tables: NotFound for a missing trial, then for a
   * missing system; a Conflict naming the pair when it has a live link; the
   * generic Conflict when the index or the generated key refuses the row;
   * otherwise the new link is appended.
   */
  function LinkSystemOutcome(trials: seq<Trial>, systems: seq<SystemInstance>, links: seq<TrialSystemLink>,
                             trialId: Uuid, data: SystemLinkCreate, actor: string, newId: Uuid, now: DateTime,
                             today: Date): (o: Outcome<TrialSystemLink, seq<TrialSystemLink>>)
    ensures TrialIndex(trials, trialId).None? ==>
      o == Outcome(Err(NotFoundError("Trial", trialId.canonical, None)), links)
    ensures TrialIndex(trials, trialId).Some? && SystemIndex(systems, data.instanceId).None? ==>
      o == Outcome(Err(NotFoundError("System", data.instanceId.canonical, None)), links)
    ensures TrialIndex(trials, trialId).Some? && SystemIndex(systems, data.instanceId).Some?
            && LiveLinkIndex(links, trialId, data.instanceId).Some? ==>
      o == Outcome(Err(AlreadyLinked(trialId, data.instanceId)), links)
    ensures o.result.Err? ==> o.after == links && o.result.error.kind in {NotFound, Conflict}
    ensures (o.result.Err? && TrialIndex(trials, trialId).Some? && SystemIndex(systems, data.instanceId).Some?
             && LiveLinkIndex(links, trialId, data.instanceId).None?) ==> o.result.error == LinkFailed
    ensures o.result.Ok? <==>
      && TrialIndex(trials, trialId).Some? && SystemIndex(systems, data.instanceId).Some?
      && LiveLinkIndex(links, trialId, data.instanceId).None?
      && PairFreeInIndex(links, trialId, data.instanceId)
      && forall j :: 0 <= j < |links| ==> links[j].linkId != newId
    ensures o.result.Ok? ==>
      o.result.value == NewLink(trialId, data, actor, newId, now, today) && o.after == links + [o.result.value]
    ensures LinksConstraint(links) ==> LinksConstraint(o.after)
    ensures LiveLinksUnique(links) ==> LiveLinksUnique(o.after)
  {
    if TrialIndex(trials, trialId).None? then Outcome(Err(NotFoundError("Trial", trialId.canonical, None)), links)
    else if SystemIndex(systems, data.instanceId).None? then
      Outcome(Err(NotFoundError("System", data.instanceId.canonical, None)), links)
    else if LiveLinkIndex(links, trialId, data.instanceId).Some? then
      Outcome(Err(AlreadyLinked(trialId, data.instanceId)), links)
    else
      var row := NewLink(trialId, data, actor, newId, now, today);
      if LinkFits(links, row, |links|) then
        LinkFitsKeeps(links, row, |links|);
        AppendLive(links, row);
        Outcome(Ok(row), links + [row])
      else Outcome(Err(LinkFailed), links)
  }

  /** Appending a live link whose pair has no live link keeps the service's invariant. */
  lemma AppendLive(links: seq<TrialSystemLink>, row: TrialSystemLink)
    requires forall j :: 0 <= j < |links| ==> !LiveFor(links[j], row.trialId, row.instanceId)
    ensures LiveLinksUnique(links) ==> LiveLinksUnique(links + [row])
  {
    var t := links + [row];
    if LiveLinksUnique(links) {
      forall i, j | 0 <= i < j < |t| && IsLinked(t[i]) && IsLinked(t[j])
        ensures !LinksPair(t[j], t[i].trialId, t[i].instanceId)
      {
        if j == |links| {
          assert t[i] == links[i];
        } else {
          assert t[i] == links[i] && t[j] == links[j];
        }
      }
    }
  }

  // ---------------------------------------------------------------------------
  // update_system_link
  // ---------------------------------------------------------------------------

  /**
   * The link after the `setattr` loop and `updated_at = utcnow()`; None when
   * the payload writes null into a NOT NULL column.
   */
  function ApplyLinkUpdate(l: TrialSystemLink, data: SystemLinkUpdate, now: DateTime): (r: Option<TrialSystemLink>)
    ensures r.None? <==> data.NullsRequiredColumn()
    ensures r.Some? ==> r.value.linkId == l.linkId && r.value.trialId == l.trialId && r.value.instanceId == l.instanceId
    ensures r.Some? ==> r.value.linkedBy == l.linkedBy && r.value.linkedAt == l.linkedAt
    ensures r.Some? ==> r.value.unlinkedBy == l.unlinkedBy && r.value.unlinkedAt == l.unlinkedAt
    ensures r.Some? ==> r.value.createdAt == l.createdAt && r.value.updatedAt == now
    ensures r.Some? ==> Some(r.value.assignmentStatus) == data.assignmentStatus.ApplyNotNull(l.assignmentStatus)
    ensures r.Some? ==> Some(r.value.criticalityCode) == data.criticalityCode.ApplyNotNull(l.criticalityCode)
    ensures r.Some? ==> Some(r.value.usageStartDate) == data.usageStartDate.ApplyNotNull(l.usageStartDate)
    ensures r.Some? ==>
      r.value.criticalityOverrideReason == data.criticalityOverrideReason.ApplyNullable(l.criticalityOverrideReason)
    ensures r.Some? ==> r.value.usageEndDate == data.usageEndDate.ApplyNullable(l.usageEndDate)
  {
    var status := data.assignmentStatus.ApplyNotNull(l.assignmentStatus);
    var criticality := data.criticalityCode.ApplyNotNull(l.criticalityCode);
    var start := data.usageStartDate.ApplyNotNull(l.usageStartDate);
    if status.None? || criticality.None? || start.None? then None
    else
      Some(l.(assignmentStatus := status.value, criticalityCode := criticality.value,
              criticalityOverrideReason := data.criticalityOverrideReason.ApplyNullable(l.criticalityOverrideReason),
              usageStartDate := start.value,
              usageEndDate := data.usageEndDate.ApplyNullable(l.usageEndDate),
              updatedAt := now))
  }

  const LinkUpdateFailed: Error := ConflictError("Failed to update link due to constraint violation", None)

  /** Rewriting a row in place without touching its liveness or pair keeps the service's invariant. */
  lemma ReplaceKeepsLiveness(links: seq<TrialSystemLink>, k: nat, row: TrialSystemLink)
    requires k < |links|
    requires row.trialId == links[k].trialId && row.instanceId == links[k].instanceId
    requires IsLinked(row) ==> IsLinked(links[k])
    ensures LiveLinksUnique(links) ==> LiveLinksUnique(links[k := row])
  {
    var t := links[k := row];
    if LiveLinksUnique(links) {
      forall i, j | 0 <= i < j < |t| && IsLinked(t[i]) && IsLinked(t[j])
        ensures !LinksPair(t[j], t[i].trialId, t[i].instanceId)
      {
        assert IsLinked(links[i]) && IsLinked(links[j]);
      }
    }
  }

  /**
   * `update_system_link` on the table: NotFound("Active link", …) when the
   * pair has no live link; the generic Conflict when the payload nulls a
   * required column or the new status collides in the partial unique index;
   * otherwise the patched link replaces the stored one.
   */
  function UpdateLinkOutcome(links: seq<TrialSystemLink>, trialId: Uuid, instanceId: Uuid, data: SystemLinkUpdate,
                             now: DateTime): (o: Outcome<TrialSystemLink, seq<TrialSystemLink>>)
    ensures LiveLinkIndex(links, trialId, instanceId).None? ==> o == Outcome(Err(NoActiveLink(trialId, instanceId)), links)
    ensures o.result.Err? ==> o.after == links
    ensures o.result.Err? && LiveLinkIndex(links, trialId, instanceId).Some? ==> o.result.error == LinkUpdateFailed
    ensures LiveLinkIndex(links, trialId, instanceId).Some? ==>
      var k := LiveLinkIndex(links, trialId, instanceId).value;
      var patched := ApplyLinkUpdate(links[k], data, now);
      && (o.result.Ok? <==> patched.Some? && LinkFits(links, patched.value, k))
      && (o.result.Ok? ==> patched == Some(o.result.value) && o.after == links[k := o.result.value])
    ensures LinksConstraint(links) ==> LinksConstraint(o.after)
    ensures LiveLinksUnique(links) ==> LiveLinksUnique(o.after)
  {
    match LiveLinkIndex(links, trialId, instanceId)
    case None => Outcome(Err(NoActiveLink(trialId, instanceId)), links)
    case Some(k) =>
      match ApplyLinkUpdate(links[k], data, now)
      case None => Outcome(Err(LinkUpdateFailed), links)
      case Some(row) =>
        if LinkFits(links, row, k) then
          LinkFitsKeeps(links, row, k);
          ReplaceKeepsLiveness(links, k, row);
          Outcome(Ok(row), links[k := row])
        else Outcome(Err(LinkUpdateFailed), links)
  }

  // ---------------------------------------------------------------------------
  // unlink_system
  // ---------------------------------------------------------------------------

  /** The soft delete: unlinked by the caller now; status, pair and id are kept. */
  function Unlinked(l: TrialSystemLink, actor: string, now: DateTime): (r: TrialSystemLink)
    ensures !IsLinked(r) && r.unlinkedBy == Some(actor) && r.unlinkedAt == Some(now) && r.updatedAt == now
    ensures r.linkId == l.linkId && r.trialId == l.trialId && r.instanceId == l.instanceId
    ensures r.assignmentStatus == l.assignmentStatus && r.criticalityCode == l.criticalityCode
    ensures r.linkedBy == l.linkedBy && r.linkedAt == l.linkedAt && r.usageStartDate == l.usageStartDate
  {
    l.(unlinkedBy := Some(actor), unlinkedAt := Some(now), updatedAt := now)
  }

  /**
   * `unlink_system` on the table: NotFound("Active link", …) when the pair
   * has no live link; otherwise that row is soft-deleted in place. The
   * commit cannot fail: no indexed column changes.
   */
  function UnlinkOutcome(links: seq<TrialSystemLink>, trialId: Uuid, instanceId: Uuid, actor: string, now: DateTime)
    : (o: Outcome<(), seq<TrialSystemLink>>)
    ensures o.result.Ok? <==> LiveLinkIndex(links, trialId, instanceId).Some?
    ensures o.result.Err? ==> o == Outcome(Err(NoActiveLink(trialId, instanceId)), links)
    ensures o.result.Ok? ==>
      var k := LiveLinkIndex(links, trialId, instanceId).value;
      o.after == links[k := Unlinked(links[k], actor, now)]
    ensures |o.after| == |links|
    ensures LinksConstraint(links) ==> LinksConstraint(o.after)
    ensures LiveLinksUnique(links) ==> LiveLinksUnique(o.after)
  {
    match LiveLinkIndex(links, trialId, instanceId)
    case None => Outcome(Err(NoActiveLink(trialId, instanceId)), links)
    case Some(k) =>
      var row := Unlinked(links[k], actor, now);
      assert LinksConstraint(links) ==> LinkFits(links, row, k) by {
        if LinksConstraint(links) {
          forall i | 0 <= i < |links| && i != k
            ensures links[i].linkId != row.linkId
            ensures IndexCounts(row) && IndexCounts(links[i]) ==> !LinksPair(links[i], row.trialId, row.instanceId)
          {
            if IndexCounts(row) && IndexCounts(links[i]) && LinksPair(links[i], row.trialId, row.instanceId) {
              IndexedPairUnique(links, k, i);
            }
          }
        }
      }
      assert LinksConstraint(links) ==> LinksConstraint(links[k := row]) by {
        if LinksConstraint(links) {
          LinkFitsKeeps(links, row, k);
        }
      }
      ReplaceKeepsLiveness(links, k, row);
      Outcome(Ok(()), links[k := row])
  }

  // ---------------------------------------------------------------------------
  // Properties relating the operations
  // ---------------------------------------------------------------------------

  /** A created trial is what a later lookup of its id returns. */
  lemma CreatedTrialIsFound(trials: seq<Trial>, data: TrialCreate, newId: Uuid, now: DateTime,
                            links: seq<TrialSystemLink>, systems: seq<SystemInstance>)
    requires CreateTrialOutcome(trials, data, newId, now).result.Ok?
    ensures var o := CreateTrialOutcome(trials, data, newId, now);
            var r := GetTrial(o.after, links, systems, newId);
            r.Ok? && r.value.trial == o.result.value
  {
    var o := CreateTrialOutcome(trials, data, newId, now);
    assert o.after[|trials|].trialId == newId;
    assert TrialIndex(o.after, newId) == Some(|trials|);
  }

  /**
   * A request carrying only the required protocol number never creates a
   * trial: `trial_title` is optional in the request but NOT NULL in the table.
   */
  lemma UntitledTrialIsRefused(trials: seq<Trial>, protocol: string, newId: Uuid, now: DateTime)
    ensures CreateTrialOutcome(trials, MinimalTrialCreate(protocol), newId, now).result.Err?
  {
  }

  /** An updated trial keeps its id and protocol and is what a later lookup returns. */
  lemma UpdatedTrialIsFound(trials: seq<Trial>, id: Uuid, data: TrialUpdate, now: DateTime,
                            links: seq<TrialSystemLink>, systems: seq<SystemInstance>)
    requires UpdateTrialOutcome(trials, id, data, now).result.Ok?
    ensures var o := UpdateTrialOutcome(trials, id, data, now);
            var r := GetTrial(o.after, links, systems, id);
            r.Ok? && r.value.trial == o.result.value && o.result.value.trialId == id
  {
    var k := TrialIndex(trials, id).value;
    var o := UpdateTrialOutcome(trials, id, data, now);
    assert o.after[k].trialId == id;
    assert forall j :: 0 <= j < k ==> o.after[j] == trials[j];
    assert TrialIndex(o.after, id) == Some(k);
  }

  /** A new link shows up among the trial's linked systems. */
  lemma LinkedSystemIsShown(trials: seq<Trial>, systems: seq<SystemInstance>, links: seq<TrialSystemLink>,
                            trialId: Uuid, data: SystemLinkCreate, actor: string, newId: Uuid, now: DateTime,
                            today: Date)
    requires LinkSystemOutcome(trials, systems, links, trialId, data, actor, newId, now, today).result.Ok?
    ensures var o := LinkSystemOutcome(trials, systems, links, trialId, data, actor, newId, now, today);
            var r := GetTrial(trials, o.after, systems, trialId);
            r.Ok? && JoinedDetail(o.result.value, systems).Some?
            && JoinedDetail(o.result.value, systems).value in r.value.linkedSystems
  {
    var o := LinkSystemOutcome(trials, systems, links, trialId, data, actor, newId, now, today);
    var l := o.result.value;
    assert l in o.after;
    assert LiveOnTrial(l, trialId);
  }

  /** Unlinking a pair removes that system from the trial's linked systems. */
  lemma UnlinkedSystemIsHidden(trials: seq<Trial>, systems: seq<SystemInstance>, links: seq<TrialSystemLink>,
                               trialId: Uuid, instanceId: Uuid, actor: string, now: DateTime)
    requires LiveLinksUnique(links)
    requires UnlinkOutcome(links, trialId, instanceId, actor, now).result.Ok?
    ensures var o := UnlinkOutcome(links, trialId, instanceId, actor, now);
            forall x :: x in LinkedSystems(o.after, systems, trialId) ==> x.instanceId != instanceId
  {
    var o := UnlinkOutcome(links, trialId, instanceId, actor, now);
    UnlinkTwiceIsNotFound(links, trialId, instanceId, actor, now, now);
    assert forall j :: 0 <= j < |o.after| ==> !LiveFor(o.after[j], trialId, instanceId);
  }

  /** Once unlinked, the pair has no live link: a second unlink is NotFound. */
  lemma UnlinkTwiceIsNotFound(links: seq<TrialSystemLink>, trialId: Uuid, instanceId: Uuid, actor: string,
                              now: DateTime, later: DateTime)
    requires LiveLinksUnique(links)
    requires UnlinkOutcome(links, trialId, instanceId, actor, now).result.Ok?
    ensures var first := UnlinkOutcome(links, trialId, instanceId, actor, now);
            UnlinkOutcome(first.after, trialId, instanceId, actor, later)
              == Outcome(Err(NoActiveLink(trialId, instanceId)), first.after)
  {
    var first := UnlinkOutcome(links, trialId, instanceId, actor, now);
    var k := LiveLinkIndex(links, trialId, instanceId).value;
    forall i | 0 <= i < |first.after|
      ensures !LiveFor(first.after[i], trialId, instanceId)
    {
      if i != k {
        assert first.after[i] == links[i];
      }
    }
  }

  /**
   * Re-linking a pair after unlinking it passes the service's own check (no
   * live link remains) but, while the unlinked row still counts in the
   * partial unique index (its status untouched by the unlink, e.g. ACTIVE),
   * the insert is refused and surfaces as the generic Conflict.
   */
  lemma RelinkAfterUnlinkConflicts(trials: seq<Trial>, systems: seq<SystemInstance>, links: seq<TrialSystemLink>,
                                   trialId: Uuid, data: SystemLinkCreate, actor: string, now: DateTime,
                                   later: DateTime, newId: Uuid, today: Date)
    requires LiveLinksUnique(links)
    requires TrialIndex(trials, trialId).Some? && SystemIndex(systems, data.instanceId).Some?
    requires UnlinkOutcome(links, trialId, data.instanceId, actor, now).result.Ok?
    requires IndexCounts(links[LiveLinkIndex(links, trialId, data.instanceId).value])
    ensures var unlinked := UnlinkOutcome(links, trialId, data.instanceId, actor, now).after;
            && LiveLinkIndex(unlinked, trialId, data.instanceId).None?
            && LinkSystemOutcome(trials, systems, unlinked, trialId, data, actor, newId, later, today)
                 == Outcome(Err(LinkFailed), unlinked)
  {
    var unlinked := UnlinkOutcome(links, trialId, data.instanceId, actor, now).after;
    var k := LiveLinkIndex(links, trialId, data.instanceId).value;
    UnlinkTwiceIsNotFound(links, trialId, data.instanceId, actor, now, later);
    assert IndexCounts(unlinked[k]) && LinksPair(unlinked[k], trialId, data.instanceId);
    assert !PairFreeInIndex(unlinked, trialId, data.instanceId);
  }

  /** Linking a system created by `link_system` and then unlinking it leaves a row the index still counts. */
  lemma LinkedRowStaysIndexed(trialId: Uuid, data: SystemLinkCreate, actor: string, id: Uuid, now: DateTime,
                              today: Date, later: DateTime)
    ensures IndexCounts(Unlinked(NewLink(trialId, data, actor, id, now, today), actor, later))
  {
  }

  // ---------------------------------------------------------------------------
  // The service calls on a session
  // ---------------------------------------------------------------------------

  method CreateTrial(db: Session, data: TrialCreate, newId: Uuid, now: DateTime) returns (r: Result<Trial>)
    requires db.Valid() && data.Valid()
    modifies db`trials
    ensures db.Valid()
    ensures var o := CreateTrialOutcome(old(db.trials), data, newId, now);
            r == o.result && db.trials == o.after
  {
    if ProtocolTaken(db.trials, data.protocolNumber) {
      return Err(DuplicateProtocolError(data.protocolNumber));
    }
    var trial := NewTrial(data, newId, now);
    if trial.None? || !TrialFits(db.trials, trial.value, |db.trials|) {
      return Err(CreateFailed);
    }
    TrialFitsKeeps(db.trials, trial.value, |db.trials|);
    db.trials := db.trials + [trial.value];
    r := Ok(trial.value);
  }

  method UpdateTrial(db: Session, id: Uuid, data: TrialUpdate, now: DateTime) returns (r: Result<Trial>)
    requires db.Valid() && data.Valid()
    modifies db`trials
    ensures db.Valid()
    ensures var o := UpdateTrialOutcome(old(db.trials), id, data, now);
            r == o.result && db.trials == o.after
  {
    var found := TrialIndex(db.trials, id);
    if found.None? {
      return Err(NotFoundError("Trial", id.canonical, None));
    }
    var k := found.value;
    var patched := ApplyTrialUpdate(db.trials[k], data, now);
    if patched.None? {
      return Err(UpdateFailed);
    }
    SameKeysFit(db.trials, k, patched.value);
    TrialFitsKeeps(db.trials, patched.value, k);
    db.trials := db.trials[k := patched.value];
    r := Ok(patched.value);
  }

  method LinkSystem(db: Session, trialId: Uuid, data: SystemLinkCreate, actor: string, newId: Uuid, now: DateTime,
                    today: Date) returns (r: Result<TrialSystemLink>)
    requires db.Valid() && data.Valid()
    modifies db`links
    ensures db.Valid()
    ensures var o := LinkSystemOutcome(db.trials, db.systems, old(db.links), trialId, data, actor, newId, now, today);
            r == o.result && db.links == o.after
  {
    if TrialIndex(db.trials, trialId).None? {
      return Err(NotFoundError("Trial", trialId.canonical, None));
    }
    if SystemIndex(db.systems, data.instanceId).None? {
      return Err(NotFoundError("System", data.instanceId.canonical, None));
    }
    if LiveLinkIndex(db.links, trialId, data.instanceId).Some? {
      return Err(AlreadyLinked(trialId, data.instanceId));
    }
    var link := NewLink(trialId, data, actor, newId, now, today);
    if !LinkFits(db.links, link, |db.links|) {
      return Err(LinkFailed);
    }
    LinkFitsKeeps(db.links, link, |db.links|);
    db.links := db.links + [link];
    r := Ok(link);
  }

  method UpdateSystemLink(db: Session, trialId: Uuid, instanceId: Uuid, data: SystemLinkUpdate, now: DateTime)
    returns (r: Result<TrialSystemLink>)
    requires db.Valid() && data.Valid()
    modifies db`links
    ensures db.Valid()
    ensures var o := UpdateLinkOutcome(old(db.links), trialId, instanceId, data, now);
            r == o.result && db.links == o.after
  {
    var found := LiveLinkIndex(db.links, trialId, instanceId);
    if found.None? {
      return Err(NoActiveLink(trialId, instanceId));
    }
    var k := found.value;
    var patched := ApplyLinkUpdate(db.links[k], data, now);
    if patched.None? || !LinkFits(db.links, patched.value, k) {
      return Err(LinkUpdateFailed);
    }
    LinkFitsKeeps(db.links, patched.value, k);
    db.links := db.links[k := patched.value];
    r := Ok(patched.value);
  }

  method UnlinkSystem(db: Session, trialId: Uuid, instanceId: Uuid, actor: string, now: DateTime)
    returns (r: Result<()>)
    requires db.Valid()
    modifies db`links
    ensures db.Valid()
    ensures var o := UnlinkOutcome(old(db.links), trialId, instanceId, actor, now);
            r == o.result && db.links == o.after
  {
    var found := LiveLinkIndex(db.links, trialId, instanceId);
    if found.None? {
      return Err(NoActiveLink(trialId, instanceId));
    }
    var k := found.value;
    var link := db.links[k];
    link := link.(unlinkedBy := Some(actor));
    link := link.(unlinkedAt := Some(now));
    link := link.(updatedAt := now);
    assert link == Unlinked(db.links[k], actor, now);
    db.links := db.links[k := link];
    r := Ok(());
  }
}
