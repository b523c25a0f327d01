/**
 * The admin dashboard: counts over the trial, system, link and
 * confirmation tables, always-empty alert statistics, and a feed of the
 * latest trial creations, system additions and confirmation submissions.
 */
module AdminService {
  import opened Wrappers
  import opened Values
  import opened Seqs
  import opened Pagination
  import opened DbModels
  import opened ConfirmationModels
  import opened ConfirmationService

  datatype TrialSummary = TrialSummary(totalTrials: nat, activeTrials: nat, trialsWithAlerts: nat)

  datatype SystemSummary = SystemSummary(
    totalSystems: nat,
    activeSystems: nat,
    validatedSystems: nat,
    systemsNeedingValidation: nat,
    systemsByCriticality: map<string, nat>)

  datatype ConfirmationSummary = ConfirmationSummary(
    totalConfirmations: nat,
    pendingConfirmations: nat,
    overdueConfirmations: nat,
    completedThisMonth: nat)

  datatype ValidationAlertSummary = ValidationAlertSummary(
    totalAlerts: nat,
    openAlerts: nat,
    criticalAlerts: nat,
    alertsByType: map<string, nat>)

  datatype RecentActivity = RecentActivity(
    activityType: string,
    entityId: string,
    entityName: string,
    performedBy: string,
    performedAt: DateTime,
    details: Option<string>)

  datatype DashboardStats = DashboardStats(
    trials: TrialSummary,
    systems: SystemSummary,
    confirmations: ConfirmationSummary,
    validationAlerts: ValidationAlertSummary,
    recentActivities: seq<RecentActivity>,
    generatedAt: DateTime)

  // ---------------------------------------------------------------------------
  // Trial statistics
  // ---------------------------------------------------------------------------

  /** A trial the dashboard counts: its status is neither CLOSED nor CANCELLED. */
  predicate IsOpenTrial(t: Trial)
  {
    t.trialStatus != "CLOSED" && t.trialStatus != "CANCELLED"
  }

  /** The keys of the active systems. */
  function ActiveSystemIds(systems: seq<SystemInstance>): set<Uuid>
  {
    set s | s in systems && s.isActive :: s.instanceId
  }

  /** An ACTIVE link that the inner join pairs with an active system. */
  predicate ActiveOnActiveSystem(l: TrialSystemLink, systems: seq<SystemInstance>)
  {
    l.assignmentStatus == "ACTIVE" && l.instanceId in ActiveSystemIds(systems)
  }

  /** The rows of the join the trial and criticality counts read. */
  function ActiveLinks(links: seq<TrialSystemLink>, systems: seq<SystemInstance>): seq<TrialSystemLink>
  {
    Filter(links, l => ActiveOnActiveSystem(l, systems))
  }

  function LinkTrialId(l: TrialSystemLink): Uuid
  {
    l.trialId
  }

  /** `count(distinct trial_id)` over that join. */
  function ActiveTrialIds(links: seq<TrialSystemLink>, systems: seq<SystemInstance>): set<Uuid>
  {
    Image(ActiveLinks(links, systems), LinkTrialId)
  }

  lemma NoActiveTrialIds(links: seq<TrialSystemLink>, systems: seq<SystemInstance>)
    ensures |ActiveTrialIds(links, systems)| == 0 <==> forall l :: l in links ==> !ActiveOnActiveSystem(l, systems)
  {
    if exists l :: l in links && ActiveOnActiveSystem(l, systems) {
      var l :| l in links && ActiveOnActiveSystem(l, systems);
      assert l in ActiveLinks(links, systems);
      assert LinkTrialId(l) in ActiveTrialIds(links, systems);
    }
  }

  /**
   * `_get_trial_stats`: the trials not closed or cancelled, the distinct
   * trials with an ACTIVE link to an active system, and no alerts.
   */
  function TrialStats(trials: seq<Trial>, links: seq<TrialSystemLink>, systems: seq<SystemInstance>)
    : (r: TrialSummary)
    ensures r.totalTrials + |Filter(trials, t => !IsOpenTrial(t))| == |trials|
    ensures r.activeTrials <= |ActiveLinks(links, systems)|
    ensures r.activeTrials == 0 <==> forall l :: l in links ==> !ActiveOnActiveSystem(l, systems)
    ensures r.activeTrials == |set l | l in links && ActiveOnActiveSystem(l, systems) :: l.trialId|
    ensures r.trialsWithAlerts == 0
  {
    FilterComplement(trials, IsOpenTrial, t => !IsOpenTrial(t));
    var active := ActiveLinks(links, systems);
    DistinctCountBound(active, LinkTrialId);
    NoActiveTrialIds(links, systems);
    assert ActiveTrialIds(links, systems) == set l | l in links && ActiveOnActiveSystem(l, systems) :: l.trialId;
    TrialSummary(|Filter(trials, IsOpenTrial)|, |ActiveTrialIds(links, systems)|, 0)
  }

  /**
   * When every link names an existing trial (the foreign key), the trials
   * counted as active are at most the trials there are. A closed trial with
   * an ACTIVE link is still counted, so the bound is the whole table, not
   * `total_trials`.
   */
  lemma ActiveTrialsWithinTrials(trials: seq<Trial>, links: seq<TrialSystemLink>, systems: seq<SystemInstance>)
    requires forall l :: l in links ==> TrialIndex(trials, l.trialId).Some?
    ensures TrialStats(trials, links, systems).activeTrials <= |trials|
  {
    var ids := ActiveTrialIds(links, systems);
    var known := Image(trials, TrialKey);
    forall id | id in ids
      ensures id in known
    {
      var l :| l in ActiveLinks(links, systems) && LinkTrialId(l) == id;
      var k := TrialIndex(trials, l.trialId).value;
      assert trials[k] in trials && TrialKey(trials[k]) == id;
    }
    SubsetCardinality(ids, known);
    DistinctCountBound(trials, TrialKey);
  }

  function TrialKey(t: Trial): Uuid
  {
    t.trialId
  }

  lemma SubsetCardinality<T>(a: set<T>, b: set<T>)
    requires a <= b
    ensures |a| <= |b|
  {
    assert b == a + (b - a);
  }

  // ---------------------------------------------------------------------------
  // System statistics
  // ---------------------------------------------------------------------------

  predicate IsActiveSystem(s: SystemInstance)
  {
    s.isActive
  }

  predicate IsValidatedSystem(s: SystemInstance)
  {
    s.isActive && s.validationStatusCode == "VALIDATED"
  }

  /** Active, and NOT_VALIDATED or PENDING_VALIDATION. */
  predicate NeedsValidation(s: SystemInstance)
  {
    s.isActive && (s.validationStatusCode == "NOT_VALIDATED" || s.validationStatusCode == "PENDING_VALIDATION")
  }

  /** The criticality column of the joined links, in table order. */
  function CriticalityCodes(links: seq<TrialSystemLink>, systems: seq<SystemInstance>): (r: seq<string>)
    ensures |r| == |ActiveLinks(links, systems)|
    ensures forall i :: 0 <= i < |r| ==> r[i] == ActiveLinks(links, systems)[i].criticalityCode
    ensures forall code :: code in r <==> exists l :: l in ActiveLinks(links, systems) && l.criticalityCode == code
  {
    var active := ActiveLinks(links, systems);
    var key := (l: TrialSystemLink) => l.criticalityCode;
    MapSeqImage(active, key);
    MapSeq(active, key)
  }

  /** The grouped count of each criticality code is the number of joined links carrying it. */
  lemma CriticalityCounts(links: seq<TrialSystemLink>, systems: seq<SystemInstance>)
    ensures forall code :: multiset(CriticalityCodes(links, systems))[code] ==
              |Filter(ActiveLinks(links, systems), (l: TrialSystemLink) => l.criticalityCode == code)|
  {
    forall code
      ensures multiset(CriticalityCodes(links, systems))[code] ==
              |Filter(ActiveLinks(links, systems), (l: TrialSystemLink) => l.criticalityCode == code)|
    {
      var key := (l: TrialSystemLink) => l.criticalityCode;
      assert MapSeq(ActiveLinks(links, systems), key) == CriticalityCodes(links, systems);
      CountMatchesFilter(ActiveLinks(links, systems), key, code, (l: TrialSystemLink) => l.criticalityCode == code);
    }
  }

  /**
   * `_get_system_stats`: each count narrows the one before it, the systems
   * needing validation are active ones not yet validated, and the
   * criticality groups split the joined links among their codes.
   */
  function SystemStats(systems: seq<SystemInstance>, links: seq<TrialSystemLink>): (r: SystemSummary)
    ensures r.totalSystems == |systems|
    ensures r.validatedSystems <= r.activeSystems <= r.totalSystems
    ensures r.validatedSystems == |Filter(systems, IsValidatedSystem)|
    ensures r.systemsNeedingValidation == |Filter(systems, NeedsValidation)|
    ensures r.validatedSystems + r.systemsNeedingValidation <= r.activeSystems
    ensures r.activeSystems + |Filter(systems, s => !IsActiveSystem(s))| == r.totalSystems
    ensures forall code :: code in r.systemsByCriticality <==>
              exists l :: l in ActiveLinks(links, systems) && l.criticalityCode == code
    ensures forall code :: code in r.systemsByCriticality ==> r.systemsByCriticality[code] > 0
    ensures SumValues(r.systemsByCriticality) == |ActiveLinks(links, systems)|
    ensures forall code :: code in r.systemsByCriticality ==>
              r.systemsByCriticality[code] ==
              |Filter(ActiveLinks(links, systems), (l: TrialSystemLink) => l.criticalityCode == code)|
  {
    FilterMonotone(systems, IsActiveSystem, IsValidatedSystem);
    FilterDisjoint(systems, IsValidatedSystem, NeedsValidation, IsActiveSystem);
    FilterComplement(systems, IsActiveSystem, s => !IsActiveSystem(s));
    var codes := CriticalityCodes(links, systems);
    CountBySum(codes);
    CriticalityCounts(links, systems);
    SystemSummary(|systems|, |Filter(systems, IsActiveSystem)|, |Filter(systems, IsValidatedSystem)|,
                  |Filter(systems, NeedsValidation)|, CountBy(codes))
  }

  // ---------------------------------------------------------------------------
  // Confirmation statistics
  // ---------------------------------------------------------------------------

  predicate IsPending(c: Confirmation)
  {
    c.confirmationStatus == "PENDING"
  }

  /**
   * COMPLETED with a confirmed date on or after `first`. The date column is
   * compared with the first of the month at midnight, which is the same as
   * comparing it with that day.
   */
  predicate CompletedSince(c: Confirmation, first: Date)
  {
    c.confirmationStatus == Completed && c.confirmedDate.Some? && !DateBefore(c.confirmedDate.value, first)
  }

  /**
   * `_get_confirmation_stats`: overdue ones are pending ones, and pending
   * and completed ones are different rows.
   */
  function ConfirmationStats(cs: seq<Confirmation>, today: Date): (r: ConfirmationSummary)
    ensures r.totalConfirmations == |cs|
    ensures r.overdueConfirmations <= r.pendingConfirmations <= r.totalConfirmations
    ensures r.pendingConfirmations + r.completedThisMonth <= r.totalConfirmations
    ensures r.pendingConfirmations == |Filter(cs, IsPending)|
    ensures r.completedThisMonth == |Filter(cs, c => CompletedSince(c, FirstOfMonth(today)))|
  {
    FilterMonotone(cs, IsPending, c => IsOverdue(c, today));
    FilterDisjoint(cs, IsPending, c => CompletedSince(c, FirstOfMonth(today)), c => true);
    FilterAll(cs, c => true);
    ConfirmationSummary(|cs|, |Filter(cs, IsPending)|, |Filter(cs, c => IsOverdue(c, today))|,
                        |Filter(cs, c => CompletedSince(c, FirstOfMonth(today)))|)
  }

  /** The overdue count is the total the confirmation listing reports with `overdue_only`. */
  lemma OverdueMatchesListing(cs: seq<Confirmation>, p: PaginationParams, today: Date)
    requires p.Valid()
    ensures ConfirmationStats(cs, today).overdueConfirmations
         == ListConfirmations(cs, p, None, None, None, true, today).meta.total
  {
    FilterSame(cs, c => IsOverdue(c, today), c => Listed(c, None, None, None, true, today));
  }

  /**
   * A successful submission moves its row into this month's completed
   * count and out of the pending and overdue counts it was in.
   */
  lemma SubmissionCountsThisMonth(l: Ledger, links: seq<TrialSystemLink>, systems: seq<SystemInstance>, id: Uuid,
                                  data: ConfirmationSubmit, actor: string, freshId: nat -> Uuid, now: DateTime,
                                  today: Date)
    requires SubmitOutcome(l, links, systems, id, data, actor, freshId, now, today).result.Ok?
    ensures var k := ConfirmationIndex(l.confirmations, id).value;
            var c := l.confirmations[k];
            var before := ConfirmationStats(l.confirmations, today);
            var after := ConfirmationStats(SubmitOutcome(l, links, systems, id, data, actor, freshId, now, today)
                                             .after.confirmations, today);
            && after.completedThisMonth == before.completedThisMonth + 1
            && after.pendingConfirmations + (if IsPending(c) then 1 else 0) == before.pendingConfirmations
            && after.overdueConfirmations + (if IsOverdue(c, today) then 1 else 0) == before.overdueConfirmations
  {
    var o := SubmitOutcome(l, links, systems, id, data, actor, freshId, now, today);
    var cs := l.confirmations;
    var k := ConfirmationIndex(cs, id).value;
    var row := o.result.value;
    assert o.after.confirmations == cs[k := row];
    FilterUpdate(cs, k, row, c => CompletedSince(c, FirstOfMonth(today)));
    FilterUpdate(cs, k, row, IsPending);
    FilterUpdate(cs, k, row, c => IsOverdue(c, today));
  }

  // ---------------------------------------------------------------------------
  // Alert statistics
  // ---------------------------------------------------------------------------

  /** `_get_alert_stats`: alerts are not implemented, so every count is zero. */
  function AlertStats(): (r: ValidationAlertSummary)
    ensures r.totalAlerts == 0 && r.openAlerts == 0 && r.criticalAlerts == 0
    ensures r.alertsByType == map[]
  {
    ValidationAlertSummary(0, 0, 0, map[])
  }

  // ---------------------------------------------------------------------------
  // Recent activities
  // ---------------------------------------------------------------------------

  const TrialCreated: string := "TRIAL_CREATED"
  const SystemAdded: string := "SYSTEM_ADDED"
  const ConfirmationSubmitted: string := "CONFIRMATION_SUBMITTED"

  /** The number of activities the dashboard asks for. */
  const DefaultActivityLimit: nat := 10

  /** Python's `name or "system"`: an absent or empty name is reported as "system". */
  function ActorOrSystem(name: Option<string>): (r: string)
    ensures r != ""
    ensures Truthy(name) ==> r == name.value
  {
    if Truthy(name) then name.value else "system"
  }

  /** The newest row first (`ORDER BY created_at DESC`). */
  predicate NewestTrialFirst(a: Trial, b: Trial)
  {
    NotBefore(a.createdAt, b.createdAt)
  }

  lemma NewestTrialFirstTotal()
    ensures TotalPreorder(NewestTrialFirst)
  {
    forall a: Trial, b: Trial, c: Trial
      ensures NewestTrialFirst(a, b) || NewestTrialFirst(b, a)
      ensures NewestTrialFirst(a, b) && NewestTrialFirst(b, c) ==> NewestTrialFirst(a, c)
    {
      NotBeforeTotalOrder(a.createdAt, b.createdAt, c.createdAt);
    }
  }

  predicate NewestSystemFirst(a: SystemInstance, b: SystemInstance)
  {
    NotBefore(a.createdAt, b.createdAt)
  }

  lemma NewestSystemFirstTotal()
    ensures TotalPreorder(NewestSystemFirst)
  {
    forall a: SystemInstance, b: SystemInstance, c: SystemInstance
      ensures NewestSystemFirst(a, b) || NewestSystemFirst(b, a)
      ensures NewestSystemFirst(a, b) && NewestSystemFirst(b, c) ==> NewestSystemFirst(a, c)
    {
      NotBeforeTotalOrder(a.createdAt, b.createdAt, c.createdAt);
    }
  }

  /** At most `limit` open trials, the newest first. */
  function RecentTrials(trials: seq<Trial>, limit: nat): (r: seq<Trial>)
    ensures |r| <= limit
    ensures forall t :: t in r ==> t in trials && IsOpenTrial(t)
    ensures SortedBy(r, NewestTrialFirst)
    ensures |r| == Min(limit, |Filter(trials, IsOpenTrial)|)
    ensures IsTop(r, Filter(trials, IsOpenTrial), NewestTrialFirst, limit)
  {
    NewestTrialFirstTotal();
    TopBySorted(Filter(trials, IsOpenTrial), NewestTrialFirst, limit);
    TopBy(Filter(trials, IsOpenTrial), NewestTrialFirst, limit)
  }

  /** At most `limit` active systems, the newest first. */
  function RecentSystems(systems: seq<SystemInstance>, limit: nat): (r: seq<SystemInstance>)
    ensures |r| <= limit
    ensures forall s :: s in r ==> s in systems && s.isActive
    ensures SortedBy(r, NewestSystemFirst)
    ensures |r| == Min(limit, |Filter(systems, IsActiveSystem)|)
    ensures IsTop(r, Filter(systems, IsActiveSystem), NewestSystemFirst, limit)
  {
    NewestSystemFirstTotal();
    TopBySorted(Filter(systems, IsActiveSystem), NewestSystemFirst, limit);
    TopBy(Filter(systems, IsActiveSystem), NewestSystemFirst, limit)
  }

  /** A COMPLETED confirmation joined to its trial's protocol number. */
  datatype SubmissionRow = SubmissionRow(confirmation: Confirmation, protocolNumber: string)

  function JoinedSubmission(c: Confirmation, trials: seq<Trial>): (r: Option<SubmissionRow>)
    ensures r.Some? <==> TrialIndex(trials, c.trialId).Some?
    ensures r.Some? ==> r.value.confirmation == c
                        && r.value.protocolNumber == trials[TrialIndex(trials, c.trialId).value].protocolNumber
  {
    match TrialIndex(trials, c.trialId)
    case None => None
    case Some(k) => Some(SubmissionRow(c, trials[k].protocolNumber))
  }

  /** `ORDER BY confirmed_date DESC`, where PostgreSQL puts a null date first. */
  predicate LatestSubmissionFirst(a: SubmissionRow, b: SubmissionRow)
  {
    DateDescNullsFirst(a.confirmation.confirmedDate, b.confirmation.confirmedDate)
  }

  lemma LatestSubmissionFirstTotal()
    ensures TotalPreorder(LatestSubmissionFirst)
  {
    forall a: SubmissionRow, b: SubmissionRow, c: SubmissionRow
      ensures LatestSubmissionFirst(a, b) || LatestSubmissionFirst(b, a)
      ensures LatestSubmissionFirst(a, b) && LatestSubmissionFirst(b, c) ==> LatestSubmissionFirst(a, c)
    {
      DateDescNullsFirstTotalOrder(a.confirmation.confirmedDate, b.confirmation.confirmedDate,
                                   c.confirmation.confirmedDate);
    }
  }

  /** The COMPLETED confirmations whose trial exists, joined to it, in table order. */
  function Submissions(cs: seq<Confirmation>, trials: seq<Trial>): (r: seq<SubmissionRow>)
    ensures forall x :: x in r ==> x.confirmation in cs && x.confirmation.confirmationStatus == Completed
                                   && JoinedSubmission(x.confirmation, trials) == Some(x)
    ensures forall c :: c in cs && c.confirmationStatus == Completed && TrialIndex(trials, c.trialId).Some? ==>
                          JoinedSubmission(c, trials).Some? && JoinedSubmission(c, trials).value in r
    ensures |r| == |Joinable(Filter(cs, (c: Confirmation) => c.confirmationStatus == Completed),
                             c => JoinedSubmission(c, trials))|
    ensures forall i :: 0 <= i < |r| ==>
      JoinedSubmission(Joinable(Filter(cs, (c: Confirmation) => c.confirmationStatus == Completed),
                                c => JoinedSubmission(c, trials))[i], trials) == Some(r[i])
  {
    var completed := Filter(cs, (c: Confirmation) => c.confirmationStatus == Completed);
    var r := FilterMap(completed, c => JoinedSubmission(c, trials));
    FilterMapJoins(completed, c => JoinedSubmission(c, trials));
    assert forall c :: c in cs && c.confirmationStatus == Completed && TrialIndex(trials, c.trialId).Some? ==>
                         c in completed && JoinedSubmission(c, trials) == Some(JoinedSubmission(c, trials).value);
    r
  }

  /**
   * At most `limit` COMPLETED confirmations with an existing trial, the
   * latest confirmed first.
   */
  function RecentSubmissions(cs: seq<Confirmation>, trials: seq<Trial>, limit: nat): (r: seq<SubmissionRow>)
    ensures |r| <= limit
    ensures forall x :: x in r ==> x in Submissions(cs, trials)
    ensures SortedBy(r, LatestSubmissionFirst)
    ensures |r| == Min(limit, |Submissions(cs, trials)|)
    ensures IsTop(r, Submissions(cs, trials), LatestSubmissionFirst, limit)
  {
    LatestSubmissionFirstTotal();
    TopBySorted(Submissions(cs, trials), LatestSubmissionFirst, limit);
    TopBy(Submissions(cs, trials), LatestSubmissionFirst, limit)
  }

  /** The activity of a trial's creation. */
  function TrialActivity(t: Trial): (a: RecentActivity)
    ensures a.activityType == TrialCreated && a.entityId == t.trialId.canonical
    ensures a.performedAt == t.createdAt && a.performedBy == "system"
  {
    RecentActivity(TrialCreated, t.trialId.canonical, t.protocolNumber, "system", t.createdAt,
                   Some("Trial " + t.protocolNumber + " created"))
  }

  /** The activity of a system's addition, credited to its creator. */
  function SystemActivity(s: SystemInstance): (a: RecentActivity)
    ensures a.activityType == SystemAdded && a.entityId == s.instanceId.canonical
    ensures a.performedAt == s.createdAt && a.performedBy == ActorOrSystem(s.createdBy)
  {
    RecentActivity(SystemAdded, s.instanceId.canonical, s.instanceCode + " - " + s.platformName,
                   ActorOrSystem(s.createdBy), s.createdAt, Some("System " + s.instanceCode + " added"))
  }

  /**
   * The activity of a submission: at midnight of its confirmed date, or at
   * `now` when that date is null.
   */
  function SubmissionActivity(x: SubmissionRow, now: DateTime): (a: RecentActivity)
    ensures a.activityType == ConfirmationSubmitted && a.entityId == x.confirmation.confirmationId.canonical
    ensures x.confirmation.confirmedDate.Some? ==>
              a.performedAt == Midnight(x.confirmation.confirmedDate.value)
    ensures x.confirmation.confirmedDate.None? ==> a.performedAt == now
    ensures a.performedBy == ActorOrSystem(x.confirmation.confirmedBy)
  {
    var c := x.confirmation;
    RecentActivity(ConfirmationSubmitted, c.confirmationId.canonical,
                   c.confirmationType + " - " + x.protocolNumber, ActorOrSystem(c.confirmedBy),
                   if c.confirmedDate.Some? then Midnight(c.confirmedDate.value) else now,
                   Some(c.confirmationType + " confirmation submitted for " + x.protocolNumber))
  }

  function SubmissionActivityAt(now: DateTime): SubmissionRow -> RecentActivity
  {
    x => SubmissionActivity(x, now)
  }

  /** The three groups in the order they are gathered, before sorting. */
  function GatheredActivities(trials: seq<Trial>, systems: seq<SystemInstance>, cs: seq<Confirmation>,
                              limit: nat, now: DateTime): seq<RecentActivity>
  {
    MapSeq(RecentTrials(trials, limit), TrialActivity)
    + MapSeq(RecentSystems(systems, limit), SystemActivity)
    + MapSeq(RecentSubmissions(cs, trials, limit), SubmissionActivityAt(now))
  }

  /** The latest activity first; `list.sort` is stable, so ties keep their gathered order. */
  predicate LatestActivityFirst(a: RecentActivity, b: RecentActivity)
  {
    NotBefore(a.performedAt, b.performedAt)
  }

  lemma LatestActivityFirstTotal()
    ensures TotalPreorder(LatestActivityFirst)
  {
    forall a: RecentActivity, b: RecentActivity, c: RecentActivity
      ensures LatestActivityFirst(a, b) || LatestActivityFirst(b, a)
      ensures LatestActivityFirst(a, b) && LatestActivityFirst(b, c) ==> LatestActivityFirst(a, c)
    {
      NotBeforeTotalOrder(a.performedAt, b.performedAt, c.performedAt);
    }
  }

  /**
   * The feed `_get_recent_activities` returns: at most `limit` activities,
   * the latest first, each one gathered from the three queries.
   */
  function ActivityFeed(trials: seq<Trial>, systems: seq<SystemInstance>, cs: seq<Confirmation>, limit: nat,
                        now: DateTime): (r: seq<RecentActivity>)
    ensures |r| <= limit
    ensures SortedBy(r, LatestActivityFirst)
    ensures forall a :: a in r ==> a in GatheredActivities(trials, systems, cs, limit, now)
    ensures |r| == Min(limit, |GatheredActivities(trials, systems, cs, limit, now)|)
    ensures IsTop(r, GatheredActivities(trials, systems, cs, limit, now), LatestActivityFirst, limit)
  {
    LatestActivityFirstTotal();
    TopBySorted(GatheredActivities(trials, systems, cs, limit, now), LatestActivityFirst, limit);
    TopBy(GatheredActivities(trials, systems, cs, limit, now), LatestActivityFirst, limit)
  }

  /** Activities of type `kind`. */
  function OfKind(kind: string): RecentActivity -> bool
  {
    (a: RecentActivity) => a.activityType == kind
  }

  /**
   * A query of at most `limit` rows mapped to activities of one type adds
   * at most `limit` to that type's count and nothing to any other.
   */
  lemma GroupCount<A>(rows: seq<A>, f: A -> RecentActivity, groupKind: string, kind: string, limit: nat)
    requires |rows| <= limit
    requires forall x :: f(x).activityType == groupKind
    ensures |Filter(MapSeq(rows, f), OfKind(kind))| <= if kind == groupKind then limit else 0
  {
    var group := MapSeq(rows, f);
    if kind != groupKind {
      FilterNone(group, OfKind(kind));
    }
  }

  /** Before the cut, each query has contributed at most `limit` activities. */
  lemma GatheredKindsWithinLimit(trials: seq<Trial>, systems: seq<SystemInstance>, cs: seq<Confirmation>,
                                 limit: nat, now: DateTime, kind: string)
    ensures |Filter(GatheredActivities(trials, systems, cs, limit, now), OfKind(kind))| <= limit
  {
    var fromTrials := MapSeq(RecentTrials(trials, limit), TrialActivity);
    var fromSystems := MapSeq(RecentSystems(systems, limit), SystemActivity);
    var fromSubmissions := MapSeq(RecentSubmissions(cs, trials, limit), SubmissionActivityAt(now));
    GroupCount(RecentTrials(trials, limit), TrialActivity, TrialCreated, kind, limit);
    GroupCount(RecentSystems(systems, limit), SystemActivity, SystemAdded, kind, limit);
    GroupCount(RecentSubmissions(cs, trials, limit), SubmissionActivityAt(now), ConfirmationSubmitted, kind, limit);
    FilterAppend(fromTrials, fromSystems, OfKind(kind));
    FilterAppend(fromTrials + fromSystems, fromSubmissions, OfKind(kind));
  }

  /** Each of the three queries contributes at most `limit` activities to the feed. */
  lemma FeedKindsWithinLimit(trials: seq<Trial>, systems: seq<SystemInstance>, cs: seq<Confirmation>, limit: nat,
                             now: DateTime, kind: string)
    ensures |Filter(ActivityFeed(trials, systems, cs, limit, now), OfKind(kind))| <= limit
  {
    var gathered := GatheredActivities(trials, systems, cs, limit, now);
    GatheredKindsWithinLimit(trials, systems, cs, limit, now, kind);
    SortByPermutation(gathered, LatestActivityFirst);
    FilterPermutation(SortBy(gathered, LatestActivityFirst), gathered, OfKind(kind));
    TakeFilter(SortBy(gathered, LatestActivityFirst), limit, OfKind(kind));
  }

  /** Appends one activity per row, in row order. */
  method AppendActivities<A>(gathered: seq<RecentActivity>, rows: seq<A>, f: A -> RecentActivity)
    returns (out: seq<RecentActivity>)
    ensures out == gathered + MapSeq(rows, f)
  {
    out := gathered;
    for i := 0 to |rows|
      invariant out == gathered + MapSeq(rows[..i], f)
    {
      MapSeqSnoc(rows, i, f);
      out := out + [f(rows[i])];
    }
    assert rows[..|rows|] == rows;
  }

  /**
   * `_get_recent_activities`: the three queries' rows are appended one by
   * one, then sorted newest first and cut to `limit`.
   */
  method RecentActivities(db: Session, limit: nat, now: DateTime) returns (activities: seq<RecentActivity>)
    ensures activities == ActivityFeed(db.trials, db.systems, db.confirmations, limit, now)
  {
    ghost var fromTrials := MapSeq(RecentTrials(db.trials, limit), TrialActivity);
    ghost var fromSystems := MapSeq(RecentSystems(db.systems, limit), SystemActivity);
    ghost var fromSubmissions := MapSeq(RecentSubmissions(db.confirmations, db.trials, limit), SubmissionActivityAt(now));
    var gathered := AppendActivities([], RecentTrials(db.trials, limit), TrialActivity);
    assert gathered == fromTrials;
    gathered := AppendActivities(gathered, RecentSystems(db.systems, limit), SystemActivity);
    gathered := AppendActivities(gathered, RecentSubmissions(db.confirmations, db.trials, limit),
                                 SubmissionActivityAt(now));
    assert gathered == fromTrials + fromSystems + fromSubmissions;
    var sorted := SortBy(gathered, LatestActivityFirst);
    activities := Take(sorted, limit);
    assert activities == TopBy(gathered, LatestActivityFirst, limit);
  }

  /**
   * `get_dashboard_stats`, with `now` standing for every read of the clock;
   * today is its date.
   */
  method GetDashboardStats(db: Session, now: DateTime) returns (r: DashboardStats)
    ensures r.trials == TrialStats(db.trials, db.links, db.systems)
    ensures r.systems == SystemStats(db.systems, db.links)
    ensures r.confirmations == ConfirmationStats(db.confirmations, now.date)
    ensures r.validationAlerts == AlertStats()
    ensures r.recentActivities == ActivityFeed(db.trials, db.systems, db.confirmations, DefaultActivityLimit, now)
    ensures |r.recentActivities| <= DefaultActivityLimit
    ensures r.generatedAt == now
  {
    var activities := RecentActivities(db, DefaultActivityLimit, now);
    r := DashboardStats(TrialStats(db.trials, db.links, db.systems), SystemStats(db.systems, db.links),
                        ConfirmationStats(db.confirmations, now.date), AlertStats(), activities, now);
  }
}
