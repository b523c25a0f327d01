/**
 * The system-instance catalog: listing with filters and search, lookup with
 * linked trials and audit history, creation and partial update, each write
 * recorded in the audit table.
 */
module SystemService {
  import opened Wrappers
  import opened Values
  import opened Text
  import opened Seqs
  import opened Exceptions
  import opened Pagination
  import opened DbModels
  import opened SystemModels

  // ---------------------------------------------------------------------------
  // _serialize_for_audit
  // ---------------------------------------------------------------------------

  /**
   * Dates and datetimes become their ISO text, UUIDs their canonical text,
   * lists and dictionaries are converted element by element; what comes
   * out is JSON-safe and keeps the shape of what went in.
   */
  function SerializeForAudit(v: Value): (r: Value)
    ensures JsonSafe(r)
    ensures v.VDate? ==> r == VStr(IsoDate(v.d))
    ensures v.VDateTime? ==> r == VStr(IsoDateTime(v.t))
    ensures v.VUuid? ==> r == VStr(v.u.canonical)
    ensures v.VList? ==> r.VList? && |r.items| == |v.items| &&
                         forall i :: 0 <= i < |v.items| ==> r.items[i] == SerializeForAudit(v.items[i])
    ensures v.VDict? ==> r.VDict? && r.entries.Keys == v.entries.Keys &&
                         forall k :: k in v.entries ==> r.entries[k] == SerializeForAudit(v.entries[k])
    ensures v.VNull? || v.VBool? || v.VInt? || v.VStr? ==> r == v
  {
    match v
    case VDate(d) => VStr(IsoDate(d))
    case VDateTime(t) => VStr(IsoDateTime(t))
    case VUuid(u) => VStr(u.canonical)
    case VList(items) => VList(seq(|items|, i requires 0 <= i < |items| => SerializeForAudit(items[i])))
    case VDict(entries) => VDict(map k | k in entries :: SerializeForAudit(entries[k]))
    case _ => v
  }

  /** A value that is already JSON-safe passes through unchanged. */
  lemma {:induction false} SerializeFixesJsonSafe(v: Value)
    requires JsonSafe(v)
    ensures SerializeForAudit(v) == v
  {
    match v
    case VList(items) =>
      forall i | 0 <= i < |items|
        ensures SerializeForAudit(items[i]) == items[i]
      {
        SerializeFixesJsonSafe(items[i]);
      }
      assert SerializeForAudit(v).items == items;
    case VDict(entries) =>
      forall k | k in entries
        ensures SerializeForAudit(entries[k]) == entries[k]
      {
        SerializeFixesJsonSafe(entries[k]);
      }
      assert SerializeForAudit(v).entries == entries;
    case _ =>
  }

  /** Serializing twice is serializing once. */
  lemma SerializeIdempotent(v: Value)
    ensures SerializeForAudit(SerializeForAudit(v)) == SerializeForAudit(v)
  {
    SerializeFixesJsonSafe(SerializeForAudit(v));
  }

  /**
   * The `{...} or None` of `_record_audit`: an absent or empty dictionary is
   * stored as NULL, any other one with every value serialized.
   */
  function AuditValues(values: Option<map<SystemField, Value>>): (r: Option<map<SystemField, Value>>)
    ensures r.None? <==> values.None? || values.value == map[]
    ensures r.Some? ==> r.value.Keys == values.value.Keys
    ensures r.Some? ==> forall k :: k in r.value ==> r.value[k] == SerializeForAudit(values.value[k])
    ensures r.Some? ==> forall k :: k in r.value ==> JsonSafe(r.value[k])
  {
    var m := values.GetOr(map[]);
    var serialized := map k | k in m :: SerializeForAudit(m[k]);
    assert serialized.Keys == m.Keys;
    if serialized == map[] then None else Some(serialized)
  }

  // ---------------------------------------------------------------------------
  // SystemResponse.model_dump()
  // ---------------------------------------------------------------------------

  /** The 29 keys of a dumped `SystemResponse`. */
  const ResponseFields: set<SystemField> := {
    InstanceId, InstanceCode, PlatformVendorId, ServiceProviderId, CategoryCode, PlatformName,
    PlatformVersion, InstanceName, InstanceEnvironment, ValidationStatusCode, ValidationDate,
    ValidationExpiry, ValidationEvidenceLink, HostingModel, DataHostingRegion, Description,
    SupportedStudies, Interfaces, Part11Compliant, Annex11Compliant, Soc2Certified,
    Iso27001Certified, LastMajorChangeDate, LastMajorChangeDesc, NextPlannedChangeDate,
    NextPlannedChangeDesc, IsActive, CreatedAt, UpdatedAt}

  lemma EveryFieldIsDumped(f: SystemField)
    ensures f in ResponseFields
  {
  }

  /** A dumped `InterfaceModel`: all three keys, `data_type` possibly null. */
  function InterfaceValue(i: Interface): Value
  {
    VDict(map["system_name" := VStr(i.systemName), "direction" := VStr(i.direction),
              "data_type" := OptStr(i.dataType)])
  }

  function InterfacesValue(o: Option<seq<Interface>>): (r: Value)
    ensures o.None? <==> r == VNull
    ensures o.Some? ==> r.VList? && |r.items| == |o.value|
  {
    match o
    case None => VNull
    case Some(xs) => VList(seq(|xs|, i requires 0 <= i < |xs| => InterfaceValue(xs[i])))
  }

  function StudiesValue(o: Option<seq<string>>): (r: Value)
    ensures o.None? <==> r == VNull
  {
    match o
    case None => VNull
    case Some(xs) => StrList(xs)
  }

  /** The value the response shows under one key. */
  function Column(s: SystemInstance, f: SystemField): Value
  {
    match f
    case InstanceId => VUuid(s.instanceId)
    case InstanceCode => VStr(s.instanceCode)
    case PlatformVendorId => OptUuid(s.platformVendorId)
    case ServiceProviderId => OptUuid(s.serviceProviderId)
    case CategoryCode => VStr(s.categoryCode)
    case PlatformName => VStr(s.platformName)
    case PlatformVersion => OptStr(s.platformVersion)
    case InstanceName => OptStr(s.instanceName)
    case InstanceEnvironment => VStr(s.instanceEnvironment)
    case ValidationStatusCode => VStr(s.validationStatusCode)
    case ValidationDate => OptDate(s.validationDate)
    case ValidationExpiry => OptDate(s.validationExpiry)
    case ValidationEvidenceLink => OptStr(s.validationEvidenceLink)
    case HostingModel => OptStr(s.hostingModel)
    case DataHostingRegion => OptStr(s.dataHostingRegion)
    case Description => OptStr(s.description)
    case SupportedStudies => StudiesValue(s.supportedStudies)
    case Interfaces => InterfacesValue(s.interfaces)
    case Part11Compliant => OptBool(s.part11Compliant)
    case Annex11Compliant => OptBool(s.annex11Compliant)
    case Soc2Certified => OptBool(s.soc2Certified)
    case Iso27001Certified => OptBool(s.iso27001Certified)
    case LastMajorChangeDate => OptDate(s.lastMajorChangeDate)
    case LastMajorChangeDesc => OptStr(s.lastMajorChangeDesc)
    case NextPlannedChangeDate => OptDate(s.nextPlannedChangeDate)
    case NextPlannedChangeDesc => OptStr(s.nextPlannedChangeDesc)
    case IsActive => VBool(s.isActive)
    case CreatedAt => VDateTime(s.createdAt)
    case UpdatedAt => VDateTime(s.updatedAt)
  }

  /** The stored row as the API returns it: every key, each with its column's value. */
  function Repr(s: SystemInstance): (r: map<SystemField, Value>)
    ensures forall f :: f in r && r[f] == Column(s, f)
  {
    var r := map f | f in ResponseFields :: Column(s, f);
    forall f ensures f in r {
      EveryFieldIsDumped(f);
    }
    r
  }

  // ---------------------------------------------------------------------------
  // The audit trail
  // ---------------------------------------------------------------------------

  /** `old_snapshot.get(key)`: a missing key reads as null. */
  function Get(m: map<SystemField, Value>, k: SystemField): Value
  {
    if k in m then m[k] else VNull
  }

  /** The keys of the new snapshot whose value differs from the old one's. */
  function ChangedKeys(before: map<SystemField, Value>, after: map<SystemField, Value>): (r: set<SystemField>)
    ensures r <= after.Keys
  {
    set k | k in after && Get(before, k) != after[k]
  }

  /** Over snapshots with the same keys, nothing changed exactly when they are equal. */
  lemma NoChangeIffEqual(before: map<SystemField, Value>, after: map<SystemField, Value>)
    requires before.Keys == after.Keys
    ensures ChangedKeys(before, after) == {} <==> before == after
  {
    if ChangedKeys(before, after) == {} {
      forall k | k in after
        ensures before[k] == after[k]
      {
        assert k !in ChangedKeys(before, after);
      }
    }
  }

  /** The dictionary cut down to the given keys. */
  function Restrict(m: map<SystemField, Value>, keys: set<SystemField>): (r: map<SystemField, Value>)
    ensures r.Keys == m.Keys * keys
    ensures forall k :: k in r ==> r[k] == m[k]
  {
    map k | k in m && k in keys :: m[k]
  }

  /** The `CREATE` row: no old values, the whole serialized response as new values. */
  function CreateAudit(auditId: Uuid, s: SystemInstance, actor: string, now: DateTime): (a: SystemInstanceAudit)
    ensures a.auditId == auditId && a.instanceId == s.instanceId && a.action == "CREATE"
    ensures a.changedAt == now && a.changedBy == Some(actor) && a.oldValues.None?
    ensures a.newValues.Some? && forall f :: f in a.newValues.value
    ensures forall k :: k in a.newValues.value ==> a.newValues.value[k] == SerializeForAudit(Column(s, k))
  {
    assert InstanceId in Repr(s);
    SystemInstanceAudit(auditId, s.instanceId, "CREATE", now, Some(actor), None, AuditValues(Some(Repr(s))))
  }

  /** The `UPDATE` row: old and new values of exactly the changed keys. */
  function UpdateAudit(auditId: Uuid, before: SystemInstance, after: SystemInstance, actor: string,
                       now: DateTime): (a: SystemInstanceAudit)
    requires ChangedKeys(Repr(before), Repr(after)) != {}
    ensures a.auditId == auditId && a.instanceId == before.instanceId && a.action == "UPDATE"
    ensures a.changedAt == now && a.changedBy == Some(actor)
    ensures a.oldValues.Some? && a.oldValues.value.Keys == ChangedKeys(Repr(before), Repr(after))
    ensures a.newValues.Some? && a.newValues.value.Keys == ChangedKeys(Repr(before), Repr(after))
    ensures forall k :: k in a.oldValues.value ==> a.oldValues.value[k] == SerializeForAudit(Column(before, k))
    ensures forall k :: k in a.newValues.value ==> a.newValues.value[k] == SerializeForAudit(Column(after, k))
    ensures forall k :: k in a.newValues.value ==> Column(before, k) != Column(after, k)
  {
    var changed := ChangedKeys(Repr(before), Repr(after));
    var k :| k in changed;
    assert k in Restrict(Repr(before), changed) && k in Restrict(Repr(after), changed);
    SystemInstanceAudit(auditId, before.instanceId, "UPDATE", now, Some(actor),
                        AuditValues(Some(Restrict(Repr(before), changed))),
                        AuditValues(Some(Restrict(Repr(after), changed))))
  }

  // ---------------------------------------------------------------------------
  // list_systems
  // ---------------------------------------------------------------------------

  /** The WHERE clause of `list_systems`. */
  predicate Listed(s: SystemInstance, categoryCode: Option<string>, validationStatus: Option<string>,
                   region: Option<string>, vendorId: Option<Uuid>, isActive: Option<bool>,
                   search: Option<string>)
  {
    && (Truthy(categoryCode) ==> s.categoryCode == categoryCode.value)
    && (Truthy(validationStatus) ==> s.validationStatusCode == validationStatus.value)
    && (Truthy(region) ==> s.dataHostingRegion == Some(region.value))
    && (vendorId.Some? ==> s.platformVendorId == vendorId || s.serviceProviderId == vendorId)
    && (isActive.Some? ==> s.isActive == isActive.value)
    && (Truthy(search) ==>
          SearchHits(Some(s.instanceCode), search.value) || SearchHits(Some(s.platformName), search.value)
          || SearchHits(s.instanceName, search.value))
  }

  /** `ORDER BY instance_code`. */
  predicate CodeOrder(a: SystemInstance, b: SystemInstance)
  {
    StrLeq(a.instanceCode, b.instanceCode)
  }

  lemma CodeOrderTotal()
    ensures TotalPreorder(CodeOrder)
  {
    forall a: SystemInstance, b: SystemInstance
      ensures CodeOrder(a, b) || CodeOrder(b, a)
    {
      StrLeqTotal(a.instanceCode, b.instanceCode);
    }
    forall a: SystemInstance, b: SystemInstance, c: SystemInstance | CodeOrder(a, b) && CodeOrder(b, c)
      ensures CodeOrder(a, c)
    {
      StrLeqTransitive(a.instanceCode, b.instanceCode, c.instanceCode);
    }
  }

  /**
   * One page of systems: the total counts every match, the page holds at
   * most `limit` of them in code order.
   */
  function ListSystems(systems: seq<SystemInstance>, p: PaginationParams, categoryCode: Option<string>,
                       validationStatus: Option<string>, region: Option<string>, vendorId: Option<Uuid>,
                       isActive: Option<bool>, search: Option<string>): (r: Listing<SystemInstance>)
    requires p.Valid()
    ensures r.meta == PaginationMeta(
      |Filter(systems, s => Listed(s, categoryCode, validationStatus, region, vendorId, isActive, search))|,
      p.limit, p.offset)
    ensures |r.data| <= p.limit
    ensures forall s :: s in r.data ==>
      s in systems && Listed(s, categoryCode, validationStatus, region, vendorId, isActive, search)
    ensures SortedBy(r.data, CodeOrder)
    ensures |r.data| == if p.offset >= r.meta.total then 0 else Min(p.limit, r.meta.total - p.offset)
    ensures IsSortedPage(r.data,
      Filter(systems, s => Listed(s, categoryCode, validationStatus, region, vendorId, isActive, search)),
      CodeOrder, p.limit, p.offset)
    ensures p.offset == 0 && r.meta.total <= p.limit ==>
      multiset(r.data) ==
      multiset(Filter(systems, s => Listed(s, categoryCode, validationStatus, region, vendorId, isActive, search)))
  {
    var matching := Filter(systems, s => Listed(s, categoryCode, validationStatus, region, vendorId, isActive, search));
    CodeOrderTotal();
    SortedPageSorted(matching, CodeOrder, p.limit, p.offset);
    Listing(SortedPage(matching, CodeOrder, p.limit, p.offset), PaginationMeta(|matching|, p.limit, p.offset))
  }

  // ---------------------------------------------------------------------------
  // get_system
  // ---------------------------------------------------------------------------

  datatype TrialLinkSummary = TrialLinkSummary(
    trialId: Uuid, protocolNumber: string, trialTitle: string, criticalityCode: string, assignmentStatus: string)

  datatype SystemDetail = SystemDetail(
    system: SystemInstance, linkedTrials: seq<TrialLinkSummary>, auditHistory: seq<SystemInstanceAudit>)

  /** The inner join of one link with its trial; None when the trial is missing. */
  function JoinedSummary(l: TrialSystemLink, trials: seq<Trial>): Option<TrialLinkSummary>
  {
    match TrialIndex(trials, l.trialId)
    case None => None
    case Some(j) =>
      Some(TrialLinkSummary(l.trialId, trials[j].protocolNumber, trials[j].trialTitle, l.criticalityCode,
                            l.assignmentStatus))
  }

  /** `JOIN trials`: one summary per link whose trial exists, in link order. */
  function JoinTrials(links: seq<TrialSystemLink>, trials: seq<Trial>): (r: seq<TrialLinkSummary>)
    ensures |r| <= |links|
    ensures forall x :: x in r <==> exists l :: l in links && JoinedSummary(l, trials) == Some(x)
    ensures |r| == |Joinable(links, l => JoinedSummary(l, trials))|
    ensures forall i :: 0 <= i < |r| ==>
      JoinedSummary(Joinable(links, l => JoinedSummary(l, trials))[i], trials) == Some(r[i])
  {
    FilterMapJoins(links, l => JoinedSummary(l, trials));
    FilterMap(links, l => JoinedSummary(l, trials))
  }

  /** Newest change first (`ORDER BY changed_at DESC`). */
  predicate NewestFirst(a: SystemInstanceAudit, b: SystemInstanceAudit)
  {
    NotBefore(a.changedAt, b.changedAt)
  }

  lemma NewestFirstTotal()
    ensures TotalPreorder(NewestFirst)
  {
    forall a: SystemInstanceAudit, b: SystemInstanceAudit, c: SystemInstanceAudit
      ensures NewestFirst(a, b) || NewestFirst(b, a)
      ensures NewestFirst(a, b) && NewestFirst(b, c) ==> NewestFirst(a, c)
    {
      NotBeforeTotalOrder(a.changedAt, b.changedAt, c.changedAt);
    }
  }

  /** At most 20 audit rows of the system, the newest first. */
  function AuditHistory(audits: seq<SystemInstanceAudit>, id: Uuid): (h: seq<SystemInstanceAudit>)
    ensures |h| <= 20
    ensures forall a :: a in h ==> a in audits && a.instanceId == id
    ensures SortedBy(h, NewestFirst)
    ensures |h| == Min(20, |Filter(audits, (a: SystemInstanceAudit) => a.instanceId == id)|)
    ensures IsSortedPage(h, Filter(audits, (a: SystemInstanceAudit) => a.instanceId == id), NewestFirst, 20, 0)
    ensures |Filter(audits, (a: SystemInstanceAudit) => a.instanceId == id)| <= 20 ==>
      multiset(h) == multiset(Filter(audits, (a: SystemInstanceAudit) => a.instanceId == id))
  {
    var mine := Filter(audits, (a: SystemInstanceAudit) => a.instanceId == id);
    NewestFirstTotal();
    SortedPageSorted(mine, NewestFirst, 20, 0);
    SortedPage(mine, NewestFirst, 20, 0)
  }

  /**
   * The system with its ACTIVE or CONFIRMED links joined to their trials and
   * its latest audit rows; NotFound("System", id) when there is no such row.
   */
  function GetSystem(systems: seq<SystemInstance>, audits: seq<SystemInstanceAudit>, trials: seq<Trial>,
                     links: seq<TrialSystemLink>, id: Uuid): (r: Result<SystemDetail>)
    ensures r.Ok? <==> exists j :: 0 <= j < |systems| && systems[j].instanceId == id
    ensures r.Err? ==> r.error == NotFoundError("System", id.canonical, None)
    ensures r.Ok? ==> r.value.system in systems && r.value.system.instanceId == id
    ensures r.Ok? ==> forall x :: x in r.value.linkedTrials <==>
      exists l :: l in links && l.instanceId == id && ShownOnSystem(l) && JoinedSummary(l, trials) == Some(x)
    ensures r.Ok? ==> r.value.linkedTrials == JoinTrials(Filter(links, (l: TrialSystemLink) => l.instanceId == id && ShownOnSystem(l)), trials)
    ensures r.Ok? ==> r.value.auditHistory == AuditHistory(audits, id)
  {
    match SystemIndex(systems, id)
    case None => Err(NotFoundError("System", id.canonical, None))
    case Some(k) =>
      var shown := Filter(links, (l: TrialSystemLink) => l.instanceId == id && ShownOnSystem(l));
      Ok(SystemDetail(systems[k], JoinTrials(shown, trials), AuditHistory(audits, id)))
  }

  // ---------------------------------------------------------------------------
  // create_system
  // ---------------------------------------------------------------------------

  /** The system and audit tables together, the state the system writes change. */
  datatype Catalog = Catalog(systems: seq<SystemInstance>, audits: seq<SystemInstanceAudit>)
  {
    predicate Valid()
    {
      SystemsConstraint(systems) && AuditsConstraint(audits)
    }
  }

  predicate CodeTaken(systems: seq<SystemInstance>, code: string)
  {
    exists j :: 0 <= j < |systems| && systems[j].instanceCode == code
  }

  function DuplicateCodeError(code: string): Error
  {
    ConflictError("System with code '" + code + "' already exists", Some(map["instance_code" := VStr(code)]))
  }

  function ErrorDetails(dbError: string): Option<map<string, Value>>
  {
    Some(map["error" := VStr(dbError)])
  }

  function CreateFailed(dbError: string): Error
  {
    ConflictError("Failed to create system due to constraint violation", ErrorDetails(dbError))
  }

  /**
   * The row `create_system` adds: active, authored by the caller, an empty
   * interface list stored as NULL.
   */
  function NewSystem(data: SystemCreate, actor: string, id: Uuid, now: DateTime): (s: SystemInstance)
    ensures s.instanceId == id && s.instanceCode == data.instanceCode && s.isActive
    ensures s.createdBy == Some(actor) && s.updatedBy == Some(actor)
    ensures s.createdAt == now && s.updatedAt == now
    ensures s.interfaces.Some? <==> data.interfaces.Some? && data.interfaces.value != []
    ensures s.interfaces.Some? ==> s.interfaces == data.interfaces
    ensures s.categoryCode == data.categoryCode && s.platformName == data.platformName
    ensures s.instanceEnvironment == data.instanceEnvironment
    ensures s.validationStatusCode == data.validationStatusCode
    ensures s.supportedStudies == data.supportedStudies
  {
    var interfaces := if data.interfaces.Some? && data.interfaces.value != [] then data.interfaces else None;
    SystemInstance(id, data.instanceCode, data.platformVendorId, data.serviceProviderId, data.categoryCode,
                   data.platformName, data.platformVersion, data.instanceName, data.instanceEnvironment,
                   data.validationStatusCode, data.validationDate, data.validationExpiry,
                   data.validationEvidenceLink, data.hostingModel, data.dataHostingRegion, data.description,
                   data.supportedStudies, interfaces, data.part11Compliant, data.annex11Compliant,
                   data.soc2Certified, data.iso27001Certified, data.lastMajorChangeDate,
                   data.lastMajorChangeDesc, data.nextPlannedChangeDate, data.nextPlannedChangeDesc,
                   true, now, now, Some(actor), Some(actor))
  }

  /**
   * `create_system` on the catalog: a duplicate code is a Conflict naming
   * it; a row or audit row the database refuses is a Conflict carrying the
   * database's message and rolls both back; otherwise the row and its
   * CREATE audit row are appended.
   */
  function CreateSystemOutcome(c: Catalog, data: SystemCreate, actor: string, newId: Uuid, auditId: Uuid,
                               now: DateTime, dbError: string): (o: Outcome<SystemInstance, Catalog>)
    ensures CodeTaken(c.systems, data.instanceCode) ==> o == Outcome(Err(DuplicateCodeError(data.instanceCode)), c)
    ensures o.result.Err? ==> o.after == c && o.result.error.kind == Conflict
    ensures o.result.Err? && !CodeTaken(c.systems, data.instanceCode) ==> o.result.error == CreateFailed(dbError)
    ensures o.result.Ok? <==>
      && !CodeTaken(c.systems, data.instanceCode)
      && (forall j :: 0 <= j < |c.systems| ==> c.systems[j].instanceId != newId)
      && (forall j :: 0 <= j < |c.audits| ==> c.audits[j].auditId != auditId)
    ensures o.result.Ok? ==>
      && o.result.value == NewSystem(data, actor, newId, now)
      && o.after == Catalog(c.systems + [o.result.value], c.audits + [CreateAudit(auditId, o.result.value, actor, now)])
    ensures c.Valid() ==> o.after.Valid()
  {
    if CodeTaken(c.systems, data.instanceCode) then
      Outcome(Err(DuplicateCodeError(data.instanceCode)), c)
    else
      var row := NewSystem(data, actor, newId, now);
      var audit := CreateAudit(auditId, row, actor, now);
      if SystemFits(c.systems, row, |c.systems|) && AuditFits(c.audits, audit) then
        SystemFitsKeeps(c.systems, row, |c.systems|);
        AuditFitsKeeps(c.audits, audit);
        Outcome(Ok(row), Catalog(c.systems + [row], c.audits + [audit]))
      else
        Outcome(Err(CreateFailed(dbError)), c)
  }

  // ---------------------------------------------------------------------------
  // update_system
  // ---------------------------------------------------------------------------

  /**
   * The row after the `setattr` loop and `updated_by = user_email`; None when
   * the payload writes null into a NOT NULL column, which the flush rejects.
   * A sent interface list is stored as sent, even when empty.
   */
  function ApplySystemUpdate(s: SystemInstance, data: SystemUpdate, actor: string): (r: Option<SystemInstance>)
    ensures r.None? <==> data.NullsRequiredColumn()
    ensures r.Some? ==> r.value.instanceId == s.instanceId && r.value.instanceCode == s.instanceCode
    ensures r.Some? ==> r.value.createdAt == s.createdAt && r.value.createdBy == s.createdBy
    ensures r.Some? ==> r.value.updatedAt == s.updatedAt && r.value.updatedBy == Some(actor)
    ensures r.Some? ==> Some(r.value.categoryCode) == data.categoryCode.ApplyNotNull(s.categoryCode)
    ensures r.Some? ==> Some(r.value.platformName) == data.platformName.ApplyNotNull(s.platformName)
    ensures r.Some? ==> Some(r.value.instanceEnvironment) == data.instanceEnvironment.ApplyNotNull(s.instanceEnvironment)
    ensures r.Some? ==> Some(r.value.validationStatusCode) == data.validationStatusCode.ApplyNotNull(s.validationStatusCode)
    ensures r.Some? ==> Some(r.value.isActive) == data.isActive.ApplyNotNull(s.isActive)
    ensures r.Some? ==> r.value.platformVendorId == data.platformVendorId.ApplyNullable(s.platformVendorId)
    ensures r.Some? ==> r.value.serviceProviderId == data.serviceProviderId.ApplyNullable(s.serviceProviderId)
    ensures r.Some? ==> r.value.platformVersion == data.platformVersion.ApplyNullable(s.platformVersion)
    ensures r.Some? ==> r.value.instanceName == data.instanceName.ApplyNullable(s.instanceName)
    ensures r.Some? ==> r.value.validationDate == data.validationDate.ApplyNullable(s.validationDate)
    ensures r.Some? ==> r.value.validationExpiry == data.validationExpiry.ApplyNullable(s.validationExpiry)
    ensures r.Some? ==> r.value.validationEvidenceLink == data.validationEvidenceLink.ApplyNullable(s.validationEvidenceLink)
    ensures r.Some? ==> r.value.hostingModel == data.hostingModel.ApplyNullable(s.hostingModel)
    ensures r.Some? ==> r.value.dataHostingRegion == data.dataHostingRegion.ApplyNullable(s.dataHostingRegion)
    ensures r.Some? ==> r.value.description == data.description.ApplyNullable(s.description)
    ensures r.Some? ==> r.value.supportedStudies == data.supportedStudies.ApplyNullable(s.supportedStudies)
    ensures r.Some? ==> r.value.interfaces == data.interfaces.ApplyNullable(s.interfaces)
    ensures r.Some? ==> r.value.part11Compliant == data.part11Compliant.ApplyNullable(s.part11Compliant)
    ensures r.Some? ==> r.value.annex11Compliant == data.annex11Compliant.ApplyNullable(s.annex11Compliant)
    ensures r.Some? ==> r.value.soc2Certified == data.soc2Certified.ApplyNullable(s.soc2Certified)
    ensures r.Some? ==> r.value.iso27001Certified == data.iso27001Certified.ApplyNullable(s.iso27001Certified)
    ensures r.Some? ==> r.value.lastMajorChangeDate == data.lastMajorChangeDate.ApplyNullable(s.lastMajorChangeDate)
    ensures r.Some? ==> r.value.lastMajorChangeDesc == data.lastMajorChangeDesc.ApplyNullable(s.lastMajorChangeDesc)
    ensures r.Some? ==> r.value.nextPlannedChangeDate == data.nextPlannedChangeDate.ApplyNullable(s.nextPlannedChangeDate)
    ensures r.Some? ==> r.value.nextPlannedChangeDesc == data.nextPlannedChangeDesc.ApplyNullable(s.nextPlannedChangeDesc)
  {
    var category := data.categoryCode.ApplyNotNull(s.categoryCode);
    var name := data.platformName.ApplyNotNull(s.platformName);
    var env := data.instanceEnvironment.ApplyNotNull(s.instanceEnvironment);
    var status := data.validationStatusCode.ApplyNotNull(s.validationStatusCode);
    var active := data.isActive.ApplyNotNull(s.isActive);
    if category.None? || name.None? || env.None? || status.None? || active.None? then None
    else
      Some(s.(
        platformVendorId := data.platformVendorId.ApplyNullable(s.platformVendorId),
        serviceProviderId := data.serviceProviderId.ApplyNullable(s.serviceProviderId),
        categoryCode := category.value,
        platformName := name.value,
        platformVersion := data.platformVersion.ApplyNullable(s.platformVersion),
        instanceName := data.instanceName.ApplyNullable(s.instanceName),
        instanceEnvironment := env.value,
        validationStatusCode := status.value,
        validationDate := data.validationDate.ApplyNullable(s.validationDate),
        validationExpiry := data.validationExpiry.ApplyNullable(s.validationExpiry),
        validationEvidenceLink := data.validationEvidenceLink.ApplyNullable(s.validationEvidenceLink),
        hostingModel := data.hostingModel.ApplyNullable(s.hostingModel),
        dataHostingRegion := data.dataHostingRegion.ApplyNullable(s.dataHostingRegion),
        description := data.description.ApplyNullable(s.description),
        supportedStudies := data.supportedStudies.ApplyNullable(s.supportedStudies),
        interfaces := data.interfaces.ApplyNullable(s.interfaces),
        part11Compliant := data.part11Compliant.ApplyNullable(s.part11Compliant),
        annex11Compliant := data.annex11Compliant.ApplyNullable(s.annex11Compliant),
        soc2Certified := data.soc2Certified.ApplyNullable(s.soc2Certified),
        iso27001Certified := data.iso27001Certified.ApplyNullable(s.iso27001Certified),
        lastMajorChangeDate := data.lastMajorChangeDate.ApplyNullable(s.lastMajorChangeDate),
        lastMajorChangeDesc := data.lastMajorChangeDesc.ApplyNullable(s.lastMajorChangeDesc),
        nextPlannedChangeDate := data.nextPlannedChangeDate.ApplyNullable(s.nextPlannedChangeDate),
        nextPlannedChangeDesc := data.nextPlannedChangeDesc.ApplyNullable(s.nextPlannedChangeDesc),
        isActive := active.value,
        updatedBy := Some(actor)))
  }

  /** `onupdate=func.now()`: `updated_at` moves only when some column changed. */
  function Touched(before: SystemInstance, after: SystemInstance, now: DateTime): (r: SystemInstance)
    requires after.updatedAt == before.updatedAt
    ensures after == before ==> r == before
    ensures after != before ==> r == after.(updatedAt := now)
  {
    if after == before then before else after.(updatedAt := now)
  }

  /** A row keeping its stored id and code still satisfies the table's unique constraints. */
  lemma SameKeysFit(systems: seq<SystemInstance>, k: nat, row: SystemInstance)
    requires k < |systems|
    requires row.instanceId == systems[k].instanceId && row.instanceCode == systems[k].instanceCode
    ensures SystemsConstraint(systems) ==> SystemFits(systems, row, k)
  {
    if SystemsConstraint(systems) {
      forall i | 0 <= i < |systems| && i != k
        ensures systems[i].instanceId != row.instanceId && systems[i].instanceCode != row.instanceCode
      {
        if i < k {
          assert systems[k].instanceCode != systems[i].instanceCode;
        } else {
          assert systems[k].instanceId != systems[i].instanceId;
        }
      }
    }
  }

  function UpdateFailed(dbError: string): Error
  {
    ValidationError("Failed to update system due to constraint violation", ErrorDetails(dbError))
  }

  /**
   * The flush of an updated row and, when the response changed, of its
   * UPDATE audit row; either refusal rolls both back.
   */
  function CommitSystemUpdate(c: Catalog, k: nat, row: SystemInstance, actor: string, now: DateTime,
                              auditId: Uuid, dbError: string): (o: Outcome<SystemInstance, Catalog>)
    requires k < |c.systems|
    requires row.instanceId == c.systems[k].instanceId && row.instanceCode == c.systems[k].instanceCode
    ensures o.result.Err? ==> o == Outcome(Err(UpdateFailed(dbError)), c)
    ensures c.Valid() && (forall j :: 0 <= j < |c.audits| ==> c.audits[j].auditId != auditId) ==> o.result.Ok?
    ensures o.result.Ok? ==> o.result.value == row && o.after.systems == c.systems[k := row]
    ensures o.result.Ok? && ChangedKeys(Repr(c.systems[k]), Repr(row)) == {} ==> o.after.audits == c.audits
    ensures o.result.Ok? && ChangedKeys(Repr(c.systems[k]), Repr(row)) != {} ==>
      o.after.audits == c.audits + [UpdateAudit(auditId, c.systems[k], row, actor, now)]
    ensures c.Valid() ==> o.after.Valid()
  {
    SameKeysFit(c.systems, k, row);
    if !SystemFits(c.systems, row, k) then Outcome(Err(UpdateFailed(dbError)), c)
    else
      SystemFitsKeeps(c.systems, row, k);
      if ChangedKeys(Repr(c.systems[k]), Repr(row)) == {} then
        Outcome(Ok(row), Catalog(c.systems[k := row], c.audits))
      else
        var audit := UpdateAudit(auditId, c.systems[k], row, actor, now);
        if AuditFits(c.audits, audit) then
          AuditFitsKeeps(c.audits, audit);
          Outcome(Ok(row), Catalog(c.systems[k := row], c.audits + [audit]))
        else Outcome(Err(UpdateFailed(dbError)), c)
  }

  /**
   * `update_system` on the catalog: NotFound for an unknown id; the stored
   * row, with no audit, for an empty payload; a ValidationError (not a
   * Conflict) when the database refuses the row or its audit row; otherwise
   * the patched row replaces the stored one and an UPDATE audit row is
   * appended exactly when the response changed.
   */
  function UpdateSystemOutcome(c: Catalog, id: Uuid, data: SystemUpdate, actor: string, now: DateTime,
                               auditId: Uuid, dbError: string): (o: Outcome<SystemInstance, Catalog>)
    ensures SystemIndex(c.systems, id).None? ==> o == Outcome(Err(NotFoundError("System", id.canonical, None)), c)
    ensures SystemIndex(c.systems, id).Some? && data.IsEmpty() ==>
      o == Outcome(Ok(c.systems[SystemIndex(c.systems, id).value]), c)
    ensures o.result.Err? ==> o.after == c
    ensures o.result.Err? && SystemIndex(c.systems, id).Some? ==> o.result.error == UpdateFailed(dbError)
    ensures SystemIndex(c.systems, id).Some? && !data.IsEmpty() ==>
      var k := SystemIndex(c.systems, id).value;
      var patched := ApplySystemUpdate(c.systems[k], data, actor);
      && (c.Valid() && (forall j :: 0 <= j < |c.audits| ==> c.audits[j].auditId != auditId) ==>
            (o.result.Ok? <==> patched.Some?))
      && (o.result.Ok? ==> patched.Some?)
      && (o.result.Ok? ==>
            var row := Touched(c.systems[k], patched.value, now);
            var changed := ChangedKeys(Repr(c.systems[k]), Repr(row));
            && o.result.value == row
            && o.after.systems == c.systems[k := row]
            && (changed == {} ==> o.after.audits == c.audits)
            && (changed != {} ==> o.after.audits == c.audits + [UpdateAudit(auditId, c.systems[k], row, actor, now)]))
    ensures c.Valid() ==> o.after.Valid()
  {
    match SystemIndex(c.systems, id)
    case None => Outcome(Err(NotFoundError("System", id.canonical, None)), c)
    case Some(k) =>
      if data.IsEmpty() then Outcome(Ok(c.systems[k]), c)
      else
        match ApplySystemUpdate(c.systems[k], data, actor)
        case None => Outcome(Err(UpdateFailed(dbError)), c)
        case Some(patched) =>
          CommitSystemUpdate(c, k, Touched(c.systems[k], patched, now), actor, now, auditId, dbError)
  }

  // ---------------------------------------------------------------------------
  // Properties relating the operations
  // ---------------------------------------------------------------------------

  /** A created system is what a later lookup of its id returns. */
  lemma CreatedSystemIsFound(c: Catalog, data: SystemCreate, actor: string, newId: Uuid, auditId: Uuid,
                             now: DateTime, dbError: string, trials: seq<Trial>, links: seq<TrialSystemLink>)
    requires CreateSystemOutcome(c, data, actor, newId, auditId, now, dbError).result.Ok?
    ensures var o := CreateSystemOutcome(c, data, actor, newId, auditId, now, dbError);
            var r := GetSystem(o.after.systems, o.after.audits, trials, links, newId);
            r.Ok? && r.value.system == o.result.value
  {
    var o := CreateSystemOutcome(c, data, actor, newId, auditId, now, dbError);
    assert o.after.systems[|c.systems|].instanceId == newId;
    assert SystemIndex(o.after.systems, newId) == Some(|c.systems|);
  }

  /**
   * An update writes an audit row exactly when some key of the response
   * shows a different value afterwards.
   */
  lemma UpdateAuditedIffColumnChanged(c: Catalog, id: Uuid, data: SystemUpdate, actor: string, now: DateTime,
                                      auditId: Uuid, dbError: string)
    requires SystemIndex(c.systems, id).Some? && !data.IsEmpty()
    requires UpdateSystemOutcome(c, id, data, actor, now, auditId, dbError).result.Ok?
    ensures var o := UpdateSystemOutcome(c, id, data, actor, now, auditId, dbError);
            var before := c.systems[SystemIndex(c.systems, id).value];
            && (|o.after.audits| == |c.audits| + 1 <==> exists f :: Column(before, f) != Column(o.result.value, f))
            && (|o.after.audits| == |c.audits| <==> forall f :: Column(before, f) == Column(o.result.value, f))
  {
    var o := UpdateSystemOutcome(c, id, data, actor, now, auditId, dbError);
    var before := c.systems[SystemIndex(c.systems, id).value];
    var after := o.result.value;
    NoChangeIffEqual(Repr(before), Repr(after));
    if forall f :: Column(before, f) == Column(after, f) {
      assert Repr(before) == Repr(after);
    }
    if exists f :: Column(before, f) != Column(after, f) {
      var f :| Column(before, f) != Column(after, f);
      assert Repr(before)[f] != Repr(after)[f];
    }
  }

  /** Applying a payload to a row it was already applied to changes nothing. */
  lemma ReapplyChangesNothing(s: SystemInstance, data: SystemUpdate, actor: string, t: SystemInstance)
    requires ApplySystemUpdate(s, data, actor).Some?
    requires t == ApplySystemUpdate(s, data, actor).value.(updatedAt := t.updatedAt)
    ensures ApplySystemUpdate(t, data, actor) == Some(t)
  {
  }

  /**
   * Sending the same update again changes nothing: no column, no
   * `updated_at`, and no audit row.
   */
  lemma UpdateSystemRepeated(c: Catalog, id: Uuid, data: SystemUpdate, actor: string, now: DateTime,
                             later: DateTime, auditId: Uuid, laterAuditId: Uuid, dbError: string)
    requires c.Valid()
    requires UpdateSystemOutcome(c, id, data, actor, now, auditId, dbError).result.Ok?
    ensures var first := UpdateSystemOutcome(c, id, data, actor, now, auditId, dbError);
            UpdateSystemOutcome(first.after, id, data, actor, later, laterAuditId, dbError) == Outcome(first.result, first.after)
  {
    var first := UpdateSystemOutcome(c, id, data, actor, now, auditId, dbError);
    var k := SystemIndex(c.systems, id).value;
    assert first.after.systems[k].instanceId == id;
    assert forall j :: 0 <= j < k ==> first.after.systems[j] == c.systems[j];
    assert SystemIndex(first.after.systems, id) == Some(k);
    if !data.IsEmpty() {
      var row := first.result.value;
      var patched := ApplySystemUpdate(c.systems[k], data, actor).value;
      assert row == Touched(c.systems[k], patched, now);
      ReapplyChangesNothing(c.systems[k], data, actor, row);
      assert ChangedKeys(Repr(row), Repr(row)) == {};
      assert first.after.systems[k := row] == first.after.systems;
    }
  }

  // ---------------------------------------------------------------------------
  // The service calls on a session
  // ---------------------------------------------------------------------------

  method CreateSystem(db: Session, data: SystemCreate, actor: string, newId: Uuid, auditId: Uuid,
                      now: DateTime, dbError: string) returns (r: Result<SystemInstance>)
    requires db.Valid() && data.Valid()
    modifies db`systems, db`audits
    ensures db.Valid()
    ensures var o := CreateSystemOutcome(Catalog(old(db.systems), old(db.audits)), data, actor, newId, auditId,
                                         now, dbError);
            r == o.result && Catalog(db.systems, db.audits) == o.after
  {
    if CodeTaken(db.systems, data.instanceCode) {
      return Err(DuplicateCodeError(data.instanceCode));
    }
    var system := NewSystem(data, actor, newId, now);
    if !SystemFits(db.systems, system, |db.systems|) {
      return Err(CreateFailed(dbError));
    }
    var audit := CreateAudit(auditId, system, actor, now);
    if !AuditFits(db.audits, audit) {
      return Err(CreateFailed(dbError));
    }
    SystemFitsKeeps(db.systems, system, |db.systems|);
    AuditFitsKeeps(db.audits, audit);
    db.WriteSystems(db.systems + [system], db.audits + [audit]);
    r := Ok(system);
  }

  method UpdateSystem(db: Session, id: Uuid, data: SystemUpdate, actor: string, now: DateTime, auditId: Uuid,
                      dbError: string) returns (r: Result<SystemInstance>)
    requires db.Valid() && data.Valid()
    modifies db`systems, db`audits
    ensures db.Valid()
    ensures var o := UpdateSystemOutcome(Catalog(old(db.systems), old(db.audits)), id, data, actor, now, auditId,
                                         dbError);
            r == o.result && Catalog(db.systems, db.audits) == o.after
  {
    var found := SystemIndex(db.systems, id);
    if found.None? {
      return Err(NotFoundError("System", id.canonical, None));
    }
    var k := found.value;
    var system := db.systems[k];
    if data.IsEmpty() {
      return Ok(system);
    }
    var patched := ApplySystemUpdate(system, data, actor);
    if patched.None? {
      return Err(UpdateFailed(dbError));
    }
    var row := Touched(system, patched.value, now);
    r := CommitUpdate(db, k, row, actor, now, auditId, dbError);
  }

  /** The flush of `update_system`, as `CommitSystemUpdate` states it. */
  method CommitUpdate(db: Session, k: nat, row: SystemInstance, actor: string, now: DateTime, auditId: Uuid,
                      dbError: string) returns (r: Result<SystemInstance>)
    requires db.Valid() && k < |db.systems|
    requires row.instanceId == db.systems[k].instanceId && row.instanceCode == db.systems[k].instanceCode
    modifies db`systems, db`audits
    ensures db.Valid()
    ensures var o := CommitSystemUpdate(Catalog(old(db.systems), old(db.audits)), k, row, actor, now, auditId,
                                        dbError);
            r == o.result && Catalog(db.systems, db.audits) == o.after
  {
    ghost var c := Catalog(db.systems, db.audits);
    ghost var o := CommitSystemUpdate(c, k, row, actor, now, auditId, dbError);
    // The stored id and code are kept, so the unique constraints cannot fail here.
    SameKeysFit(db.systems, k, row);
    SystemFitsKeeps(db.systems, row, k);
    var changed := ChangedKeys(Repr(db.systems[k]), Repr(row));
    if changed == {} {
      assert o == Outcome(Ok(row), Catalog(c.systems[k := row], c.audits));
      db.WriteSystems(db.systems[k := row], db.audits);
      return Ok(row);
    }
    var audit := UpdateAudit(auditId, db.systems[k], row, actor, now);
    if !AuditFits(db.audits, audit) {
      assert o == Outcome(Err(UpdateFailed(dbError)), c);
      return Err(UpdateFailed(dbError));
    }
    AuditFitsKeeps(db.audits, audit);
    assert o == Outcome(Ok(row), Catalog(c.systems[k := row], c.audits + [audit]));
    db.WriteSystems(db.systems[k := row], db.audits + [audit]);
    r := Ok(row);
  }
}
