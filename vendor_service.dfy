/**
 * The vendor registry: listing, lookup, creation with a code-uniqueness
 * check, and partial update.
 */
module VendorService {
  import opened Wrappers
  import opened Values
  import opened Text
  import opened Seqs
  import opened Exceptions
  import opened Pagination
  import opened DbModels
  import opened VendorModels

  // ---------------------------------------------------------------------------
  // list_vendors
  // ---------------------------------------------------------------------------

  /** The WHERE clause: a truthy type filter and a present active-flag filter. */
  predicate Listed(v: Vendor, vendorType: Option<string>, isActive: Option<bool>)
  {
    && (Truthy(vendorType) ==> v.vendorType == vendorType.value)
    && (isActive.Some? ==> v.isActive == isActive.value)
  }

  /** `ORDER BY vendor_name`. */
  predicate NameOrder(a: Vendor, b: Vendor)
  {
    StrLeq(a.vendorName, b.vendorName)
  }

  lemma NameOrderTotal()
    ensures TotalPreorder(NameOrder)
  {
    forall a: Vendor, b: Vendor
      ensures NameOrder(a, b) || NameOrder(b, a)
    {
      StrLeqTotal(a.vendorName, b.vendorName);
    }
    forall a: Vendor, b: Vendor, c: Vendor | NameOrder(a, b) && NameOrder(b, c)
      ensures NameOrder(a, c)
    {
      StrLeqTransitive(a.vendorName, b.vendorName, c.vendorName);
    }
  }

  /**
   * One page of vendors: the total counts every matching vendor, the page
   * holds at most `limit` of them, in name order.
   */
  function ListVendors(vendors: seq<Vendor>, p: PaginationParams, vendorType: Option<string>,
                       isActive: Option<bool>): (r: Listing<Vendor>)
    requires p.Valid()
    ensures r.meta == PaginationMeta(|Filter(vendors, v => Listed(v, vendorType, isActive))|, p.limit, p.offset)
    ensures |r.data| <= p.limit
    ensures forall v :: v in r.data ==> v in vendors && Listed(v, vendorType, isActive)
    ensures SortedBy(r.data, NameOrder)
    ensures |r.data| == if p.offset >= r.meta.total then 0 else Min(p.limit, r.meta.total - p.offset)
    ensures IsSortedPage(r.data, Filter(vendors, v => Listed(v, vendorType, isActive)),
                         NameOrder, p.limit, p.offset)
    ensures p.offset == 0 && r.meta.total <= p.limit ==>
      multiset(r.data) == multiset(Filter(vendors, v => Listed(v, vendorType, isActive)))
  {
    var matching := Filter(vendors, v => Listed(v, vendorType, isActive));
    NameOrderTotal();
    SortedPageSorted(matching, NameOrder, p.limit, p.offset);
    Listing(SortedPage(matching, NameOrder, p.limit, p.offset), PaginationMeta(|matching|, p.limit, p.offset))
  }

  // ---------------------------------------------------------------------------
  // get_vendor
  // ---------------------------------------------------------------------------

  /** The vendor with primary key `id`, or NotFound("Vendor", id). */
  function GetVendor(vendors: seq<Vendor>, id: Uuid): (r: Result<Vendor>)
    ensures r.Ok? <==> exists j :: 0 <= j < |vendors| && vendors[j].vendorId == id
    ensures r.Ok? ==> r.value in vendors && r.value.vendorId == id
    ensures r.Err? ==> r.error == NotFoundError("Vendor", id.canonical, None)
  {
    match VendorIndex(vendors, id)
    case None => Err(NotFoundError("Vendor", id.canonical, None))
    case Some(k) => Ok(vendors[k])
  }

  // ---------------------------------------------------------------------------
  // create_vendor
  // ---------------------------------------------------------------------------

  /** Some stored vendor already has this code. */
  predicate CodeTaken(vendors: seq<Vendor>, code: string)
  {
    exists j :: 0 <= j < |vendors| && vendors[j].vendorCode == code
  }

  function DuplicateCodeError(code: string): Error
  {
    ConflictError("Vendor with code '" + code + "' already exists", Some(map["vendor_code" := VStr(code)]))
  }

  /** The `details={"error": str(e)}` of a reported integrity error. */
  function ErrorDetails(dbError: string): Option<map<string, Value>>
  {
    Some(map["error" := VStr(dbError)])
  }

  /** The row `create_vendor` adds: active, created and updated by the caller. */
  function NewVendor(data: VendorCreate, actor: string, id: Uuid, now: DateTime): (v: Vendor)
    ensures v.vendorId == id && v.isActive && v.createdBy == Some(actor) && v.updatedBy == Some(actor)
    ensures v.vendorCode == data.vendorCode && v.vendorName == data.vendorName && v.vendorType == data.vendorType
    ensures v.contactName == data.contactName && v.contactEmail == data.contactEmail
    ensures v.createdAt == now && v.updatedAt == now
  {
    Vendor(id, data.vendorCode, data.vendorName, data.vendorType, data.contactName, data.contactEmail,
           true, now, now, Some(actor), Some(actor))
  }

  /**
   * `create_vendor` on a table: a duplicate code is a Conflict naming the
   * code; a row the database refuses (its generated key already in use) is
   * a Conflict carrying the database's message; otherwise the new row is
   * appended.
   */
  function CreateVendorOutcome(vendors: seq<Vendor>, data: VendorCreate, actor: string, newId: Uuid,
                               now: DateTime, dbError: string): (o: Outcome<Vendor, seq<Vendor>>)
    requires data.Valid()
    ensures CodeTaken(vendors, data.vendorCode) ==> o == Outcome(Err(DuplicateCodeError(data.vendorCode)), vendors)
    ensures o.result.Err? ==> o.after == vendors && o.result.error.kind == Conflict
    ensures o.result.Err? && !CodeTaken(vendors, data.vendorCode) ==>
      o.result.error == ConflictError("Failed to create vendor due to constraint violation", ErrorDetails(dbError))
    ensures o.result.Ok? <==>
      !CodeTaken(vendors, data.vendorCode) && forall j :: 0 <= j < |vendors| ==> vendors[j].vendorId != newId
    ensures o.result.Ok? ==> o.result.value == NewVendor(data, actor, newId, now) && o.after == vendors + [o.result.value]
    ensures VendorsConstraint(vendors) ==> VendorsConstraint(o.after)
  {
    ValidatorMatchesCheck();
    if CodeTaken(vendors, data.vendorCode) then
      Outcome(Err(DuplicateCodeError(data.vendorCode)), vendors)
    else
      var row := NewVendor(data, actor, newId, now);
      if VendorFits(vendors, row, |vendors|) then
        VendorFitsKeeps(vendors, row, |vendors|);
        Outcome(Ok(row), vendors + [row])
      else
        Outcome(Err(ConflictError("Failed to create vendor due to constraint violation", ErrorDetails(dbError))), vendors)
  }

  // ---------------------------------------------------------------------------
  // update_vendor
  // ---------------------------------------------------------------------------

  /**
   * The row after the `setattr` loop and `updated_by = user_email`; None when
   * the payload writes null into a NOT NULL column, which the flush rejects.
   */
  function ApplyVendorUpdate(v: Vendor, data: VendorUpdate, actor: string): (r: Option<Vendor>)
    ensures r.None? <==> data.vendorName.SetNull? || data.vendorType.SetNull? || data.isActive.SetNull?
    ensures r.Some? ==> r.value.vendorId == v.vendorId && r.value.vendorCode == v.vendorCode
    ensures r.Some? ==> r.value.createdAt == v.createdAt && r.value.createdBy == v.createdBy
    ensures r.Some? ==> r.value.updatedAt == v.updatedAt && r.value.updatedBy == Some(actor)
    ensures r.Some? ==> Some(r.value.vendorName) == data.vendorName.ApplyNotNull(v.vendorName)
    ensures r.Some? ==> Some(r.value.vendorType) == data.vendorType.ApplyNotNull(v.vendorType)
    ensures r.Some? ==> Some(r.value.isActive) == data.isActive.ApplyNotNull(v.isActive)
    ensures r.Some? ==> r.value.contactName == data.contactName.ApplyNullable(v.contactName)
    ensures r.Some? ==> r.value.contactEmail == data.contactEmail.ApplyNullable(v.contactEmail)
  {
    var name := data.vendorName.ApplyNotNull(v.vendorName);
    var vtype := data.vendorType.ApplyNotNull(v.vendorType);
    var active := data.isActive.ApplyNotNull(v.isActive);
    if name.None? || vtype.None? || active.None? then None
    else
      Some(v.(vendorName := name.value, vendorType := vtype.value, isActive := active.value,
              contactName := data.contactName.ApplyNullable(v.contactName),
              contactEmail := data.contactEmail.ApplyNullable(v.contactEmail),
              updatedBy := Some(actor)))
  }

  /**
   * `onupdate=func.now()`: the flush issues an UPDATE, and so refreshes
   * `updated_at`, only when some column's value actually changed.
   */
  function Touched(before: Vendor, after: Vendor, now: DateTime): (r: Vendor)
    requires after.updatedAt == before.updatedAt
    ensures after == before ==> r == before
    ensures after != before ==> r == after.(updatedAt := now)
  {
    if after == before then before else after.(updatedAt := now)
  }

  function UpdateFailed(dbError: string): Error
  {
    ValidationError("Failed to update vendor due to constraint violation", ErrorDetails(dbError))
  }

  /**
   * `update_vendor` on a table: NotFound for an unknown id; the stored row
   * unchanged for an empty payload; a ValidationError (not a Conflict) when
   * the database refuses the row; otherwise the patched row replaces the
   * stored one.
   */
  function UpdateVendorOutcome(vendors: seq<Vendor>, id: Uuid, data: VendorUpdate, actor: string,
                               now: DateTime, dbError: string): (o: Outcome<Vendor, seq<Vendor>>)
    requires data.Valid()
    ensures VendorIndex(vendors, id).None? ==> o == Outcome(Err(NotFoundError("Vendor", id.canonical, None)), vendors)
    ensures VendorIndex(vendors, id).Some? && data.IsEmpty() ==>
      o == Outcome(Ok(vendors[VendorIndex(vendors, id).value]), vendors)
    ensures o.result.Err? ==> o.after == vendors
    ensures o.result.Err? && VendorIndex(vendors, id).Some? ==> o.result.error == UpdateFailed(dbError)
    ensures VendorIndex(vendors, id).Some? && !data.IsEmpty() ==>
      var k := VendorIndex(vendors, id).value;
      var patched := ApplyVendorUpdate(vendors[k], data, actor);
      && (VendorsConstraint(vendors) ==> (o.result.Ok? <==> patched.Some?))
      && (o.result.Ok? ==> patched.Some?)
      && (o.result.Ok? ==> o.result.value == Touched(vendors[k], patched.value, now)
                           && o.after == vendors[k := o.result.value])
    ensures VendorsConstraint(vendors) ==> VendorsConstraint(o.after)
  {
    match VendorIndex(vendors, id)
    case None => Outcome(Err(NotFoundError("Vendor", id.canonical, None)), vendors)
    case Some(k) =>
      if data.IsEmpty() then Outcome(Ok(vendors[k]), vendors)
      else
        match ApplyVendorUpdate(vendors[k], data, actor)
        case None => Outcome(Err(UpdateFailed(dbError)), vendors)
        case Some(patched) =>
          var row := Touched(vendors[k], patched, now);
          ValidatorMatchesCheck();
          assert row.vendorType in VendorTypes || row.vendorType == vendors[k].vendorType;
          assert VendorsConstraint(vendors) ==> VendorFits(vendors, row, k) by {
            if VendorsConstraint(vendors) {
              forall i | 0 <= i < |vendors| && i != k
                ensures vendors[i].vendorId != row.vendorId && vendors[i].vendorCode != row.vendorCode
              {
                if i < k {
                } else {
                  assert vendors[k].vendorId != vendors[i].vendorId;
                }
              }
            }
          }
          if VendorFits(vendors, row, k) then
            VendorFitsKeeps(vendors, row, k);
            Outcome(Ok(row), vendors[k := row])
          else Outcome(Err(UpdateFailed(dbError)), vendors)
  }

  // ---------------------------------------------------------------------------
  // Properties relating the operations
  // ---------------------------------------------------------------------------

  /** A created vendor is what a later lookup of its id returns. */
  lemma CreatedVendorIsFound(vendors: seq<Vendor>, data: VendorCreate, actor: string, newId: Uuid,
                             now: DateTime, dbError: string)
    requires data.Valid()
    requires CreateVendorOutcome(vendors, data, actor, newId, now, dbError).result.Ok?
    ensures var o := CreateVendorOutcome(vendors, data, actor, newId, now, dbError);
            GetVendor(o.after, newId) == o.result
  {
    var o := CreateVendorOutcome(vendors, data, actor, newId, now, dbError);
    var k := VendorIndex(o.after, newId);
    assert o.after[|vendors|].vendorId == newId;
    assert k.Some? && k.value == |vendors|;
  }

  /** An updated vendor is what a later lookup of its id returns. */
  lemma UpdatedVendorIsFound(vendors: seq<Vendor>, id: Uuid, data: VendorUpdate, actor: string,
                             now: DateTime, dbError: string)
    requires data.Valid()
    requires UpdateVendorOutcome(vendors, id, data, actor, now, dbError).result.Ok?
    ensures var o := UpdateVendorOutcome(vendors, id, data, actor, now, dbError);
            GetVendor(o.after, id) == o.result
  {
    var k := VendorIndex(vendors, id).value;
    var o := UpdateVendorOutcome(vendors, id, data, actor, now, dbError);
    assert o.after[k].vendorId == id;
    assert forall j :: 0 <= j < k ==> o.after[j] == vendors[j];
  }

  /**
   * Sending the same update again changes nothing, not even `updated_at`:
   * every column already holds the value being written.
   */
  lemma UpdateVendorRepeated(vendors: seq<Vendor>, id: Uuid, data: VendorUpdate, actor: string,
                             now: DateTime, later: DateTime, dbError: string)
    requires data.Valid() && VendorsConstraint(vendors)
    requires UpdateVendorOutcome(vendors, id, data, actor, now, dbError).result.Ok?
    ensures var first := UpdateVendorOutcome(vendors, id, data, actor, now, dbError);
            UpdateVendorOutcome(first.after, id, data, actor, later, dbError) == Outcome(first.result, first.after)
  {
    var first := UpdateVendorOutcome(vendors, id, data, actor, now, dbError);
    UpdatedVendorIsFound(vendors, id, data, actor, now, dbError);
    var k := VendorIndex(first.after, id).value;
    var row := first.result.value;
    assert first.after[k] == row;
    if !data.IsEmpty() {
      var patched := ApplyVendorUpdate(vendors[k], data, actor).value;
      assert row == Touched(vendors[k], patched, now);
      var again := ApplyVendorUpdate(row, data, actor);
      assert again.Some?;
      assert again.value == row;
      assert Touched(row, again.value, later) == row;
      assert first.after[k := row] == first.after;
    }
  }

  // ---------------------------------------------------------------------------
  // The service calls on a session
  // ---------------------------------------------------------------------------

  method CreateVendor(db: Session, data: VendorCreate, actor: string, newId: Uuid, now: DateTime,
                      dbError: string) returns (r: Result<Vendor>)
    requires db.Valid() && data.Valid()
    modifies db`vendors
    ensures db.Valid()
    ensures var o := CreateVendorOutcome(old(db.vendors), data, actor, newId, now, dbError);
            r == o.result && db.vendors == o.after
  {
    if CodeTaken(db.vendors, data.vendorCode) {
      return Err(DuplicateCodeError(data.vendorCode));
    }
    var vendor := NewVendor(data, actor, newId, now);
    if !VendorFits(db.vendors, vendor, |db.vendors|) {
      return Err(ConflictError("Failed to create vendor due to constraint violation", ErrorDetails(dbError)));
    }
    db.vendors := db.vendors + [vendor];
    r := Ok(vendor);
  }

  method UpdateVendor(db: Session, id: Uuid, data: VendorUpdate, actor: string, now: DateTime,
                      dbError: string) returns (r: Result<Vendor>)
    requires db.Valid() && data.Valid()
    modifies db`vendors
    ensures db.Valid()
    ensures var o := UpdateVendorOutcome(old(db.vendors), id, data, actor, now, dbError);
            r == o.result && db.vendors == o.after
  {
    var found := VendorIndex(db.vendors, id);
    if found.None? {
      return Err(NotFoundError("Vendor", id.canonical, None));
    }
    var k := found.value;
    var vendor := db.vendors[k];
    if data.IsEmpty() {
      return Ok(vendor);
    }
    var patched := ApplyVendorUpdate(vendor, data, actor);
    if patched.None? {
      return Err(UpdateFailed(dbError));
    }
    var row := Touched(vendor, patched.value, now);
    if !VendorFits(db.vendors, row, k) {
      return Err(UpdateFailed(dbError));
    }
    db.vendors := db.vendors[k := row];
    r := Ok(row);
  }
}
