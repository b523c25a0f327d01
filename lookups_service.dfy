/**
 * The reference data a client caches: the active rows of the three lookup
 * tables in their display order, and three fixed code lists.
 */
module LookupsService {
  import opened Wrappers
  import opened Seqs
  import opened DbModels
  import opened VendorModels

  datatype SystemCategoryResponse = SystemCategoryResponse(
    categoryCode: string,
    categoryName: string,
    defaultCriticality: string)

  datatype ValidationStatusResponse = ValidationStatusResponse(
    statusCode: string,
    statusName: string,
    requiresAttention: bool)

  datatype CriticalityResponse = CriticalityResponse(criticalityCode: string, criticalityName: string)

  datatype LookupsResponse = LookupsResponse(
    systemCategories: seq<SystemCategoryResponse>,
    validationStatuses: seq<ValidationStatusResponse>,
    criticalityLevels: seq<CriticalityResponse>,
    vendorTypes: seq<string>,
    hostingModels: seq<string>,
    dataHostingRegions: seq<string>)

  /** `SELECT ... WHERE is_active ORDER BY sort_order`, ties in table order. */
  function ActiveInOrder<T(!new)>(rows: seq<T>, isActive: T -> bool, order: (T, T) -> bool): (r: seq<T>)
    ensures multiset(r) == multiset(Filter(rows, isActive))
    ensures forall x :: x in r <==> x in rows && isActive(x)
    ensures TotalPreorder(order) ==> SortedBy(r, order)
  {
    var active := Filter(rows, isActive);
    SortByPermutation(active, order);
    SortedWhenTotal(active, order);
    var r := SortBy(active, order);
    forall x
      ensures x in r <==> x in active
    {
      assert x in r <==> x in multiset(r);
      assert x in active <==> x in multiset(active);
    }
    r
  }

  lemma SortedWhenTotal<T(!new)>(s: seq<T>, order: (T, T) -> bool)
    ensures TotalPreorder(order) ==> SortedBy(SortBy(s, order), order)
  {
    if TotalPreorder(order) {
      SortBySorted(s, order);
    }
  }

  predicate IsActiveCategory(c: SystemCategory)
  {
    c.isActive
  }

  predicate IsActiveStatus(s: ValidationStatus)
  {
    s.isActive
  }

  predicate IsActiveCriticality(c: Criticality)
  {
    c.isActive
  }

  predicate CategoryOrder(a: SystemCategory, b: SystemCategory)
  {
    a.sortOrder <= b.sortOrder
  }

  predicate StatusOrder(a: ValidationStatus, b: ValidationStatus)
  {
    a.sortOrder <= b.sortOrder
  }

  predicate CriticalityOrder(a: Criticality, b: Criticality)
  {
    a.sortOrder <= b.sortOrder
  }

  lemma SortOrdersTotal()
    ensures TotalPreorder(CategoryOrder) && TotalPreorder(StatusOrder) && TotalPreorder(CriticalityOrder)
  {
  }

  function CategoryResponse(c: SystemCategory): SystemCategoryResponse
  {
    SystemCategoryResponse(c.categoryCode, c.categoryName, c.defaultCriticality)
  }

  function StatusResponse(s: ValidationStatus): ValidationStatusResponse
  {
    ValidationStatusResponse(s.statusCode, s.statusName, s.requiresAttention)
  }

  function CriticalityLevel(c: Criticality): CriticalityResponse
  {
    CriticalityResponse(c.criticalityCode, c.criticalityName)
  }

  /** The codes the vendor validator and the database check accept. */
  const LookupVendorTypes: seq<string> := [
    "CRO", "FSP", "TECH_VENDOR", "CENTRAL_LAB", "IMAGING",
    "ECG_VENDOR", "BIOANALYTICAL", "LOGISTICS", "SPECIALTY", "INTERNAL"]

  const HostingModels: seq<string> := ["SAAS", "SAAS_ST", "PAAS", "IAAS", "ON_PREM", "HYBRID"]

  const DataHostingRegions: seq<string> := ["EU", "US", "CHINA", "APAC_OTHER", "UK", "GLOBAL_DISTRIBUTED"]

  predicate Distinct(s: seq<string>)
  {
    forall i, j :: 0 <= i < j < |s| ==> s[i] != s[j]
  }

  /**
   * The published vendor types are exactly the values a vendor may be
   * created with: the validator accepts each of them and nothing else.
   */
  lemma VendorTypesMatchValidator()
    ensures LookupVendorTypes == VendorTypes
    ensures forall v :: v in LookupVendorTypes <==> ValidateVendorType(v).Some?
    ensures |LookupVendorTypes| == 10 && Distinct(LookupVendorTypes)
  {
    ValidatorMatchesCheck();
  }

  /** The hosting models and the regions are six distinct codes each. */
  lemma FixedListsDistinct()
    ensures |HostingModels| == 6 && Distinct(HostingModels)
    ensures |DataHostingRegions| == 6 && Distinct(DataHostingRegions)
  {
  }

  /**
   * `get_all_lookups`: each lookup table's active rows in `sort_order`, as
   * their response records, and the fixed code lists.
   */
  function GetAllLookups(categories: seq<SystemCategory>, statuses: seq<ValidationStatus>,
                         criticalities: seq<Criticality>): (r: LookupsResponse)
    ensures r.systemCategories == MapSeq(ActiveInOrder(categories, IsActiveCategory, CategoryOrder), CategoryResponse)
    ensures r.validationStatuses == MapSeq(ActiveInOrder(statuses, IsActiveStatus, StatusOrder), StatusResponse)
    ensures r.criticalityLevels
         == MapSeq(ActiveInOrder(criticalities, IsActiveCriticality, CriticalityOrder), CriticalityLevel)
    ensures r.vendorTypes == VendorTypes
    ensures forall v :: v in r.vendorTypes <==> ValidateVendorType(v).Some?
    ensures r.hostingModels == HostingModels && r.dataHostingRegions == DataHostingRegions
  {
    VendorTypesMatchValidator();
    LookupsResponse(MapSeq(ActiveInOrder(categories, IsActiveCategory, CategoryOrder), CategoryResponse),
                    MapSeq(ActiveInOrder(statuses, IsActiveStatus, StatusOrder), StatusResponse),
                    MapSeq(ActiveInOrder(criticalities, IsActiveCriticality, CriticalityOrder), CriticalityLevel),
                    LookupVendorTypes, HostingModels, DataHostingRegions)
  }

  /**
   * Every active row of each lookup table is published, only active ones
   * are, and they come in `sort_order`.
   */
  lemma LookupsActiveInOrder(categories: seq<SystemCategory>, statuses: seq<ValidationStatus>,
                             criticalities: seq<Criticality>)
    ensures var rows := ActiveInOrder(categories, IsActiveCategory, CategoryOrder);
            && |rows| == |Filter(categories, IsActiveCategory)|
            && (forall c :: c in rows <==> c in categories && c.isActive)
            && (forall i, j :: 0 <= i < j < |rows| ==> rows[i].sortOrder <= rows[j].sortOrder)
    ensures var rows := ActiveInOrder(statuses, IsActiveStatus, StatusOrder);
            && |rows| == |Filter(statuses, IsActiveStatus)|
            && (forall s :: s in rows <==> s in statuses && s.isActive)
            && (forall i, j :: 0 <= i < j < |rows| ==> rows[i].sortOrder <= rows[j].sortOrder)
    ensures var rows := ActiveInOrder(criticalities, IsActiveCriticality, CriticalityOrder);
            && |rows| == |Filter(criticalities, IsActiveCriticality)|
            && (forall c :: c in rows <==> c in criticalities && c.isActive)
            && (forall i, j :: 0 <= i < j < |rows| ==> rows[i].sortOrder <= rows[j].sortOrder)
  {
    SortOrdersTotal();
    var cats := ActiveInOrder(categories, IsActiveCategory, CategoryOrder);
    assert |cats| == |multiset(cats)|;
    var stats := ActiveInOrder(statuses, IsActiveStatus, StatusOrder);
    assert |stats| == |multiset(stats)|;
    var crits := ActiveInOrder(criticalities, IsActiveCriticality, CriticalityOrder);
    assert |crits| == |multiset(crits)|;
  }
}
