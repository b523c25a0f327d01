/**
 * The vendor request models: the field constraints a validated
 * `VendorCreate`/`VendorUpdate` satisfies, and the `vendor_type` validator.
 */
module VendorModels {
  import opened Wrappers
  import opened DbModels

  /** The list written out in both `validate_vendor_type` validators. */
  const ValidVendorTypes: seq<string> := [
    "CRO", "FSP", "TECH_VENDOR", "CENTRAL_LAB", "IMAGING",
    "ECG_VENDOR", "BIOANALYTICAL", "LOGISTICS", "SPECIALTY", "INTERNAL"]

  /** The validator's list is the database check's list. */
  lemma ValidatorMatchesCheck()
    ensures ValidVendorTypes == VendorTypes
  {
  }

  /** `^[A-Z0-9_]+$` character by character. */
  predicate VendorCodeChar(c: char)
  {
    ('A' <= c <= 'Z') || ('0' <= c <= '9') || c == '_'
  }

  /** 2 to 50 characters, each an upper-case letter, a digit or `_`. */
  predicate ValidVendorCode(s: string)
  {
    2 <= |s| <= 50 && forall i :: 0 <= i < |s| ==> VendorCodeChar(s[i])
  }

  predicate ValidVendorName(s: string)
  {
    1 <= |s| <= 200
  }

  predicate ValidContact(s: string)
  {
    |s| <= 200
  }

  /** `VendorCreate.validate_vendor_type`: the value itself, or None for the ValueError. */
  function ValidateVendorType(v: string): (r: Option<string>)
    ensures r.Some? <==> v in ValidVendorTypes
    ensures r.Some? ==> r.value == v
  {
    if v in ValidVendorTypes then Some(v) else None
  }

  /**
   * `VendorUpdate.validate_vendor_type`: None passes unchanged, any other
   * value must be listed. The outer None stands for the ValueError.
   */
  function ValidateOptionalVendorType(v: Option<string>): (r: Option<Option<string>>)
    ensures r.Some? <==> (v.None? || v.value in ValidVendorTypes)
    ensures r.Some? ==> r.value == v
  {
    match v
    case None => Some(None)
    case Some(t) => if ValidateVendorType(t).Some? then Some(v) else None
  }

  datatype VendorCreate = VendorCreate(
    vendorCode: string,
    vendorName: string,
    vendorType: string,
    contactName: Option<string>,
    contactEmail: Option<string>)
  {
    /** What a request body must satisfy to reach the service. */
    predicate Valid()
    {
      && ValidVendorCode(vendorCode)
      && ValidVendorName(vendorName)
      && ValidateVendorType(vendorType).Some?
      && (contactName.Some? ==> ValidContact(contactName.value))
      && (contactEmail.Some? ==> ValidContact(contactEmail.value))
    }
  }

  /**
   * A vendor update as dumped with `exclude_unset`; it has no `vendor_code`
   * field, so no update can change a vendor's code.
   */
  datatype VendorUpdate = VendorUpdate(
    vendorName: Patch<string>,
    vendorType: Patch<string>,
    contactName: Patch<string>,
    contactEmail: Patch<string>,
    isActive: Patch<bool>)
  {
    /** Every field may be sent as null; a sent value must satisfy its constraint. */
    predicate Valid()
    {
      && (vendorName.SetTo? ==> ValidVendorName(vendorName.value))
      && (vendorType.SetTo? ==> ValidateVendorType(vendorType.value).Some?)
      && (contactName.SetTo? ==> ValidContact(contactName.value))
      && (contactEmail.SetTo? ==> ValidContact(contactEmail.value))
    }

    /** The dumped payload is the empty dictionary. */
    predicate IsEmpty()
    {
      !vendorName.IsSet() && !vendorType.IsSet() && !contactName.IsSet()
      && !contactEmail.IsSet() && !isActive.IsSet()
    }
  }
}
