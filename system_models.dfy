/**
 * The system-instance request models: the field constraints of a validated
 * `SystemCreate` and the fields a `SystemUpdate` can touch.
 */
module SystemModels {
  import opened Wrappers
  import opened Values
  import opened DbModels

  /** The `instance_environment` a create request defaults to. */
  const DefaultEnvironment: string := "PRODUCTION"

  /** The request default and the column default agree. */
  lemma EnvironmentDefaultsAgree()
    ensures DefaultEnvironment == DefaultInstanceEnvironment
  {
  }

  /** `^[a-zA-Z0-9_\-]+$` character by character. */
  predicate InstanceCodeChar(c: char)
  {
    ('a' <= c <= 'z') || ('A' <= c <= 'Z') || ('0' <= c <= '9') || c == '_' || c == '-'
  }

  /** 5 to 100 characters from the pattern's class. */
  predicate ValidInstanceCode(s: string)
  {
    5 <= |s| <= 100 && forall i :: 0 <= i < |s| ==> InstanceCodeChar(s[i])
  }

  datatype SystemCreate = SystemCreate(
    instanceCode: string,
    platformVendorId: Option<Uuid>,
    serviceProviderId: Option<Uuid>,
    categoryCode: string,
    platformName: string,
    platformVersion: Option<string>,
    instanceName: Option<string>,
    instanceEnvironment: string,
    validationStatusCode: string,
    validationDate: Option<Date>,
    validationExpiry: Option<Date>,
    validationEvidenceLink: Option<string>,
    hostingModel: Option<string>,
    dataHostingRegion: Option<string>,
    description: Option<string>,
    supportedStudies: Option<seq<string>>,
    interfaces: Option<seq<Interface>>,
    part11Compliant: Option<bool>,
    annex11Compliant: Option<bool>,
    soc2Certified: Option<bool>,
    iso27001Certified: Option<bool>,
    lastMajorChangeDate: Option<Date>,
    lastMajorChangeDesc: Option<string>,
    nextPlannedChangeDate: Option<Date>,
    nextPlannedChangeDesc: Option<string>)
  {
    /** What a request body must satisfy to reach the service. */
    predicate Valid()
    {
      && ValidInstanceCode(instanceCode)
      && 1 <= |platformName| <= 200
      && AtMost(platformVersion, 50)
      && AtMost(instanceName, 200)
      && AtMost(validationEvidenceLink, 500)
      && AtMost(lastMajorChangeDesc, 500)
      && AtMost(nextPlannedChangeDesc, 500)
    }
  }

  /**
   * A system update as dumped with `exclude_unset`. It has no
   * `instance_code`, so no update can change a system's code; `is_active`
   * can be written only through it.
   */
  datatype SystemUpdate = SystemUpdate(
    platformVendorId: Patch<Uuid>,
    serviceProviderId: Patch<Uuid>,
    categoryCode: Patch<string>,
    platformName: Patch<string>,
    platformVersion: Patch<string>,
    instanceName: Patch<string>,
    instanceEnvironment: Patch<string>,
    validationStatusCode: Patch<string>,
    validationDate: Patch<Date>,
    validationExpiry: Patch<Date>,
    validationEvidenceLink: Patch<string>,
    hostingModel: Patch<string>,
    dataHostingRegion: Patch<string>,
    description: Patch<string>,
    supportedStudies: Patch<seq<string>>,
    interfaces: Patch<seq<Interface>>,
    part11Compliant: Patch<bool>,
    annex11Compliant: Patch<bool>,
    soc2Certified: Patch<bool>,
    iso27001Certified: Patch<bool>,
    lastMajorChangeDate: Patch<Date>,
    lastMajorChangeDesc: Patch<string>,
    nextPlannedChangeDate: Patch<Date>,
    nextPlannedChangeDesc: Patch<string>,
    isActive: Patch<bool>)
  {
    /** Every field may be sent as null; a sent value must satisfy its constraint. */
    predicate Valid()
    {
      && (platformName.SetTo? ==> 1 <= |platformName.value| <= 200)
      && PatchAtMost(platformVersion, 50)
      && PatchAtMost(instanceName, 200)
      && PatchAtMost(validationEvidenceLink, 500)
      && PatchAtMost(lastMajorChangeDesc, 500)
      && PatchAtMost(nextPlannedChangeDesc, 500)
    }

    /** The payload writes null into a column declared NOT NULL. */
    predicate NullsRequiredColumn()
    {
      categoryCode.SetNull? || platformName.SetNull? || instanceEnvironment.SetNull?
      || validationStatusCode.SetNull? || isActive.SetNull?
    }

    /** The dumped payload is the empty dictionary. */
    predicate IsEmpty()
    {
      && !platformVendorId.IsSet() && !serviceProviderId.IsSet() && !categoryCode.IsSet()
      && !platformName.IsSet() && !platformVersion.IsSet() && !instanceName.IsSet()
      && !instanceEnvironment.IsSet() && !validationStatusCode.IsSet() && !validationDate.IsSet()
      && !validationExpiry.IsSet() && !validationEvidenceLink.IsSet() && !hostingModel.IsSet()
      && !dataHostingRegion.IsSet() && !description.IsSet() && !supportedStudies.IsSet()
      && !interfaces.IsSet() && !part11Compliant.IsSet() && !annex11Compliant.IsSet()
      && !soc2Certified.IsSet() && !iso27001Certified.IsSet() && !lastMajorChangeDate.IsSet()
      && !lastMajorChangeDesc.IsSet() && !nextPlannedChangeDate.IsSet() && !nextPlannedChangeDesc.IsSet()
      && !isActive.IsSet()
    }
  }
}
