/** The raw customer record read from one JSON document, and the rows of
    the four target tables of the enterprise data model. Only the fields
    the mapping reads are kept; every field is text. */
module Records {

  /** One entry of the record's `sources` list. */
  datatype SourceEntry = SourceEntry(regDate: string, sourceCategory: string, sourceTitle: string)

  /** One entry of the record's `behaviour` list (`type` and `value`). */
  datatype BehaviourEntry = BehaviourEntry(kind: string, value: string)

  /** One customer profile; `emailHash` is `hashed_information.email_hash`. */
  datatype RawRecord = RawRecord(
    emailHash: string,
    email: string,
    name: string,
    surname: string,
    gender: string,
    birthDate: string,
    mobilePhoneFb: string,
    address: string,
    district: string,
    zipcode: string,
    city: string,
    state: string,
    country: string,
    mediaConsent: string,
    updateDate: string,
    sources: seq<SourceEntry>,
    behaviour: seq<BehaviourEntry>)

  datatype ConsumerRow = ConsumerRow(
    consumerKey: string,
    deletionFlag: bool,
    emailAddress: string,
    salutation: string,
    firstName: string,
    middleName: string,
    lastName: string,
    suffix: string,
    gender: string,
    birthdate: string,
    nationality: string,
    phoneNumber: string,
    addressLine1: string,
    addressLine2: string,
    postalCode: string,
    city: string,
    regionKey: string,
    countryIso2: string)

  datatype ConsentEventRow = ConsentEventRow(
    consumerKey: string,
    consentEventKey: string,
    dataCollectionType: string,
    consentSubLevel: string,
    opCo: string,
    legalText: string,
    consentDate: string,
    dataUsePurpose: string,
    consentStatus: string,
    dataUseChannel: string)

  datatype OnlineEngagementRow = OnlineEngagementRow(
    onlineEngagementType: string,
    platformName: string,
    url: string,
    referringUrl: string,
    pageName: string,
    operatingSystem: string,
    consumerKey: string,
    campaignKey: string,
    onlineEngagementDate: string,
    engagementChannel: string,
    assetKey: string,
    brandKey: string,
    productKey: string,
    onlineEngagementKey: string)

  datatype AffinityRow = AffinityRow(
    consumerKey: string,
    affinityKey: string,
    affinityCategory: string,
    affinitySubcategory: string,
    affinityValue: string,
    affinityType: string,
    affinityScore: string,
    affinityLastModifiedDate: string)

  // Business constants of the mapping.

  /** The operating company fed to the consent key ... */
  const KeyOpCo: string := "BR001"
  /** ... differs from the one written to the OpCo column. */
  const OpCoColumn: string := "BR001OC"
  const DataCollectionType: string := "First Party"
  const DataUsePurpose: string := "Marketing"
  const DataUseChannel: string := "Omnichannel"

  const UnknownUrl: string := "www.unknown.com"
  const EngagementChannel: string := "Online"

  /** The only behaviour type that yields an affinity row. */
  const BrandInterestType: string := "brand_interest"
  const AffinityCategory: string := "ALCOHOLIC_BEER"
  const AffinityType: string := "declared"
  const AffinityScore: string := "10"
}
