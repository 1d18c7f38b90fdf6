/** The per-record mapping: one raw customer record becomes one Consumer
    row, one Consent Event row, one Online Engagement row per source and
    one Affinity row per brand-interest behaviour. */
module Mapping {
  import opened Wrappers
  import opened Text
  import opened Timestamp
  import opened Normalize
  import opened Keys
  import opened Records
  import opened Traversal

  /** `datetime.strptime` raising `ValueError`; carries the offending text. */
  datatype MappingError = MalformedDate(raw: string)

  /** The rows one record contributes to the four tables. */
  datatype RecordRows = RecordRows(
    consumer: ConsumerRow,
    consent: ConsentEventRow,
    engagements: seq<OnlineEngagementRow>,
    affinities: seq<AffinityRow>)

  // ------------------------------------------------------ date failures

  /** The first text in `dates` that does not parse, in order. */
  function FirstMalformed(dates: seq<string>): Option<string> {
    if |dates| == 0 then None
    else if Parse(dates[0]).None? then Some(dates[0])
    else FirstMalformed(dates[1..])
  }

  /** The text found does not parse, and none is found exactly when every
      text parses. */
  lemma {:induction false} FirstMalformedSpec(dates: seq<string>)
    ensures var r := FirstMalformed(dates);
      && (r.None? <==> forall i :: 0 <= i < |dates| ==> Parse(dates[i]).Some?)
      && (r.Some? ==> r.value in dates && Parse(r.value).None?)
    decreases |dates|
  {
    if |dates| > 0 && Parse(dates[0]).Some? {
      FirstMalformedSpec(dates[1..]);
      assert forall i :: 1 <= i < |dates| ==> dates[i] == dates[1..][i - 1];
    }
  }

  /** The first failure of a concatenation is in its first part, if there
      is one there. */
  lemma {:induction false} FirstMalformedAppend(a: seq<string>, b: seq<string>)
    ensures FirstMalformed(a + b)
      == if FirstMalformed(a).Some? then FirstMalformed(a) else FirstMalformed(b)
  {
    if |a| > 0 {
      assert (a + b)[0] == a[0];
      assert (a + b)[1..] == a[1..] + b;
      FirstMalformedAppend(a[1..], b);
    } else {
      assert a + b == b;
    }
  }

  /** The registration dates of the sources, in order. */
  function RegDates(sources: seq<SourceEntry>): (r: seq<string>)
    ensures |r| == |sources|
    ensures forall i :: 0 <= i < |sources| ==> r[i] == sources[i].regDate
  {
    seq(|sources|, i requires 0 <= i < |sources| => sources[i].regDate)
  }

  lemma RegDatesAppend(a: seq<SourceEntry>, b: seq<SourceEntry>)
    ensures RegDates(a + b) == RegDates(a) + RegDates(b)
  {
  }

  /** Every date a record's mapping parses, in the order it parses them. */
  function RecordDates(e: RawRecord): seq<string> {
    [e.updateDate] + RegDates(e.sources)
  }

  /** A date field read with strptime; failure names the text. */
  function ParseDate(raw: string): (r: Result<DateTime, MappingError>)
    ensures r.Success? ==> Parse(raw) == Some(r.value)
    ensures r.Failure? ==> Parse(raw).None? && r.error == MalformedDate(raw)
  {
    match Parse(raw)
    case Some(t) => Success(t)
    case None => Failure(MalformedDate(raw))
  }

  // ------------------------------------------------------ row contracts

  /** What the Consent Event row of record `e` holds, stated from the raw
      record: the consent date is the update date respelled, the status
      is the consent label, and the key hashes the row's own consumer key,
      date, status and sub-level together with the opco "BR001", which is
      not the "BR001OC" of the OpCo column. */
  predicate ConsentSpec(hash: Hasher, e: RawRecord, row: ConsentEventRow) {
    && IsInputShape(e.updateDate)
    && row.consumerKey == e.emailHash
    && row.consentDate == Respelled(e.updateDate)
    && (row.consentStatus == OptIn <==> e.mediaConsent == ConsentTrue)
    && (row.consentStatus == OptIn || row.consentStatus == OptOut)
    && row.consentEventKey
       == ConsentEventKey(hash, row.consumerKey, row.consentDate, row.consentStatus, KeyOpCo, row.consentSubLevel)
    && row.consentSubLevel == ""
    && row.opCo == OpCoColumn
    && row.legalText == ""
    && row.dataCollectionType == DataCollectionType
    && row.dataUsePurpose == DataUsePurpose
    && row.dataUseChannel == DataUseChannel
  }

  /** What the Online Engagement row of source `src` holds: the campaign
      is the registration year as Python's `str` writes it, an underscore
      and the source title; the date is the registration date respelled;
      the key hashes the row's consumer key, date and placeholder URL. */
  predicate EngagementSpec(hash: Hasher, consumerKey: string, src: SourceEntry, row: OnlineEngagementRow) {
    && IsInputShape(src.regDate)
    && row.consumerKey == consumerKey
    && row.onlineEngagementType == src.sourceCategory
    && row.pageName == src.sourceTitle
    && row.url == UnknownUrl
    && row.campaignKey == Decimal(Value(src.regDate[0..4])) + "_" + src.sourceTitle
    && row.onlineEngagementDate == Respelled(src.regDate)
    && row.onlineEngagementKey
       == OnlineEngagementKey(hash, row.consumerKey, row.onlineEngagementDate, row.url)
    && row.platformName == "" && row.referringUrl == "" && row.operatingSystem == ""
    && row.engagementChannel == EngagementChannel
    && row.assetKey == "" && row.brandKey == "" && row.productKey == ""
  }

  predicate IsBrandInterest(b: BehaviourEntry) {
    b.kind == BrandInterestType
  }

  /** What the Affinity row of behaviour `b` holds: subcategory and value
      are the upper-cased behaviour value, and the key hashes the row's
      consumer key, category and subcategory. */
  predicate AffinitySpec(hash: Hasher, consumerKey: string, b: BehaviourEntry, row: AffinityRow) {
    && IsBrandInterest(b)
    && row.consumerKey == consumerKey
    && row.affinityCategory == AffinityCategory
    && row.affinitySubcategory == Upper(b.value)
    && row.affinityValue == Upper(b.value)
    && row.affinityKey
       == AffinityKey(hash, row.consumerKey, row.affinityCategory, row.affinitySubcategory)
    && row.affinityType == AffinityType
    && row.affinityScore == AffinityScore
    && row.affinityLastModifiedDate == ""
  }

  // ------------------------------------------------------ row builders

  /** The Consumer row: fields copied, country normalised, the columns
      the record has no data for left empty. */
  function ConsumerRowOf(e: RawRecord): (r: ConsumerRow)
    ensures r.consumerKey == e.emailHash && !r.deletionFlag
    ensures r.countryIso2 == BrazilCode
            <==> SpellsIgnoringCase(e.country, "brasil") || SpellsIgnoringCase(e.country, "brazil")
    ensures r.countryIso2 != BrazilCode ==> r.countryIso2 == ""
    ensures r.salutation == "" && r.middleName == "" && r.suffix == "" && r.nationality == ""
    ensures && r.emailAddress == e.email && r.firstName == e.name && r.lastName == e.surname
            && r.gender == e.gender && r.birthdate == e.birthDate && r.phoneNumber == e.mobilePhoneFb
    ensures && r.addressLine1 == e.address && r.addressLine2 == e.district
            && r.postalCode == e.zipcode && r.city == e.city && r.regionKey == e.state
  {
    ConsumerRow(
      consumerKey := e.emailHash,
      deletionFlag := false,
      emailAddress := e.email,
      salutation := "",
      firstName := e.name,
      middleName := "",
      lastName := e.surname,
      suffix := "",
      gender := e.gender,
      birthdate := e.birthDate,
      nationality := "",
      phoneNumber := e.mobilePhoneFb,
      addressLine1 := e.address,
      addressLine2 := e.district,
      postalCode := e.zipcode,
      city := e.city,
      regionKey := e.state,
      countryIso2 := CountryCode(e.country))
  }

  function ConsentRowOf(hash: Hasher, e: RawRecord, updated: DateTime): (r: ConsentEventRow)
    requires Parse(e.updateDate) == Some(updated)
    ensures ConsentSpec(hash, e, r)
  {
    CanonicalOfParse(e.updateDate, updated);
    var consentDate := Canonical(updated);
    var status := ConsentStatus(e.mediaConsent);
    ConsentEventRow(
      consumerKey := e.emailHash,
      consentEventKey := ConsentEventKey(hash, e.emailHash, consentDate, status, KeyOpCo, ""),
      dataCollectionType := DataCollectionType,
      consentSubLevel := "",
      opCo := OpCoColumn,
      legalText := "",
      consentDate := consentDate,
      dataUsePurpose := DataUsePurpose,
      consentStatus := status,
      dataUseChannel := DataUseChannel)
  }

  function EngagementRowOf(hash: Hasher, consumerKey: string, src: SourceEntry, reg: DateTime): (r: OnlineEngagementRow)
    requires Parse(src.regDate) == Some(reg)
    ensures EngagementSpec(hash, consumerKey, src, r)
  {
    CanonicalOfParse(src.regDate, reg);
    var date := Canonical(reg);
    OnlineEngagementRow(
      onlineEngagementType := src.sourceCategory,
      platformName := "",
      url := UnknownUrl,
      referringUrl := "",
      pageName := src.sourceTitle,
      operatingSystem := "",
      consumerKey := consumerKey,
      campaignKey := Decimal(reg.year) + "_" + src.sourceTitle,
      onlineEngagementDate := date,
      engagementChannel := EngagementChannel,
      assetKey := "",
      brandKey := "",
      productKey := "",
      onlineEngagementKey := OnlineEngagementKey(hash, consumerKey, date, UnknownUrl))
  }

  function AffinityRowOf(hash: Hasher, consumerKey: string, b: BehaviourEntry): (r: AffinityRow)
    requires IsBrandInterest(b)
    ensures AffinitySpec(hash, consumerKey, b, r)
  {
    var sub := Upper(b.value);
    AffinityRow(
      consumerKey := consumerKey,
      affinityKey := AffinityKey(hash, consumerKey, AffinityCategory, sub),
      affinityCategory := AffinityCategory,
      affinitySubcategory := sub,
      affinityValue := sub,
      affinityType := AffinityType,
      affinityScore := AffinityScore,
      affinityLastModifiedDate := "")
  }

  // ------------------------------------------------------------ fan-out

  /** The brand-interest behaviours, in their original order. */
  function BrandInterests(bs: seq<BehaviourEntry>): (r: seq<BehaviourEntry>)
    ensures |r| <= |bs|
    ensures forall i :: 0 <= i < |r| ==> IsBrandInterest(r[i])
    ensures forall b :: b in r ==> b in bs
    ensures r == [] <==> forall i :: 0 <= i < |bs| ==> !IsBrandInterest(bs[i])
  {
    if |bs| == 0 then []
    else (if IsBrandInterest(bs[0]) then [bs[0]] else []) + BrandInterests(bs[1..])
  }

  /** Filtering distributes over concatenation: it keeps order and judges
      each entry on its own. */
  lemma {:induction false} BrandInterestsAppend(a: seq<BehaviourEntry>, b: seq<BehaviourEntry>)
    ensures BrandInterests(a + b) == BrandInterests(a) + BrandInterests(b)
  {
    if |a| > 0 {
      assert (a + b)[0] == a[0];
      assert (a + b)[1..] == a[1..] + b;
      BrandInterestsAppend(a[1..], b);
    } else {
      assert a + b == b;
    }
  }

  /** One iteration of the loop over a record's sources: the
      registration date is parsed, then the row is built. */
  function EngagementStep(hash: Hasher, consumerKey: string, src: SourceEntry)
    : (r: Result<OnlineEngagementRow, MappingError>)
    ensures r.Failure? <==> Parse(src.regDate).None?
    ensures r.Failure? ==> r.error == MalformedDate(src.regDate)
    ensures r.Success? ==> EngagementSpec(hash, consumerKey, src, r.value)
  {
    var reg :- ParseDate(src.regDate);
    Success(EngagementRowOf(hash, consumerKey, src, reg))
  }

  function SourceStep(hash: Hasher, consumerKey: string): SourceEntry -> Result<OnlineEngagementRow, MappingError> {
    src => EngagementStep(hash, consumerKey, src)
  }

  /** Online Engagement rows of one record, built source by source: the
      run fails exactly when a registration date does not parse, and
      then with the first such date. */
  function MapSources(hash: Hasher, consumerKey: string, sources: seq<SourceEntry>)
    : (r: Result<seq<OnlineEngagementRow>, MappingError>)
    ensures r.Failure? <==> FirstMalformed(RegDates(sources)).Some?
    ensures r.Failure? ==> r.error == MalformedDate(FirstMalformed(RegDates(sources)).value)
    ensures r.Success? ==> |r.value| == |sources|
  {
    SourcesOutcome(hash, consumerKey, sources);
    Traverse(SourceStep(hash, consumerKey), sources)
  }

  /** The first malformed registration date of a prefix extended by one source. */
  lemma FirstMalformedRegDatesLast(front: seq<SourceEntry>, last: SourceEntry)
    ensures FirstMalformed(RegDates(front + [last]))
      == if FirstMalformed(RegDates(front)).Some? then FirstMalformed(RegDates(front))
         else if Parse(last.regDate).None? then Some(last.regDate)
         else None
  {
    RegDatesAppend(front, [last]);
    assert RegDates([last]) == [last.regDate];
    FirstMalformedAppend(RegDates(front), [last.regDate]);
    assert FirstMalformed([last.regDate]) == if Parse(last.regDate).None? then Some(last.regDate) else None;
  }

  /** The loop over the sources fails exactly when one of their dates
      does not parse, and then with the first such date. */
  lemma {:induction false} SourcesOutcome(hash: Hasher, consumerKey: string, sources: seq<SourceEntry>)
    ensures var r := Traverse(SourceStep(hash, consumerKey), sources);
      && (r.Failure? <==> FirstMalformed(RegDates(sources)).Some?)
      && (r.Failure? ==> r.error == MalformedDate(FirstMalformed(RegDates(sources)).value))
    decreases |sources|
  {
    if |sources| > 0 {
      var step := SourceStep(hash, consumerKey);
      var front := sources[..|sources| - 1];
      var last := sources[|sources| - 1];
      assert sources == front + [last];
      FirstMalformedRegDatesLast(front, last);
      TraverseLast(step, sources);
      assert step(last) == EngagementStep(hash, consumerKey, last);
      SourcesOutcome(hash, consumerKey, front);
    }
  }

  /** One row per source, in source order, each as `EngagementSpec` says. */
  lemma MapSourcesRows(hash: Hasher, consumerKey: string, sources: seq<SourceEntry>)
    requires MapSources(hash, consumerKey, sources).Success?
    ensures var rows := MapSources(hash, consumerKey, sources).value;
      && |rows| == |sources|
      && forall i :: 0 <= i < |sources| ==> EngagementSpec(hash, consumerKey, sources[i], rows[i])
  {
    var step := SourceStep(hash, consumerKey);
    var rows := MapSources(hash, consumerKey, sources).value;
    forall i | 0 <= i < |sources|
      ensures EngagementSpec(hash, consumerKey, sources[i], rows[i])
    {
      assert step(sources[i]) == EngagementStep(hash, consumerKey, sources[i]);
    }
  }

  /** Affinity rows of one record, behaviour by behaviour; entries of
      any other type are skipped. */
  function MapBehaviours(hash: Hasher, consumerKey: string, bs: seq<BehaviourEntry>): (r: seq<AffinityRow>)
    ensures |r| == |BrandInterests(bs)|
    decreases |bs|
  {
    if |bs| == 0 then []
    else
      var front := bs[..|bs| - 1];
      var last := bs[|bs| - 1];
      assert bs == front + [last];
      BrandInterestsAppend(front, [last]);
      assert [last][1..] == [];
      MapBehaviours(hash, consumerKey, front)
      + (if IsBrandInterest(last) then [AffinityRowOf(hash, consumerKey, last)] else [])
  }

  /** The affinity rows are the brand-interest behaviours, in order, each
      mapped as `AffinitySpec` says; no other behaviour leaves a row. */
  lemma {:induction false} MapBehavioursRows(hash: Hasher, consumerKey: string, bs: seq<BehaviourEntry>)
    ensures var rows := MapBehaviours(hash, consumerKey, bs);
      && |rows| == |BrandInterests(bs)|
      && forall i :: 0 <= i < |rows| ==> AffinitySpec(hash, consumerKey, BrandInterests(bs)[i], rows[i])
    decreases |bs|
  {
    if |bs| > 0 {
      var front := bs[..|bs| - 1];
      var last := bs[|bs| - 1];
      assert bs == front + [last];
      BrandInterestsAppend(front, [last]);
      assert [last][1..] == [];
      MapBehavioursRows(hash, consumerKey, front);
    }
  }

  /** The next behaviour adds a row exactly when it is a brand interest. */
  lemma MapBehavioursStep(hash: Hasher, consumerKey: string, bs: seq<BehaviourEntry>, k: nat)
    requires k < |bs|
    ensures MapBehaviours(hash, consumerKey, bs[..k + 1])
      == MapBehaviours(hash, consumerKey, bs[..k])
         + (if IsBrandInterest(bs[k]) then [AffinityRowOf(hash, consumerKey, bs[k])] else [])
  {
    assert bs[..k + 1][..k] == bs[..k];
  }

  /** What a successful mapping of record `e` produces. */
  predicate RecordSpec(hash: Hasher, e: RawRecord, rows: RecordRows) {
    && rows.consumer == ConsumerRowOf(e)
    && ConsentSpec(hash, e, rows.consent)
    && |rows.engagements| == |e.sources|
    && (forall i :: 0 <= i < |e.sources| ==>
          EngagementSpec(hash, e.emailHash, e.sources[i], rows.engagements[i]))
    && |rows.affinities| == |BrandInterests(e.behaviour)|
    && (forall i :: 0 <= i < |rows.affinities| ==>
          AffinitySpec(hash, e.emailHash, BrandInterests(e.behaviour)[i], rows.affinities[i]))
  }

  /** One iteration of the mapping loop: the record's update date, then
      its sources' registration dates, are parsed in that order and the
      first that fails aborts; otherwise the record yields its rows. */
  function MapRecord(hash: Hasher, e: RawRecord): (r: Result<RecordRows, MappingError>)
    ensures r.Failure? <==> FirstMalformed(RecordDates(e)).Some?
    ensures r.Failure? ==> r.error == MalformedDate(FirstMalformed(RecordDates(e)).value)
  {
    FirstMalformedAppend([e.updateDate], RegDates(e.sources));
    var updated :- ParseDate(e.updateDate);
    var engagements :- MapSources(hash, e.emailHash, e.sources);
    Success(RecordRows(
      ConsumerRowOf(e),
      ConsentRowOf(hash, e, updated),
      engagements,
      MapBehaviours(hash, e.emailHash, e.behaviour)))
  }

  /** A record that maps yields exactly the rows `RecordSpec` describes. */
  lemma MapRecordRows(hash: Hasher, e: RawRecord)
    requires MapRecord(hash, e).Success?
    ensures RecordSpec(hash, e, MapRecord(hash, e).value)
  {
    MapSourcesRows(hash, e.emailHash, e.sources);
    MapBehavioursRows(hash, e.emailHash, e.behaviour);
  }

  /** An Online Engagement row's campaign key and date are those of the
      source's parsed registration date. */
  lemma EngagementOfParse(hash: Hasher, consumerKey: string, src: SourceEntry, row: OnlineEngagementRow, reg: DateTime)
    requires EngagementSpec(hash, consumerKey, src, row)
    requires Parse(src.regDate) == Some(reg)
    ensures row.campaignKey == Decimal(reg.year) + "_" + src.sourceTitle
    ensures row.onlineEngagementDate == Canonical(reg)
  {
    CanonicalOfParse(src.regDate, reg);
  }

  /** Each engagement row `RecordSpec` allows comes from one of the
      record's sources. */
  lemma SpecEngagementProvenance(hash: Hasher, e: RawRecord, rows: RecordRows)
    requires RecordSpec(hash, e, rows)
    ensures forall row :: row in rows.engagements ==>
      exists j :: 0 <= j < |e.sources| && EngagementSpec(hash, e.emailHash, e.sources[j], row)
  {
    forall row | row in rows.engagements
      ensures exists j :: 0 <= j < |e.sources| && EngagementSpec(hash, e.emailHash, e.sources[j], row)
    {
      var j :| 0 <= j < |rows.engagements| && rows.engagements[j] == row;
      assert EngagementSpec(hash, e.emailHash, e.sources[j], row);
    }
  }

  /** Each affinity row `RecordSpec` allows comes from one of the
      record's brand-interest behaviours. */
  lemma SpecAffinityProvenance(hash: Hasher, e: RawRecord, rows: RecordRows)
    requires RecordSpec(hash, e, rows)
    ensures forall row :: row in rows.affinities ==>
      exists b :: b in e.behaviour && AffinitySpec(hash, e.emailHash, b, row)
  {
    forall row | row in rows.affinities
      ensures exists b :: b in e.behaviour && AffinitySpec(hash, e.emailHash, b, row)
    {
      var j :| 0 <= j < |rows.affinities| && rows.affinities[j] == row;
      var b := BrandInterests(e.behaviour)[j];
      assert b in e.behaviour;
      assert AffinitySpec(hash, e.emailHash, b, row);
    }
  }

  /** Each Online Engagement row of a record comes from one of its sources. */
  lemma RecordEngagementProvenance(hash: Hasher, e: RawRecord, row: OnlineEngagementRow)
    requires MapRecord(hash, e).Success?
    requires row in MapRecord(hash, e).value.engagements
    ensures exists j :: 0 <= j < |e.sources| && EngagementSpec(hash, e.emailHash, e.sources[j], row)
  {
    MapRecordRows(hash, e);
    SpecEngagementProvenance(hash, e, MapRecord(hash, e).value);
  }

  /** Each Affinity row of a record comes from one of its brand-interest
      behaviours. */
  lemma RecordAffinityProvenance(hash: Hasher, e: RawRecord, row: AffinityRow)
    requires MapRecord(hash, e).Success?
    requires row in MapRecord(hash, e).value.affinities
    ensures exists b :: b in e.behaviour && AffinitySpec(hash, e.emailHash, b, row)
  {
    MapRecordRows(hash, e);
    SpecAffinityProvenance(hash, e, MapRecord(hash, e).value);
  }

  // ------------------------------------------- steps of the mapping loop

  /** A source whose date does not parse, after a successful prefix,
      makes all of the sources fail with its date. */
  lemma MapSourcesAbortsAt(hash: Hasher, consumerKey: string, sources: seq<SourceEntry>, j: nat)
    requires j < |sources|
    requires MapSources(hash, consumerKey, sources[..j]).Success?
    requires Parse(sources[j].regDate).None?
    ensures MapSources(hash, consumerKey, sources) == Failure(MalformedDate(sources[j].regDate))
  {
    var step := SourceStep(hash, consumerKey);
    assert step(sources[j]) == EngagementStep(hash, consumerKey, sources[j]);
    TraverseAbortsAt(step, sources, j);
  }

  lemma MapRecordFailsOnUpdateDate(hash: Hasher, e: RawRecord)
    requires Parse(e.updateDate).None?
    ensures MapRecord(hash, e) == Failure(MalformedDate(e.updateDate))
  {
  }

  lemma MapRecordFailsOnSources(hash: Hasher, e: RawRecord)
    requires Parse(e.updateDate).Some?
    requires MapSources(hash, e.emailHash, e.sources).Failure?
    ensures MapRecord(hash, e) == Failure(MapSources(hash, e.emailHash, e.sources).error)
  {
  }

  lemma MapRecordSucceeds(hash: Hasher, e: RawRecord, updated: DateTime)
    requires Parse(e.updateDate) == Some(updated)
    requires MapSources(hash, e.emailHash, e.sources).Success?
    ensures MapRecord(hash, e) == Success(RecordRows(
      ConsumerRowOf(e),
      ConsentRowOf(hash, e, updated),
      MapSources(hash, e.emailHash, e.sources).value,
      MapBehaviours(hash, e.emailHash, e.behaviour)))
  {
  }

  /** A record that maps has its sources' rows and its behaviours' rows,
      whole and in order, as its engagement and affinity rows. */
  lemma MapRecordParts(hash: Hasher, e: RawRecord)
    requires MapRecord(hash, e).Success?
    ensures MapSources(hash, e.emailHash, e.sources).Success?
    ensures MapRecord(hash, e).value.engagements == MapSources(hash, e.emailHash, e.sources).value
    ensures MapRecord(hash, e).value.affinities == MapBehaviours(hash, e.emailHash, e.behaviour)
  {
  }

  /** Every row a record yields carries the record's email hash as its
      Consumer_Key, the join key across the four tables. */
  lemma RecordRowsShareConsumerKey(hash: Hasher, e: RawRecord, rows: RecordRows)
    requires RecordSpec(hash, e, rows)
    ensures rows.consumer.consumerKey == e.emailHash
    ensures rows.consent.consumerKey == e.emailHash
    ensures forall row :: row in rows.engagements ==> row.consumerKey == e.emailHash
    ensures forall row :: row in rows.affinities ==> row.consumerKey == e.emailHash
  {
  }

  /** Case variants of one brand yield identical Affinity rows, key
      included: the upper-casing merges them. */
  lemma AffinityMergesCaseVariants(hash: Hasher, consumerKey: string, b1: BehaviourEntry, b2: BehaviourEntry)
    requires IsBrandInterest(b1) && IsBrandInterest(b2)
    requires Upper(b1.value) == Upper(b2.value)
    ensures AffinityRowOf(hash, consumerKey, b1) == AffinityRowOf(hash, consumerKey, b2)
  {
  }
}
