/** A worked example checked against the model: one record with one
    source and one brand-interest behaviour. */
module Example {
  import opened Wrappers
  import opened Text
  import opened Timestamp
  import opened Keys
  import opened Records
  import opened Mapping
  import opened Batch

  const RegTime: DateTime := DateTime(2022, 1, 5, 10, 0, 0, 0)
  const UpdateTime: DateTime := DateTime(2022, 3, 10, 8, 15, 30, 250000)

  const ExampleSource: SourceEntry := SourceEntry("2022-01-05 10:00:00.000000", "web", "Promo")
  const ExampleInterest: BehaviourEntry := BehaviourEntry("brand_interest", "lager")
  const ExampleRecord: RawRecord := RawRecord(
    "abc123", "a@b.com", "Ana", "Silva", "F", "1990-01-01",
    "5511999999999", "Rua A 1", "Centro", "01000-000", "Sao Paulo", "SP",
    "Brasil", "True", "2022-03-10 08:15:30.250000", [ExampleSource], [ExampleInterest])

  lemma TwoDigits(n: nat)
    ensures Digits(n, 2) == [DigitChar(n / 10 % 10), DigitChar(n % 10)]
  {
    DigitsLastTwo(n, 2);
  }

  lemma YearDigits()
    ensures Digits(2022, 4) == "2022"
  {
    DigitsLastTwo(2022, 4);
    assert 2022 / 10 / 10 == 20 && 2022 / 10 % 10 == 2 && 2022 % 10 == 2;
    assert Digits(20, 2) == "20" by { TwoDigits(20); }
  }

  lemma YearDecimal()
    ensures Decimal(2022) == "2022"
  {
    YearDigits();
    assert Pow10(4) == 10000;
    ValueOfDigits(2022, 4);
    DecimalOfValue("2022");
  }

  lemma MicroDigits()
    ensures Digits(250000, 6) == "250000" && Digits(0, 6) == "000000"
  {
    DigitsLastTwo(250000, 6);
    assert 250000 / 10 / 10 == 2500 && 250000 / 10 % 10 == 0 && 250000 % 10 == 0;
    DigitsLastTwo(2500, 4);
    assert 2500 / 10 / 10 == 25;
    assert Digits(25, 2) == "25" by { TwoDigits(25); }
    DigitsLastTwo(0, 6);
    DigitsLastTwo(0, 4);
    assert Digits(0, 2) == "00" by { TwoDigits(0); }
  }

  /** An input-format rendering, given the spelling of each field. */
  lemma InputFormOfFields(t: DateTime, y: string, mo: string, d: string, h: string, mi: string, se: string, mu: string)
    requires Digits(t.year, 4) == y && Digits(t.month, 2) == mo && Digits(t.day, 2) == d
    requires Digits(t.hour, 2) == h && Digits(t.minute, 2) == mi && Digits(t.second, 2) == se
    requires Digits(t.micro, 6) == mu
    ensures InputForm(t) == (y + "-" + mo + "-" + d) + " " + (h + ":" + mi + ":" + se) + "." + mu
  {
  }

  /** A canonical rendering, given the spelling of each field. */
  lemma CanonicalOfFields(t: DateTime, y: string, mo: string, d: string, h: string, mi: string, se: string)
    requires Digits(t.year, 4) == y && Digits(t.month, 2) == mo && Digits(t.day, 2) == d
    requires Digits(t.hour, 2) == h && Digits(t.minute, 2) == mi && Digits(t.second, 2) == se
    ensures Canonical(t) == (y + "-" + mo + "-" + d) + "T" + (h + ":" + mi + ":" + se)
  {
  }

  lemma RegTimeDigits()
    ensures Digits(2022, 4) == "2022" && Digits(0, 6) == "000000"
    ensures Digits(1, 2) == "01" && Digits(5, 2) == "05" && Digits(10, 2) == "10" && Digits(0, 2) == "00"
  {
    YearDigits();
    MicroDigits();
    assert Digits(1, 2) == "01" by { TwoDigits(1); }
    assert Digits(5, 2) == "05" by { TwoDigits(5); }
    assert Digits(10, 2) == "10" by { TwoDigits(10); }
    assert Digits(0, 2) == "00" by { TwoDigits(0); }
  }

  lemma UpdateTimeDigits()
    ensures Digits(2022, 4) == "2022" && Digits(250000, 6) == "250000"
    ensures Digits(3, 2) == "03" && Digits(10, 2) == "10" && Digits(8, 2) == "08"
    ensures Digits(15, 2) == "15" && Digits(30, 2) == "30"
  {
    YearDigits();
    MicroDigits();
    assert Digits(3, 2) == "03" by { TwoDigits(3); }
    assert Digits(10, 2) == "10" by { TwoDigits(10); }
    assert Digits(8, 2) == "08" by { TwoDigits(8); }
    assert Digits(15, 2) == "15" by { TwoDigits(15); }
    assert Digits(30, 2) == "30" by { TwoDigits(30); }
  }

  lemma RegInputForm()
    ensures InputForm(RegTime) == ExampleSource.regDate
  {
    assert ("2022" + "-" + "01" + "-" + "05") + " " + ("10" + ":" + "00" + ":" + "00") + "." + "000000" == "2022-01-05 10:00:00.000000" by {
      assert "2022" + "-" + "01" + "-" + "05" == "2022-01-05";
      assert "10" + ":" + "00" + ":" + "00" == "10:00:00";
      assert "2022-01-05" + " " + "10:00:00" == "2022-01-05 10:00:00";
      assert "2022-01-05 10:00:00" + "." + "000000" == "2022-01-05 10:00:00.000000";
    }
    RegTimeDigits();
    InputFormOfFields(RegTime, "2022", "01", "05", "10", "00", "00", "000000");
  }

  lemma RegCanonical()
    ensures Canonical(RegTime) == "2022-01-05T10:00:00"
  {
    assert ("2022" + "-" + "01" + "-" + "05") + "T" + ("10" + ":" + "00" + ":" + "00") == "2022-01-05T10:00:00" by {
      assert "2022" + "-" + "01" + "-" + "05" == "2022-01-05";
      assert "10" + ":" + "00" + ":" + "00" == "10:00:00";
      assert "2022-01-05" + "T" + "10:00:00" == "2022-01-05T10:00:00";
    }
    RegTimeDigits();
    CanonicalOfFields(RegTime, "2022", "01", "05", "10", "00", "00");
  }

  lemma UpdateInputForm()
    ensures InputForm(UpdateTime) == ExampleRecord.updateDate
  {
    assert ("2022" + "-" + "03" + "-" + "10") + " " + ("08" + ":" + "15" + ":" + "30") + "." + "250000" == "2022-03-10 08:15:30.250000" by {
      assert "2022" + "-" + "03" + "-" + "10" == "2022-03-10";
      assert "08" + ":" + "15" + ":" + "30" == "08:15:30";
      assert "2022-03-10" + " " + "08:15:30" == "2022-03-10 08:15:30";
      assert "2022-03-10 08:15:30" + "." + "250000" == "2022-03-10 08:15:30.250000";
    }
    UpdateTimeDigits();
    InputFormOfFields(UpdateTime, "2022", "03", "10", "08", "15", "30", "250000");
  }

  lemma UpdateCanonical()
    ensures Canonical(UpdateTime) == "2022-03-10T08:15:30"
  {
    assert ("2022" + "-" + "03" + "-" + "10") + "T" + ("08" + ":" + "15" + ":" + "30") == "2022-03-10T08:15:30" by {
      assert "2022" + "-" + "03" + "-" + "10" == "2022-03-10";
      assert "08" + ":" + "15" + ":" + "30" == "08:15:30";
      assert "2022-03-10" + "T" + "08:15:30" == "2022-03-10T08:15:30";
    }
    UpdateTimeDigits();
    CanonicalOfFields(UpdateTime, "2022", "03", "10", "08", "15", "30");
  }

  lemma RegDateParses()
    ensures Parse(ExampleSource.regDate) == Some(RegTime)
  {
    RegInputForm();
    ParseInputForm(RegTime);
  }

  lemma UpdateDateParses()
    ensures Parse(ExampleRecord.updateDate) == Some(UpdateTime)
  {
    UpdateInputForm();
    ParseInputForm(UpdateTime);
  }

  /** Both raw dates of the example are accepted. */
  lemma ExampleDatesParse()
    ensures Parse(ExampleSource.regDate) == Some(RegTime)
    ensures Parse(ExampleRecord.updateDate) == Some(UpdateTime)
  {
    RegDateParses();
    UpdateDateParses();
  }

  /** The registration time with a one-digit fraction. */
  const ShortFraction: string := "2022-01-05 10:00:00.5"

  lemma ShortFractionFields()
    ensures DigitFields(ShortFraction)
    ensures FieldsOf(ShortFraction, 500000) == RegTime.(micro := 500000)
  {
    RegDateParses();
    assert ShortFraction[..19] == ExampleSource.regDate[..19];
    FieldsOfPrefix(ExampleSource.regDate, ShortFraction, 500000);
  }

  lemma ShortFractionMicros()
    ensures AllDigits(ShortFraction[20..]) && Micros(ShortFraction[20..]) == 500000
  {
    assert ShortFraction[20..] == "5";
    assert Value("5") == 5 && Pow10(5) == 100000;
  }

  /** `%f` takes one to six digits and pads them on the right, so a
      single fraction digit is accepted and means tenths of a second. */
  lemma ShortFractionParses()
    ensures Parse(ShortFraction) == Some(RegTime.(micro := 500000))
  {
    ShortFractionFields();
    ShortFractionMicros();
    assert IsInputShape(ShortFraction);
  }

  /** The example record passes the date checks and so yields rows. */
  lemma ExampleDatesWellFormed()
    ensures FirstMalformed(RecordDates(ExampleRecord)).None?
  {
    ExampleDatesParse();
    assert RecordDates(ExampleRecord) == [ExampleRecord.updateDate, ExampleSource.regDate];
    FirstMalformedSpec(RecordDates(ExampleRecord));
  }

  lemma ExampleMaps(hash: Hasher)
    ensures MapRecord(hash, ExampleRecord).Success?
    ensures RecordSpec(hash, ExampleRecord, MapRecord(hash, ExampleRecord).value)
  {
    ExampleDatesWellFormed();
    MapRecordRows(hash, ExampleRecord);
  }

  lemma ExampleConsumer(rows: RecordRows)
    requires rows.consumer == ConsumerRowOf(ExampleRecord)
    ensures rows.consumer.countryIso2 == "BR" && rows.consumer.consumerKey == "abc123"
  {
    assert SpellsIgnoringCase("Brasil", "brasil");
  }

  lemma ExampleConsent(hash: Hasher, rows: RecordRows)
    requires ConsentSpec(hash, ExampleRecord, rows.consent)
    ensures rows.consent.consentStatus == "Opt_in"
    ensures rows.consent.consentDate == "2022-03-10T08:15:30"
  {
    ExampleDatesParse();
    UpdateCanonical();
    CanonicalOfParse(ExampleRecord.updateDate, UpdateTime);
  }

  /** The example source's row: its campaign key is its registration year
      and title, its date the canonical spelling. */
  lemma ExampleEngagement(hash: Hasher, row: OnlineEngagementRow)
    requires EngagementSpec(hash, "abc123", ExampleSource, row)
    ensures row.campaignKey == "2022_Promo"
    ensures row.onlineEngagementDate == "2022-01-05T10:00:00"
  {
    ExampleDatesParse();
    EngagementOfParse(hash, "abc123", ExampleSource, row, RegTime);
    YearDecimal();
    RegCanonical();
    assert "2022" + "_" + "Promo" == "2022_Promo";
  }

  lemma ExampleAffinity(hash: Hasher, row: AffinityRow)
    requires AffinitySpec(hash, "abc123", ExampleInterest, row)
    ensures row.affinitySubcategory == "LAGER" && row.affinityScore == "10"
  {
    assert Upper("lager") == "LAGER";
  }

  /** The example record maps, and its rows hold the expected country
      code, consent status, dates, campaign key, subcategory and score. */
  lemma ExampleRecordRows(hash: Hasher)
    ensures MapRecord(hash, ExampleRecord).Success?
    ensures var rows := MapRecord(hash, ExampleRecord).value;
      && rows.consumer.countryIso2 == "BR" && rows.consumer.consumerKey == "abc123"
      && rows.consent.consentStatus == "Opt_in"
      && rows.consent.consentDate == "2022-03-10T08:15:30"
      && |rows.engagements| == 1 && rows.engagements[0].campaignKey == "2022_Promo"
      && rows.engagements[0].onlineEngagementDate == "2022-01-05T10:00:00"
      && |rows.affinities| == 1 && rows.affinities[0].affinitySubcategory == "LAGER"
      && rows.affinities[0].affinityScore == "10"
  {
    ExampleMaps(hash);
    var rows := MapRecord(hash, ExampleRecord).value;
    ExampleConsumer(rows);
    ExampleConsent(hash, rows);
    ExampleEngagement(hash, rows.engagements[0]);
    assert BrandInterests(ExampleRecord.behaviour) == [ExampleInterest];
    ExampleAffinity(hash, rows.affinities[0]);
  }

  /** One row per table for the example record. */
  lemma WorkedExample(hash: Hasher)
    ensures var r := MapBatch(hash, [ExampleRecord]);
      && r.Success?
      && |r.value.consumers| == 1 && r.value.consumers[0].countryIso2 == "BR"
      && |r.value.consents| == 1 && r.value.consents[0].consentStatus == "Opt_in"
      && |r.value.engagements| == 1 && r.value.engagements[0].campaignKey == "2022_Promo"
      && r.value.engagements[0].onlineEngagementDate == "2022-01-05T10:00:00"
      && |r.value.affinities| == 1 && r.value.affinities[0].affinitySubcategory == "LAGER"
      && r.value.affinities[0].affinityScore == "10"
  {
    ExampleRecordRows(hash);
    MapBatchLast(hash, [ExampleRecord]);
    assert [ExampleRecord][..0] == [];
  }
}
