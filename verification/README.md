# Consumer-data mapping engine, modelled in Dafny

The engine reads raw consumer profiles and fans each one out into rows of four
tables:

- **Consumer**: one row per record. Fields are copied, and the country name is
  normalised to an ISO code.
- **Consent Event**: one row per record. It holds:
  - the consent status;
  - the canonical consent date;
  - a surrogate key.
- **Online Engagement**: one row per registration source of the record. It
  holds:
  - a campaign key built from the registration year and the source title;
  - the canonical registration date;
  - a surrogate key.
- **Affinity**: one row per behaviour entry of type `brand_interest`. It holds
  the upper-cased behaviour value and a surrogate key.

Every surrogate key is the SHA-256 digest of its fields joined with `-`. Dates
arrive as `"%Y-%m-%d %H:%M:%S.%f"` and leave as `"%Y-%m-%dT%H:%M:%S"`. A date
that does not parse raises, and that ends the whole run.

The model is organised as follows:

- `Wrappers`: `Option` and `Result`.
- `Text`: decimal digits, `str(n)`, zero-padded fields, ASCII case mapping and
  joining.
- `Timestamp`: the date-time value, `strptime` for the input format, and
  `strftime` for the canonical format.
- `Normalize`: the country and consent normalisers.
- `Keys`: the three key derivations. The digest function is a parameter.
- `Records`: the input entries, the rows, and the constant columns.
- `Traversal`: a generic "map each element, stop at the first failure" loop.
- `Mapping`: the per-record mapping and its row contracts.
- `Batch`: the loop over all records, both as a function and as the
  imperative loop with four accumulators.
- `Example`: one record with one source and one brand interest, mapped
  end to end on the model.

## Model

| member | source | states |
|---|---|---|
| Normalize.CountryCode | mapping.py:71-74 | The result is "BR" exactly when the name spells "brasil" or "brazil" in any mix of letter cases; otherwise it is "". |
| Normalize.ConsentStatus | mapping.py:77-80 | The result is "Opt_in" exactly when the flag is the text "True"; otherwise it is "Opt_out". |
| Normalize.ConsentExamples | mapping.py:80 | The comparison is case-sensitive: "true", "TRUE", "False" and "" all give "Opt_out". |
| Normalize.CountryExamples | mapping.py:74 | "Brasil", "BRAZIL" and "bRaSiL" all map to "BR". |
| Text.LowerMatchesWord | mapping.py:74 | Lower-casing a name gives a lower-case word exactly when the name spells that word ignoring case. |
| Text.Upper | mapping.py:207 | ASCII `upper()` keeps the length, and each character becomes its upper-case counterpart. |
| Text.Decimal | mapping.py:183 | `str(n)` is a non-empty run of digits that reads back as n, with a leading zero only for 0, which is written "0". |
| Text.Lower | mapping.py:74 | ASCII `lower()` keeps the length, and each character becomes its lower-case counterpart. |
| Text.DecimalOfValue | mapping.py:183 | A year parsed from digits with no leading zero is written back by `str` as those same digits. |
| Text.DigitsInjective | mapping.py:154 | Two numbers below 10^w with the same zero-padded w-digit field are equal. |
| Keys.OnlineEngagementKey | mapping.py:82-89 | The key is the digest of consumer key, date and URL joined by "-", in that order. |
| Keys.AffinityKey | mapping.py:92-99 | The key is the digest of consumer key, category and subcategory joined by "-", in that order. |
| Keys.ConsentEventKey | mapping.py:102-115 | The key is the digest of consumer key, date, status, opco and sub-level joined by "-", in that order. |
| Keys.FieldStringNotInjective | mapping.py:85 | Two different argument tuples whose fields contain "-" get the same key under every digest. |
| Timestamp.Parse | mapping.py:125 | A text is accepted exactly when it has the input layout, with one to six fraction digits, and its fields name a real date-time. The result holds the fields read from their digits, the fraction padded on the right to microseconds. |
| Timestamp.Canonical | mapping.py:154 | The rendering has the "YYYY-MM-DDTHH:MM:SS" layout, and reading its fields back gives the date-time with microseconds zeroed. |
| Timestamp.ParseInputForm | mapping.py:125 | Every valid date-time has an input-format spelling that parses back to exactly it, microseconds included. |
| Timestamp.CanonicalOfParse | mapping.py:163 | The canonical rendering of a parsed date is the raw text's first ten characters, then "T", then characters 11 to 18. |
| Timestamp.RenderingSlices | mapping.py:184 | Each zero-padded field sits at its fixed offset in both renderings, and the input rendering ends in the six microsecond digits. |
| Timestamp.DateTextInjective | mapping.py:163 | For valid date-times, equal "%Y-%m-%d" text means equal year, month and day. |
| Timestamp.TimeTextInjective | mapping.py:163 | For valid date-times, equal "%H:%M:%S" text means equal hour, minute and second. |
| Timestamp.CanonicalDropsOnlyMicros | mapping.py:163 | Two valid date-times render alike canonically exactly when they differ at most in microseconds. |
| Mapping.FirstMalformedSpec | mapping.py:125 | The first malformed date is None exactly when every date parses; otherwise it is one of the dates, and one that does not parse. |
| Mapping.FirstMalformedAppend | mapping.py:122-173 | The first bad date of a concatenation is in the first part if that part has one, otherwise in the second. |
| Mapping.ParseDate | mapping.py:125 | Success carries the parsed date-time; failure names the exact text that `strptime` rejected. |
| Mapping.ConsumerRowOf | mapping.py:127-146 | The Consumer row carries the email hash as its key and is not flagged deleted. Email, name, surname, gender, birth date, mobile phone, address, district, zip code, city and state land in their own columns. Its country code is "BR" exactly for the Brazil aliases and "" otherwise. The columns the record has no data for are empty. |
| Mapping.ConsentRowOf | mapping.py:150-167 | The Consent Event row has the update date respelled canonically and the status "Opt_in" exactly for "True". Its key hashes those same date and status with opco "BR001" and sub-level "". The OpCo column is "BR001OC", and the other columns are constant. |
| Mapping.EngagementRowOf | mapping.py:175-194 | The Online Engagement row has the URL "www.unknown.com" and the campaign key str(year) + "_" + title. Its date is the registration date respelled, and its key hashes the consumer key, that date and the URL. |
| Mapping.AffinityRowOf | mapping.py:202-215 | The Affinity row has subcategory and value both equal to the upper-cased behaviour value. Its category is "ALCOHOLIC_BEER" and its score "10", and its key hashes the consumer key, category and subcategory. |
| Mapping.BrandInterests | mapping.py:198-200 | The filter keeps only brand-interest entries, taken from the input. It is empty exactly when no entry is a brand interest. |
| Mapping.BrandInterestsAppend | mapping.py:198-200 | The filter distributes over concatenation, so order is kept and each entry is judged on its own. |
| Mapping.EngagementStep | mapping.py:173-194 | One source fails exactly when its registration date does not parse, and then with that date. Otherwise its row is as the engagement contract says. |
| Mapping.FirstMalformedRegDatesLast | mapping.py:171-173 | Over one more source, the first malformed registration date is the prefix's, else the new source's date if it does not parse, else there is none. |
| Mapping.MapSources | mapping.py:171-196 | The sources fail exactly when one of their registration dates does not parse, and then with the first such date. On success there is one row per source. |
| Mapping.MapSourcesRows | mapping.py:171-196 | On success there is one row per source, in source order, each as the engagement contract says. |
| Mapping.MapSourcesAbortsAt | mapping.py:171-196 | After a successful prefix, a source whose date does not parse fails the whole list with its date. |
| Mapping.MapBehaviours | mapping.py:198-217 | There are as many Affinity rows as brand-interest behaviours. |
| Mapping.MapBehavioursRows | mapping.py:198-217 | Affinity row i is the mapping of the i-th brand-interest behaviour, and no other behaviour leaves a row. |
| Mapping.MapRecord | mapping.py:122-217 | A record fails exactly when its update date or one of its registration dates does not parse. The error is the first such date in processing order. |
| Mapping.MapRecordRows | mapping.py:122-217 | On success, a record yields its Consumer row and one Consent Event row as the consent contract says. It also yields one engagement row per source and one affinity row per brand interest, each as its contract says. |
| Mapping.EngagementOfParse | mapping.py:183-184 | An engagement row's campaign key is str of the parsed year, "_" and the title. Its date is the canonical rendering of the parsed date. |
| Mapping.RecordEngagementProvenance | mapping.py:171-196 | Every engagement row of a record comes from one of its sources. |
| Mapping.RecordAffinityProvenance | mapping.py:198-217 | Every affinity row of a record comes from one of its brand-interest behaviours. |
| Mapping.RecordRowsShareConsumerKey | mapping.py:128-203 | Every row a record yields, in all four tables, carries the record's email hash as Consumer_Key. |
| Mapping.AffinityMergesCaseVariants | mapping.py:207-211 | Behaviour values that agree after upper-casing give identical Affinity rows, key included. |
| Traversal.Traverse | mapping.py:171-196 | The loop succeeds exactly when every step succeeds. On success the result has one item per element, item i being the step's result on element i. A failure is the failure of some element's step. |
| Traversal.TraverseAbortsAt | mapping.py:171-196 | A failing step after a successful prefix is the outcome of the whole loop; nothing after it runs. |
| Batch.Accumulate | mapping.py:122-217 | On success the Consumer and Consent Event tables have one row per record. A failure is the failure of some record's step. |
| Batch.MapBatch | mapping.py:122-217 | The run fails exactly when some date in it does not parse, with the first such date in processing order; on success there is one Consumer row and one Consent Event row per record. |
| Batch.BatchOutcome | mapping.py:122-217 | The run succeeds exactly when every date in it parses. Otherwise it fails with the first malformed date in processing order. |
| Batch.BatchCardinality | mapping.py:148-217 | A successful run has one Consumer row and one Consent Event row per record. It has one Online Engagement row per source and one Affinity row per brand interest. |
| Batch.AccumulateAligned | mapping.py:148-169 | Row i of the Consumer and Consent Event tables comes from record i. |
| Batch.BatchConsumersAndConsents | mapping.py:127-169 | Consumer row i is record i's Consumer row, and Consent Event row i satisfies the consent contract for record i. |
| Batch.BatchEngagementRows | mapping.py:171-196 | Every Online Engagement row of the run comes from some source of some record, with that record's key. |
| Batch.BatchAffinityRows | mapping.py:198-217 | Every Affinity row of the run comes from some brand-interest behaviour of some record, with that record's key. |
| Batch.BatchTables | mapping.py:171-217 | The engagement and affinity tables of a successful run are each record's engagement rows, and each record's affinity rows, concatenated whole in record order. |
| Batch.AccumulateSplit | mapping.py:122-217 | Running over a + b is running over a and over b and combining, with the first failure winning. |
| Batch.BatchSplit | mapping.py:122-217 | The run is stateless across records, so any split of the input may be mapped separately and combined. |
| Batch.AccumulateAbortsAt | mapping.py:122-217 | A failing record after a successful prefix ends the run with its error, whatever follows. |
| Batch.AccumulateFailsAt | mapping.py:122-217 | Any failing record makes the run fail. |
| Batch.OneBadRecordFailsTheRun | mapping.py:125-173 | A record with a malformed date is not skipped: it makes the whole run fail. |
| Batch.AppendEngagements | mapping.py:171-196 | The imperative loop over sources appends exactly the rows of the functional definition, or returns its error. |
| Batch.AppendAffinities | mapping.py:198-217 | The imperative loop over behaviours appends exactly the rows of the functional definition. |
| Batch.AppendRecord | mapping.py:122-217 | One iteration appends the record's rows to the four accumulators, or fails with the record's first malformed date. |
| Batch.RunBatch | mapping.py:117-217 | The loop with four accumulators returns exactly the outcome of the functional definition of the run. |
| Example.ExampleDatesParse | mapping.py:125 | The example's update date and registration date both parse to the intended date-times. |
| Example.ExampleRecordRows | mapping.py:122-217 | The example record maps to: country "BR" and status "Opt_in"; consent date "2022-03-10T08:15:30"; campaign "2022_Promo" and date "2022-01-05T10:00:00"; subcategory "LAGER" and score "10". |
| Example.WorkedExample | mapping.py:117-217 | A run over the example record alone yields exactly one row in each table, with those values. |

## Left out

- Glue and Spark session bootstrap (mapping.py lines 14-29): environment setup with no logic.
- S3 listing, object retrieval and JSON decoding (mapping.py lines 40-67) are network I/O. The input is a given sequence of `RawRecord`. Every field is text, so a missing key (a `KeyError`) and non-string JSON values such as a boolean `media_consent` are not modelled.
- The pandas DataFrame construction and CSV upload, with file names from `date.today()` (mapping.py lines 220-235): I/O and the clock.
- SHA-256 and hex encoding are a foreign library, so the digest is a parameter `Keys.Hasher` of every key. No property of the digest is assumed.
- Unicode case mapping: `lower()` and `upper()` are modelled on ASCII letters only.
- Timestamp.Parse: models a strict reading of the format, with exactly 4, 2, 2, 2, 2 and 2 field digits, a single space, and 1 to 6 fraction digits. Python's `strptime` accepts more, and the model rejects all of it: one-digit month, day, hour, minute and second fields; a space-padded day such as " 5"; a run of whitespace (several spaces, a tab) where the format has its one space, since `strptime` compiles that space to `\s+`; and non-ASCII digits.
- Timestamp.Canonical: `%Y` is rendered as four zero-padded digits. On Linux, Python's `strftime` goes through glibc, which writes years 1 to 999 without padding (year 5 as "5"). For those years `Timestamp.Canonical`, `Timestamp.CanonicalOfParse`, `Timestamp.Respelled` and the consent and engagement dates that `Mapping.ConsentSpec` and `Mapping.EngagementSpec` state differ from the running program; from year 1000 on they agree.
- Birthdate is copied verbatim from the record (mapping.py line 137), so a raw date does reach the output.

## Behaviour worth knowing

- A malformed date is not skipped. `strptime` raises `ValueError` (mapping.py lines 125 and 173), nothing catches it, and the whole run ends with no table written. `Batch.BatchOutcome` and `Batch.OneBadRecordFailsTheRun` state this.
- Keys are deterministic, but the "-" join is not injective when a field contains "-", so different field tuples can share a key (`Keys.FieldStringNotInjective`).
- The Consent Event key is derived with opco "BR001", while the row's OpCo column is "BR001OC" (mapping.py lines 156 and 161). `Mapping.ConsentRowOf` states both.
