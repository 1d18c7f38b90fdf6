/** The whole run: every raw record is mapped in order and its rows are
    appended to the four tables. Any malformed date raises out of the
    loop, so the run yields either all four tables or the first failure. */
module Batch {
  import opened Wrappers
  import opened Keys
  import opened Records
  import opened Mapping
  import opened Traversal

  /** The four accumulated tables, rows in insertion order. */
  datatype Tables = Tables(
    consumers: seq<ConsumerRow>,
    consents: seq<ConsentEventRow>,
    engagements: seq<OnlineEngagementRow>,
    affinities: seq<AffinityRow>)
  {
    /** Appends one record's rows. */
    function Add(rows: RecordRows): Tables {
      Tables(consumers + [rows.consumer], consents + [rows.consent],
             engagements + rows.engagements, affinities + rows.affinities)
    }

    /** The tables of this run followed by those of `other`. */
    function Concat(other: Tables): Tables {
      Tables(consumers + other.consumers, consents + other.consents,
             engagements + other.engagements, affinities + other.affinities)
    }
  }

  const NoTables: Tables := Tables([], [], [], [])

  /** How one record is mapped; a parameter so that the structural
      facts about the loop hold whatever a record yields. */
  type Step = RawRecord -> Result<RecordRows, MappingError>

  /** The loop over all records with a given per-record step: each
      record's rows are appended in turn and the first failure aborts. */
  function Accumulate(step: Step, records: seq<RawRecord>): (r: Result<Tables, MappingError>)
    ensures r.Success? ==> |r.value.consumers| == |records| && |r.value.consents| == |records|
    ensures r.Failure? ==>
      exists i :: 0 <= i < |records| && step(records[i]).Failure? && r.error == step(records[i]).error
    decreases |records|
  {
    if |records| == 0 then Success(NoTables)
    else
      var front, last := records[..|records| - 1], records[|records| - 1];
      assert forall i :: 0 <= i < |front| ==> front[i] == records[i];
      match Accumulate(step, front)
      case Failure(e) => Failure(e)
      case Success(tables) =>
        match step(last)
        case Failure(e) => Failure(e)
        case Success(rows) => Success(tables.Add(rows))
  }

  /** The engine's per-record step. */
  function RecordStep(hash: Hasher): Step {
    e => MapRecord(hash, e)
  }

  /** The mapping loop of the engine. All or nothing: the run succeeds
      exactly when every date in it parses, and otherwise fails with the
      first one that does not. */
  function MapBatch(hash: Hasher, records: seq<RawRecord>): (r: Result<Tables, MappingError>)
    ensures r.Failure? <==> FirstMalformed(BatchDates(records)).Some?
    ensures r.Failure? ==> r.error == MalformedDate(FirstMalformed(BatchDates(records)).value)
    ensures r.Success? ==> |r.value.consumers| == |records| && |r.value.consents| == |records|
  {
    BatchOutcome(hash, records);
    Accumulate(RecordStep(hash), records)
  }

  /** Every date the run parses, in the order it parses them. */
  function BatchDates(records: seq<RawRecord>): seq<string>
    decreases |records|
  {
    if |records| == 0 then []
    else BatchDates(records[..|records| - 1]) + RecordDates(records[|records| - 1])
  }

  function TotalSources(records: seq<RawRecord>): nat
    decreases |records|
  {
    if |records| == 0 then 0
    else TotalSources(records[..|records| - 1]) + |records[|records| - 1].sources|
  }

  function TotalBrandInterests(records: seq<RawRecord>): nat
    decreases |records|
  {
    if |records| == 0 then 0
    else TotalBrandInterests(records[..|records| - 1])
         + |BrandInterests(records[|records| - 1].behaviour)|
  }

  /** The outcome of two runs over consecutive parts of the input: the
      first failure wins, otherwise the tables are concatenated. */
  function Combine(x: Result<Tables, MappingError>, y: Result<Tables, MappingError>): Result<Tables, MappingError> {
    if x.Failure? then x
    else if y.Failure? then Failure(y.error)
    else Success(x.value.Concat(y.value))
  }

  // ------------------------------------------------------------- lemmas

  /** The last record's step, seen from `MapBatch`. */
  lemma MapBatchLast(hash: Hasher, records: seq<RawRecord>)
    requires |records| > 0
    ensures var front, e := records[..|records| - 1], records[|records| - 1];
      && (MapBatch(hash, records).Success?
          <==> MapBatch(hash, front).Success? && MapRecord(hash, e).Success?)
      && (MapBatch(hash, records).Success? ==>
          MapBatch(hash, records).value == MapBatch(hash, front).value.Add(MapRecord(hash, e).value))
      && (MapBatch(hash, front).Failure? ==> MapBatch(hash, records) == MapBatch(hash, front))
      && (MapBatch(hash, front).Success? && MapRecord(hash, e).Failure? ==>
          MapBatch(hash, records) == Failure(MapRecord(hash, e).error))
  {
  }

  /** The loop with the engine's step fails exactly when a date in the
      run does not parse, and then with the first such date. */
  lemma {:induction false} BatchOutcome(hash: Hasher, records: seq<RawRecord>)
    ensures var r := Accumulate(RecordStep(hash), records);
      && (r.Failure? <==> FirstMalformed(BatchDates(records)).Some?)
      && (r.Failure? ==> r.error == MalformedDate(FirstMalformed(BatchDates(records)).value))
    decreases |records|
  {
    if |records| > 0 {
      var step := RecordStep(hash);
      var front, last := records[..|records| - 1], records[|records| - 1];
      AccumulateLast(step, records);
      assert step(last) == MapRecord(hash, last);
      BatchOutcome(hash, front);
      FirstMalformedAppend(BatchDates(front), RecordDates(last));
    }
  }

  /** A step that yields one engagement row per source and one affinity
      row per brand-interest behaviour. */
  ghost predicate CountsRows(step: Step) {
    forall e :: step(e).Success? ==>
      && |step(e).value.engagements| == |e.sources|
      && |step(e).value.affinities| == |BrandInterests(e.behaviour)|
  }

  /** With such a step the loop's engagement and affinity tables hold one
      row per source and per brand interest of the whole input. */
  lemma {:induction false} AccumulateCounts(step: Step, records: seq<RawRecord>)
    requires CountsRows(step)
    requires Accumulate(step, records).Success?
    ensures var t := Accumulate(step, records).value;
      && |t.engagements| == TotalSources(records)
      && |t.affinities| == TotalBrandInterests(records)
    decreases |records|
  {
    if |records| > 0 {
      AccumulateLast(step, records);
      AccumulateCounts(step, records[..|records| - 1]);
    }
  }

  /** The engine's step is such a step. */
  lemma RecordStepCountsRows(hash: Hasher)
    ensures CountsRows(RecordStep(hash))
  {
    var step := RecordStep(hash);
    forall e | step(e).Success?
      ensures |step(e).value.engagements| == |e.sources|
      ensures |step(e).value.affinities| == |BrandInterests(e.behaviour)|
    {
      assert step(e) == MapRecord(hash, e);
      MapRecordRows(hash, e);
    }
  }

  /** One Consumer row and one Consent Event row per record, one Online
      Engagement row per source and one Affinity row per brand-interest
      behaviour. */
  lemma BatchCardinality(hash: Hasher, records: seq<RawRecord>)
    requires MapBatch(hash, records).Success?
    ensures var t := MapBatch(hash, records).value;
      && |t.consumers| == |records|
      && |t.consents| == |records|
      && |t.engagements| == TotalSources(records)
      && |t.affinities| == TotalBrandInterests(records)
  {
    RecordStepCountsRows(hash);
    AccumulateCounts(RecordStep(hash), records);
  }

  /** Row `i` of the Consumer and Consent Event tables is what the step
      yielded for record `i`. */
  lemma {:induction false} AccumulateAligned(step: Step, records: seq<RawRecord>)
    requires Accumulate(step, records).Success?
    ensures var t := Accumulate(step, records).value;
      forall i :: 0 <= i < |records| ==>
        && step(records[i]).Success?
        && t.consumers[i] == step(records[i]).value.consumer
        && t.consents[i] == step(records[i]).value.consent
    decreases |records|
  {
    if |records| > 0 {
      var n := |records| - 1;
      var front := records[..n];
      AccumulateLast(step, records);
      AccumulateAligned(step, front);
      assert forall i :: 0 <= i < n ==> records[i] == front[i];
    }
  }

  /** Consumer and Consent Event rows line up with the records: row `i`
      of each table comes from record `i`. */
  lemma BatchConsumersAndConsents(hash: Hasher, records: seq<RawRecord>)
    requires MapBatch(hash, records).Success?
    ensures var t := MapBatch(hash, records).value;
      && |t.consumers| == |records| && |t.consents| == |records|
      && (forall i :: 0 <= i < |records| ==> t.consumers[i] == ConsumerRowOf(records[i]))
      && (forall i :: 0 <= i < |records| ==> ConsentSpec(hash, records[i], t.consents[i]))
  {
    var step := RecordStep(hash);
    AccumulateAligned(step, records);
    forall i | 0 <= i < |records|
      ensures RecordSpec(hash, records[i], MapRecord(hash, records[i]).value)
    {
      assert step(records[i]) == MapRecord(hash, records[i]);
      MapRecordRows(hash, records[i]);
    }
  }

  /** Every engagement and affinity row of the loop's tables is one of
      the rows the step yielded for some record. */
  lemma {:induction false} AccumulateOrigins(step: Step, records: seq<RawRecord>)
    requires Accumulate(step, records).Success?
    ensures forall row :: row in Accumulate(step, records).value.engagements ==>
      exists i :: 0 <= i < |records| && step(records[i]).Success? && row in step(records[i]).value.engagements
    ensures forall row :: row in Accumulate(step, records).value.affinities ==>
      exists i :: 0 <= i < |records| && step(records[i]).Success? && row in step(records[i]).value.affinities
    decreases |records|
  {
    if |records| > 0 {
      var n := |records| - 1;
      var front := records[..n];
      AccumulateLast(step, records);
      AccumulateOrigins(step, front);
      var t0, rows, t := Accumulate(step, front).value, step(records[n]).value, Accumulate(step, records).value;
      assert t.engagements == t0.engagements + rows.engagements;
      assert t.affinities == t0.affinities + rows.affinities;
      forall row | row in t.engagements
        ensures exists i :: (0 <= i < |records| && step(records[i]).Success? && row in step(records[i]).value.engagements)
      {
        if row in t0.engagements {
          var i :| 0 <= i < n && step(front[i]).Success? && row in step(front[i]).value.engagements;
          assert front[i] == records[i];
        }
      }
      forall row | row in t.affinities
        ensures exists i :: (0 <= i < |records| && step(records[i]).Success? && row in step(records[i]).value.affinities)
      {
        if row in t0.affinities {
          var i :| 0 <= i < n && step(front[i]).Success? && row in step(front[i]).value.affinities;
          assert front[i] == records[i];
        }
      }
    }
  }

  /** Every Online Engagement row comes from a source of some record and
      carries that record's email hash as Consumer_Key. */
  lemma BatchEngagementRows(hash: Hasher, records: seq<RawRecord>)
    requires MapBatch(hash, records).Success?
    ensures forall row :: row in MapBatch(hash, records).value.engagements ==>
      exists i, j :: 0 <= i < |records| && 0 <= j < |records[i].sources|
        && EngagementSpec(hash, records[i].emailHash, records[i].sources[j], row)
  {
    var step := RecordStep(hash);
    AccumulateOrigins(step, records);
    forall row | row in MapBatch(hash, records).value.engagements
      ensures exists i, j :: (0 <= i < |records| && 0 <= j < |records[i].sources|
        && EngagementSpec(hash, records[i].emailHash, records[i].sources[j], row))
    {
      var i :| 0 <= i < |records| && step(records[i]).Success? && row in step(records[i]).value.engagements;
      assert step(records[i]) == MapRecord(hash, records[i]);
      RecordEngagementProvenance(hash, records[i], row);
      var j :| 0 <= j < |records[i].sources| && EngagementSpec(hash, records[i].emailHash, records[i].sources[j], row);
    }
  }

  /** Every Affinity row comes from a brand-interest behaviour of some
      record and carries that record's email hash as Consumer_Key. */
  lemma BatchAffinityRows(hash: Hasher, records: seq<RawRecord>)
    requires MapBatch(hash, records).Success?
    ensures forall row :: row in MapBatch(hash, records).value.affinities ==>
      exists i, b :: 0 <= i < |records| && b in records[i].behaviour
        && AffinitySpec(hash, records[i].emailHash, b, row)
  {
    var step := RecordStep(hash);
    AccumulateOrigins(step, records);
    forall row | row in MapBatch(hash, records).value.affinities
      ensures exists i, b :: (0 <= i < |records| && b in records[i].behaviour
        && AffinitySpec(hash, records[i].emailHash, b, row))
    {
      var i :| 0 <= i < |records| && step(records[i]).Success? && row in step(records[i]).value.affinities;
      assert step(records[i]) == MapRecord(hash, records[i]);
      RecordAffinityProvenance(hash, records[i], row);
      var b :| b in records[i].behaviour && AffinitySpec(hash, records[i].emailHash, b, row);
    }
  }

  /** The Online Engagement rows of each record, concatenated in record
      order; a record whose sources fail contributes none. */
  function EngagementsOf(hash: Hasher, records: seq<RawRecord>): seq<OnlineEngagementRow>
    decreases |records|
  {
    if |records| == 0 then []
    else
      var e := records[|records| - 1];
      var rows := MapSources(hash, e.emailHash, e.sources);
      EngagementsOf(hash, records[..|records| - 1]) + (if rows.Success? then rows.value else [])
  }

  /** The Affinity rows of each record, concatenated in record order. */
  function AffinitiesOf(hash: Hasher, records: seq<RawRecord>): seq<AffinityRow>
    decreases |records|
  {
    if |records| == 0 then []
    else
      var e := records[|records| - 1];
      AffinitiesOf(hash, records[..|records| - 1]) + MapBehaviours(hash, e.emailHash, e.behaviour)
  }

  /** The engagement and affinity tables of a successful run are each
      record's rows, whole, in record order: nothing is repeated,
      dropped or reordered. */
  lemma {:induction false} BatchTables(hash: Hasher, records: seq<RawRecord>)
    requires MapBatch(hash, records).Success?
    ensures MapBatch(hash, records).value.engagements == EngagementsOf(hash, records)
    ensures MapBatch(hash, records).value.affinities == AffinitiesOf(hash, records)
    decreases |records|
  {
    if |records| > 0 {
      var step := RecordStep(hash);
      var front, e := records[..|records| - 1], records[|records| - 1];
      AccumulateLast(step, records);
      assert step(e) == MapRecord(hash, e);
      BatchTables(hash, front);
      MapRecordParts(hash, e);
    }
  }

  /** One more iteration of the loop over `records`. */
  lemma AccumulateLast(step: Step, records: seq<RawRecord>)
    requires |records| > 0
    ensures var front := Accumulate(step, records[..|records| - 1]);
      var last := step(records[|records| - 1]);
      Accumulate(step, records)
      == if front.Failure? then front
         else if last.Failure? then Failure(last.error)
         else Success(front.value.Add(last.value))
  {
  }

  /** Appending a record's rows commutes with concatenating tables. */
  lemma ConcatAdd(x: Tables, y: Tables, rows: RecordRows)
    ensures x.Concat(y).Add(rows) == x.Concat(y.Add(rows))
  {
    assert x.consumers + y.consumers + [rows.consumer] == x.consumers + (y.consumers + [rows.consumer]);
    assert x.consents + y.consents + [rows.consent] == x.consents + (y.consents + [rows.consent]);
    assert x.engagements + y.engagements + rows.engagements == x.engagements + (y.engagements + rows.engagements);
    assert x.affinities + y.affinities + rows.affinities == x.affinities + (y.affinities + rows.affinities);
  }

  /** Records are mapped independently: running over `a + b` is running
      over `a` and over `b` separately and combining the outcomes. */
  lemma {:induction false} AccumulateSplit(step: Step, a: seq<RawRecord>, b: seq<RawRecord>)
    ensures Accumulate(step, a + b) == Combine(Accumulate(step, a), Accumulate(step, b))
    decreases |b|
  {
    if |b| == 0 {
      assert a + b == a;
      if Accumulate(step, a).Success? {
        var t := Accumulate(step, a).value;
        assert t.Concat(NoTables) == t;
      }
    } else {
      var ab := a + b;
      var b' := b[..|b| - 1];
      assert ab[..|ab| - 1] == a + b';
      assert ab[|ab| - 1] == b[|b| - 1];
      AccumulateLast(step, ab);
      AccumulateLast(step, b);
      AccumulateSplit(step, a, b');
      var ra, rb, rl := Accumulate(step, a), Accumulate(step, b'), step(b[|b| - 1]);
      if ra.Success? && rb.Success? && rl.Success? {
        ConcatAdd(ra.value, rb.value, rl.value);
      }
    }
  }

  /** The engine's loop is stateless across records, so any split of the
      input may be mapped separately (and in parallel) and combined. */
  lemma BatchSplit(hash: Hasher, a: seq<RawRecord>, b: seq<RawRecord>)
    ensures MapBatch(hash, a + b) == Combine(MapBatch(hash, a), MapBatch(hash, b))
  {
    AccumulateSplit(RecordStep(hash), a, b);
  }

  /** A failing record ends the run with its error, whatever follows. */
  lemma {:induction false} AccumulateAbortsAt(step: Step, records: seq<RawRecord>, i: nat)
    requires i < |records|
    requires Accumulate(step, records[..i]).Success?
    requires step(records[i]).Failure?
    ensures Accumulate(step, records) == Failure(step(records[i]).error)
    decreases |records|
  {
    var front := records[..|records| - 1];
    AccumulateLast(step, records);
    if i == |records| - 1 {
      assert front == records[..i];
    } else {
      assert front[..i] == records[..i] && front[i] == records[i];
      AccumulateAbortsAt(step, front, i);
    }
  }

  /** A failing record makes the run fail, whether or not an earlier
      record failed first. */
  lemma {:induction false} AccumulateFailsAt(step: Step, records: seq<RawRecord>, i: nat)
    requires i < |records|
    requires step(records[i]).Failure?
    ensures Accumulate(step, records).Failure?
    decreases |records|
  {
    var front := records[..|records| - 1];
    AccumulateLast(step, records);
    if i < |records| - 1 {
      assert front[i] == records[i];
      AccumulateFailsAt(step, front, i);
    }
  }

  /** A successful record extends the tables by its rows. */
  lemma AccumulateStep(step: Step, records: seq<RawRecord>, i: nat)
    requires i < |records|
    requires Accumulate(step, records[..i]).Success?
    requires step(records[i]).Success?
    ensures Accumulate(step, records[..i + 1])
      == Success(Accumulate(step, records[..i]).value.Add(step(records[i]).value))
  {
    assert records[..i + 1][..i] == records[..i];
  }

  /** A record with a malformed date is not skipped: it makes the whole
      run fail, whatever the other records hold. */
  lemma OneBadRecordFailsTheRun(hash: Hasher, records: seq<RawRecord>, i: nat)
    requires i < |records|
    requires MapRecord(hash, records[i]).Failure?
    ensures MapBatch(hash, records).Failure?
  {
    assert RecordStep(hash)(records[i]) == MapRecord(hash, records[i]);
    AccumulateFailsAt(RecordStep(hash), records, i);
  }

  // ------------------------------------------------------- the loop itself

  /** The loop over one record's sources (mapping.py lines 171-196): each
      registration date is parsed and one row appended per source. */
  method AppendEngagements(hash: Hasher, emailHash: string, sources: seq<SourceEntry>, acc: seq<OnlineEngagementRow>)
    returns (r: Result<seq<OnlineEngagementRow>, MappingError>)
    ensures MapSources(hash, emailHash, sources).Failure? ==>
      r == Failure(MapSources(hash, emailHash, sources).error)
    ensures MapSources(hash, emailHash, sources).Success? ==>
      r == Success(acc + MapSources(hash, emailHash, sources).value)
  {
    var step := SourceStep(hash, emailHash);
    var engagements := acc;
    var j := 0;
    while j < |sources|
      invariant 0 <= j <= |sources|
      invariant Traverse(step, sources[..j]).Success?
      invariant engagements == acc + Traverse(step, sources[..j]).value
    {
      var source := sources[j];
      var reg := ParseDate(source.regDate);
      assert step(source) == EngagementStep(hash, emailHash, source);
      if reg.Failure? {
        TraverseAbortsAt(step, sources, j);
        return Failure(reg.error);
      }
      TraverseStep(step, sources, j);
      engagements := engagements + [EngagementRowOf(hash, emailHash, source, reg.value)];
      j := j + 1;
    }
    assert sources[..j] == sources;
    return Success(engagements);
  }

  /** The loop over one record's behaviours (mapping.py lines 198-217): a row is
      appended for each brand-interest entry and for no other. */
  method AppendAffinities(hash: Hasher, emailHash: string, bs: seq<BehaviourEntry>, acc: seq<AffinityRow>)
    returns (r: seq<AffinityRow>)
    ensures r == acc + MapBehaviours(hash, emailHash, bs)
  {
    var affinities := acc;
    var k := 0;
    while k < |bs|
      invariant 0 <= k <= |bs|
      invariant affinities == acc + MapBehaviours(hash, emailHash, bs[..k])
    {
      var behaviour := bs[k];
      MapBehavioursStep(hash, emailHash, bs, k);
      if behaviour.kind == BrandInterestType {
        var row := AffinityRowOf(hash, emailHash, behaviour);
        assert acc + (MapBehaviours(hash, emailHash, bs[..k]) + [row])
          == acc + MapBehaviours(hash, emailHash, bs[..k]) + [row];
        affinities := affinities + [row];
      } else {
        assert MapBehaviours(hash, emailHash, bs[..k]) + [] == MapBehaviours(hash, emailHash, bs[..k]);
      }
      k := k + 1;
    }
    assert bs[..k] == bs;
    return affinities;
  }

  /** One iteration of the mapping loop as written (mapping.py lines
      122-217): the record's rows are appended to the four accumulators,
      unless one of its dates is malformed. */
  method AppendRecord(hash: Hasher, e: RawRecord, tables: Tables) returns (r: Result<Tables, MappingError>)
    ensures MapRecord(hash, e).Failure? ==> r == Failure(MapRecord(hash, e).error)
    ensures MapRecord(hash, e).Success? ==> r == Success(tables.Add(MapRecord(hash, e).value))
  {
    var updated := ParseDate(e.updateDate);
    if updated.Failure? {
      MapRecordFailsOnUpdateDate(hash, e);
      return Failure(updated.error);
    }
    var consumer := ConsumerRowOf(e);
    var consent := ConsentRowOf(hash, e, updated.value);
    var engagements := AppendEngagements(hash, e.emailHash, e.sources, tables.engagements);
    if engagements.Failure? {
      MapRecordFailsOnSources(hash, e);
      return Failure(engagements.error);
    }
    MapRecordSucceeds(hash, e, updated.value);
    var affinities := AppendAffinities(hash, e.emailHash, e.behaviour, tables.affinities);
    return Success(Tables(tables.consumers + [consumer], tables.consents + [consent],
                          engagements.value, affinities));
  }

  /** The mapping loop as written (mapping.py lines 117-217): the
      accumulators are filled record by record; a malformed date ends the
      run. */
  method RunBatch(hash: Hasher, records: seq<RawRecord>) returns (r: Result<Tables, MappingError>)
    ensures r == MapBatch(hash, records)
  {
    var step := RecordStep(hash);
    var tables := NoTables;
    var i := 0;
    while i < |records|
      invariant 0 <= i <= |records|
      invariant Accumulate(step, records[..i]) == Success(tables)
    {
      var next := AppendRecord(hash, records[i], tables);
      assert step(records[i]) == MapRecord(hash, records[i]);
      if next.Failure? {
        AccumulateAbortsAt(step, records, i);
        return next;
      }
      AccumulateStep(step, records, i);
      tables := next.value;
      i := i + 1;
    }
    assert records[..i] == records;
    return Success(tables);
  }
}
