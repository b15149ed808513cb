/**
  What the queue-flattening code promises, proved about the reference
  definitions in module Info (which the methods there are proved equal to).
 */
module InfoProperties {
  import opened PyJson
  import opened Info

  // ---------------------------------------------------------------------
  // The extractor, get_flavors_status_field
  // ---------------------------------------------------------------------

  /** A resource entry the record construction can read. */
  ghost predicate ResourceOk(res: Json) {
    Subscript(res, "name").Ok? && Subscript(res, "total").Ok?
  }

  /** A flavor the outer loop can process: it has a name and an iterable
      resource list whose every entry has a name and a total. */
  ghost predicate FlavorOk(flavor: Json) {
    && Subscript(flavor, "name").Ok?
    && ResourceList(flavor).Ok?
    && forall j :: 0 <= j < |ResourceList(flavor).value| ==> ResourceOk(ResourceList(flavor).value[j])
  }

  /** The number of entries in a flavor's resource list, zero when it cannot be read. */
  function ResourceCount(flavor: Json): nat {
    if ResourceList(flavor).Ok? then |ResourceList(flavor).value| else 0
  }

  /** The sum, over a list of flavors, of their resource counts. */
  function ResourceTotal(flavors: seq<Json>): nat
    decreases |flavors|
  {
    if flavors == [] then 0 else ResourceCount(flavors[0]) + ResourceTotal(flavors[1..])
  }

  /** The number of records that come before those of flavor `i`: the
      resource counts of flavors `0..i-1` added up. */
  function Offset(flavors: seq<Json>, i: nat): nat
    requires i <= |flavors|
    decreases i
  {
    if i == 0 then 0 else Offset(flavors, i - 1) + ResourceCount(flavors[i - 1])
  }

  lemma {:induction false} OffsetCons(flavors: seq<Json>, i: nat)
    requires 0 < i <= |flavors|
    ensures Offset(flavors, i) == ResourceCount(flavors[0]) + Offset(flavors[1..], i - 1)
    decreases i
  {
    if i > 1 {
      OffsetCons(flavors, i - 1);
      assert flavors[1..][i - 2] == flavors[i - 1];
    }
  }

  /** When the extraction of one queue's status field succeeds: the status
      field can be iterated, every flavor is readable, and the queue's
      `metadata.name` is present if at least one resource is processed. */
  ghost predicate Extractable(q: Json, statusField: string) {
    && FlavorList(q, statusField).Ok?
    && (forall i :: 0 <= i < |FlavorList(q, statusField).value| ==> FlavorOk(FlavorList(q, statusField).value[i]))
    && (ResourceTotal(FlavorList(q, statusField).value) > 0 ==> QueueName(q).Ok?)
  }

  lemma {:induction false} ResourceRecordsOkIff(q: Json, flavorName: Json, resources: seq<Json>)
    ensures ResourceRecords(q, flavorName, resources).Ok? <==>
      (forall j :: 0 <= j < |resources| ==> ResourceOk(resources[j])) && (|resources| > 0 ==> QueueName(q).Ok?)
    decreases |resources|
  {
    if resources != [] {
      ResourceRecordsOkIff(q, flavorName, resources[1..]);
      assert forall j :: 0 < j < |resources| ==> resources[1..][j - 1] == resources[j];
    }
  }

  lemma {:induction false} FlavorsRecordsOkIff(q: Json, flavors: seq<Json>)
    ensures FlavorsRecords(q, flavors).Ok? <==>
      (forall i :: 0 <= i < |flavors| ==> FlavorOk(flavors[i])) && (ResourceTotal(flavors) > 0 ==> QueueName(q).Ok?)
    decreases |flavors|
  {
    if flavors != [] {
      FlavorsRecordsOkIff(q, flavors[1..]);
      assert forall i :: 0 < i < |flavors| ==> flavors[1..][i - 1] == flavors[i];
      var name := Subscript(flavors[0], "name");
      var resources := ResourceList(flavors[0]);
      if name.Ok? && resources.Ok? {
        ResourceRecordsOkIff(q, name.value, resources.value);
      }
    }
  }

  /** get_flavors_status_field returns normally exactly when the queue
      object has every key it reads (info.py:143-155). */
  lemma ExtractSucceedsIff(q: Json, statusField: string)
    ensures FlavorsStatusField(q, statusField).Ok? <==> Extractable(q, statusField)
  {
    if FlavorList(q, statusField).Ok? {
      FlavorsRecordsOkIff(q, FlavorList(q, statusField).value);
    }
  }

  /** A record is the one built from queue `q`, the flavor named
      `flavorName` and the resource entry `res`: each field is exactly the
      value found at its path in the input. */
  ghost predicate RecordOf(q: Json, flavorName: Json, res: Json, rec: FlatRecord) {
    && QueueName(q) == Ok(rec.queueName)
    && rec.flavorName == flavorName
    && Subscript(res, "name") == Ok(rec.resource)
    && Subscript(res, "total") == Ok(rec.total)
  }

  lemma {:induction false} ResourceRecordsTrace(q: Json, flavorName: Json, resources: seq<Json>, out: seq<FlatRecord>)
    requires ResourceRecords(q, flavorName, resources) == Ok(out)
    ensures |out| == |resources|
    ensures forall j :: 0 <= j < |resources| ==> RecordOf(q, flavorName, resources[j], out[j])
    decreases |resources|
  {
    if resources != [] {
      var rec := ResourceRecord(q, flavorName, resources[0]).value;
      var rest := ResourceRecords(q, flavorName, resources[1..]).value;
      assert out == [rec] + rest;
      ResourceRecordsTrace(q, flavorName, resources[1..], rest);
      forall j | 0 < j < |resources|
        ensures RecordOf(q, flavorName, resources[j], out[j])
      {
        assert resources[1..][j - 1] == resources[j];
      }
    }
  }

  /** The flattening of a flavor list: one record per resource entry, the
      records of flavor `i` starting right after those of the flavors before
      it, each built from its own flavor and entry. */
  ghost predicate Flattens(q: Json, flavors: seq<Json>, out: seq<FlatRecord>) {
    && |out| == ResourceTotal(flavors)
    && (forall i :: 0 <= i < |flavors| ==> ResourceList(flavors[i]).Ok? && Subscript(flavors[i], "name").Ok?)
    && (forall i, j :: 0 <= i < |flavors| && 0 <= j < |ResourceList(flavors[i]).value| ==> Placed(q, flavors, out, i, j))
  }

  /** Record `Offset(flavors, i) + j` of `out` is the one built from entry
      `j` of flavor `i`. */
  ghost predicate Placed(q: Json, flavors: seq<Json>, out: seq<FlatRecord>, i: nat, j: nat) {
    && i < |flavors| && Subscript(flavors[i], "name").Ok? && ResourceList(flavors[i]).Ok?
    && j < |ResourceList(flavors[i]).value|
    && Offset(flavors, i) + j < |out|
    && RecordOf(q, Subscript(flavors[i], "name").value, ResourceList(flavors[i]).value[j], out[Offset(flavors, i) + j])
  }

  lemma {:induction false} FlavorsRecordsTrace(q: Json, flavors: seq<Json>, out: seq<FlatRecord>)
    requires FlavorsRecords(q, flavors) == Ok(out)
    ensures Flattens(q, flavors, out)
    decreases |flavors|
  {
    if flavors == [] {
      assert out == [];
    } else {
      var name := Subscript(flavors[0], "name").value;
      var resources := ResourceList(flavors[0]).value;
      var first := FlavorRecords(q, flavors[0]).value;
      var rest := FlavorsRecords(q, flavors[1..]).value;
      assert out == first + rest;
      ResourceRecordsTrace(q, name, resources, first);
      FlavorsRecordsTrace(q, flavors[1..], rest);
      FlattensCons(q, flavors, first, rest);
    }
  }

  /** The records of the first flavor followed by a flattening of the
      others flatten the whole list. */
  lemma FlattensCons(q: Json, flavors: seq<Json>, first: seq<FlatRecord>, rest: seq<FlatRecord>)
    requires flavors != []
    requires Subscript(flavors[0], "name").Ok? && ResourceList(flavors[0]).Ok?
    requires |first| == |ResourceList(flavors[0]).value|
    requires forall j :: 0 <= j < |first| ==>
      RecordOf(q, Subscript(flavors[0], "name").value, ResourceList(flavors[0]).value[j], first[j])
    requires Flattens(q, flavors[1..], rest)
    ensures Flattens(q, flavors, first + rest)
  {
    var out := first + rest;
    assert ResourceCount(flavors[0]) == |first|;
    assert |out| == ResourceTotal(flavors);
    forall i | 0 < i < |flavors|
      ensures flavors[i] == flavors[1..][i - 1]
      ensures Offset(flavors, i) == |first| + Offset(flavors[1..], i - 1)
    {
      OffsetCons(flavors, i);
    }
    forall i | 0 <= i < |flavors|
      ensures ResourceList(flavors[i]).Ok? && Subscript(flavors[i], "name").Ok?
    {
    }
    forall i, j | 0 <= i < |flavors| && 0 <= j < |ResourceList(flavors[i]).value|
      ensures Placed(q, flavors, out, i, j)
    {
      if i == 0 {
        assert out[j] == first[j];
      } else {
        assert Placed(q, flavors[1..], rest, i - 1, j);
        assert out[Offset(flavors, i) + j] == rest[Offset(flavors[1..], i - 1) + j];
      }
    }
  }

  /** Every position below the total is that of exactly some entry `j` of
      some flavor `i`. */
  lemma {:induction false} Tiling(flavors: seq<Json>, k: nat) returns (i: nat, j: nat)
    requires k < ResourceTotal(flavors)
    ensures i < |flavors| && j < ResourceCount(flavors[i]) && Offset(flavors, i) + j == k
    decreases |flavors|
  {
    if k < ResourceCount(flavors[0]) {
      i, j := 0, k;
    } else {
      var i', j' := Tiling(flavors[1..], k - ResourceCount(flavors[0]));
      i, j := i' + 1, j';
      OffsetCons(flavors, i);
      assert flavors[1..][i'] == flavors[i];
    }
  }

  /** A flattening is determined by the queue and its flavors: two outputs
      that both flatten the same flavor list are equal, so there is exactly
      one record per entry, in order, and nothing else. */
  lemma FlattensUnique(q: Json, flavors: seq<Json>, out1: seq<FlatRecord>, out2: seq<FlatRecord>)
    requires Flattens(q, flavors, out1) && Flattens(q, flavors, out2)
    ensures out1 == out2
  {
    forall k | 0 <= k < |out1|
      ensures out1[k] == out2[k]
    {
      var i, j := Tiling(flavors, k);
      assert Placed(q, flavors, out1, i, j) && Placed(q, flavors, out2, i, j);
    }
  }

  /** Count, order and provenance of the records (info.py:146-157): the
      result holds exactly one record per resource entry, so its length is
      the sum over the flavors of the lengths of their resource lists; flavor `i`'s
      records come, in resource order, right after those of flavors
      `0..i-1`; each record carries the queue's `metadata.name`, its
      flavor's `name` and the entry's `name` and `total`, unchanged. */
  lemma ExtractedRecordsTrace(q: Json, statusField: string, out: seq<FlatRecord>)
    requires FlavorsStatusField(q, statusField) == Ok(out)
    ensures FlavorList(q, statusField).Ok?
    ensures Flattens(q, FlavorList(q, statusField).value, out)
  {
    FlavorsRecordsTrace(q, FlavorList(q, statusField).value, out);
  }

  /** The exceptions building one record can raise: a KeyError for the
      queue's `metadata` or its `name`, or for the entry's `name` or
      `total`, or a TypeError for subscripting something that is not a
      dict. */
  ghost predicate RecordError(e: Error) {
    || e == KeyError("metadata") || e == KeyError("name") || e == KeyError("total")
    || e == NotSubscriptable
  }

  /** The exceptions the outer loop can raise: those of a record, a KeyError
      for a flavor's `resources`, or a TypeError for iterating something
      that is not iterable. */
  ghost predicate FlavorLoopError(e: Error) {
    RecordError(e) || e == KeyError("resources") || e == NotIterable
  }

  /** The exceptions get_flavors_status_field can raise: those of the outer
      loop, or a KeyError for `status` or the status field itself. */
  ghost predicate ExtractorError(e: Error, statusField: string) {
    FlavorLoopError(e) || e == KeyError("status") || e == KeyError(statusField)
  }

  lemma {:induction false} ResourceRecordsErrors(q: Json, flavorName: Json, resources: seq<Json>)
    ensures ResourceRecords(q, flavorName, resources).Err? ==>
      RecordError(ResourceRecords(q, flavorName, resources).error)
    decreases |resources|
  {
    if resources != [] {
      ResourceRecordsErrors(q, flavorName, resources[1..]);
      SubscriptOutcome(q, "metadata");
      if Subscript(q, "metadata").Ok? { SubscriptOutcome(Subscript(q, "metadata").value, "name"); }
      SubscriptOutcome(resources[0], "name");
      SubscriptOutcome(resources[0], "total");
    }
  }

  lemma {:induction false} FlavorsRecordsErrors(q: Json, flavors: seq<Json>)
    ensures FlavorsRecords(q, flavors).Err? ==> FlavorLoopError(FlavorsRecords(q, flavors).error)
    decreases |flavors|
  {
    if flavors != [] {
      FlavorsRecordsErrors(q, flavors[1..]);
      var name := Subscript(flavors[0], "name");
      var resources := ResourceList(flavors[0]);
      SubscriptOutcome(flavors[0], "name");
      SubscriptOutcome(flavors[0], "resources");
      if Subscript(flavors[0], "resources").Ok? { ElementsShape(Subscript(flavors[0], "resources").value); }
      if name.Ok? && resources.Ok? {
        ResourceRecordsErrors(q, name.value, resources.value);
      }
    }
  }

  /** Which exception the extractor raises (info.py:143-155): a queue object
      whose `status` is missing fails with KeyError('status'), a status
      without the field with KeyError(statusField), and every failure is a
      KeyError for a key the code reads, or a TypeError. */
  lemma ExtractErrors(q: Json, statusField: string)
    ensures q.Obj? && Subscript(q, "status").Err? ==>
      FlavorsStatusField(q, statusField) == Err(KeyError("status"))
    ensures Subscript(q, "status").Ok? && Subscript(q, "status").value.Obj? &&
            Subscript(Subscript(q, "status").value, statusField).Err? ==>
      FlavorsStatusField(q, statusField) == Err(KeyError(statusField))
    ensures FlavorsStatusField(q, statusField).Err? ==>
      ExtractorError(FlavorsStatusField(q, statusField).error, statusField)
  {
    SubscriptOutcome(q, "status");
    if Subscript(q, "status").Ok? {
      var status := Subscript(q, "status").value;
      SubscriptOutcome(status, statusField);
      if Subscript(status, statusField).Ok? { ElementsShape(Subscript(status, statusField).value); }
    }
    if FlavorList(q, statusField).Ok? {
      FlavorsRecordsErrors(q, FlavorList(q, statusField).value);
    }
  }

  /** The queue's metadata name is read only while a resource
      entry is being turned into a record (info.py:151-152): over flavors
      that all have a name and a resource list, no resource at all gives an
      empty result whatever the metadata, and otherwise a missing queue
      name is the exception raised. */
  lemma {:induction false} MetadataReadPerResource(q: Json, flavors: seq<Json>)
    requires forall i :: 0 <= i < |flavors| ==> Subscript(flavors[i], "name").Ok? && ResourceList(flavors[i]).Ok?
    ensures ResourceTotal(flavors) == 0 ==> FlavorsRecords(q, flavors) == Ok([])
    ensures ResourceTotal(flavors) > 0 && QueueName(q).Err? ==> FlavorsRecords(q, flavors) == Err(QueueName(q).error)
    decreases |flavors|
  {
    if flavors != [] {
      assert forall i :: 0 < i < |flavors| ==> flavors[1..][i - 1] == flavors[i];
      MetadataReadPerResource(q, flavors[1..]);
      assert ResourceCount(flavors[0]) == 0 ==> ResourceList(flavors[0]).value == [];
      var none: seq<FlatRecord> := [];
      assert none + none == none;
    }
  }

  // ---------------------------------------------------------------------
  // The parser, parse_queue_lists
  // ---------------------------------------------------------------------

  /** Checking a queue list succeeds exactly when every queue extracts, and
      otherwise fails with the exception of the first queue that does not. */
  lemma {:induction false} CheckQueuesOutcome(queues: seq<Json>, usageKey: string, reservationKey: string)
    ensures CheckQueues(queues, usageKey, reservationKey).Ok? <==>
      forall k :: 0 <= k < |queues| ==> QueueStep(queues[k], usageKey, reservationKey).Ok?
    ensures CheckQueues(queues, usageKey, reservationKey).Err? ==>
      exists k :: 0 <= k < |queues| &&
        QueueStep(queues[k], usageKey, reservationKey) == Err(CheckQueues(queues, usageKey, reservationKey).error) &&
        forall m :: 0 <= m < k ==> QueueStep(queues[m], usageKey, reservationKey).Ok?
    decreases |queues|
  {
    if queues != [] {
      CheckQueuesOutcome(queues[1..], usageKey, reservationKey);
      assert forall k :: 0 < k < |queues| ==> queues[1..][k - 1] == queues[k];
      var c := CheckQueues(queues, usageKey, reservationKey);
      if c.Err? && QueueStep(queues[0], usageKey, reservationKey).Ok? {
        var k :| 0 <= k < |queues| - 1 &&
          QueueStep(queues[1..][k], usageKey, reservationKey) == Err(c.error) &&
          forall m :: 0 <= m < k ==> QueueStep(queues[1..][m], usageKey, reservationKey).Ok?;
        assert QueueStep(queues[k + 1], usageKey, reservationKey) == Err(c.error);
      }
    }
  }

  /** An empty queue list gives two empty record lists (info.py:128, 132). */
  lemma QueueListsEmpty(usageKey: string, reservationKey: string)
    ensures QueueLists(Arr([]), usageKey, reservationKey) == Ok(([], []))
  {
  }

  /** A non-empty queue list whose queues all extract gives the records of
      its last queue only, reservation then usage; earlier queues add
      nothing (info.py:129-132). */
  lemma QueueListsLastOnly(queues: seq<Json>, usageKey: string, reservationKey: string)
    requires queues != []
    requires QueueLists(Arr(queues), usageKey, reservationKey).Ok?
    ensures QueueLists(Arr(queues), usageKey, reservationKey) ==
      Ok((FlavorsStatusField(queues[|queues| - 1], reservationKey).value,
          FlavorsStatusField(queues[|queues| - 1], usageKey).value))
    ensures QueueLists(Arr(queues), usageKey, reservationKey) ==
      QueueLists(Arr([queues[|queues| - 1]]), usageKey, reservationKey)
  {
    var last := queues[|queues| - 1];
    CheckQueuesOutcome(queues, usageKey, reservationKey);
    assert QueueStep(last, usageKey, reservationKey).Ok?;
    assert [last][1..] == [];
    assert CheckQueues([last], usageKey, reservationKey) == Ok(());
  }

  /** parse_queue_lists returns normally exactly when every queue extracts
      under both keys; when it fails, the exception is that of the first
      queue (in list order, reservation key before usage key) that fails,
      even though that queue's records would have been dropped. */
  lemma QueueListsOutcome(queues: seq<Json>, usageKey: string, reservationKey: string)
    ensures QueueLists(Arr(queues), usageKey, reservationKey).Ok? <==>
      forall k :: 0 <= k < |queues| ==>
        FlavorsStatusField(queues[k], reservationKey).Ok? && FlavorsStatusField(queues[k], usageKey).Ok?
    ensures QueueLists(Arr(queues), usageKey, reservationKey).Err? ==>
      exists k :: 0 <= k < |queues| &&
        (forall m :: 0 <= m < k ==>
           FlavorsStatusField(queues[m], reservationKey).Ok? && FlavorsStatusField(queues[m], usageKey).Ok?) &&
        (|| FlavorsStatusField(queues[k], reservationKey) == Err(QueueLists(Arr(queues), usageKey, reservationKey).error)
         || (&& FlavorsStatusField(queues[k], reservationKey).Ok?
             && FlavorsStatusField(queues[k], usageKey) == Err(QueueLists(Arr(queues), usageKey, reservationKey).error)))
  {
    CheckQueuesOutcome(queues, usageKey, reservationKey);
    assert Elements(Arr(queues)) == Ok(queues);
    forall k | 0 <= k < |queues|
      ensures QueueStep(queues[k], usageKey, reservationKey).Ok? <==>
        FlavorsStatusField(queues[k], reservationKey).Ok? && FlavorsStatusField(queues[k], usageKey).Ok?
    {
      QueueStepOutcome(queues[k], usageKey, reservationKey);
    }
    var c := CheckQueues(queues, usageKey, reservationKey);
    if c.Err? {
      var k :| 0 <= k < |queues| && QueueStep(queues[k], usageKey, reservationKey) == Err(c.error) &&
               forall m :: 0 <= m < k ==> QueueStep(queues[m], usageKey, reservationKey).Ok?;
      QueueStepOutcome(queues[k], usageKey, reservationKey);
    }
  }

  /** One iteration succeeds exactly when both extractions do; a failure is
      that of the reservation key, or else that of the usage key. */
  lemma QueueStepOutcome(q: Json, usageKey: string, reservationKey: string)
    ensures QueueStep(q, usageKey, reservationKey).Ok? <==>
      FlavorsStatusField(q, reservationKey).Ok? && FlavorsStatusField(q, usageKey).Ok?
    ensures QueueStep(q, usageKey, reservationKey).Err? ==>
      || FlavorsStatusField(q, reservationKey) == Err(QueueStep(q, usageKey, reservationKey).error)
      || (&& FlavorsStatusField(q, reservationKey).Ok?
          && FlavorsStatusField(q, usageKey) == Err(QueueStep(q, usageKey, reservationKey).error))
  {
  }

  // ---------------------------------------------------------------------
  // The aggregator, aggregate_results
  // ---------------------------------------------------------------------

  /** The queue objects listed under a response's `items`. */
  function Items(response: Json): Result<seq<Json>> {
    var items :- Subscript(response, "items");
    Elements(items)
  }

  /** A response without `items` makes the aggregation fail with
      KeyError('items'), the cluster queue response being read first
      (info.py:114-115); `{}` is such a response. */
  lemma AggregateNeedsItems(cqs: Json, lqs: Json)
    ensures Subscript(cqs, "items").Err? ==> AggregateResults(cqs, lqs) == Err(Subscript(cqs, "items").error)
    ensures cqs.Obj? && Subscript(cqs, "items").Err? ==> AggregateResults(cqs, lqs) == Err(KeyError("items"))
    ensures Subscript(cqs, "items").Ok? && lqs.Obj? && Subscript(lqs, "items").Err? ==>
      AggregateResults(cqs, lqs) == Err(KeyError("items"))
    ensures AggregateResults(Obj([]), lqs) == Err(KeyError("items"))
  {
    SubscriptOutcome(cqs, "items");
    SubscriptOutcome(lqs, "items");
  }

  /** The four tables (info.py:114-118): the cluster tables are the
      `flavorsReservation` and `flavorsUsage` records of the last cluster
      queue, the local tables the `flavorsReservation` and `flavorUsage`
      records of the last local queue, and a kind with no queues gives two
      empty tables. */
  lemma AggregateTables(cqs: Json, lqs: Json, t: Tables)
    requires AggregateResults(cqs, lqs) == Ok(t)
    ensures Items(cqs).Ok? && Items(lqs).Ok?
    ensures Items(cqs).value == [] ==> t.clusterReservations == [] && t.clusterUsage == []
    ensures Items(cqs).value != [] ==>
      && FlavorsStatusField(Items(cqs).value[|Items(cqs).value| - 1], "flavorsReservation") == Ok(t.clusterReservations)
      && FlavorsStatusField(Items(cqs).value[|Items(cqs).value| - 1], "flavorsUsage") == Ok(t.clusterUsage)
    ensures Items(lqs).value == [] ==> t.localReservations == [] && t.localUsage == []
    ensures Items(lqs).value != [] ==>
      && FlavorsStatusField(Items(lqs).value[|Items(lqs).value| - 1], "flavorsReservation") == Ok(t.localReservations)
      && FlavorsStatusField(Items(lqs).value[|Items(lqs).value| - 1], "flavorUsage") == Ok(t.localUsage)
  {
  }

  /** Empty `items` in both responses give four empty tables, not an error. */
  lemma AggregateEmpty()
    ensures AggregateResults(Obj([("items", Arr([]))]), Obj([("items", Arr([]))])) == Ok(Tables([], [], [], []))
  {
  }
}
