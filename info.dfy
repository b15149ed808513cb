/**
  The queue-flattening core of the `info` command (src/xpk/commands/info.py):
  one decoded Kueue queue object (a ClusterQueue or a LocalQueue) becomes a
  flat list of records, one per resource of each flavor under a status field;
  a list of queues becomes a pair of such lists (reservation, usage); two
  decoded list responses become the four tables the command prints.
 */
module Info {
  import opened PyJson

  /** The status field read for reservations (default `reservation_key`). */
  const ReservationKey := "flavorsReservation"
  /** The default `usage_key`, used for local queues. */
  const LocalUsageKey := "flavorUsage"
  /** The usage key passed for cluster queues. */
  const ClusterUsageKey := "flavorsUsage"

  /** One row of a table: the dict built at info.py:151-156. Every field is the
      JSON value found in the input, copied without conversion. */
  datatype FlatRecord = FlatRecord(queueName: Json, flavorName: Json, resource: Json, total: Json)

  /** The queue's name: the `name` member of its `metadata` object. */
  function QueueName(q: Json): Result<Json> {
    var metadata :- Subscript(q, "metadata");
    Subscript(metadata, "name")
  }

  /** What the outer loop runs through: the queue's status member named `statusField`. */
  function FlavorList(q: Json, statusField: string): Result<seq<Json>> {
    var status :- Subscript(q, "status");
    var flavors :- Subscript(status, statusField);
    Elements(flavors)
  }

  /** What the inner loop runs through: the flavor's `resources` member. */
  function ResourceList(flavor: Json): Result<seq<Json>> {
    var resources :- Subscript(flavor, "resources");
    Elements(resources)
  }

  /** The record for one resource entry; the dict's values are evaluated in
      order: queue name, resource name, total. */
  function ResourceRecord(q: Json, flavorName: Json, res: Json): Result<FlatRecord> {
    var queueName :- QueueName(q);
    var resource :- Subscript(res, "name");
    var total :- Subscript(res, "total");
    Ok(FlatRecord(queueName, flavorName, resource, total))
  }

  /** Both results in order, the first failure winning. */
  function Then(first: Result<seq<FlatRecord>>, rest: Result<seq<FlatRecord>>): Result<seq<FlatRecord>> {
    var a :- first;
    var b :- rest;
    Ok(a + b)
  }

  /** A single record as a one-element list. */
  function Single(rec: Result<FlatRecord>): Result<seq<FlatRecord>> {
    var r :- rec;
    Ok([r])
  }

  /** The records of the resources of one flavor, in list order. */
  function ResourceRecords(q: Json, flavorName: Json, resources: seq<Json>): Result<seq<FlatRecord>>
    decreases |resources|
  {
    if resources == [] then Ok([])
    else Then(Single(ResourceRecord(q, flavorName, resources[0])), ResourceRecords(q, flavorName, resources[1..]))
  }

  /** The records of one flavor: its name is read before its resources. */
  function FlavorRecords(q: Json, flavor: Json): Result<seq<FlatRecord>> {
    var name :- Subscript(flavor, "name");
    var resources :- ResourceList(flavor);
    ResourceRecords(q, name, resources)
  }

  /** The records of a list of flavors, flavor by flavor. */
  function FlavorsRecords(q: Json, flavors: seq<Json>): Result<seq<FlatRecord>>
    decreases |flavors|
  {
    if flavors == [] then Ok([])
    else Then(FlavorRecords(q, flavors[0]), FlavorsRecords(q, flavors[1..]))
  }

  /** Reference definition of `get_flavors_status_field`. */
  function FlavorsStatusField(q: Json, statusField: string): Result<seq<FlatRecord>> {
    var flavors :- FlavorList(q, statusField);
    FlavorsRecords(q, flavors)
  }

  /** `get_flavors_status_field(q_entry, statusField)`: the nested loops that
      append one record per resource entry. */
  method GetFlavorsStatusField(q: Json, statusField: string) returns (r: Result<seq<FlatRecord>>)
    ensures r == FlavorsStatusField(q, statusField)
  {
    var flavors :- FlavorList(q, statusField);
    var reservations: seq<FlatRecord> := [];
    var i := 0;
    assert flavors[0..] == flavors;
    ThenUnit(FlavorsRecords(q, flavors));
    while i < |flavors|
      invariant 0 <= i <= |flavors|
      invariant FlavorsStatusField(q, statusField) == Then(Ok(reservations), FlavorsRecords(q, flavors[i..]))
    {
      var flavor := flavors[i];
      FlavorsRecordsStep(q, flavors, i);
      var name :- Subscript(flavor, "name");
      var resources :- ResourceList(flavor);
      assert resources[0..] == resources;
      ThenAssoc(Ok(reservations), ResourceRecords(q, name, resources), FlavorsRecords(q, flavors[i + 1..]));
      var j := 0;
      while j < |resources|
        invariant 0 <= j <= |resources|
        invariant FlavorsStatusField(q, statusField) ==
          Then(Ok(reservations), Then(ResourceRecords(q, name, resources[j..]), FlavorsRecords(q, flavors[i + 1..])))
      {
        ResourceRecordsStep(q, name, resources, j);
        var rec :- ResourceRecord(q, name, resources[j]);
        ThenAssoc(Ok([rec]), ResourceRecords(q, name, resources[j + 1..]), FlavorsRecords(q, flavors[i + 1..]));
        ThenShift(reservations, [rec], Then(ResourceRecords(q, name, resources[j + 1..]), FlavorsRecords(q, flavors[i + 1..])));
        reservations := reservations + [rec];
        j := j + 1;
      }
      ThenUnit(FlavorsRecords(q, flavors[i + 1..]));
      i := i + 1;
    }
    assert flavors[i..] == [] && reservations + [] == reservations;
    return Ok(reservations);
  }

  lemma ThenUnit(rest: Result<seq<FlatRecord>>)
    ensures Then(Ok([]), rest) == rest
  {
    if rest.Ok? { assert [] + rest.value == rest.value; }
  }

  lemma ThenAssoc(a: Result<seq<FlatRecord>>, b: Result<seq<FlatRecord>>, c: Result<seq<FlatRecord>>)
    ensures Then(a, Then(b, c)) == Then(Then(a, b), c)
  {
    if a.Ok? && b.Ok? && c.Ok? { assert a.value + (b.value + c.value) == (a.value + b.value) + c.value; }
  }

  lemma ThenShift(done: seq<FlatRecord>, more: seq<FlatRecord>, rest: Result<seq<FlatRecord>>)
    ensures Then(Ok(done), Then(Ok(more), rest)) == Then(Ok(done + more), rest)
  {
    if rest.Ok? { assert done + (more + rest.value) == (done + more) + rest.value; }
  }

  lemma FlavorsRecordsStep(q: Json, flavors: seq<Json>, i: nat)
    requires i < |flavors|
    ensures FlavorsRecords(q, flavors[i..]) == Then(FlavorRecords(q, flavors[i]), FlavorsRecords(q, flavors[i + 1..]))
  {
    assert flavors[i..][1..] == flavors[i + 1..];
  }

  lemma ResourceRecordsStep(q: Json, flavorName: Json, resources: seq<Json>, j: nat)
    requires j < |resources|
    ensures ResourceRecords(q, flavorName, resources[j..]) ==
      Then(Single(ResourceRecord(q, flavorName, resources[j])), ResourceRecords(q, flavorName, resources[j + 1..]))
  {
    assert resources[j..][1..] == resources[j + 1..];
  }

  /** One iteration of the loop in `parse_queue_lists`: both extractions of
      one queue, reservation first. */
  function QueueStep(q: Json, usageKey: string, reservationKey: string): Result<(seq<FlatRecord>, seq<FlatRecord>)> {
    var res :- FlavorsStatusField(q, reservationKey);
    var usage :- FlavorsStatusField(q, usageKey);
    Ok((res, usage))
  }

  /** Every queue is extracted, in order; the first failure is the outcome. */
  function CheckQueues(queues: seq<Json>, usageKey: string, reservationKey: string): Result<()>
    decreases |queues|
  {
    if queues == [] then Ok(())
    else
      var step :- QueueStep(queues[0], usageKey, reservationKey);
      CheckQueues(queues[1..], usageKey, reservationKey)
  }

  /** Reference definition of `parse_queue_lists`: every queue must extract,
      yet only the last queue's records are returned, because each iteration
      reassigns the two results instead of extending them. */
  function QueueLists(qs: Json, usageKey: string := LocalUsageKey, reservationKey: string := ReservationKey)
    : Result<(seq<FlatRecord>, seq<FlatRecord>)>
  {
    var queues :- Elements(qs);
    var _ :- CheckQueues(queues, usageKey, reservationKey);
    if queues == [] then Ok(([], []))
    else QueueStep(queues[|queues| - 1], usageKey, reservationKey)
  }

  /** `parse_queue_lists(qs, usage_key, reservation_key)`, as written. */
  method ParseQueueLists(qs: Json, usageKey: string := LocalUsageKey, reservationKey: string := ReservationKey)
    returns (r: Result<(seq<FlatRecord>, seq<FlatRecord>)>)
    ensures r == QueueLists(qs, usageKey, reservationKey)
  {
    var queues :- Elements(qs);
    var qRes: seq<FlatRecord>, qUsage: seq<FlatRecord> := [], [];
    var i := 0;
    assert queues[0..] == queues;
    while i < |queues|
      invariant 0 <= i <= |queues|
      invariant QueueLists(qs, usageKey, reservationKey) == Resume(queues[i..], (qRes, qUsage), usageKey, reservationKey)
    {
      ResumeStep(queues, i, (qRes, qUsage), usageKey, reservationKey);
      qRes :- GetFlavorsStatusField(queues[i], reservationKey);
      qUsage :- GetFlavorsStatusField(queues[i], usageKey);
      i := i + 1;
    }
    assert queues[i..] == [];
    return Ok((qRes, qUsage));
  }

  /** The outcome of the rest of the loop in `parse_queue_lists` once it has
      reached the queues `rest` holding the pair `current`. */
  function Resume(rest: seq<Json>, current: (seq<FlatRecord>, seq<FlatRecord>), usageKey: string, reservationKey: string)
    : Result<(seq<FlatRecord>, seq<FlatRecord>)>
  {
    var _ :- CheckQueues(rest, usageKey, reservationKey);
    if rest == [] then Ok(current) else QueueStep(rest[|rest| - 1], usageKey, reservationKey)
  }

  lemma ResumeStep(
    queues: seq<Json>, i: nat, current: (seq<FlatRecord>, seq<FlatRecord>), usageKey: string, reservationKey: string)
    requires i < |queues|
    ensures Resume(queues[i..], current, usageKey, reservationKey) ==
      match QueueStep(queues[i], usageKey, reservationKey)
      case Err(e) => Err(e)
      case Ok(step) => Resume(queues[i + 1..], step, usageKey, reservationKey)
  {
    assert queues[i..][1..] == queues[i + 1..];
    if i + 1 < |queues| { assert queues[i..][|queues[i..]| - 1] == queues[i + 1..][|queues[i + 1..]| - 1]; }
  }

  /** The four tables `aggregate_results` prints. */
  datatype Tables = Tables(
    clusterReservations: seq<FlatRecord>,
    clusterUsage: seq<FlatRecord>,
    localReservations: seq<FlatRecord>,
    localUsage: seq<FlatRecord>)

  /** The reshaping part of `aggregate_results(cqs, lqs)`, given the two
      responses already decoded. */
  function AggregateResults(cqs: Json, lqs: Json): Result<Tables> {
    var cqList :- Subscript(cqs, "items");
    var lqList :- Subscript(lqs, "items");
    var cq :- QueueLists(cqList, usageKey := ClusterUsageKey);
    var lq :- QueueLists(lqList);
    Ok(Tables(cq.0, cq.1, lq.0, lq.1))
  }
}
