/**
  Concrete decoded Kueue responses and what the `info` core makes of them:
  a cluster queue `cq1` with one flavor `default` that reserves 4 and uses 2
  cpu, listed next to an empty list of local queues.
 */
module InfoExamples {
  import opened PyJson
  import opened Info

  /** A resource entry `{"name": "cpu", "total": total}`. */
  function CpuEntry(total: string): Json {
    Obj([("name", Str("cpu")), ("total", Str(total))])
  }

  /** A flavor entry `{"name": "default", "resources": [...]}`. */
  function DefaultFlavor(resources: seq<Json>): Json {
    Obj([("name", Str("default")), ("resources", Arr(resources))])
  }

  /** A ClusterQueue object with the given name and both status fields. */
  function ClusterQueue(name: string, reservation: seq<Json>, usage: seq<Json>): Json {
    Obj([("metadata", Obj([("name", Str(name))])),
         ("status", Obj([("flavorsReservation", Arr(reservation)), ("flavorsUsage", Arr(usage))]))])
  }

  /** A list response `{"items": [...]}`. */
  function ListResponse(items: seq<Json>): Json {
    Obj([("items", Arr(items))])
  }

  /** The paths the extractor follows resolve in a ClusterQueue object. */
  lemma ClusterQueueFields(name: string, reservation: seq<Json>, usage: seq<Json>)
    ensures QueueName(ClusterQueue(name, reservation, usage)) == Ok(Str(name))
    ensures FlavorList(ClusterQueue(name, reservation, usage), ReservationKey) == Ok(reservation)
    ensures FlavorList(ClusterQueue(name, reservation, usage), ClusterUsageKey) == Ok(usage)
  {
    var metadata := Obj([("name", Str(name))]);
    var status := Obj([("flavorsReservation", Arr(reservation)), ("flavorsUsage", Arr(usage))]);
    LookupTwo("metadata", metadata, "status", status, "metadata");
    LookupTwo("metadata", metadata, "status", status, "status");
    LookupOne("name", Str(name), "name");
    LookupTwo("flavorsReservation", Arr(reservation), "flavorsUsage", Arr(usage), ReservationKey);
    LookupTwo("flavorsReservation", Arr(reservation), "flavorsUsage", Arr(usage), ClusterUsageKey);
  }

  /** The flavor `default` with one cpu entry gives one record per queue. */
  lemma DefaultCpuRecords(q: Json, total: string)
    requires QueueName(q).Ok?
    ensures FlavorsRecords(q, [DefaultFlavor([CpuEntry(total)])]) ==
      Ok([FlatRecord(QueueName(q).value, Str("default"), Str("cpu"), Str(total))])
  {
    var flavor := DefaultFlavor([CpuEntry(total)]);
    var rec := FlatRecord(QueueName(q).value, Str("default"), Str("cpu"), Str(total));
    LookupTwo("name", Str("default"), "resources", Arr([CpuEntry(total)]), "name");
    LookupTwo("name", Str("default"), "resources", Arr([CpuEntry(total)]), "resources");
    LookupTwo("name", Str("cpu"), "total", Str(total), "name");
    LookupTwo("name", Str("cpu"), "total", Str(total), "total");
    assert ResourceList(flavor) == Ok([CpuEntry(total)]);
    assert ResourceRecord(q, Str("default"), CpuEntry(total)) == Ok(rec);
    assert [CpuEntry(total)][1..] == [] && [rec] + [] == [rec];
    assert ResourceRecords(q, Str("default"), [CpuEntry(total)]) == Ok([rec]);
    assert [flavor][1..] == [];
    assert FlavorRecords(q, flavor) == Ok([rec]);
  }

  /** One cluster queue that extracts, beside no local queues: its two
      lists become the cluster tables and the local tables are empty. */
  lemma OneClusterQueue(cq: Json, s: (seq<FlatRecord>, seq<FlatRecord>))
    requires QueueStep(cq, ClusterUsageKey, ReservationKey) == Ok(s)
    ensures AggregateResults(ListResponse([cq]), ListResponse([])) == Ok(Tables(s.0, s.1, [], []))
  {
    assert [cq][1..] == [];
    assert CheckQueues([cq], ClusterUsageKey, ReservationKey) == Ok(());
    assert QueueLists(Arr([cq]), ClusterUsageKey) == Ok(s);
    assert QueueLists(Arr([])) == Ok(([], []));
    LookupOne("items", Arr([cq]), "items");
    LookupOne("items", Arr([]), "items");
  }

  /** `cq1` reserving 4 and using 2 cpu of flavor `default`, beside no local
      queues: one reservation row with total 4, one usage row with total 2,
      and two empty local tables. */
  lemma ClusterQueueExample()
    ensures AggregateResults(
        ListResponse([ClusterQueue("cq1", [DefaultFlavor([CpuEntry("4")])], [DefaultFlavor([CpuEntry("2")])])]),
        ListResponse([])) ==
      Ok(Tables([FlatRecord(Str("cq1"), Str("default"), Str("cpu"), Str("4"))],
                [FlatRecord(Str("cq1"), Str("default"), Str("cpu"), Str("2"))],
                [], []))
  {
    var cq1 := ClusterQueue("cq1", [DefaultFlavor([CpuEntry("4")])], [DefaultFlavor([CpuEntry("2")])]);
    var reserved := FlatRecord(Str("cq1"), Str("default"), Str("cpu"), Str("4"));
    var used := FlatRecord(Str("cq1"), Str("default"), Str("cpu"), Str("2"));
    ClusterQueueFields("cq1", [DefaultFlavor([CpuEntry("4")])], [DefaultFlavor([CpuEntry("2")])]);
    DefaultCpuRecords(cq1, "4");
    DefaultCpuRecords(cq1, "2");
    assert QueueStep(cq1, ClusterUsageKey, ReservationKey) == Ok(([reserved], [used]));
    OneClusterQueue(cq1, ([reserved], [used]));
  }
}
