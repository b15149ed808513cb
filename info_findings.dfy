/**
  `parse_queue_lists` reassigns its two results on every iteration, so a
  list of several queues reports the records of the last one only. This
  module exhibits the loss on a concrete input and gives the accumulating
  parser the command evidently intends, with what it is proved to keep.
 */
module InfoFindings {
  import opened PyJson
  import opened Info
  import opened InfoProperties
  import opened InfoExamples

  /** The intended loop: each queue's records are appended to the results. */
  function Accumulate(queues: seq<Json>, usageKey: string, reservationKey: string)
    : Result<(seq<FlatRecord>, seq<FlatRecord>)>
    decreases |queues|
  {
    if queues == [] then Ok(([], []))
    else
      var step :- QueueStep(queues[0], usageKey, reservationKey);
      var rest :- Accumulate(queues[1..], usageKey, reservationKey);
      Ok((step.0 + rest.0, step.1 + rest.1))
  }

  /** parse_queue_lists with both results extended, not reassigned, per queue. */
  function AccumulatedQueueLists(qs: Json, usageKey: string := LocalUsageKey, reservationKey: string := ReservationKey)
    : Result<(seq<FlatRecord>, seq<FlatRecord>)>
  {
    var queues :- Elements(qs);
    Accumulate(queues, usageKey, reservationKey)
  }

  /** The number of records a list of queues holds under one status key. */
  function RecordCount(queues: seq<Json>, statusField: string): nat
    decreases |queues|
  {
    if queues == [] then 0
    else
      (if FlavorsStatusField(queues[0], statusField).Ok? then |FlavorsStatusField(queues[0], statusField).value| else 0)
      + RecordCount(queues[1..], statusField)
  }

  /** The accumulating parser fails exactly when the parser as written
      does, with the same exception. */
  lemma {:induction false} AccumulateFailsLikeAsWritten(queues: seq<Json>, usageKey: string, reservationKey: string)
    ensures Accumulate(queues, usageKey, reservationKey).Ok? <==> CheckQueues(queues, usageKey, reservationKey).Ok?
    ensures Accumulate(queues, usageKey, reservationKey).Err? ==>
      Accumulate(queues, usageKey, reservationKey).error == CheckQueues(queues, usageKey, reservationKey).error
    decreases |queues|
  {
    if queues != [] {
      AccumulateFailsLikeAsWritten(queues[1..], usageKey, reservationKey);
    }
  }

  /** The intended property: the results hold the records of every queue,
      so their lengths are the sums over all queues of the extracted
      records, and every queue's records are among them. */
  lemma {:induction false} AccumulateKeepsEveryQueue(
    queues: seq<Json>, usageKey: string, reservationKey: string, p: (seq<FlatRecord>, seq<FlatRecord>))
    requires Accumulate(queues, usageKey, reservationKey) == Ok(p)
    ensures |p.0| == RecordCount(queues, reservationKey) && |p.1| == RecordCount(queues, usageKey)
    ensures forall k :: 0 <= k < |queues| ==>
      && FlavorsStatusField(queues[k], reservationKey).Ok?
      && FlavorsStatusField(queues[k], usageKey).Ok?
      && multiset(FlavorsStatusField(queues[k], reservationKey).value) <= multiset(p.0)
      && multiset(FlavorsStatusField(queues[k], usageKey).value) <= multiset(p.1)
    decreases |queues|
  {
    if queues != [] {
      var step := QueueStep(queues[0], usageKey, reservationKey).value;
      var rest := Accumulate(queues[1..], usageKey, reservationKey).value;
      assert p == (step.0 + rest.0, step.1 + rest.1);
      AccumulateKeepsEveryQueue(queues[1..], usageKey, reservationKey, rest);
      assert multiset(p.0) == multiset(step.0) + multiset(rest.0);
      assert multiset(p.1) == multiset(step.1) + multiset(rest.1);
      forall k | 0 < k < |queues|
        ensures queues[k] == queues[1..][k - 1]
      {
      }
    }
  }

  /** `w` is a suffix of `x`. */
  predicate EndsWith<T(==)>(x: seq<T>, w: seq<T>) {
    |w| <= |x| && x[|x| - |w|..] == w
  }

  /** A suffix of `y` is a suffix of `x + y`. */
  lemma EndsConcat<T>(x: seq<T>, y: seq<T>, w: seq<T>)
    requires EndsWith(y, w)
    ensures EndsWith(x + y, w)
  {
    assert (x + y)[|x + y| - |w|..] == y[|y| - |w|..];
  }

  /** One unfolding of a successful accumulation. */
  lemma AccumulateCons(
    queues: seq<Json>, usageKey: string, reservationKey: string, p: (seq<FlatRecord>, seq<FlatRecord>))
    requires queues != []
    requires Accumulate(queues, usageKey, reservationKey) == Ok(p)
    ensures QueueStep(queues[0], usageKey, reservationKey).Ok?
    ensures Accumulate(queues[1..], usageKey, reservationKey).Ok?
    ensures var step := QueueStep(queues[0], usageKey, reservationKey).value;
      var rest := Accumulate(queues[1..], usageKey, reservationKey).value;
      p == (step.0 + rest.0, step.1 + rest.1)
  {
  }

  /** The accumulated results end with the two lists of the last queue. */
  lemma {:induction false} AccumulateEndsWithLast(
    queues: seq<Json>, usageKey: string, reservationKey: string, p: (seq<FlatRecord>, seq<FlatRecord>))
    requires queues != []
    requires Accumulate(queues, usageKey, reservationKey) == Ok(p)
    ensures QueueStep(queues[|queues| - 1], usageKey, reservationKey).Ok?
    ensures EndsWith(p.0, QueueStep(queues[|queues| - 1], usageKey, reservationKey).value.0)
    ensures EndsWith(p.1, QueueStep(queues[|queues| - 1], usageKey, reservationKey).value.1)
    decreases |queues|
  {
    AccumulateCons(queues, usageKey, reservationKey, p);
    var step := QueueStep(queues[0], usageKey, reservationKey).value;
    var rest := Accumulate(queues[1..], usageKey, reservationKey).value;
    if |queues| == 1 {
      assert queues[1..] == [];
      assert p.0 == step.0 + [] && p.1 == step.1 + [];
      assert EndsWith(p.0, step.0) && EndsWith(p.1, step.1);
    } else {
      AccumulateEndsWithLast(queues[1..], usageKey, reservationKey, rest);
      assert queues[1..][|queues[1..]| - 1] == queues[|queues| - 1];
      var s := QueueStep(queues[|queues| - 1], usageKey, reservationKey).value;
      EndsConcat(step.0, rest.0, s.0);
      EndsConcat(step.1, rest.1, s.1);
    }
  }

  /** What the parser as written returns is the tail of what the
      accumulating parser returns: the records of the last queue, with
      those of all earlier queues dropped in front of them. */
  lemma AsWrittenIsLastBlock(
    queues: seq<Json>, usageKey: string, reservationKey: string, p: (seq<FlatRecord>, seq<FlatRecord>))
    requires queues != []
    requires Accumulate(queues, usageKey, reservationKey) == Ok(p)
    ensures QueueLists(Arr(queues), usageKey, reservationKey).Ok?
    ensures EndsWith(p.0, QueueLists(Arr(queues), usageKey, reservationKey).value.0)
    ensures EndsWith(p.1, QueueLists(Arr(queues), usageKey, reservationKey).value.1)
  {
    AccumulateFailsLikeAsWritten(queues, usageKey, reservationKey);
    AccumulateEndsWithLast(queues, usageKey, reservationKey, p);
    assert Elements(Arr(queues)) == Ok(queues);
  }

  /** A cluster queue reserving `total` cpu of flavor `default`, with no
      usage. */
  function OneCpuQueue(name: string, total: string): Json {
    ClusterQueue(name, [DefaultFlavor([CpuEntry(total)])], [])
  }

  /** The one reservation record of such a queue. */
  lemma OneCpuRecords(name: string, total: string)
    ensures FlavorsStatusField(OneCpuQueue(name, total), ReservationKey) ==
      Ok([FlatRecord(Str(name), Str("default"), Str("cpu"), Str(total))])
    ensures FlavorsStatusField(OneCpuQueue(name, total), ClusterUsageKey) == Ok([])
  {
    var q := OneCpuQueue(name, total);
    ClusterQueueFields(name, [DefaultFlavor([CpuEntry(total)])], []);
    DefaultCpuRecords(q, total);
  }

  /** With two queues that both extract, the parser as written returns the
      second one's lists and the accumulating parser both, concatenated. */
  lemma TwoQueues(
    a: Json, b: Json, usageKey: string, reservationKey: string,
    sa: (seq<FlatRecord>, seq<FlatRecord>), sb: (seq<FlatRecord>, seq<FlatRecord>))
    requires QueueStep(a, usageKey, reservationKey) == Ok(sa)
    requires QueueStep(b, usageKey, reservationKey) == Ok(sb)
    ensures QueueLists(Arr([a, b]), usageKey, reservationKey) == Ok(sb)
    ensures AccumulatedQueueLists(Arr([a, b]), usageKey, reservationKey) == Ok((sa.0 + sb.0, sa.1 + sb.1))
  {
    assert [a, b][1..] == [b] && [b][1..] == [];
    assert CheckQueues([b], usageKey, reservationKey) == Ok(());
    assert CheckQueues([a, b], usageKey, reservationKey) == Ok(());
    assert Elements(Arr([a, b])) == Ok([a, b]);
    assert sb.0 + [] == sb.0 && sb.1 + [] == sb.1;
    assert Accumulate([b], usageKey, reservationKey) == Ok(sb);
  }

  /** The defect on a concrete input: of two cluster queues `a` and `b`,
      each reserving one cpu, parse_queue_lists returns the reservation
      record of `b` alone, while the accumulating parser keeps both. */
  lemma TwoQueuesKeepOnlyTheLast()
    ensures QueueLists(Arr([OneCpuQueue("a", "1"), OneCpuQueue("b", "2")]), ClusterUsageKey) ==
      Ok(([FlatRecord(Str("b"), Str("default"), Str("cpu"), Str("2"))], []))
    ensures AccumulatedQueueLists(Arr([OneCpuQueue("a", "1"), OneCpuQueue("b", "2")]), ClusterUsageKey) ==
      Ok(([FlatRecord(Str("a"), Str("default"), Str("cpu"), Str("1")),
           FlatRecord(Str("b"), Str("default"), Str("cpu"), Str("2"))], []))
  {
    var recA := FlatRecord(Str("a"), Str("default"), Str("cpu"), Str("1"));
    var recB := FlatRecord(Str("b"), Str("default"), Str("cpu"), Str("2"));
    OneCpuRecords("a", "1");
    OneCpuRecords("b", "2");
    var none: seq<FlatRecord> := [];
    TwoQueues(OneCpuQueue("a", "1"), OneCpuQueue("b", "2"), ClusterUsageKey, ReservationKey,
              ([recA], none), ([recB], none));
    assert [recA] + [recB] == [recA, recB] && none + none == none;
  }
}
