# xpk `info`: flattening Kueue queue status into tables

The `info` command of xpk (`src/xpk/commands/info.py`) lists the Kueue
ClusterQueues and LocalQueues of a cluster with `kubectl kueue list … -o json`.
It then prints four tables: cluster-queue reservations, cluster-queue usage,
local-queue reservations and local-queue usage. This project models the part
of the command that turns the decoded JSON into those tables, and proves
what it does.

- `get_flavors_status_field(q_entry, statusField)` walks
  `status[statusField]` of one queue object. For every flavor, and every
  resource entry of that flavor, it appends one record
  `{queueName, flavorName, resource, total}`.
- `parse_queue_lists(qs, usage_key, reservation_key)` runs the extractor on
  each queue object twice, for the reservation key and then for the usage
  key.
- `aggregate_results(cqs, lqs)` takes the `items` of both responses and
  parses the cluster queues with usage key `flavorsUsage`. It parses the
  local queues with the defaults, `flavorUsage` and `flavorsReservation`.

Modules:

- `PyJson` (`pyjson.dfy`) covers decoded JSON as Python sees it:
  - an object keeps its members in order, and the last duplicate key wins;
  - `v[key]` is `Subscript`;
  - `for x in v` is `Elements` (a list's elements, a dict's distinct keys,
    a str's characters);
  - Python's exceptions are the `Err` side of a `Result` (KeyError, and a
    TypeError for subscripting or iterating the wrong kind of value).
- `Info` (`info.dfy`) holds the three functions:
  - the extractor and the parser are imperative methods, proved against
    the reference functions `FlavorsStatusField` and `QueueLists`;
  - the aggregation is a function.
- `InfoProperties` (`info_properties.dfy`) proves what these compute:
  - success conditions, count, order and provenance of the records;
  - the exceptions raised;
  - the last-queue behaviour of the parser;
  - the four tables.
- `InfoExamples` (`info_examples.dfy`) holds a concrete pair of responses
  and the tables they give.
- `InfoFindings` (`info_findings.dfy`) covers the defect below and its
  correction.

`parse_queue_lists` assigns `q_res` and `q_usage` afresh on every iteration
instead of extending them. Only the last queue's records are returned, but
every queue is still extracted, so an earlier queue can still make the call
fail. The model follows this code as written, and `AggregateResults` uses it.
The evident intent is one row per resource entry of *every* queue. The
docstring of `aggregate_results` (info.py:107) says it aggregates the listed
queues. That intent is the corrected `InfoFindings.AccumulatedQueueLists`;
see "## Findings".

Likewise, the default local-queue usage key `flavorUsage` (singular) differs
from the cluster key `flavorsUsage`. This may be an inconsistency, but the
model reads exactly the keys the code passes and does not claim a defect.
Which name Kueue's LocalQueue status actually uses is outside this
repository.

## Model

| member | source | states |
|---|---|---|
| Info.GetFlavorsStatusField | src/xpk/commands/info.py:134-157 | The nested loops compute exactly `FlavorsStatusField`: the same records in the same order, or the same exception at the same point. |
| Info.ParseQueueLists | src/xpk/commands/info.py:126-132 | The loop computes exactly `QueueLists`: every queue is extracted in order, reservation key first, and the pair left after the last iteration is returned. |
| InfoProperties.ExtractSucceedsIff | src/xpk/commands/info.py:143-155 | The extractor returns normally if and only if `status` and its field exist and are iterable, and every flavor has a `name` and an iterable `resources`. In addition, when there is at least one resource entry, the queue has `metadata.name`, and every entry has `name` and `total`. |
| InfoProperties.ExtractedRecordsTrace | src/xpk/commands/info.py:146-157 | On success there is one record per resource entry, and the length is the sum of the flavors' resource-list lengths. Flavor i's records follow those of flavors 0..i-1, in resource order. Every record holds the queue's `metadata.name`, the flavor's `name` and the entry's `name` and `total`, copied unchanged. |
| InfoProperties.ExtractErrors | src/xpk/commands/info.py:143-155 | A queue object without `status` raises KeyError('status'). A status without the field raises KeyError(statusField). Every failure is a KeyError for one of the keys read, or a TypeError. |
| InfoProperties.MetadataReadPerResource | src/xpk/commands/info.py:148-152 | `metadata.name` is read only inside the inner loop. With no resource entries the result is empty even when the metadata is missing. Otherwise a missing queue name is the exception raised. |
| InfoProperties.ResourceRecordsOkIff | src/xpk/commands/info.py:150-156 | The inner loop over one flavor's resources succeeds if and only if the list is empty, or the queue name and every entry's `name` and `total` are present. |
| InfoProperties.FlavorsRecordsOkIff | src/xpk/commands/info.py:148-156 | The outer loop succeeds if and only if every flavor has a `name` and an iterable `resources` and its inner loop succeeds. |
| InfoProperties.ResourceRecordsTrace | src/xpk/commands/info.py:150-156 | For one flavor, record j is built from resource entry j, one record per entry. |
| InfoProperties.FlavorsRecordsTrace | src/xpk/commands/info.py:148-156 | The records of a flavor list are the concatenation, flavor by flavor, of each flavor's records. |
| InfoProperties.ResourceRecordsErrors | src/xpk/commands/info.py:150-155 | An inner-loop failure is a KeyError('metadata'), KeyError('name') or KeyError('total'), or the TypeError of subscripting a value that is not a dict. |
| InfoProperties.FlavorsRecordsErrors | src/xpk/commands/info.py:148-155 | An outer-loop failure is one of the inner loop's exceptions, a KeyError('resources'), or the TypeError of iterating a value that is not iterable. |
| InfoProperties.Tiling | src/xpk/commands/info.py:148-151 | Every position below the total number of records is the offset of flavor i plus j, for some flavor i and some entry j of that flavor. |
| InfoProperties.FlattensUnique | src/xpk/commands/info.py:146-157 | Two outputs that both flatten the same flavor list are equal. So the count, order and provenance stated by `ExtractedRecordsTrace` determine the result completely. |
| InfoProperties.CheckQueuesOutcome | src/xpk/commands/info.py:129-131 | Running the loop over the queues succeeds if and only if every queue extracts under both keys. Otherwise the exception is that of the first queue that fails. |
| InfoProperties.QueueStepOutcome | src/xpk/commands/info.py:130-131 | One iteration succeeds if and only if both extractions do. A failure is the reservation key's exception, or, when that extraction succeeds, the usage key's. |
| InfoProperties.QueueListsEmpty | src/xpk/commands/info.py:128-132 | An empty queue list gives two empty lists. |
| InfoProperties.QueueListsLastOnly | src/xpk/commands/info.py:129-132 | When a non-empty list parses, the result is the last queue's reservation and usage records. This is the same as parsing a list holding the last queue alone. |
| InfoProperties.QueueListsOutcome | src/xpk/commands/info.py:129-132 | Parsing succeeds if and only if every queue extracts under both keys. A failure is the exception of the first failing queue, with the reservation key tried before the usage key. |
| InfoProperties.AggregateNeedsItems | src/xpk/commands/info.py:114-115 | A response without `items` fails with KeyError('items'), and the cluster response is read first. `{}` is such a response. |
| InfoProperties.AggregateTables | src/xpk/commands/info.py:114-118 | The cluster tables are the `flavorsReservation` and `flavorsUsage` records of the last cluster queue. The local tables are the `flavorsReservation` and `flavorUsage` records of the last local queue. A kind with no queues gives two empty tables. |
| InfoProperties.AggregateEmpty | src/xpk/commands/info.py:114-118 | Two responses with empty `items` give four empty tables, not an error. |
| InfoExamples.ClusterQueueFields | src/xpk/commands/info.py:143-144 | In a ClusterQueue object both status fields resolve to their flavor lists, and `metadata.name` resolves to its name. |
| InfoExamples.DefaultCpuRecords | src/xpk/commands/info.py:148-156 | The flavor `default` with one `cpu` entry gives one record with that total. |
| InfoExamples.OneClusterQueue | src/xpk/commands/info.py:114-118 | One extractable cluster queue beside no local queues gives that queue's two lists and two empty local tables. |
| InfoExamples.ClusterQueueExample | src/xpk/commands/info.py:114-157 | Cluster queue `cq1` reserves 4 cpu and uses 2 cpu of flavor `default`, and there are no local queues. The result is one reservation row (cq1, default, cpu, 4), one usage row with total 2, and two empty local tables. |
| PyJson.LookupLastOccurrence | src/xpk/commands/info.py:114 | `json.loads` keeps a repeated key's last value. A lookup fails with KeyError(key) if and only if no member has the key. Otherwise it yields the value of the last member with that key. |
| PyJson.SubscriptOutcome | src/xpk/commands/info.py:143-155 | `v[key]` succeeds if and only if `v` is an object with that key. It raises KeyError(key) on an object without it, and TypeError on anything else. |
| PyJson.DistinctKeysSpec | src/xpk/commands/info.py:148-150 | Iterating a dict yields every key of the object, each only once. |
| PyJson.ElementsShape | src/xpk/commands/info.py:148-150 | A `for` loop over a list yields its elements. Over a dict, iteration k yields its k-th distinct key. Over a str, iteration k yields its k-th character as a one-character string. It raises TypeError on numbers, bools and None. |
| InfoFindings.AccumulateFailsLikeAsWritten | src/xpk/commands/info.py:129-131 | The corrected parser fails in exactly the same cases, with the same exception, as the parser as written. |
| InfoFindings.AccumulateKeepsEveryQueue | src/xpk/commands/info.py:126-132 | In the corrected parser, the result lengths are the sums of every queue's record counts, and every queue's records are among the results. |
| InfoFindings.AsWrittenIsLastBlock | src/xpk/commands/info.py:129-132 | What the parser as written returns is a suffix of what the corrected parser returns, so the records of all earlier queues are dropped. |
| InfoFindings.AccumulateEndsWithLast | src/xpk/commands/info.py:129-131 | The corrected parser's results end with the last queue's two lists. |
| InfoFindings.TwoQueues | src/xpk/commands/info.py:129-132 | With two extractable queues, the parser as written returns the second queue's lists, and the corrected parser returns both concatenated. |
| InfoFindings.TwoQueuesKeepOnlyTheLast | src/xpk/commands/info.py:129-132 | Queues `a` and `b` each reserve one cpu entry. The parser as written returns only b's record, and the corrected parser returns both. |
| InfoFindings.OneCpuRecords | src/xpk/commands/info.py:143-157 | A cluster queue reserving one cpu entry yields one reservation record and no usage records. |

## Left out

- `info`, `prepare_kueuectl`, `apply_shared_flags`, `run_kueuectl_list_localqueue` and `run_kueuectl_list_clusterqueue` are left out. They run shell commands (gcloud, kubectl, kueuectl) and exit the process, so they are I/O and not part of this model.
- Decoding the JSON text with `json.loads` is not modelled: `AggregateResults` takes both responses already decoded. Malformed text and Python's `NaN`/`Infinity` extensions are not modelled either.
- The four `tabulate`/`xpk_print` calls in `aggregate_results` are output, so `AggregateResults` returns the four tables instead of printing them.
- Cluster selection, zone/project defaulting and the Kueue installation check are left out. They belong to other modules (`cluster`, `core`, `kueue`), and those modules are not part of this model.
- JSON numbers are represented as `int` or `real`. Totals are copied verbatim, so no arithmetic is done on them, and no floating-point behaviour is modelled.
- The inputs are not modified because the model works on values: every operation takes immutable `Json` values. Python's sharing of dict objects between the records and the input is therefore not captured.
- Only KeyError and TypeError can come from the modelled lines themselves. Asynchronous or resource exceptions, such as KeyboardInterrupt or a MemoryError raised by `append` or while building a record dict, are not modelled.
- `AggregateResults`: the table contents follow the as-written parser, not the corrected one, because that is what the code does.

## Findings

| source | as written | input that shows it | evidently intended | confidence | as-written member | corrected member |
|---|---|---|---|---|---|---|
| src/xpk/commands/info.py:128-131 | Each iteration assigns `q_res` and `q_usage` to the current queue's records, so only the last queue's records are returned. | A cluster-queue list of two queues `a` and `b`, each reserving one cpu entry: the reservation table holds b's row only. | Both lists are extended with every queue's records. | high; not executed | InfoFindings.TwoQueuesKeepOnlyTheLast | InfoFindings.AccumulateKeepsEveryQueue |
