# ConfigMap metrics store

A model of `configMapStore`, the persistence layer of the cluster agent's
custom-metrics provider. The store keeps three record kinds in the `Data` map
of a single Kubernetes ConfigMap:

- external metric values;
- pods metric descriptors;
- object metric descriptors.

Each entry's key is the composite string
`<category>-<subcategory>-<owner UID>-<metric name>`. The category is `value`
or `metric` and the subcategory is `external`, `pods` or `object`. Each value
is the record's JSON encoding.

The store caches the ConfigMap in its field `cm`. A write batch is staged into
the cached `Data` map in place and then written back with one update. A delete
scans the cached keys once per reference. A list call scans the entries and
keeps the ones that pass its key filter and that decode.

Files:

- `wrappers.dfy`: `Option`, standing for Go's nil-able pointers, maps and errors.
- `keys.dfy`: Go's `strings.Join` and unbounded `strings.Split` on `-`, the
  composite key, and what splitting a composite key yields.
- `backend.dfy`: the ConfigMap document, the error kinds, and the Kubernetes
  client as an abstract collaborator. The client holds its documents and a
  log of every call with its reply. Each call may fail. On failure the
  document it hands back is unspecified.
- `store_spec.dfy`: the records, the JSON codecs (function values that may
  fail), and functions on values that specify what each operation does to
  the `Data` map. It also holds the lemmas about them.
- `store.dfy`: the class `ConfigMapStore` with the source's methods and
  loops, each proved against those functions.

## Reading of the source

store.go does not compile at this revision. The model follows the evident intent:

- `SetExternalMetricValues` marshals `desc`, which is undefined (line 100).
  `SetPodsMetrics` and `SetObjectMetrics` build keys from `m`, which is
  undefined (lines 113, 127). The model keys and encodes the loop element
  itself.
- The log lines 103, 117 and 131 use `err` outside its scope. Lines 117 and
  131 also print the undefined `m`. Logging is not modelled.
- `ListAllPodsMetrics` and `ListAllObjectMetrics` return one value from a
  two-result function when `cm` is nil (lines 190, 213). The model returns
  the "not initialized" error and an empty list.
- `ListAllObjectMetrics` uses `parts` without defining it (line 217). The
  model splits the key on `-`, as its siblings do.

Behaviour the model keeps as written:

- The list filters use `&&` (lines 175, 198, 220). An entry is skipped only
  when both its category and its subcategory differ from the wanted ones.
  `StoreSpec.Kept` states this. `StoreSpec.DescriptorKindsOverlap` proves that
  each descriptor kind passes the other's filter. `StoreSpec.ExternalSeparated`
  proves that external values are kept apart from both descriptor kinds.
- Only `ListAllExternalMetricValues` re-fetches the ConfigMap (line 167). The
  pods and object lists read the cached copy and make no client call.
- `Delete` checks for a cached document before it checks for an empty batch
  (lines 138-143). So an empty batch on an uninitialized store is an error.
- `cm` is replaced by the client's reply even when the call fails
  (lines 251, 264).
- `strings.Split` is unbounded, so a metric name containing `-` yields more
  than four segments (`Keys.CompositeKeySegments`).

Behaviour the model corrects: the owner test of `Delete` (lines 147-153)
compares segment 2 with the UID. Only the UID's text before its first `-`
lands in segment 2, and Kubernetes UIDs contain `-`, so the scan as written
deletes none of the entries of such an owner (see "## Findings"). The model's
`Delete` removes a well-formed key when it starts with
`<segment 0>-<segment 1>-<UID>-`, which is how every key of that owner begins.
For a UID free of `-` the two tests agree (`StoreSpec.DeleteOwnerAgrees`),
so the correction changes only what happens to dashed UIDs.

## Model

| member | source | states |
|---|---|---|
| `Keys.Join` | pkg/clusteragent/custommetrics/store.go:99 | Go's `strings.Join` on `-`: no parts give the empty string, one part is itself, otherwise the first part and a `-` open the key |
| `Keys.Split` | pkg/clusteragent/custommetrics/store.go:147 | Go's unbounded `strings.Split` on `-`: always at least one segment (the empty key gives one empty segment) |
| `Keys.CompositeKey` | pkg/clusteragent/custommetrics/store.go:113 | the key is the category, the subcategory, the owner UID and the metric name, in that order, separated by single `-` characters |
| `Keys.SplitCount` | pkg/clusteragent/custommetrics/store.go:147 | `strings.Split` on `-` yields one segment more than the key has `-` characters |
| `Keys.SplitSegmentsFree` | pkg/clusteragent/custommetrics/store.go:147 | no segment of a split key contains `-` |
| `Keys.JoinSplit` | pkg/clusteragent/custommetrics/store.go:171 | joining the segments of a split with `-` restores the key |
| `Keys.SplitJoin` | pkg/clusteragent/custommetrics/store.go:99 | splitting a `strings.Join` of `-`-free parts gives back exactly those parts |
| `Keys.CompositeKeySplit` | pkg/clusteragent/custommetrics/store.go:113 | a composite key splits into its category, its subcategory, then the segments of `<uid>-<metric>` |
| `Keys.OwnedSegments` | pkg/clusteragent/custommetrics/store.go:127 | `<uid>-<metric>` has at least two segments; the first is `-`-free and equals the UID iff the UID has no `-`; it has exactly UID and metric iff neither has a `-` |
| `Keys.CompositeKeySegments` | pkg/clusteragent/custommetrics/store.go:147-148 | a composite key always has at least 4 segments with category and subcategory first; segment 2 is the UID iff the UID has no `-`; there are exactly 4 segments, equal to the four parts, iff UID and name have no `-` |
| `Backend.Client.Get` | pkg/clusteragent/custommetrics/store.go:57-71 | a get is logged with its reply; success returns the stored document; NotFound only when there is none; a missing document always gives an error, which may also be a permission or availability failure |
| `Backend.Client.Create` | pkg/clusteragent/custommetrics/store.go:81 | a create is logged; success stores and returns the document; AlreadyExists only when it already exists, an existing document always gives an error, other failures (permission among them) are possible, and a failure leaves the store unchanged; documents stay stored under their own names |
| `Backend.Client.Update` | pkg/clusteragent/custommetrics/store.go:264 | an update is logged; success replaces the stored document and returns it; NotFound only when absent, an absent document always gives an error; may fail (stale revision, permission or other), leaving the store unchanged; documents stay stored under their own names |
| `StoreSpec.ExternalKey` | pkg/clusteragent/custommetrics/store.go:99 | an external value's key is `value-external-<HPA UID>-<metric name>` |
| `StoreSpec.PodsKey` | pkg/clusteragent/custommetrics/store.go:113 | a pods descriptor's key is `metric-pods-<HPA UID>-<metric name>` |
| `StoreSpec.ObjectKey` | pkg/clusteragent/custommetrics/store.go:127 | an object descriptor's key is `metric-object-<HPA UID>-<metric name>` |
| `StoreSpec.Stage` | pkg/clusteragent/custommetrics/store.go:233-247 | `set`: without a cached document nothing changes; otherwise `Data` is materialised and, when encoding succeeds, only `key` changes and it now holds the JSON; all other keys keep their values |
| `StoreSpec.StageAll` | pkg/clusteragent/custommetrics/store.go:98-104 | staging a batch needs a cached document, keeps its name and namespace, and materialises `Data` for a non-empty batch |
| `StoreSpec.StageAllLatestWins` | pkg/clusteragent/custommetrics/store.go:98-104 | under a key, the value after a batch is the JSON of the latest record with that key that encodes |
| `StoreSpec.StageAllUntouched` | pkg/clusteragent/custommetrics/store.go:112-118 | a key that no encodable record of the batch maps to keeps its old value |
| `StoreSpec.DeleteOwner` | pkg/clusteragent/custommetrics/store.go:146-158 | one pass of the scan as written: a key remains iff it is well formed and its segment 2 is not the UID, so malformed keys and keys whose segment 2 is the UID go; remaining keys keep their values |
| `StoreSpec.DashedOwnerSurvives` | pkg/clusteragent/custommetrics/store.go:147-153 | as written, a pass for a UID containing `-` keeps every key of that owner, with its value |
| `StoreSpec.DeleteOwnerIntended` | pkg/clusteragent/custommetrics/store.go:146-158 | one pass of the corrected scan: a key remains iff it is well formed and not written for the UID, so malformed keys and every key written for the UID go; remaining keys keep their values |
| `StoreSpec.PrefixGivesSegment` | pkg/clusteragent/custommetrics/store.go:153 | a well-formed key that starts with `<segment 0>-<segment 1>-<uid>-`, for a UID free of `-`, has that UID as segment 2 |
| `StoreSpec.SegmentGivesPrefix` | pkg/clusteragent/custommetrics/store.go:153 | a well-formed key whose segment 2 is the UID starts with `<segment 0>-<segment 1>-<uid>-` |
| `StoreSpec.OwnedByDashFree` | pkg/clusteragent/custommetrics/store.go:147-156 | for a UID free of `-`, the corrected owner test holds iff segment 2 is the UID, the test as written |
| `StoreSpec.DeleteOwnerAgrees` | pkg/clusteragent/custommetrics/store.go:146-158 | for a UID free of `-`, the corrected pass and the pass as written keep exactly the same entries, so the correction changes only dashed UIDs |
| `StoreSpec.CompositeKeyOwned` | pkg/clusteragent/custommetrics/store.go:99-153 | every composite key is well formed and written for its own owner, whether or not the UID contains `-` |
| `StoreSpec.OwnerPrefixSeparates` | pkg/clusteragent/custommetrics/store.go:146-158 | a key of one owner is not written for another owner whose UID has the same length |
| `StoreSpec.DeleteAll` | pkg/clusteragent/custommetrics/store.go:144-159 | with the corrected owner test: after the scans for non-empty `refs`, a key remains iff it is well formed and written for none of the references' UIDs; remaining keys keep their values |
| `StoreSpec.Purge` | pkg/clusteragent/custommetrics/store.go:137-161 | with the corrected owner test: the cached document after the delete scans keeps name and namespace, keeps a nil `Data` nil, and keeps exactly the surviving entries with their values |
| `StoreSpec.DeleteRemovesOwned` | pkg/clusteragent/custommetrics/store.go:136-159 | with the corrected owner test: deleting a reference removes every composite key of any kind that it owns, whatever its UID (as written this holds only for UIDs free of `-`) |
| `StoreSpec.DeleteKeepsOthers` | pkg/clusteragent/custommetrics/store.go:136-159 | deleting references whose UIDs differ from a key's owner's UID but have its length keeps that key and its value |
| `StoreSpec.Kept` | pkg/clusteragent/custommetrics/store.go:172-177 | the `&&` filter keeps a key iff it is well formed and its category or its subcategory is the wanted one |
| `StoreSpec.ExternalKept` | pkg/clusteragent/custommetrics/store.go:172-177 | the external filter keeps only well-formed keys, those whose category is `value` or subcategory is `external` |
| `StoreSpec.PodsKept` | pkg/clusteragent/custommetrics/store.go:195-200 | the pods filter keeps only well-formed keys, those whose category is `metric` or subcategory is `pods` |
| `StoreSpec.ObjectKept` | pkg/clusteragent/custommetrics/store.go:217-222 | the object filter keeps only well-formed keys, those whose category is `metric` or subcategory is `object` |
| `StoreSpec.OwnKindKept` | pkg/clusteragent/custommetrics/store.go:171-177 | every record's own key passes its own kind's list filter, whatever its UID and metric name |
| `StoreSpec.ExternalSeparated` | pkg/clusteragent/custommetrics/store.go:194-200 | external value keys fail the pods and object filters; descriptor keys fail the external filter |
| `StoreSpec.DescriptorKindsOverlap` | pkg/clusteragent/custommetrics/store.go:216-222 | because the filters use `&&`, pods keys pass the object filter and object keys pass the pods filter |
| `StoreSpec.ListingOfPick` | pkg/clusteragent/custommetrics/store.go:170 | a listing does not depend on the order in which the map yields its keys |
| `StoreSpec.ListingOfMembers` | pkg/clusteragent/custommetrics/store.go:170-184 | a record is listed iff some entry passes the filter and decodes to it; malformed or undecodable entries contribute nothing |
| `StoreSpec.SetThenListExternal` | pkg/clusteragent/custommetrics/store.go:94-185 | with a round-tripping codec, staging one external value and listing the external values lists that value |
| `Store.ListEntries` | pkg/clusteragent/custommetrics/store.go:170-184 | the scan loop returns, as a multiset, exactly the decodings of the entries that pass the filter |
| `Store.ConfigMapStore.constructor` | pkg/clusteragent/custommetrics/store.go:60-65 | the store literal holds the given namespace, name, client and cached document |
| `Store.ConfigMapStore.NewConfigMapStore` | pkg/clusteragent/custommetrics/store.go:56-91 | one get; an existing document is cached unchanged; on NotFound only, the empty document with the given name and namespace is created and cached; any other failure yields no store and that error; with documents stored under their names, the cached document carries the store's name |
| `Store.ConfigMapStore.Set` | pkg/clusteragent/custommetrics/store.go:233-247 | the cache becomes `Stage` of the encoding; the error is "not initialized", then "marshal failed", else none |
| `Store.ConfigMapStore.GetConfigMap` | pkg/clusteragent/custommetrics/store.go:249-257 | one get call; its reply becomes `cm` and the error; on success `cm` is the stored document |
| `Store.ConfigMapStore.UpdateConfigMap` | pkg/clusteragent/custommetrics/store.go:259-270 | without a cached document, "not initialized" and no call; otherwise one update of the cached document whose reply becomes `cm` and the error |
| `Store.ConfigMapStore.SetBatch` | pkg/clusteragent/custommetrics/store.go:94-106 | empty batch: no error, no change, no call; otherwise the state after staging every record, then one update |
| `Store.ConfigMapStore.SetExternalMetricValues` | pkg/clusteragent/custommetrics/store.go:94-106 | `SetBatch` with keys `value-external-<HPA UID>-<name>` |
| `Store.ConfigMapStore.SetPodsMetrics` | pkg/clusteragent/custommetrics/store.go:108-120 | `SetBatch` with keys `metric-pods-<HPA UID>-<name>` |
| `Store.ConfigMapStore.SetObjectMetrics` | pkg/clusteragent/custommetrics/store.go:122-134 | `SetBatch` with keys `metric-object-<HPA UID>-<name>` |
| `Store.ConfigMapStore.DeleteOwnerScan` | pkg/clusteragent/custommetrics/store.go:146-158 | the inner loop, with the corrected owner test, removes exactly the malformed keys and the keys written for the UID |
| `Store.ConfigMapStore.Delete` | pkg/clusteragent/custommetrics/store.go:137-161 | with the corrected owner test: uninitialized gives an error and no call (even for an empty batch); an empty batch gives no error and no call; otherwise exactly one update of `Purge` of the cached document |
| `Store.ConfigMapStore.ListAllExternalMetricValues` | pkg/clusteragent/custommetrics/store.go:165-186 | one get; on failure the error and an empty list; otherwise the fetched document's decodable entries passing the external filter, as a multiset |
| `Store.ConfigMapStore.ListAllPodsMetrics` | pkg/clusteragent/custommetrics/store.go:188-209 | no client call; uninitialized gives "not initialized"; otherwise the cached document's decodable entries passing the pods filter, as a multiset |
| `Store.ConfigMapStore.ListAllObjectMetrics` | pkg/clusteragent/custommetrics/store.go:211-231 | no client call; uninitialized gives "not initialized"; otherwise the cached document's decodable entries passing the object filter, as a multiset |
| `Store.SetThenList` | pkg/clusteragent/custommetrics/store.go:56-186 | a caller that opens a store, sets one external value and then lists, each without error, finds that value in the list |

## Findings

| source | as written | input that shows it | evidently intended | confidence | as-written member | corrected member |
|---|---|---|---|---|---|---|
| pkg/clusteragent/custommetrics/store.go:147-153 | `Delete` compares segment 2 of the unbounded split with the UID, and segment 2 holds only the UID's text before its first `-` | UID `a-b`, key `value-external-a-b-m`: segment 2 is `a`, so deleting the reference keeps the key | the comment at line 136: every metric of a deleted reference goes, dashed UIDs included | not executed; high, since the lemma holds for every dashed UID | `StoreSpec.DeleteOwner`, `StoreSpec.DashedOwnerSurvives` | `StoreSpec.DeleteOwnerIntended`, `StoreSpec.CompositeKeyOwned`, `StoreSpec.DeleteRemovesOwned`, `StoreSpec.OwnedByDashFree`, `StoreSpec.DeleteOwnerAgrees`, `StoreSpec.DeleteAll`, `StoreSpec.Purge`, `Store.ConfigMapStore.DeleteOwnerScan`, `Store.ConfigMapStore.Delete` |

## Left out

- The Kubernetes client (`ConfigMaps(ns).Get/Create/Update`, lines 57, 81,
  251, 264) is an abstract class. It keeps its documents and a call log, and
  it fails nondeterministically. A stale revision is one such failure.
  Revisions and metadata other than name and namespace are not modelled.
- `encoding/json` is not modelled. Each record kind has a pair of function
  values, marshal and unmarshal, each of which may fail. The round-trip
  lemmas assume the pair round-trips.
- Record fields beyond the metric name and the owner reference (UID and name)
  are not modelled. External values also carry an integer value.
- Logging (`log.Infof`, `log.Debugf`) is not modelled, nor is the
  configuration lookup `GetHPAConfigmapName` (lines 50-52).
- The `Store` interface (lines 29-39) is the class's own method set. Dafny
  traits are not used.
- Concurrency is not modelled: neither several replicas sharing one
  ConfigMap nor several callers of one store.
- `Data` is a value, not a shared Go map. After a staged write, the model's
  cached document and the document sent to the client cannot alias.
- The delete loop ranges over a snapshot of the keys taken when the scan
  starts. Go ranges over the live map. Each step deletes only the current
  key, so both versions visit the same keys.
- ListAllExternalMetricValues: returns an empty sequence where Go returns a
  nil slice. Both have no elements.
- ListAllPodsMetrics: returns an empty sequence for the uninitialized case.
  The Go function as written does not compile there (line 190).
- ListAllObjectMetrics: returns an empty sequence for the uninitialized case.
  The Go function as written does not compile there (line 213).
- DeleteOwnerIntended: a prefix test cannot tell UID `a` from UID `a-b`, so deleting `a` also removes the keys of `a-b`. `StoreSpec.OwnerPrefixSeparates` rules this out only for UIDs of equal length, which Kubernetes UIDs have.
- The store's use of the client's failure kinds is coarse. Permission and availability failures are nondeterministic and carry no detail.
