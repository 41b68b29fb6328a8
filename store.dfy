/**
 * `configMapStore`: a store of custom and external metrics kept in one
 * ConfigMap.  The store caches the document in `cm`, stages writes into the
 * cached `Data` map in place and writes the whole document back with one
 * update per batch.
 */
module Store {
  import opened Wrappers
  import opened Keys
  import opened Backend
  import opened StoreSpec

  /**
   * The scan loop of the list calls: ranges over `data` in whatever order the
   * map yields its keys and appends every kept entry that decodes.
   */
  method ListEntries<R>(data: map<string, string>, keep: string -> bool, decode: string -> Option<R>)
    returns (rs: seq<R>)
    ensures multiset(rs) == Listing(data, keep, decode)
  {
    rs := [];
    var keys := data.Keys;
    while keys != {}
      invariant keys <= data.Keys
      invariant multiset(rs) + ListingOf(data, keys, keep, decode) == Listing(data, keep, decode)
      decreases keys
    {
      var k :| k in keys;
      ListingOfPick(data, keys, keep, decode, k);
      if keep(k) {
        match decode(data[k]) {
          case Some(r) => rs := rs + [r];
          case None =>
        }
      }
      keys := keys - {k};
    }
  }

  /**
   * The calls `NewConfigMapStore` makes, appended to `before` to give `after`,
   * and the error it returns: a get of (ns, name); on "not found" only, a
   * create of the empty document with that name and namespace; the error is
   * that of the last call.
   */
  ghost predicate Bootstrapped(before: seq<Call>, after: seq<Call>, ns: string, name: string, err: Option<Error>) {
    && |before| < |after|
    && after[..|before|] == before
    && after[|before|].GetCall?
    && after[|before|].namespace == ns
    && after[|before|].name == name
    && if after[|before|].reply.err == Some(NotFound) then
         && |after| == |before| + 2
         && after[|before| + 1].CreateCall?
         && after[|before| + 1].namespace == ns
         && after[|before| + 1].doc == Document(name, ns, None)
         && err == after[|before| + 1].reply.err
       else
         |after| == |before| + 1 && err == after[|before|].reply.err
  }

  class ConfigMapStore {
    const namespace: string
    const name: string
    const client: Client
    const codecs: Codecs
    /** The cached document; None is Go's nil pointer. */
    var cm: Option<Document>

    constructor (namespace: string, name: string, client: Client, codecs: Codecs, cm: Option<Document>)
      ensures this.namespace == namespace && this.name == name && this.client == client
      ensures this.codecs == codecs && this.cm == cm
    {
      this.namespace := namespace;
      this.name := name;
      this.client := client;
      this.codecs := codecs;
      this.cm := cm;
    }

    /**
     * The store for document `name` in namespace `ns`: the existing document
     * is cached as it is; a missing one is created empty and the creation's
     * result cached; any other failure yields no store.
     */
    static method NewConfigMapStore(client: Client, ns: string, name: string, codecs: Codecs)
      returns (s: ConfigMapStore?, err: Option<Error>)
      modifies client
      ensures s == null <==> err.Some?
      ensures err.Some? ==> err.value.FromClient()
      ensures s != null ==> fresh(s) && s.namespace == ns && s.name == name && s.client == client && s.codecs == codecs
      ensures s != null ==> (ns, name) in client.documents && s.cm == Some(client.documents[(ns, name)])
      ensures Bootstrapped(old(client.calls), client.calls, ns, name, err)
      ensures (ns, name) in old(client.documents) ==> client.documents == old(client.documents)
      ensures (ns, name) !in old(client.documents) ==>
        client.documents == old(client.documents) ||
        client.documents == old(client.documents)[(ns, name) := Document(name, ns, None)]
      ensures old(client.Named()) ==> client.Named()
      ensures s != null && client.Named() ==> s.cm.value.name == name
    {
      var got := client.Get(ns, name);
      if got.err.None? {
        s := new ConfigMapStore(ns, name, client, codecs, got.doc);
        return s, None;
      }
      if got.err != Some(NotFound) {
        return null, got.err;
      }
      var created := client.Create(ns, Document(name, ns, None));
      if created.err.Some? {
        return null, created.err;
      }
      s := new ConfigMapStore(ns, name, client, codecs, created.doc);
      err := None;
    }

    /**
     * The outcome of writing `staged` back: without a document, "not
     * initialized" and no call; otherwise one update call whose reply becomes
     * the cached document and the error, and which on success replaces the
     * stored document.
     */
    ghost predicate Updated(
      calls0: seq<Call>, docs0: map<(string, string), Document>, staged: Option<Document>, err: Option<Error>)
      reads this, client
    {
      match staged
      case None =>
        err == Some(NotInitialized) && cm.None? && client.calls == calls0 && client.documents == docs0
      case Some(doc) =>
        && client.calls == calls0 + [UpdateCall(namespace, doc, Reply(cm, err))]
        && (err.None? ==> cm == Some(doc) && client.documents == docs0[(namespace, doc.name) := doc])
        && (err.Some? ==> err.value.FromClient() && client.documents == docs0)
    }

    /** `set`: encodes `obj` and writes it under `key` in the cached `Data` map. */
    method Set<R>(key: string, obj: R, marshal: R -> Option<string>) returns (err: Option<Error>)
      modifies this`cm
      ensures cm == Stage(old(cm), key, marshal(obj))
      ensures err == if old(cm).None? then Some(NotInitialized)
                     else if marshal(obj).None? then Some(MarshalFailed)
                     else None
    {
      if cm.None? {
        return Some(NotInitialized);
      }
      if cm.value.data.None? {
        cm := Some(cm.value.(data := Some(map[])));
      }
      var toStore := marshal(obj);
      if toStore.None? {
        return Some(MarshalFailed);
      }
      cm := Some(cm.value.(data := Some(cm.value.data.value[key := toStore.value])));
      err := None;
    }

    /** `getConfigMap`: re-fetches the document; the reply replaces the cache even on failure. */
    method GetConfigMap() returns (err: Option<Error>)
      modifies this`cm, client`calls
      ensures client.calls == old(client.calls) + [GetCall(namespace, name, Reply(cm, err))]
      ensures err.Some? ==> err.value.FromClient()
      ensures err.None? ==> (namespace, name) in client.documents && cm == Some(client.documents[(namespace, name)])
    {
      var reply := client.Get(namespace, name);
      cm := reply.doc;
      err := reply.err;
    }

    /** `updateConfigMap`: writes the cached document back; the reply replaces the cache even on failure. */
    method UpdateConfigMap() returns (err: Option<Error>)
      modifies this`cm, client
      ensures Updated(old(client.calls), old(client.documents), old(cm), err)
    {
      if cm.None? {
        return Some(NotInitialized);
      }
      var reply := client.Update(namespace, cm.value);
      cm := reply.doc;
      err := reply.err;
    }

    /**
     * The shared body of the three `Set*` calls: an empty batch is a no-op;
     * otherwise every record is staged under its key and one update follows.
     */
    method SetBatch<R>(batch: seq<R>, keyOf: R -> string, marshal: R -> Option<string>) returns (err: Option<Error>)
      modifies this`cm, client
      ensures |batch| == 0 ==> err.None? && cm == old(cm) && unchanged(client)
      ensures |batch| > 0 ==> Updated(old(client.calls), old(client.documents), StageAll(old(cm), batch, keyOf, marshal), err)
    {
      if |batch| == 0 {
        return None;
      }
      var i := 0;
      while i < |batch|
        invariant 0 <= i <= |batch|
        invariant cm == StageAll(old(cm), batch[..i], keyOf, marshal)
        invariant unchanged(client)
      {
        var _ := Set(keyOf(batch[i]), batch[i], marshal);
        assert batch[..i + 1][..i] == batch[..i];
        i := i + 1;
      }
      assert batch[..|batch|] == batch;
      err := UpdateConfigMap();
    }

    /** Stores external metric values under `value-external-<HPA UID>-<metric name>`. */
    method SetExternalMetricValues(added: seq<ExternalMetricValue>) returns (err: Option<Error>)
      modifies this`cm, client
      ensures |added| == 0 ==> err.None? && cm == old(cm) && unchanged(client)
      ensures |added| > 0 ==>
        Updated(old(client.calls), old(client.documents), StageAll(old(cm), added, ExternalKey, codecs.external.marshal), err)
    {
      err := SetBatch(added, ExternalKey, codecs.external.marshal);
    }

    /** Stores pods metric descriptors under `metric-pods-<HPA UID>-<metric name>`. */
    method SetPodsMetrics(descs: seq<PodsMetricDescriptor>) returns (err: Option<Error>)
      modifies this`cm, client
      ensures |descs| == 0 ==> err.None? && cm == old(cm) && unchanged(client)
      ensures |descs| > 0 ==>
        Updated(old(client.calls), old(client.documents), StageAll(old(cm), descs, PodsKey, codecs.pods.marshal), err)
    {
      err := SetBatch(descs, PodsKey, codecs.pods.marshal);
    }

    /** Stores object metric descriptors under `metric-object-<HPA UID>-<metric name>`. */
    method SetObjectMetrics(descs: seq<ObjectMetricDescriptor>) returns (err: Option<Error>)
      modifies this`cm, client
      ensures |descs| == 0 ==> err.None? && cm == old(cm) && unchanged(client)
      ensures |descs| > 0 ==>
        Updated(old(client.calls), old(client.documents), StageAll(old(cm), descs, ObjectKey, codecs.objects.marshal), err)
    {
      err := SetBatch(descs, ObjectKey, codecs.objects.marshal);
    }

    /**
     * Removes, for each reference, every entry whose owner segment is its UID,
     * and every malformed key on the way; then one update.  The check for a
     * cached document comes before the check for an empty batch.
     */
    method Delete(deleted: seq<ObjectReference>) returns (err: Option<Error>)
      modifies this`cm, client
      ensures old(cm).None? ==> err == Some(NotInitialized) && cm == old(cm) && unchanged(client)
      ensures old(cm).Some? && |deleted| == 0 ==> err.None? && cm == old(cm) && unchanged(client)
      ensures old(cm).Some? && |deleted| > 0 ==>
        Updated(old(client.calls), old(client.documents), Some(Purge(old(cm).value, deleted)), err)
    {
      if cm.None? {
        return Some(NotInitialized);
      }
      if |deleted| == 0 {
        return None;
      }
      ghost var doc0 := cm.value;
      var i := 0;
      while i < |deleted|
        invariant 0 <= i <= |deleted|
        invariant cm == Some(Purge(doc0, deleted[..i]))
        invariant unchanged(client)
      {
        if cm.value.data.Some? {
          PurgeStep(doc0, deleted, i);
          DeleteOwnerScan(deleted[i].uid);
        }
        i := i + 1;
      }
      assert deleted[..|deleted|] == deleted;
      err := UpdateConfigMap();
    }

    /**
     * The inner loop of `Delete` for one reference: ranges over the keys of
     * the cached `Data` map and removes each malformed key and each key
     * written for owner `uid`.
     */
    method DeleteOwnerScan(uid: string)
      requires cm.Some? && cm.value.data.Some?
      modifies this`cm
      ensures cm == Some(old(cm).value.(data := Some(DeleteOwnerIntended(old(cm).value.data.value, uid))))
    {
      ghost var doc0 := cm.value;
      ghost var before := cm.value.data.value;
      var keys := cm.value.data.value.Keys;
      while keys != {}
        invariant keys <= before.Keys
        invariant cm.Some? && cm.value.data.Some? && cm == Some(doc0.(data := cm.value.data))
        invariant cm.value.data.value ==
          map k | k in before && (k in keys || (WellFormedKey(k) && !OwnedBy(k, uid))) :: before[k]
        decreases keys
      {
        var k :| k in keys;
        var parts := Split(k, Delimiter);
        if |parts| < 4 {
          cm := Some(cm.value.(data := Some(cm.value.data.value - {k})));
        } else if parts[0] + [Delimiter] + parts[1] + [Delimiter] + uid + [Delimiter] <= k {
          cm := Some(cm.value.(data := Some(cm.value.data.value - {k})));
        }
        keys := keys - {k};
      }
      assert cm.value.data.value == DeleteOwnerIntended(before, uid);
    }

    /** Re-fetches the document and lists the external values it holds. */
    method ListAllExternalMetricValues() returns (metrics: seq<ExternalMetricValue>, err: Option<Error>)
      modifies this`cm, client`calls
      ensures client.calls == old(client.calls) + [GetCall(namespace, name, Reply(cm, err))]
      ensures err.Some? ==> err.value.FromClient() && metrics == []
      ensures err.None? ==> (namespace, name) in client.documents && cm == Some(client.documents[(namespace, name)])
      ensures err.None? ==> multiset(metrics) == Listing(Entries(cm.value), ExternalKept, codecs.external.unmarshal)
    {
      err := GetConfigMap();
      if err.Some? {
        return [], err;
      }
      metrics := ListEntries(Entries(cm.value), ExternalKept, codecs.external.unmarshal);
    }

    /** Lists the pods metric descriptors of the cached document, without a client call. */
    method ListAllPodsMetrics() returns (descs: seq<PodsMetricDescriptor>, err: Option<Error>)
      ensures cm.None? ==> err == Some(NotInitialized) && descs == []
      ensures cm.Some? ==> err.None? && multiset(descs) == Listing(Entries(cm.value), PodsKept, codecs.pods.unmarshal)
    {
      if cm.None? {
        return [], Some(NotInitialized);
      }
      descs := ListEntries(Entries(cm.value), PodsKept, codecs.pods.unmarshal);
      err := None;
    }

    /** Lists the object metric descriptors of the cached document, without a client call. */
    method ListAllObjectMetrics() returns (descs: seq<ObjectMetricDescriptor>, err: Option<Error>)
      ensures cm.None? ==> err == Some(NotInitialized) && descs == []
      ensures cm.Some? ==> err.None? && multiset(descs) == Listing(Entries(cm.value), ObjectKept, codecs.objects.unmarshal)
    {
      if cm.None? {
        return [], Some(NotInitialized);
      }
      descs := ListEntries(Entries(cm.value), ObjectKept, codecs.objects.unmarshal);
      err := None;
    }
  }

  /**
   * A caller's view of the round trip: a store opened on the server, one
   * external value stored and the external values listed, each step without
   * error, lists that value.
   */
  method SetThenList(client: Client, ns: string, name: string, codecs: Codecs, v: ExternalMetricValue)
    returns (openErr: Option<Error>, setErr: Option<Error>, listErr: Option<Error>, metrics: seq<ExternalMetricValue>)
    requires client.Named()
    requires RoundTrips(codecs.external) && codecs.external.marshal(v).Some?
    modifies client
    ensures openErr.None? && setErr.None? && listErr.None? ==> v in metrics
  {
    var store;
    store, openErr := ConfigMapStore.NewConfigMapStore(client, ns, name, codecs);
    if store == null {
      return openErr, None, None, [];
    }
    ghost var cm0 := store.cm;
    setErr := store.SetExternalMetricValues([v]);
    metrics, listErr := store.ListAllExternalMetricValues();
    if setErr.None? && listErr.None? {
      SetThenListExternal(cm0, v, store.codecs.external);
      assert v in multiset(metrics);
    }
  }
}
