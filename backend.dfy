/**
 * The ConfigMap document and the Kubernetes client the store talks to, as an
 * abstract collaborator.  The client keeps the documents it serves, keyed by
 * (namespace, name), and a log of every call with the reply it gave; each call
 * may fail for reasons the model does not see (the server is unreachable, the
 * caller lacks permission, an update carries a stale revision), and on failure
 * the document it hands back is unspecified.
 */
module Backend {
  import opened Wrappers

  /** A ConfigMap: its name, its namespace and its `Data` map, which may be nil. */
  datatype Document = Document(name: string, namespace: string, data: Option<map<string, string>>)

  /** The errors the store surfaces: its own two and the client's five. */
  datatype Error =
    | NotInitialized   // no document cached ("configmap not initialized")
    | MarshalFailed    // a record did not encode to JSON
    | NotFound         // the client has no such document
    | AlreadyExists    // creating a document that already exists
    | Conflict         // an update carried a stale revision
    | Forbidden        // the caller lacks permission for the call
    | Unavailable      // any other client failure, the server unreachable among them
  {
    /** True for the errors only the client produces. */
    predicate FromClient() {
      NotFound? || AlreadyExists? || Conflict? || Forbidden? || Unavailable?
    }
  }

  /** What a client call returns: Go's `(*v1.ConfigMap, error)` pair. */
  datatype Reply = Reply(doc: Option<Document>, err: Option<Error>)

  /** One entry of the client's call log. */
  datatype Call =
    | GetCall(namespace: string, name: string, reply: Reply)
    | CreateCall(namespace: string, doc: Document, reply: Reply)
    | UpdateCall(namespace: string, doc: Document, reply: Reply)

  /** A failure the server may report for any call, whatever it holds: permission denied or unreachable. */
  method Refusal() returns (e: Error)
    ensures e == Forbidden || e == Unavailable
  {
    var forbidden: bool := *;
    e := if forbidden then Forbidden else Unavailable;
  }

  class Client {
    /** The documents the server holds. */
    var documents: map<(string, string), Document>
    /** Every call made so far, oldest first, with its reply. */
    var calls: seq<Call>

    /** Every document is stored under its own name, as the server keys them. */
    ghost predicate Named()
      reads this
    {
      forall key | key in documents :: documents[key].name == key.1
    }

    constructor (documents: map<(string, string), Document>)
      requires forall key | key in documents :: documents[key].name == key.1
      ensures this.documents == documents && calls == []
      ensures Named()
    {
      this.documents := documents;
      calls := [];
    }

    /** `ConfigMaps(namespace).Get(name)`: the stored document, or an error. */
    method Get(namespace: string, name: string) returns (reply: Reply)
      modifies this`calls
      ensures calls == old(calls) + [GetCall(namespace, name, reply)]
      ensures reply.err.Some? ==> reply.err.value.FromClient() && reply.err.value != AlreadyExists
      ensures reply.err.None? ==> (namespace, name) in documents && reply.doc == Some(documents[(namespace, name)])
      ensures reply.err == Some(NotFound) ==> (namespace, name) !in documents
      ensures (namespace, name) !in documents ==> reply.err.Some?
    {
      var failed: bool := *;
      var other := Refusal();
      var junk: Option<Document> := *;
      if failed {
        reply := Reply(junk, Some(other));
      } else if (namespace, name) !in documents {
        reply := Reply(junk, Some(NotFound));
      } else {
        reply := Reply(Some(documents[(namespace, name)]), None);
      }
      calls := calls + [GetCall(namespace, name, reply)];
    }

    /** `ConfigMaps(namespace).Create(doc)`: stores a new document under its name. */
    method Create(namespace: string, doc: Document) returns (reply: Reply)
      modifies this
      ensures calls == old(calls) + [CreateCall(namespace, doc, reply)]
      ensures reply.err.Some? ==> reply.err.value.FromClient() && documents == old(documents)
      ensures reply.err.None? ==>
        && (namespace, doc.name) !in old(documents)
        && documents == old(documents)[(namespace, doc.name) := doc]
        && reply.doc == Some(doc)
      ensures reply.err == Some(AlreadyExists) ==> (namespace, doc.name) in old(documents)
      ensures (namespace, doc.name) in old(documents) ==> reply.err.Some?
      ensures old(Named()) ==> Named()
    {
      var failed: bool := *;
      var other := Refusal();
      var junk: Option<Document> := *;
      if failed {
        reply := Reply(junk, Some(other));
      } else if (namespace, doc.name) in documents {
        reply := Reply(junk, Some(AlreadyExists));
      } else {
        documents := documents[(namespace, doc.name) := doc];
        reply := Reply(Some(doc), None);
      }
      calls := calls + [CreateCall(namespace, doc, reply)];
    }

    /**
     * `ConfigMaps(namespace).Update(doc)`: replaces the stored document with
     * the same name; rejected when there is none or when the server deems the
     * submitted revision stale.
     */
    method Update(namespace: string, doc: Document) returns (reply: Reply)
      modifies this
      ensures calls == old(calls) + [UpdateCall(namespace, doc, reply)]
      ensures reply.err.Some? ==> reply.err.value.FromClient() && documents == old(documents)
      ensures reply.err.None? ==>
        && (namespace, doc.name) in old(documents)
        && documents == old(documents)[(namespace, doc.name) := doc]
        && reply.doc == Some(doc)
      ensures reply.err == Some(NotFound) ==> (namespace, doc.name) !in old(documents)
      ensures (namespace, doc.name) !in old(documents) ==> reply.err.Some?
      ensures old(Named()) ==> Named()
    {
      var stale: bool := *;
      var failed: bool := *;
      var other := Refusal();
      var junk: Option<Document> := *;
      if failed {
        reply := Reply(junk, Some(other));
      } else if (namespace, doc.name) !in documents {
        reply := Reply(junk, Some(NotFound));
      } else if stale {
        reply := Reply(junk, Some(Conflict));
      } else {
        documents := documents[(namespace, doc.name) := doc];
        reply := Reply(Some(doc), None);
      }
      calls := calls + [UpdateCall(namespace, doc, reply)];
    }
  }
}
