/** Document bookkeeping over the vector store (app/services/index_manager.py).

    The store holds text chunks ("nodes"). Each node records the document it
    was split from (`ref_doc_id`) and that document's file metadata. A
    document is described by a record that lists the ids of its nodes. The
    parser, the splitter and the embedding model are foreign: the nodes
    they produce are inputs here. */
module DocumentIndex {
  import opened Common

  /** The file metadata a node carries. Each entry may be missing. The two
      dates are kept as the text the reader gives; a missing date becomes 0
      in a record, which is modelled as None. */
  datatype Metadata = Metadata(
    fileName: Option<string>,
    fileType: Option<string>,
    fileSize: Option<int>,
    creationDate: Option<string>,
    lastModifiedDate: Option<string>)

  datatype Node = Node(id: string, refDocId: Option<string>, metadata: Metadata)

  /** The description of one stored document. */
  datatype DocumentRecord = DocumentRecord(
    refDocId: string,
    fileName: string,
    fileType: string,
    fileSize: int,
    creationDate: Option<string>,
    lastModifiedDate: Option<string>,
    nodeIds: seq<string>)

  /** A record built from a node's metadata. The name and type default to
      "unknown", the size to 0 and the dates to 0 (None). */
  function RecordFrom(refDocId: string, metadata: Metadata, nodeIds: seq<string>): (r: DocumentRecord)
    ensures r.refDocId == refDocId && r.nodeIds == nodeIds
    ensures r.fileName == (if metadata.fileName.Some? then metadata.fileName.value else "unknown")
    ensures r.fileType == (if metadata.fileType.Some? then metadata.fileType.value else "unknown")
    ensures r.fileSize == (if metadata.fileSize.Some? then metadata.fileSize.value else 0)
    ensures r.creationDate == metadata.creationDate && r.lastModifiedDate == metadata.lastModifiedDate
  {
    DocumentRecord(
      refDocId,
      if metadata.fileName.Some? then metadata.fileName.value else "unknown",
      if metadata.fileType.Some? then metadata.fileType.value else "unknown",
      if metadata.fileSize.Some? then metadata.fileSize.value else 0,
      metadata.creationDate,
      metadata.lastModifiedDate,
      nodeIds)
  }

  /** The ids of some nodes, in order. */
  function Ids(nodes: seq<Node>): (r: seq<string>)
    ensures |r| == |nodes|
    ensures forall i :: 0 <= i < |nodes| ==> r[i] == nodes[i].id
  {
    if nodes == [] then [] else Ids(nodes[..|nodes| - 1]) + [nodes[|nodes| - 1].id]
  }

  /** The record of the first node of a non-empty list, listing every node's
      id. It fails with IndexError on an empty list, and with ValueError when
      the first node has no (or an empty) document id. */
  function RecordOfNodes(nodes: seq<Node>): (r: Result<DocumentRecord>)
    ensures nodes == [] <==> r == Err(IndexError)
    ensures nodes != [] && !Truthy(nodes[0].refDocId)
      <==> r == Err(ValueError("Main node does not have a reference document ID."))
    ensures r.Ok? ==> r.value == RecordFrom(nodes[0].refDocId.value, nodes[0].metadata, Ids(nodes))
  {
    if nodes == [] then Err(IndexError)
    else if !Truthy(nodes[0].refDocId) then Err(ValueError("Main node does not have a reference document ID."))
    else Ok(RecordFrom(nodes[0].refDocId.value, nodes[0].metadata, Ids(nodes)))
  }

  // The grouping of `get_all_documents`, stated node by node.

  /** The document ids of the nodes, each once, in order of first
      appearance; nodes without a document id are skipped. */
  function FirstSeen(nodes: seq<Node>): seq<string>
  {
    if nodes == [] then []
    else
      var earlier := FirstSeen(nodes[..|nodes| - 1]);
      var ref := nodes[|nodes| - 1].refDocId;
      if ref.None? || ref.value in earlier then earlier else earlier + [ref.value]
  }

  /** The nodes that belong to a document, in order. */
  function Matching(nodes: seq<Node>, refDocId: string): (r: seq<Node>)
    ensures forall i :: 0 <= i < |r| ==> r[i].refDocId == Some(refDocId)
  {
    if nodes == [] then []
    else
      var earlier := Matching(nodes[..|nodes| - 1], refDocId);
      if nodes[|nodes| - 1].refDocId == Some(refDocId) then earlier + [nodes[|nodes| - 1]] else earlier
  }

  /** The record `get_all_documents` gives a document: built from the first
      node of that document, listing the ids of all of its nodes. */
  function GroupRecord(nodes: seq<Node>, refDocId: string): DocumentRecord
    requires Matching(nodes, refDocId) != []
  {
    RecordFrom(refDocId, Matching(nodes, refDocId)[0].metadata, Ids(Matching(nodes, refDocId)))
  }

  lemma FirstSeenStep(nodes: seq<Node>, i: nat)
    requires i < |nodes|
    ensures var ref := nodes[i].refDocId;
      FirstSeen(nodes[..i + 1])
        == if ref.None? || ref.value in FirstSeen(nodes[..i]) then FirstSeen(nodes[..i])
           else FirstSeen(nodes[..i]) + [ref.value]
  {
    assert nodes[..i + 1][..i] == nodes[..i];
  }

  lemma MatchingStep(nodes: seq<Node>, i: nat, refDocId: string)
    requires i < |nodes|
    ensures Matching(nodes[..i + 1], refDocId)
      == if nodes[i].refDocId == Some(refDocId) then Matching(nodes[..i], refDocId) + [nodes[i]]
         else Matching(nodes[..i], refDocId)
  {
    assert nodes[..i + 1][..i] == nodes[..i];
  }

  /** A document id is listed exactly when some node carries it. */
  lemma {:induction false} FirstSeenMembers(nodes: seq<Node>, refDocId: string)
    ensures refDocId in FirstSeen(nodes) <==> Matching(nodes, refDocId) != []
  {
    if nodes != [] {
      FirstSeenMembers(nodes[..|nodes| - 1], refDocId);
    }
  }

  /** No document id is listed twice. */
  lemma {:induction false} FirstSeenDistinct(nodes: seq<Node>)
    ensures forall i, j :: 0 <= i < j < |FirstSeen(nodes)| ==> FirstSeen(nodes)[i] != FirstSeen(nodes)[j]
  {
    if nodes != [] {
      FirstSeenDistinct(nodes[..|nodes| - 1]);
    }
  }

  /** Matching nodes of a longer list start with those of a shorter prefix,
      so the first node of a document stays its first node. */
  lemma {:induction false} MatchingPrefix(nodes: seq<Node>, i: nat, refDocId: string)
    requires i <= |nodes|
    ensures Matching(nodes[..i], refDocId) <= Matching(nodes, refDocId)
    decreases |nodes| - i
  {
    if i < |nodes| {
      MatchingPrefix(nodes, i + 1, refDocId);
      MatchingStep(nodes, i, refDocId);
    } else {
      assert nodes[..i] == nodes;
    }
  }

  lemma IdsSnoc(nodes: seq<Node>, node: Node)
    ensures Ids(nodes + [node]) == Ids(nodes) + [node.id]
  {
    assert (nodes + [node])[..|nodes|] == nodes;
  }

  /** One more node extends the record of its own document by its id and
      leaves the records of the other documents as they were. */
  lemma GroupStep(nodes: seq<Node>, i: nat, refDocId: string)
    requires i < |nodes| && Matching(nodes[..i], refDocId) != []
    ensures Matching(nodes[..i + 1], refDocId) != []
    ensures GroupRecord(nodes[..i + 1], refDocId)
      == if nodes[i].refDocId == Some(refDocId)
         then GroupRecord(nodes[..i], refDocId).(nodeIds := GroupRecord(nodes[..i], refDocId).nodeIds + [nodes[i].id])
         else GroupRecord(nodes[..i], refDocId)
  {
    MatchingStep(nodes, i, refDocId);
    if nodes[i].refDocId == Some(refDocId) {
      IdsSnoc(Matching(nodes[..i], refDocId), nodes[i]);
    }
  }

  /** The first node of a document creates its record. */
  lemma GroupStart(nodes: seq<Node>, i: nat)
    requires i < |nodes| && nodes[i].refDocId.Some?
    requires Matching(nodes[..i], nodes[i].refDocId.value) == []
    ensures var ref := nodes[i].refDocId.value;
      Matching(nodes[..i + 1], ref) == [nodes[i]]
      && GroupRecord(nodes[..i + 1], ref) == RecordFrom(ref, nodes[i].metadata, [nodes[i].id])
  {
    MatchingStep(nodes, i, nodes[i].refDocId.value);
    IdsSnoc([], nodes[i]);
  }

  /** The records `get_all_documents` builds while it walks the nodes, by
      document id: the first node of a document creates its record from its
      metadata with no ids, and every node of the document then appends its
      id. Nodes without a document id are skipped. */
  function ByRef(nodes: seq<Node>): map<string, DocumentRecord>
  {
    if nodes == [] then map[]
    else
      var earlier := ByRef(nodes[..|nodes| - 1]);
      var node := nodes[|nodes| - 1];
      if node.refDocId.None? then earlier
      else
        var ref := node.refDocId.value;
        var created := if ref in earlier then earlier else earlier[ref := RecordFrom(ref, node.metadata, [])];
        created[ref := created[ref].(nodeIds := created[ref].nodeIds + [node.id])]
  }

  /** The walk gives a document a record exactly when some node carries its
      id, and that record is the grouping of the document's nodes. */
  lemma {:induction false} ByRefGroups(nodes: seq<Node>, refDocId: string)
    ensures refDocId in ByRef(nodes) <==> Matching(nodes, refDocId) != []
    ensures refDocId in ByRef(nodes) ==> ByRef(nodes)[refDocId] == GroupRecord(nodes, refDocId)
  {
    if nodes != [] {
      var n := |nodes| - 1;
      ByRefGroups(nodes[..n], refDocId);
      assert nodes[..n + 1] == nodes;
      if Matching(nodes[..n], refDocId) != [] {
        GroupStep(nodes, n, refDocId);
      } else if nodes[n].refDocId == Some(refDocId) {
        GroupStart(nodes, n);
      } else {
        MatchingStep(nodes, n, refDocId);
      }
    }
  }

  /** Read in creation order, the records of the walk are the listing. */
  lemma ByRefListing(nodes: seq<Node>)
    ensures forall k :: 0 <= k < |FirstSeen(nodes)| ==>
      FirstSeen(nodes)[k] in ByRef(nodes) && ByRef(nodes)[FirstSeen(nodes)[k]] == AllDocuments(nodes)[k]
  {
    forall k | 0 <= k < |FirstSeen(nodes)|
      ensures FirstSeen(nodes)[k] in ByRef(nodes) && ByRef(nodes)[FirstSeen(nodes)[k]] == AllDocuments(nodes)[k]
    {
      FirstSeenMembers(nodes, FirstSeen(nodes)[k]);
      ByRefGroups(nodes, FirstSeen(nodes)[k]);
    }
  }

  /** `get_all_documents` as a function: one record per listed document id,
      in order of first appearance. */
  function AllDocuments(nodes: seq<Node>): (r: seq<DocumentRecord>)
    ensures |r| == |FirstSeen(nodes)|
    ensures forall i :: 0 <= i < |r| ==> r[i].refDocId == FirstSeen(nodes)[i]
  {
    var refs := FirstSeen(nodes);
    seq(|refs|, i requires 0 <= i < |refs| =>
      FirstSeenMembers(nodes, refs[i]);
      GroupRecord(nodes, refs[i]))
  }

  /** With no node that carries a document id there is no document. */
  lemma {:induction false} NoDocumentsWithoutIds(nodes: seq<Node>)
    requires forall i :: 0 <= i < |nodes| ==> nodes[i].refDocId.None?
    ensures AllDocuments(nodes) == []
  {
    if nodes != [] {
      NoDocumentsWithoutIds(nodes[..|nodes| - 1]);
    }
  }

  /** Listing all documents and looking one up agree: a non-empty document id
      is listed exactly when the lookup finds its nodes, and then both give
      the same record. */
  lemma ListingAgreesWithLookup(nodes: seq<Node>, refDocId: string)
    requires refDocId != ""
    ensures refDocId in FirstSeen(nodes) <==> RecordOfNodes(Matching(nodes, refDocId)).Ok?
    ensures refDocId in FirstSeen(nodes) ==>
      RecordOfNodes(Matching(nodes, refDocId)).value == GroupRecord(nodes, refDocId)
  {
    FirstSeenMembers(nodes, refDocId);
  }

  /** The listing skips only nodes without a document id, while the lookup
      also refuses an empty one: a document whose id is "" is listed, but
      looking it up raises ValueError. */
  lemma EmptyIdListedButNotFound(nodes: seq<Node>, i: nat)
    requires i < |nodes| && nodes[i].refDocId == Some("")
    ensures "" in FirstSeen(nodes)
    ensures GetDocumentResult(nodes, "") == Err(ValueError("Main node does not have a reference document ID."))
  {
    MatchingStep(nodes, i, "");
    MatchingPrefix(nodes, i + 1, "");
    FirstSeenMembers(nodes, "");
  }

  /** `get_document` as a function of the store's nodes: KeyError when no
      node belongs to the document; otherwise the record of its nodes. */
  function GetDocumentResult(nodes: seq<Node>, refDocId: string): (r: Result<DocumentRecord>)
    ensures Matching(nodes, refDocId) == [] <==> r == Err(KeyError("Document with ID " + refDocId + " not found."))
    ensures r.Ok? ==> r.value.refDocId == refDocId && r.value.nodeIds == Ids(Matching(nodes, refDocId))
  {
    var matched := Matching(nodes, refDocId);
    if matched == [] then Err(KeyError("Document with ID " + refDocId + " not found."))
    else RecordOfNodes(matched)
  }

  /** The vector-store client: its collections and the payload indexes
      created on them. */
  class QdrantClient {
    var collections: set<string>
    var payloadIndexes: set<(string, string)>

    constructor(collections: set<string>, payloadIndexes: set<(string, string)>)
      ensures this.collections == collections && this.payloadIndexes == payloadIndexes
    {
      this.collections := collections;
      this.payloadIndexes := payloadIndexes;
    }
  }

  /** The collection set-up: a missing collection is created with payload
      indexes on "ref_doc_id" and "doc_id"; an existing one is left alone. */
  function EnsureCollection(collections: set<string>, payloadIndexes: set<(string, string)>, name: string)
    : (r: (set<string>, set<(string, string)>))
    ensures name in r.0
    ensures name in collections ==> r == (collections, payloadIndexes)
    ensures name !in collections ==>
      r == (collections + {name}, payloadIndexes + {(name, "ref_doc_id"), (name, "doc_id")})
  {
    if name in collections then (collections, payloadIndexes)
    else (collections + {name}, payloadIndexes + {(name, "ref_doc_id"), (name, "doc_id")})
  }

  /** Setting up twice is setting up once. */
  lemma EnsureCollectionIdempotent(collections: set<string>, payloadIndexes: set<(string, string)>, name: string)
    ensures var once := EnsureCollection(collections, payloadIndexes, name);
      EnsureCollection(once.0, once.1, name) == once
  {
  }

  /** The document manager: its collection name, the client, and the nodes
      in the collection. */
  class VectorIndexManager {
    const collectionName: string
    const client: QdrantClient
    var nodes: seq<Node>

    /** Sets up the collection if it is missing, over the nodes the
        collection already holds. */
    constructor(client: QdrantClient, collectionName: string, stored: seq<Node>)
      modifies client
      ensures this.client == client && this.collectionName == collectionName && nodes == stored
      ensures (client.collections, client.payloadIndexes)
        == EnsureCollection(old(client.collections), old(client.payloadIndexes), collectionName)
    {
      this.collectionName := collectionName;
      this.client := client;
      nodes := stored;
      new;
      CreateCollectionIfNotExists();
    }

    method CreateCollectionIfNotExists()
      modifies client
      ensures (client.collections, client.payloadIndexes)
        == EnsureCollection(old(client.collections), old(client.payloadIndexes), collectionName)
    {
      if collectionName !in client.collections {
        client.collections := client.collections + {collectionName};
        client.payloadIndexes := client.payloadIndexes + {(collectionName, "ref_doc_id")};
        client.payloadIndexes := client.payloadIndexes + {(collectionName, "doc_id")};
        assert client.payloadIndexes
          == old(client.payloadIndexes) + {(collectionName, "ref_doc_id"), (collectionName, "doc_id")};
      }
    }

    /** `add_document`: describes the file by its first chunk and stores all
        of its chunks. Nothing is stored when the description fails. Where
        the store lists the new chunks is its own order: `insert` gives its
        listing after the chunks are inserted, which holds exactly the
        stored nodes and the chunks. */
    method AddDocument(chunks: seq<Node>, insert: (seq<Node>, seq<Node>) -> seq<Node>)
      returns (r: Result<DocumentRecord>)
      requires multiset(insert(nodes, chunks)) == multiset(nodes) + multiset(chunks)
      modifies this
      ensures r == RecordOfNodes(chunks)
      ensures nodes == if r.Ok? then insert(old(nodes), chunks) else old(nodes)
      ensures r.Ok? ==> multiset(nodes) == multiset(old(nodes)) + multiset(chunks)
    {
      if chunks == [] {
        return Err(IndexError);
      }
      var main := chunks[0];
      if !Truthy(main.refDocId) {
        return Err(ValueError("Main node does not have a reference document ID."));
      }
      var nodeIds := [];
      var i := 0;
      while i < |chunks|
        invariant 0 <= i <= |chunks|
        invariant nodeIds == Ids(chunks[..i])
      {
        assert chunks[..i + 1][..i] == chunks[..i];
        nodeIds := nodeIds + [chunks[i].id];
        i := i + 1;
      }
      assert chunks[..i] == chunks;
      r := Ok(RecordFrom(main.refDocId.value, main.metadata, nodeIds));
      nodes := insert(nodes, chunks);
    }

    /** `get_document`. */
    method GetDocument(refDocId: string) returns (r: Result<DocumentRecord>)
      ensures r == GetDocumentResult(nodes, refDocId)
    {
      var matched := [];
      var i := 0;
      while i < |nodes|
        invariant 0 <= i <= |nodes|
        invariant matched == Matching(nodes[..i], refDocId)
      {
        MatchingStep(nodes, i, refDocId);
        if nodes[i].refDocId == Some(refDocId) {
          matched := matched + [nodes[i]];
        }
        i := i + 1;
      }
      assert nodes[..i] == nodes;
      if matched == [] {
        return Err(KeyError("Document with ID " + refDocId + " not found."));
      }
      r := RecordOfNodes(matched);
    }

    /** `get_all_documents`: walks the nodes once. The first node of each
        document creates its record, and every node of a document appends
        its id to that record. The records are returned in the order they
        were created. */
    method GetAllDocuments() returns (records: seq<DocumentRecord>)
      ensures records == AllDocuments(nodes)
    {
      var order: seq<string> := [];
      var byRef: map<string, DocumentRecord> := map[];
      var i := 0;
      while i < |nodes|
        invariant 0 <= i <= |nodes|
        invariant order == FirstSeen(nodes[..i]) && byRef == ByRef(nodes[..i])
      {
        assert nodes[..i + 1][..i] == nodes[..i];
        var node := nodes[i];
        if node.refDocId.Some? {
          var ref := node.refDocId.value;
          FirstSeenMembers(nodes[..i], ref);
          ByRefGroups(nodes[..i], ref);
          if ref !in byRef {
            byRef := byRef[ref := RecordFrom(ref, node.metadata, [])];
            order := order + [ref];
          }
          byRef := byRef[ref := byRef[ref].(nodeIds := byRef[ref].nodeIds + [node.id])];
        }
        i := i + 1;
      }
      assert nodes[..i] == nodes;
      ByRefListing(nodes);
      records := seq(|order|, k requires 0 <= k < |order| && order[k] in byRef => byRef[order[k]]);
    }
  }
}
