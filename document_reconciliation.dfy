/**
 * Document-level reconciliation of RemoteWorkspace.SolutionCreator:
 * UpdateDocumentsAsync (one of the three document collections of a project),
 * UpdateDocumentAsync, UpdateDocumentInfoAsync and the two GetDocumentMapAsync
 * overloads. A project is threaded as a value; every edit of the source's
 * Solution.With* calls touches only the project being updated.
 */
module DocumentReconciliation {
  import opened Wrappers
  import opened Checksums
  import opened Workspace
  import opened Assets

  // ----- GetDocumentMapAsync over the existing states -----

  /** The existing documents whose current checksum is in `documents`, with their checksums. */
  function OldDocumentMap(hasher: Hasher, states: map<DocumentId, DocumentState>, documents: set<Checksum>): map<DocumentId, DocumentStateChecksums> {
    map id | id in states && hasher.document(states[id]).checksum in documents :: hasher.document(states[id])
  }

  method GetDocumentMapFromStates(hasher: Hasher, states: map<DocumentId, DocumentState>, documents: set<Checksum>)
    returns (m: map<DocumentId, DocumentStateChecksums>)
    ensures forall id :: id in m <==> id in states && hasher.document(states[id]).checksum in documents
    ensures forall id :: id in m ==> m[id] == hasher.document(states[id])
    ensures m == OldDocumentMap(hasher, states, documents)
  {
    m := map[];
    var remaining := states.Keys;
    while remaining != {}
      invariant remaining <= states.Keys
      invariant forall id :: id in m <==> id in states && id !in remaining && hasher.document(states[id]).checksum in documents
      invariant forall id :: id in m ==> m[id] == hasher.document(states[id])
    {
      var id :| id in remaining;
      remaining := remaining - {id};
      var documentChecksums := hasher.document(states[id]);
      if documentChecksums.checksum in documents {
        m := m[id := documentChecksums];
      }
    }
  }

  // ----- GetDocumentMapAsync over the asset provider -----

  /** Every checksum resolves to a document checksum tree whose attributes resolve too. */
  predicate DocumentsResolvable(store: AssetStore, documents: set<Checksum>) {
    forall c :: c in documents ==> c in store.documentChecksums && store.documentChecksums[c].info in store.documentAttributes
  }

  function DocumentIdAt(store: AssetStore, c: Checksum): DocumentId
    requires c in store.documentChecksums && store.documentChecksums[c].info in store.documentAttributes
  {
    store.documentAttributes[store.documentChecksums[c].info].id
  }

  /** No two of the checksums describe documents with the same id (Dictionary.Add would throw). */
  predicate DistinctIdsAt(store: AssetStore, documents: set<Checksum>)
    requires DocumentsResolvable(store, documents)
  {
    forall c1, c2 :: c1 in documents && c2 in documents && DocumentIdAt(store, c1) == DocumentIdAt(store, c2) ==> c1 == c2
  }

  predicate NewSideResolvable(store: AssetStore, documents: set<Checksum>) {
    DocumentsResolvable(store, documents) && DistinctIdsAt(store, documents)
  }

  /** The new documents' checksum trees, keyed by the id their attributes carry. */
  function NewDocumentMap(store: AssetStore, documents: set<Checksum>): map<DocumentId, DocumentStateChecksums>
    requires NewSideResolvable(store, documents)
  {
    map c | c in documents :: DocumentIdAt(store, c) := store.documentChecksums[c]
  }

  /** Each entry of a map built from the store is the stored tree of a document with that id. */
  predicate ResolvedDocumentMap(store: AssetStore, m: map<DocumentId, DocumentStateChecksums>) {
    forall id :: id in m ==>
      && m[id].checksum in store.documentChecksums
      && store.documentChecksums[m[id].checksum] == m[id]
      && m[id].info in store.documentAttributes
      && store.documentAttributes[m[id].info].id == id
  }

  lemma NewDocumentMapIsResolved(store: AssetStore, documents: set<Checksum>)
    requires ContentAddressed(store) && NewSideResolvable(store, documents)
    ensures ResolvedDocumentMap(store, NewDocumentMap(store, documents))
    ensures forall id :: id in NewDocumentMap(store, documents) ==> NewDocumentMap(store, documents)[id].checksum in documents
  {
    var m := NewDocumentMap(store, documents);
    forall id | id in m
      ensures m[id].checksum in documents && m[id].checksum in store.documentChecksums
      ensures store.documentChecksums[m[id].checksum] == m[id]
      ensures m[id].info in store.documentAttributes && store.documentAttributes[m[id].info].id == id
    {
      var c :| c in documents && DocumentIdAt(store, c) == id;
      assert m[id] == store.documentChecksums[c];
    }
  }

  method GetDocumentMapFromAssets(store: AssetStore, documents: set<Checksum>)
    returns (r: Result<map<DocumentId, DocumentStateChecksums>, Error>)
    ensures r.Success? <==> NewSideResolvable(store, documents)
    ensures r.Success? ==> r.value == NewDocumentMap(store, documents)
    ensures !(documents <= store.documentChecksums.Keys) ==> r == Failure(AssetNotFound(documents - store.documentChecksums.Keys))
  {
    var fetched := FetchAll(store.documentChecksums, documents);
    if fetched.Failure? {
      return Failure(fetched.error);
    }
    var infoChecksums := CollectInfoChecksums(fetched.value, (d: DocumentStateChecksums) => d.info);
    var infos := FetchAll(store.documentAttributes, infoChecksums);
    if infos.Failure? {
      var c :| c in infoChecksums && c !in store.documentAttributes;
      return Failure(infos.error);
    }
    assert DocumentsResolvable(store, documents);
    r := IndexByDocumentId(store, fetched.value, documents);
  }

  /** One more checksum indexed: either its id is new, or the whole set has a repeated id. */
  lemma NewDocumentMapStep(store: AssetStore, documents: set<Checksum>, done: set<Checksum>, c: Checksum)
    requires DocumentsResolvable(store, documents) && done <= documents && c in documents && c !in done
    requires NewSideResolvable(store, done)
    ensures DocumentIdAt(store, c) in NewDocumentMap(store, done) ==> !DistinctIdsAt(store, documents)
    ensures DocumentIdAt(store, c) !in NewDocumentMap(store, done) ==>
      && NewSideResolvable(store, done + {c})
      && NewDocumentMap(store, done + {c}) == NewDocumentMap(store, done)[DocumentIdAt(store, c) := store.documentChecksums[c]]
  {
    if DocumentIdAt(store, c) in NewDocumentMap(store, done) {
      var c' :| c' in done && DocumentIdAt(store, c') == DocumentIdAt(store, c);
      assert c' != c;
    } else {
      assert DistinctIdsAt(store, done + {c});
    }
  }

  /** The dictionary of the new documents, keyed by id; a repeated id fails as Dictionary.Add does. */
  method IndexByDocumentId(store: AssetStore, documentChecksums: map<Checksum, DocumentStateChecksums>, documents: set<Checksum>)
    returns (r: Result<map<DocumentId, DocumentStateChecksums>, Error>)
    requires DocumentsResolvable(store, documents)
    requires documentChecksums.Keys == documents && forall c :: c in documents ==> documentChecksums[c] == store.documentChecksums[c]
    ensures r.Success? <==> DistinctIdsAt(store, documents)
    ensures r.Success? ==> r.value == NewDocumentMap(store, documents)
  {
    var m: map<DocumentId, DocumentStateChecksums> := map[];
    var remaining := documentChecksums.Keys;
    ghost var done: set<Checksum> := {};
    while remaining != {}
      invariant done !! remaining && done + remaining == documents
      invariant NewSideResolvable(store, done)
      invariant m == NewDocumentMap(store, done)
    {
      var c :| c in remaining;
      var info := store.documentAttributes[documentChecksums[c].info];
      NewDocumentMapStep(store, documents, done, c);
      if info.id in m {
        return Failure(DuplicateId);
      }
      remaining := remaining - {c};
      done := done + {c};
      m := m[info.id := documentChecksums[c]];
    }
    return Success(m);
  }

  // ----- UpdateDocumentInfoAsync -----

  /** The attributes that no API can change once a document exists. */
  predicate SameDocumentIdentity(a: DocumentAttributes, b: DocumentAttributes) {
    && a.id == b.id
    && a.name == b.name
    && a.filePath == b.filePath
    && a.isGenerated == b.isGenerated
    && a.designTimeOnly == b.designTimeOnly
  }

  /**
   * The document after its attributes are brought to those stored under
   * `infoChecksum`: the identity must be the same, and folders or source kind
   * may differ only for an ordinary document.
   */
  function DocumentInfoUpdated(store: AssetStore, kind: TextDocumentKind, d: DocumentState, infoChecksum: Checksum): Result<DocumentState, Error> {
    if infoChecksum !in store.documentAttributes then Failure(AssetNotFound({infoChecksum}))
    else
      var a := store.documentAttributes[infoChecksum];
      if !SameDocumentIdentity(d.attributes, a) then Failure(DocumentIdentityChanged)
      else if kind != Document && (d.attributes.folders != a.folders || d.attributes.sourceCodeKind != a.sourceCodeKind) then
        Failure(KindCannotChangeAttribute)
      else Success(d.(attributes := a))
  }

  method UpdateDocumentInfo(store: AssetStore, kind: TextDocumentKind, document: DocumentState, infoChecksum: Checksum)
    returns (r: Result<DocumentState, Error>, rewritten: set<DocumentAttribute>)
    ensures r == DocumentInfoUpdated(store, kind, document, infoChecksum)
    ensures infoChecksum in store.documentAttributes && !SameDocumentIdentity(document.attributes, store.documentAttributes[infoChecksum])
      ==> r == Failure(DocumentIdentityChanged)
    ensures r.Success? ==> r.value.attributes == store.documentAttributes[infoChecksum] && r.value.text == document.text
    ensures r.Success? ==> (Folders in rewritten <==> document.attributes.folders != r.value.attributes.folders)
    ensures r.Success? ==> (Kind in rewritten <==> document.attributes.sourceCodeKind != r.value.attributes.sourceCodeKind)
    ensures r.Success? && kind != Document ==> rewritten == {}
  {
    rewritten := {};
    if infoChecksum !in store.documentAttributes {
      return Failure(AssetNotFound({infoChecksum})), rewritten;
    }
    var newInfo := store.documentAttributes[infoChecksum];
    var current := document.attributes;
    if current.id != newInfo.id { return Failure(DocumentIdentityChanged), rewritten; }
    if current.name != newInfo.name { return Failure(DocumentIdentityChanged), rewritten; }
    if current.filePath != newInfo.filePath { return Failure(DocumentIdentityChanged), rewritten; }
    if current.isGenerated != newInfo.isGenerated { return Failure(DocumentIdentityChanged), rewritten; }
    if current.designTimeOnly != newInfo.designTimeOnly { return Failure(DocumentIdentityChanged), rewritten; }

    var doc := document;
    if doc.attributes.folders != newInfo.folders {
      // an additional or analyzer config document cannot change its folders
      if kind != Document { return Failure(KindCannotChangeAttribute), rewritten; }
      doc := doc.(attributes := doc.attributes.(folders := newInfo.folders));
      rewritten := rewritten + {Folders};
    }
    if doc.attributes.sourceCodeKind != newInfo.sourceCodeKind {
      // nor its source code kind
      if kind != Document { return Failure(KindCannotChangeAttribute), rewritten; }
      doc := doc.(attributes := doc.attributes.(sourceCodeKind := newInfo.sourceCodeKind));
      rewritten := rewritten + {Kind};
    }
    return Success(doc), rewritten;
  }

  // ----- UpdateDocumentAsync -----

  /**
   * A changed document: its attributes are re-read only when the info
   * checksum differs and its text is replaced wholesale only when the text
   * checksum differs.
   */
  function DocumentUpdated(store: AssetStore, kind: TextDocumentKind, d: DocumentState, oldC: DocumentStateChecksums, newC: DocumentStateChecksums)
    : (r: Result<DocumentState, Error>)
    ensures r.Success? <==>
      && (oldC.info != newC.info ==> DocumentInfoUpdated(store, kind, d, newC.info).Success?)
      && (oldC.text != newC.text ==> newC.text in store.texts)
    ensures r.Success? ==> r.value.attributes == if oldC.info == newC.info then d.attributes else store.documentAttributes[newC.info]
    ensures r.Success? ==> r.value.text == if oldC.text == newC.text then d.text else store.texts[newC.text]
    ensures r.Success? ==> SameDocumentIdentity(d.attributes, r.value.attributes)
  {
    var d1 :- if oldC.info != newC.info then DocumentInfoUpdated(store, kind, d, newC.info) else Success(d);
    if oldC.text != newC.text then
      var text :- Fetch(store.texts, newC.text);
      Success(d1.(text := text))
    else
      Success(d1)
  }

  method UpdateDocument(store: AssetStore, kind: TextDocumentKind, document: DocumentState, oldC: DocumentStateChecksums, newC: DocumentStateChecksums)
    returns (r: Result<DocumentState, Error>)
    ensures r == DocumentUpdated(store, kind, document, oldC, newC)
  {
    var doc := document;
    if oldC.info != newC.info {
      var updated, _ := UpdateDocumentInfo(store, kind, doc, newC.info);
      if updated.Failure? {
        return updated;
      }
      doc := updated.value;
    }
    if oldC.text != newC.text {
      if newC.text !in store.texts {
        return Failure(AssetNotFound({newC.text}));
      }
      // WithDocumentText, WithAdditionalDocumentText or WithAnalyzerConfigDocumentText, by kind:
      // each replaces the whole text of that one document
      doc := doc.(text := store.texts[newC.text]);
    }
    return Success(doc);
  }

  // ----- UpdateDocumentsAsync -----

  /** The two maps UpdateDocumentsAsync works from, and the three id sets they split into. */
  datatype DocumentDiff = DocumentDiff(oldMap: map<DocumentId, DocumentStateChecksums>, newMap: map<DocumentId, DocumentStateChecksums>) {
    function Added(): set<DocumentId> { newMap.Keys - oldMap.Keys }
    function Changed(): set<DocumentId> { newMap.Keys * oldMap.Keys }
    function Removed(): set<DocumentId> { oldMap.Keys - newMap.Keys }
  }

  function DiffOf(store: AssetStore, hasher: Hasher, p: ProjectState, kind: TextDocumentKind, oldC: ChecksumCollection, newC: ChecksumCollection): DocumentDiff
    requires NewSideResolvable(store, News(oldC, newC))
  {
    DocumentDiff(OldDocumentMap(hasher, DocumentsOf(p, kind), Olds(oldC, newC)), NewDocumentMap(store, News(oldC, newC)))
  }

  /** The ids on the new side of a collection diff, or none when that side does not resolve. */
  function NewSideIds(store: AssetStore, oldC: ChecksumCollection, newC: ChecksumCollection): set<DocumentId> {
    if NewSideResolvable(store, News(oldC, newC)) then NewDocumentMap(store, News(oldC, newC)).Keys else {}
  }

  function CreatedDocument(store: AssetStore, diff: DocumentDiff, id: DocumentId): Result<DocumentState, Error>
    requires id in diff.newMap
  {
    CreateDocumentInfo(store, diff.newMap[id].checksum)
  }

  predicate CanCreateAdded(store: AssetStore, diff: DocumentDiff) {
    forall id :: id in diff.Added() ==> CreatedDocument(store, diff, id).Success?
  }

  function AddedDocuments(store: AssetStore, diff: DocumentDiff): map<DocumentId, DocumentState>
    requires CanCreateAdded(store, diff)
  {
    map id | id in diff.Added() :: CreatedDocument(store, diff, id).value
  }

  /** The existing document with this id, wherever the three-way lookup finds it. */
  predicate Found(p: ProjectState, id: DocumentId) {
    FindDocument(p, id).Some?
  }

  function Existing(p: ProjectState, id: DocumentId): DocumentState
    requires Found(p, id)
  {
    DocumentsOf(p, FindDocument(p, id).value)[id]
  }

  /** The changed document `id` passes the checks of the "changed document" loop and updates cleanly. */
  predicate ChangeApplies(store: AssetStore, p: ProjectState, diff: DocumentDiff, id: DocumentId)
    requires id in diff.Changed()
  {
    && diff.oldMap[id].checksum != diff.newMap[id].checksum
    && Found(p, id)
    && DocumentUpdated(store, FindDocument(p, id).value, Existing(p, id), diff.oldMap[id], diff.newMap[id]).Success?
  }

  predicate CanUpdateChangedOn(store: AssetStore, p: ProjectState, diff: DocumentDiff, ids: set<DocumentId>) {
    forall id :: id in diff.Changed() && id in ids ==> ChangeApplies(store, p, diff, id)
  }

  predicate CanUpdateChanged(store: AssetStore, p: ProjectState, diff: DocumentDiff) {
    CanUpdateChangedOn(store, p, diff, diff.newMap.Keys)
  }

  function UpdatedDocument(store: AssetStore, p: ProjectState, diff: DocumentDiff, id: DocumentId): DocumentState
    requires id in diff.Changed() && ChangeApplies(store, p, diff, id)
  {
    DocumentUpdated(store, FindDocument(p, id).value, Existing(p, id), diff.oldMap[id], diff.newMap[id]).value
  }

  /** Documents of one kind after the changed documents among `ids` have been updated where they were found. */
  function ChangedOfKind(store: AssetStore, p: ProjectState, diff: DocumentDiff, kind: TextDocumentKind, ids: set<DocumentId>): map<DocumentId, DocumentState>
    requires CanUpdateChangedOn(store, p, diff, ids)
  {
    map id | id in DocumentsOf(p, kind) ::
      if id in diff.Changed() && id in ids && FindDocument(p, id) == Some(kind) then UpdatedDocument(store, p, diff, id)
      else DocumentsOf(p, kind)[id]
  }

  function ChangesApplied(store: AssetStore, p: ProjectState, diff: DocumentDiff, ids: set<DocumentId>): ProjectState
    requires CanUpdateChangedOn(store, p, diff, ids)
  {
    p.(documents := ChangedOfKind(store, p, diff, Document, ids),
       additionalDocuments := ChangedOfKind(store, p, diff, AdditionalDocument, ids),
       analyzerConfigDocuments := ChangedOfKind(store, p, diff, AnalyzerConfigDocument, ids))
  }

  function ChangedApplied(store: AssetStore, p: ProjectState, diff: DocumentDiff): ProjectState
    requires CanUpdateChanged(store, p, diff)
  {
    ChangesApplied(store, p, diff, diff.newMap.Keys)
  }

  /** Updating some changed documents keeps every id where it was and leaves the others as they were. */
  lemma ChangesAppliedShape(store: AssetStore, p: ProjectState, diff: DocumentDiff, ids: set<DocumentId>)
    requires CanUpdateChangedOn(store, p, diff, ids)
    ensures SameNonDocumentParts(p, ChangesApplied(store, p, diff, ids))
    ensures forall k :: DocumentsOf(ChangesApplied(store, p, diff, ids), k).Keys == DocumentsOf(p, k).Keys
    ensures forall id :: FindDocument(ChangesApplied(store, p, diff, ids), id) == FindDocument(p, id)
    ensures forall id :: id !in ids && Found(p, id) ==> Existing(ChangesApplied(store, p, diff, ids), id) == Existing(p, id)
  {
    var q := ChangesApplied(store, p, diff, ids);
    ChangedOfKindShape(store, p, diff, ids, Document);
    ChangedOfKindShape(store, p, diff, ids, AdditionalDocument);
    ChangedOfKindShape(store, p, diff, ids, AnalyzerConfigDocument);
    assert q.documents == ChangedOfKind(store, p, diff, Document, ids);
    assert q.additionalDocuments == ChangedOfKind(store, p, diff, AdditionalDocument, ids);
    assert q.analyzerConfigDocuments == ChangedOfKind(store, p, diff, AnalyzerConfigDocument, ids);
  }

  lemma ChangedOfKindShape(store: AssetStore, p: ProjectState, diff: DocumentDiff, ids: set<DocumentId>, k: TextDocumentKind)
    requires CanUpdateChangedOn(store, p, diff, ids)
    ensures ChangedOfKind(store, p, diff, k, ids).Keys == DocumentsOf(p, k).Keys
    ensures forall id :: id !in ids && id in DocumentsOf(p, k) ==> ChangedOfKind(store, p, diff, k, ids)[id] == DocumentsOf(p, k)[id]
  {
  }

  /** One more id handled by the "changed document" loop: an added one changes nothing. */
  lemma ChangesAppliedSkip(store: AssetStore, p: ProjectState, diff: DocumentDiff, ids: set<DocumentId>, id: DocumentId)
    requires CanUpdateChangedOn(store, p, diff, ids) && id !in diff.Changed()
    ensures CanUpdateChangedOn(store, p, diff, ids + {id})
    ensures ChangesApplied(store, p, diff, ids + {id}) == ChangesApplied(store, p, diff, ids)
  {
    forall k ensures ChangedOfKind(store, p, diff, k, ids + {id}) == ChangedOfKind(store, p, diff, k, ids) {
    }
  }

  lemma ChangedOfKindStep(store: AssetStore, p: ProjectState, diff: DocumentDiff, ids: set<DocumentId>, id: DocumentId, k: TextDocumentKind)
    requires CanUpdateChangedOn(store, p, diff, ids) && id !in ids && id in diff.Changed() && ChangeApplies(store, p, diff, id)
    requires CanUpdateChangedOn(store, p, diff, ids + {id})
    ensures ChangedOfKind(store, p, diff, k, ids + {id}) ==
      if FindDocument(p, id) == Some(k) then ChangedOfKind(store, p, diff, k, ids)[id := UpdatedDocument(store, p, diff, id)]
      else ChangedOfKind(store, p, diff, k, ids)
  {
  }

  /** One more id handled by the "changed document" loop: a changed one is replaced in the kind it was found in. */
  lemma ChangesAppliedStep(store: AssetStore, p: ProjectState, diff: DocumentDiff, ids: set<DocumentId>, id: DocumentId)
    requires CanUpdateChangedOn(store, p, diff, ids) && id !in ids && id in diff.Changed() && ChangeApplies(store, p, diff, id)
    ensures CanUpdateChangedOn(store, p, diff, ids + {id})
    ensures
      var k := FindDocument(p, id).value;
      var q := ChangesApplied(store, p, diff, ids);
      ChangesApplied(store, p, diff, ids + {id}) == WithDocumentsOf(q, k, DocumentsOf(q, k)[id := UpdatedDocument(store, p, diff, id)])
  {
    assert CanUpdateChangedOn(store, p, diff, ids + {id});
    ChangedOfKindStep(store, p, diff, ids, id, Document);
    ChangedOfKindStep(store, p, diff, ids, id, AdditionalDocument);
    ChangedOfKindStep(store, p, diff, ids, id, AnalyzerConfigDocument);
  }

  /**
   * What UpdateDocumentsAsync makes of one document collection of a project,
   * or None when it fails: added documents are created and added, changed
   * ones updated, removed ones removed.
   */
  ghost function DocumentsUpdated(store: AssetStore, hasher: Hasher, p: ProjectState, kind: TextDocumentKind, oldC: ChecksumCollection, newC: ChecksumCollection)
    : Option<ProjectState>
  {
    if !NewSideResolvable(store, News(oldC, newC)) then None
    else DiffApplied(store, p, kind, DiffOf(store, hasher, p, kind, oldC, newC))
  }

  /** The three loops of UpdateDocumentsAsync, in order: add, then update, then remove. */
  ghost function DiffApplied(store: AssetStore, p: ProjectState, kind: TextDocumentKind, diff: DocumentDiff): Option<ProjectState> {
    if !CanCreateAdded(store, diff) || !(diff.Added() !! DocumentsOf(p, kind).Keys) then None
    else
      var p1 := WithDocumentsOf(p, kind, DocumentsOf(p, kind) + AddedDocuments(store, diff));
      if !CanUpdateChanged(store, p1, diff) then None
      else
        var p2 := ChangedApplied(store, p1, diff);
        Some(WithDocumentsOf(p2, kind, DocumentsOf(p2, kind) - diff.Removed()))
  }

  /** The calls UpdateDocumentsAsync makes besides editing the project. */
  datatype DocumentsTrace = DocumentsTrace(
    bulkSync: Option<Checksum>,
    addBatch: Option<seq<DocumentState>>,
    removeBatch: Option<seq<DocumentId>>)

  lemma BatchIdsAppend(docs: seq<DocumentState>, d: DocumentState)
    ensures BatchIds(docs + [d]) == BatchIds(docs) + {d.attributes.id}
  {
    assert forall x :: x in docs + [d] <==> x in docs || x == d;
  }

  /** The "added document" loop: one batch holding every added document, or None when nothing was added. */
  method CollectAddedDocuments(store: AssetStore, diff: DocumentDiff) returns (r: Result<Option<seq<DocumentState>>, Error>)
    requires ResolvedDocumentMap(store, diff.newMap)
    ensures r.Success? <==> CanCreateAdded(store, diff)
    ensures r.Success? ==> (r.value.Some? <==> diff.Added() != {})
    ensures r.Success? && r.value.Some? ==> DistinctDocumentIds(r.value.value) && BatchIds(r.value.value) == diff.Added()
    ensures r.Success? && r.value.Some? ==> forall i :: 0 <= i < |r.value.value| ==>
      r.value.value[i].attributes.id in diff.Added() && CreatedDocument(store, diff, r.value.value[i].attributes.id) == Success(r.value.value[i])
  {
    var lazyDocumentsToAdd: Option<seq<DocumentState>> := None;
    var remaining := diff.newMap.Keys;
    while remaining != {}
      invariant remaining <= diff.newMap.Keys
      invariant forall id :: id in diff.Added() && id !in remaining ==> CreatedDocument(store, diff, id).Success?
      invariant lazyDocumentsToAdd.Some? <==> diff.Added() - remaining != {}
      invariant lazyDocumentsToAdd.Some? ==>
        && DistinctDocumentIds(lazyDocumentsToAdd.value)
        && BatchIds(lazyDocumentsToAdd.value) == diff.Added() - remaining
        && forall i :: 0 <= i < |lazyDocumentsToAdd.value| ==>
             lazyDocumentsToAdd.value[i].attributes.id in diff.Added()
             && CreatedDocument(store, diff, lazyDocumentsToAdd.value[i].attributes.id) == Success(lazyDocumentsToAdd.value[i])
    {
      var id :| id in remaining;
      remaining := remaining - {id};
      if id !in diff.oldMap {
        var batch := lazyDocumentsToAdd.GetOr([]);
        var documentInfo := CreateDocumentInfo(store, diff.newMap[id].checksum);
        assert documentInfo == CreatedDocument(store, diff, id);
        if documentInfo.Failure? {
          return Failure(documentInfo.error);
        }
        assert documentInfo.value.attributes.id == id;
        BatchIdsAppend(batch, documentInfo.value);
        lazyDocumentsToAdd := Some(batch + [documentInfo.value]);
      }
    }
    return Success(lazyDocumentsToAdd);
  }

  lemma ChangesAppliedNone(store: AssetStore, p: ProjectState, diff: DocumentDiff)
    ensures CanUpdateChangedOn(store, p, diff, {})
    ensures ChangesApplied(store, p, diff, {}) == p
  {
    forall k ensures ChangedOfKind(store, p, diff, k, {}) == DocumentsOf(p, k) {
    }
  }

  lemma CanUpdateChangedOnSubset(store: AssetStore, p: ProjectState, diff: DocumentDiff, ids: set<DocumentId>, more: set<DocumentId>)
    requires ids <= more
    ensures CanUpdateChangedOn(store, p, diff, more) ==> CanUpdateChangedOn(store, p, diff, ids)
  {
  }

  /** One pass of the "changed document" loop, for the id `id` of the new map. */
  method UpdateChangedDocument(store: AssetStore, project: ProjectState, diff: DocumentDiff, ghost done: set<DocumentId>, p: ProjectState, id: DocumentId)
    returns (r: Result<ProjectState, Error>)
    requires CanUpdateChangedOn(store, project, diff, done) && p == ChangesApplied(store, project, diff, done)
    requires id in diff.newMap && id !in done
    ensures r.Success? <==> CanUpdateChangedOn(store, project, diff, done + {id})
    ensures r.Success? ==> r.value == ChangesApplied(store, project, diff, done + {id})
  {
    if id !in diff.oldMap {
      ChangesAppliedSkip(store, project, diff, done, id);
      return Success(p);
    }
    if diff.oldMap[id].checksum == diff.newMap[id].checksum {
      return Failure(ChecksumUnchanged);
    }
    ChangesAppliedShape(store, project, diff, done);
    var kind := FindDocument(p, id);
    if kind.None? {
      return Failure(DocumentNotFound);
    }
    assert DocumentsOf(p, kind.value)[id] == Existing(project, id);
    var updated := UpdateDocument(store, kind.value, DocumentsOf(p, kind.value)[id], diff.oldMap[id], diff.newMap[id]);
    if updated.Failure? {
      return Failure(updated.error);
    }
    ChangesAppliedStep(store, project, diff, done, id);
    return Success(WithDocumentsOf(p, kind.value, DocumentsOf(p, kind.value)[id := updated.value]));
  }

  /** The "changed document" loop. */
  method UpdateChangedDocuments(store: AssetStore, project: ProjectState, diff: DocumentDiff) returns (r: Result<ProjectState, Error>)
    ensures r.Success? <==> CanUpdateChanged(store, project, diff)
    ensures r.Success? ==> r.value == ChangedApplied(store, project, diff)
  {
    var p := project;
    var remaining := diff.newMap.Keys;
    ghost var done: set<DocumentId> := {};
    ChangesAppliedNone(store, project, diff);
    while remaining != {}
      invariant remaining <= diff.newMap.Keys && done == diff.newMap.Keys - remaining
      invariant CanUpdateChangedOn(store, project, diff, done)
      invariant p == ChangesApplied(store, project, diff, done)
    {
      var id :| id in remaining;
      var next := UpdateChangedDocument(store, project, diff, done, p, id);
      if next.Failure? {
        CanUpdateChangedOnSubset(store, project, diff, done + {id}, diff.newMap.Keys);
        return next;
      }
      p := next.value;
      remaining := remaining - {id};
      done := done + {id};
    }
    assert done == diff.newMap.Keys;
    return Success(p);
  }

  /** The "removed document" loop: one batch holding every removed id, or None when nothing was removed. */
  method CollectRemovedDocuments(diff: DocumentDiff) returns (batch: Option<seq<DocumentId>>)
    ensures batch.Some? <==> diff.Removed() != {}
    ensures batch.Some? ==> (set id | id in batch.value) == diff.Removed()
    ensures batch.Some? ==> forall i, j :: 0 <= i < j < |batch.value| ==> batch.value[i] != batch.value[j]
  {
    batch := None;
    var remaining := diff.oldMap.Keys;
    while remaining != {}
      invariant remaining <= diff.oldMap.Keys
      invariant batch.Some? <==> diff.Removed() - remaining != {}
      invariant batch.Some? ==> (set id | id in batch.value) == diff.Removed() - remaining
      invariant batch.Some? ==> forall i, j :: 0 <= i < j < |batch.value| ==> batch.value[i] != batch.value[j]
    {
      var id :| id in remaining;
      remaining := remaining - {id};
      if id !in diff.newMap {
        var ids := batch.GetOr([]);
        assert (set x | x in ids + [id]) == (set x | x in ids) + {id};
        batch := Some(ids + [id]);
      }
    }
  }

  /** The added batch, applied by AddDocuments, is the spec's addition of the created documents. */
  lemma AddedBatchApplied(store: AssetStore, diff: DocumentDiff, p: ProjectState, kind: TextDocumentKind, batch: seq<DocumentState>)
    requires CanCreateAdded(store, diff)
    requires DistinctDocumentIds(batch) && BatchIds(batch) == diff.Added()
    requires forall i :: 0 <= i < |batch| ==>
      batch[i].attributes.id in diff.Added() && CreatedDocument(store, diff, batch[i].attributes.id) == Success(batch[i])
    ensures AddDocuments(p, kind, batch).Success? <==> diff.Added() !! DocumentsOf(p, kind).Keys
    ensures AddDocuments(p, kind, batch).Success? ==>
      AddDocuments(p, kind, batch).value == WithDocumentsOf(p, kind, DocumentsOf(p, kind) + AddedDocuments(store, diff))
  {
    var added := AddedDocuments(store, diff);
    assert forall i :: 0 <= i < |batch| ==> batch[i].attributes.id in added && added[batch[i].attributes.id] == batch[i];
    AddBatchIsUnion(p, kind, batch, added);
  }

  /** Adding a batch of documents with distinct ids is a map union. */
  lemma AddBatchIsUnion(p: ProjectState, kind: TextDocumentKind, batch: seq<DocumentState>, added: map<DocumentId, DocumentState>)
    requires DistinctDocumentIds(batch) && BatchIds(batch) == added.Keys
    requires forall i :: 0 <= i < |batch| ==> batch[i].attributes.id in added && added[batch[i].attributes.id] == batch[i]
    ensures AddDocuments(p, kind, batch).Success? <==> added.Keys !! DocumentsOf(p, kind).Keys
    ensures AddDocuments(p, kind, batch).Success? ==> AddDocuments(p, kind, batch).value == WithDocumentsOf(p, kind, DocumentsOf(p, kind) + added)
  {
    var batchMap := BatchMap(batch);
    forall id | id in batchMap
      ensures batchMap[id] == added[id]
    {
      var i :| 0 <= i < |batch| && batch[i].attributes.id == id;
    }
    assert batchMap == added;
  }

  lemma NothingAdded(store: AssetStore, diff: DocumentDiff, p: ProjectState, kind: TextDocumentKind)
    requires diff.Added() == {}
    ensures CanCreateAdded(store, diff) && diff.Added() !! DocumentsOf(p, kind).Keys
    ensures WithDocumentsOf(p, kind, DocumentsOf(p, kind) + AddedDocuments(store, diff)) == p
  {
    assert DocumentsOf(p, kind) + AddedDocuments(store, diff) == DocumentsOf(p, kind);
    ProjectByParts(WithDocumentsOf(p, kind, DocumentsOf(p, kind)), p);
  }

  lemma RemovedBatchApplied(diff: DocumentDiff, p: ProjectState, kind: TextDocumentKind, batch: Option<seq<DocumentId>>)
    requires batch.Some? <==> diff.Removed() != {}
    requires batch.Some? ==> (set id | id in batch.value) == diff.Removed()
    ensures (if batch.Some? then RemoveDocuments(p, kind, batch.value) else p)
      == WithDocumentsOf(p, kind, DocumentsOf(p, kind) - diff.Removed())
  {
    var q := WithDocumentsOf(p, kind, DocumentsOf(p, kind) - diff.Removed());
    if batch.Some? {
      var r := RemoveDocuments(p, kind, batch.value);
      assert DocumentsOf(r, kind) == DocumentsOf(q, kind);
      ProjectByParts(r, q);
    } else {
      assert DocumentsOf(p, kind) - diff.Removed() == DocumentsOf(p, kind);
      ProjectByParts(p, q);
    }
  }

  /** The "added document" loop and the AddDocuments call that follows it. */
  method AddNewDocuments(store: AssetStore, project: ProjectState, kind: TextDocumentKind, diff: DocumentDiff)
    returns (r: Result<ProjectState, Error>, addBatch: Option<seq<DocumentState>>)
    requires ResolvedDocumentMap(store, diff.newMap)
    ensures r.Success? <==> CanCreateAdded(store, diff) && diff.Added() !! DocumentsOf(project, kind).Keys
    ensures r.Success? ==> r.value == WithDocumentsOf(project, kind, DocumentsOf(project, kind) + AddedDocuments(store, diff))
    ensures r.Success? ==> (addBatch.Some? <==> diff.Added() != {})
    ensures r.Success? && addBatch.Some? ==> BatchIds(addBatch.value) == diff.Added()
  {
    addBatch := None;
    var added := CollectAddedDocuments(store, diff);
    if added.Failure? {
      return Failure(added.error), addBatch;
    }
    if added.value.None? {
      NothingAdded(store, diff, project, kind);
      return Success(project), addBatch;
    }
    addBatch := added.value;
    AddedBatchApplied(store, diff, project, kind, added.value.value);
    r := AddDocuments(project, kind, added.value.value);
  }

  /** The add, update and remove loops of UpdateDocumentsAsync, once both document maps are built. */
  method ApplyDocumentDiff(store: AssetStore, project: ProjectState, kind: TextDocumentKind, diff: DocumentDiff)
    returns (r: Result<ProjectState, Error>, addBatch: Option<seq<DocumentState>>, removeBatch: Option<seq<DocumentId>>)
    requires ResolvedDocumentMap(store, diff.newMap)
    ensures r.ToOption() == DiffApplied(store, project, kind, diff)
    ensures r.Success? ==> (addBatch.Some? <==> diff.Added() != {})
    ensures r.Success? && addBatch.Some? ==> BatchIds(addBatch.value) == diff.Added()
    ensures r.Success? ==> (removeBatch.Some? <==> diff.Removed() != {})
    ensures r.Success? && removeBatch.Some? ==> (set id | id in removeBatch.value) == diff.Removed()
  {
    removeBatch := None;
    var withAdded;
    withAdded, addBatch := AddNewDocuments(store, project, kind, diff);
    if withAdded.Failure? {
      return Failure(withAdded.error), addBatch, removeBatch;
    }
    var changed := UpdateChangedDocuments(store, withAdded.value, diff);
    if changed.Failure? {
      return Failure(changed.error), addBatch, removeBatch;
    }
    var p := changed.value;
    var removed := CollectRemovedDocuments(diff);
    RemovedBatchApplied(diff, p, kind, removed);
    if removed.Some? {
      removeBatch := removed;
      p := RemoveDocuments(p, kind, removed.value);
    }
    return Success(p), addBatch, removeBatch;
  }

  /**
   * UpdateDocumentsAsync for one document collection (documents, additional
   * documents or analyzer config documents) of a project.
   */
  method UpdateDocuments(store: AssetStore, hasher: Hasher, project: ProjectState, projectChecksums: ProjectStateChecksums,
                         kind: TextDocumentKind, oldC: ChecksumCollection, newC: ChecksumCollection)
    returns (r: Result<ProjectState, Error>, trace: DocumentsTrace)
    requires ContentAddressed(store)
    ensures r.ToOption() == DocumentsUpdated(store, hasher, project, kind, oldC, newC)
    ensures r.Success? ==> NewSideResolvable(store, News(oldC, newC))
    ensures r.Success? ==> (trace.bulkSync.Some? <==> |DiffOf(store, hasher, project, kind, oldC, newC).newMap| > 2)
    ensures trace.bulkSync.Some? ==> trace.bulkSync.value == projectChecksums.checksum
    ensures r.Success? ==> (trace.addBatch.Some? <==> DiffOf(store, hasher, project, kind, oldC, newC).Added() != {})
    ensures r.Success? && trace.addBatch.Some? ==> BatchIds(trace.addBatch.value) == DiffOf(store, hasher, project, kind, oldC, newC).Added()
    ensures r.Success? ==> (trace.removeBatch.Some? <==> DiffOf(store, hasher, project, kind, oldC, newC).Removed() != {})
    ensures r.Success? && trace.removeBatch.Some? ==>
      (set id | id in trace.removeBatch.value) == DiffOf(store, hasher, project, kind, oldC, newC).Removed()
  {
    trace := DocumentsTrace(None, None, None);
    var olds, news := Diff(oldC.children, newC.children);
    assert olds == Olds(oldC, newC) && news == News(oldC, newC);
    var oldMap := GetDocumentMapFromStates(hasher, DocumentsOf(project, kind), olds);
    var fetched := GetDocumentMapFromAssets(store, news);
    if fetched.Failure? {
      return Failure(fetched.error), trace;
    }
    var newMap := fetched.value;

    // more than two new or changed documents: synchronize the whole project's assets in bulk first
    if |newMap| > 2 {
      trace := trace.(bulkSync := Some(projectChecksums.checksum));
    }

    var diff := DocumentDiff(oldMap, newMap);
    assert diff == DiffOf(store, hasher, project, kind, oldC, newC);
    NewDocumentMapIsResolved(store, news);
    var addBatch, removeBatch;
    r, addBatch, removeBatch := ApplyDocumentDiff(store, project, kind, diff);
    trace := trace.(addBatch := addBatch, removeBatch := removeBatch);
  }

  // ----- What UpdateDocumentsAsync achieves -----

  /**
   * The assertion that a changed document's checksum differs on the two sides
   * always holds: old-side checksums come from the olds set, new-side ones
   * from the news set, and the two are disjoint.
   */
  lemma ChangedChecksumsDiffer(store: AssetStore, hasher: Hasher, p: ProjectState, kind: TextDocumentKind, oldC: ChecksumCollection, newC: ChecksumCollection)
    requires ContentAddressed(store) && NewSideResolvable(store, News(oldC, newC))
    ensures var diff := DiffOf(store, hasher, p, kind, oldC, newC);
      forall id :: id in diff.Changed() ==> diff.oldMap[id].checksum != diff.newMap[id].checksum
  {
    NewDocumentMapIsResolved(store, News(oldC, newC));
  }

  /** With document ids unique across kinds, the three-way lookup finds a changed document in the collection being updated. */
  lemma ChangedFoundInKind(p: ProjectState, kind: TextDocumentKind, diff: DocumentDiff, added: map<DocumentId, DocumentState>, id: DocumentId)
    requires DocumentIdsDisjoint(p) && diff.oldMap.Keys <= DocumentsOf(p, kind).Keys
    requires id in diff.Changed() && id !in added
    ensures var p1 := WithDocumentsOf(p, kind, DocumentsOf(p, kind) + added);
      FindDocument(p1, id) == Some(kind) && Existing(p1, id) == DocumentsOf(p, kind)[id]
  {
    var p1 := WithDocumentsOf(p, kind, DocumentsOf(p, kind) + added);
    assert id in DocumentsOf(p1, kind);
    assert forall k :: k != kind ==> id !in DocumentsOf(p1, k);
  }

  /**
   * The net effect of a successful UpdateDocumentsAsync on a project whose
   * document ids are unique across kinds: added documents are created from
   * the store, changed ones updated in place, removed ones gone, all other
   * documents and the other two collections untouched.
   */
  lemma DocumentsUpdatedEffect(store: AssetStore, hasher: Hasher, p: ProjectState, kind: TextDocumentKind,
                               oldC: ChecksumCollection, newC: ChecksumCollection, q: ProjectState)
    requires DocumentIdsDisjoint(p)
    requires DocumentsUpdated(store, hasher, p, kind, oldC, newC) == Some(q)
    ensures NewSideResolvable(store, News(oldC, newC))
    ensures var diff := DiffOf(store, hasher, p, kind, oldC, newC);
      && DocumentsOf(q, kind).Keys == DocumentsOf(p, kind).Keys - diff.Removed() + diff.Added()
      && (forall id :: id in diff.Added() ==> Success(DocumentsOf(q, kind)[id]) == CreateDocumentInfo(store, diff.newMap[id].checksum))
      && (forall id :: id in diff.Changed() ==>
            && id in DocumentsOf(p, kind)
            && Success(DocumentsOf(q, kind)[id]) == DocumentUpdated(store, kind, DocumentsOf(p, kind)[id], diff.oldMap[id], diff.newMap[id]))
      && (forall id :: id in DocumentsOf(p, kind) && id !in diff.oldMap ==> DocumentsOf(q, kind)[id] == DocumentsOf(p, kind)[id])
      && (forall k :: k != kind ==> DocumentsOf(q, k) == DocumentsOf(p, k))
      && SameNonDocumentParts(p, q)
  {
    var diff := DiffOf(store, hasher, p, kind, oldC, newC);
    assert diff.oldMap.Keys <= DocumentsOf(p, kind).Keys;
    DiffAppliedEffect(store, p, kind, diff, q);
  }

  /** A collection update leaves that collection within its old ids and its new-side ids, and the other collections as they were. */
  lemma DocumentsUpdatedWithin(store: AssetStore, hasher: Hasher, p: ProjectState, kind: TextDocumentKind,
                               oldC: ChecksumCollection, newC: ChecksumCollection, q: ProjectState)
    requires DocumentIdsDisjoint(p)
    requires DocumentsUpdated(store, hasher, p, kind, oldC, newC) == Some(q)
    ensures DocumentsOf(q, kind).Keys <= DocumentsOf(p, kind).Keys + NewSideIds(store, oldC, newC)
    ensures forall k :: k != kind ==> DocumentsOf(q, k) == DocumentsOf(p, k)
  {
    DocumentsUpdatedEffect(store, hasher, p, kind, oldC, newC, q);
  }

  lemma DiffAppliedEffect(store: AssetStore, p: ProjectState, kind: TextDocumentKind, diff: DocumentDiff, q: ProjectState)
    requires DocumentIdsDisjoint(p) && diff.oldMap.Keys <= DocumentsOf(p, kind).Keys
    requires DiffApplied(store, p, kind, diff) == Some(q)
    ensures DocumentsOf(q, kind).Keys == DocumentsOf(p, kind).Keys - diff.Removed() + diff.Added()
    ensures forall id :: id in diff.Added() ==> Success(DocumentsOf(q, kind)[id]) == CreateDocumentInfo(store, diff.newMap[id].checksum)
    ensures forall id :: id in diff.Changed() ==>
      && id in DocumentsOf(p, kind)
      && Success(DocumentsOf(q, kind)[id]) == DocumentUpdated(store, kind, DocumentsOf(p, kind)[id], diff.oldMap[id], diff.newMap[id])
    ensures forall id :: id in DocumentsOf(p, kind) && id !in diff.oldMap ==> DocumentsOf(q, kind)[id] == DocumentsOf(p, kind)[id]
    ensures forall k :: k != kind ==> DocumentsOf(q, k) == DocumentsOf(p, k)
    ensures SameNonDocumentParts(p, q)
  {
    var added, d2 := DiffAppliedStages(store, p, kind, diff, q);
    StagesEffect(store, p, kind, diff, q, added, d2);
  }

  /** The net effect, from what each of the three steps did. */
  lemma StagesEffect(store: AssetStore, p: ProjectState, kind: TextDocumentKind, diff: DocumentDiff, q: ProjectState,
                     added: map<DocumentId, DocumentState>, d2: map<DocumentId, DocumentState>)
    requires added.Keys == diff.Added() && added.Keys !! DocumentsOf(p, kind).Keys
    requires forall id :: id in added ==> Success(added[id]) == CreateDocumentInfo(store, diff.newMap[id].checksum)
    requires d2.Keys == DocumentsOf(p, kind).Keys + added.Keys
    requires forall id :: id in d2 && id !in diff.Changed() ==> d2[id] == (DocumentsOf(p, kind) + added)[id]
    requires forall id :: id in diff.Changed() ==>
      && id in DocumentsOf(p, kind)
      && Success(d2[id]) == DocumentUpdated(store, kind, DocumentsOf(p, kind)[id], diff.oldMap[id], diff.newMap[id])
    requires DocumentsOf(q, kind) == d2 - diff.Removed()
    ensures DocumentsOf(q, kind).Keys == DocumentsOf(p, kind).Keys - diff.Removed() + diff.Added()
    ensures forall id :: id in diff.Added() ==> Success(DocumentsOf(q, kind)[id]) == CreateDocumentInfo(store, diff.newMap[id].checksum)
    ensures forall id :: id in diff.Changed() ==>
      Success(DocumentsOf(q, kind)[id]) == DocumentUpdated(store, kind, DocumentsOf(p, kind)[id], diff.oldMap[id], diff.newMap[id])
    ensures forall id :: id in DocumentsOf(p, kind) && id !in diff.oldMap ==> DocumentsOf(q, kind)[id] == DocumentsOf(p, kind)[id]
  {
    RemovalPhase(DocumentsOf(p, kind), added, d2, diff.Changed(), diff.Removed());
  }

  /** The collection after the add step (`added` joined) and after the update step (`d2`). */
  lemma DiffAppliedStages(store: AssetStore, p: ProjectState, kind: TextDocumentKind, diff: DocumentDiff, q: ProjectState)
    returns (added: map<DocumentId, DocumentState>, d2: map<DocumentId, DocumentState>)
    requires DocumentIdsDisjoint(p) && diff.oldMap.Keys <= DocumentsOf(p, kind).Keys
    requires DiffApplied(store, p, kind, diff) == Some(q)
    ensures added.Keys == diff.Added() && added.Keys !! DocumentsOf(p, kind).Keys
    ensures forall id :: id in added ==> Success(added[id]) == CreateDocumentInfo(store, diff.newMap[id].checksum)
    ensures d2.Keys == DocumentsOf(p, kind).Keys + added.Keys
    ensures forall id :: id in d2 && id !in diff.Changed() ==> d2[id] == (DocumentsOf(p, kind) + added)[id]
    ensures forall id :: id in diff.Changed() ==>
      && id in DocumentsOf(p, kind)
      && Success(d2[id]) == DocumentUpdated(store, kind, DocumentsOf(p, kind)[id], diff.oldMap[id], diff.newMap[id])
    ensures DocumentsOf(q, kind) == d2 - diff.Removed()
    ensures forall k :: k != kind ==> DocumentsOf(q, k) == DocumentsOf(p, k)
    ensures SameNonDocumentParts(p, q)
  {
    added := AddedDocuments(store, diff);
    AddedDocumentsCreated(store, diff);
    var p1 := WithDocumentsOf(p, kind, DocumentsOf(p, kind) + added);
    var p2 := ChangedApplied(store, p1, diff);
    UpdateStage(store, p, kind, diff, added, p1);
    d2 := DocumentsOf(p2, kind);
  }

  /** Each added document is the one CreateDocumentInfoAsync builds from its new checksum. */
  lemma AddedDocumentsCreated(store: AssetStore, diff: DocumentDiff)
    requires CanCreateAdded(store, diff)
    ensures AddedDocuments(store, diff).Keys == diff.Added()
    ensures forall id :: id in AddedDocuments(store, diff) ==>
      Success(AddedDocuments(store, diff)[id]) == CreateDocumentInfo(store, diff.newMap[id].checksum)
  {
    forall id | id in AddedDocuments(store, diff)
      ensures Success(AddedDocuments(store, diff)[id]) == CreateDocumentInfo(store, diff.newMap[id].checksum)
    {
      assert CreatedDocument(store, diff, id).Success?;
    }
  }

  /** The update step, on the collection the add step produced. */
  lemma UpdateStage(store: AssetStore, p: ProjectState, kind: TextDocumentKind, diff: DocumentDiff,
                    added: map<DocumentId, DocumentState>, p1: ProjectState)
    requires DocumentIdsDisjoint(p) && diff.oldMap.Keys <= DocumentsOf(p, kind).Keys
    requires added.Keys == diff.Added()
    requires p1 == WithDocumentsOf(p, kind, DocumentsOf(p, kind) + added)
    requires CanUpdateChanged(store, p1, diff)
    ensures var p2 := ChangedApplied(store, p1, diff);
      && DocumentsOf(p2, kind).Keys == DocumentsOf(p, kind).Keys + added.Keys
      && (forall id :: id in DocumentsOf(p2, kind) && id !in diff.Changed() ==> DocumentsOf(p2, kind)[id] == (DocumentsOf(p, kind) + added)[id])
      && (forall id :: id in diff.Changed() ==>
            && id in DocumentsOf(p, kind)
            && Success(DocumentsOf(p2, kind)[id]) == DocumentUpdated(store, kind, DocumentsOf(p, kind)[id], diff.oldMap[id], diff.newMap[id]))
      && (forall k :: k != kind ==> DocumentsOf(p2, k) == DocumentsOf(p, k))
      && SameNonDocumentParts(p, p2)
  {
    forall id | id in diff.Changed()
      ensures FindDocument(p1, id) == Some(kind) && Existing(p1, id) == DocumentsOf(p, kind)[id]
    {
      ChangedFoundInKind(p, kind, diff, added, id);
    }
    ChangedPhaseInKind(store, p1, diff, kind);
    forall id | id in diff.Changed()
      ensures Success(DocumentsOf(ChangedApplied(store, p1, diff), kind)[id]) == DocumentUpdated(store, kind, DocumentsOf(p, kind)[id], diff.oldMap[id], diff.newMap[id])
    {
      assert ChangeApplies(store, p1, diff, id);
    }
  }

  /**
   * The removal step, given what the add and update steps did to one
   * collection `d`: `d2` holds `d` plus `added`, with only the `changed`
   * entries replaced.
   */
  lemma RemovalPhase(d: map<DocumentId, DocumentState>, added: map<DocumentId, DocumentState>, d2: map<DocumentId, DocumentState>,
                     changed: set<DocumentId>, removed: set<DocumentId>)
    requires added.Keys !! d.Keys && changed <= d.Keys
    requires removed !! added.Keys && removed !! changed
    requires d2.Keys == d.Keys + added.Keys
    requires forall id :: id in d2 && id !in changed ==> d2[id] == (d + added)[id]
    ensures (d2 - removed).Keys == d.Keys - removed + added.Keys
    ensures forall id :: id in added ==> (d2 - removed)[id] == added[id]
    ensures forall id :: id in changed ==> (d2 - removed)[id] == d2[id]
    ensures forall id :: id in d && id !in changed && id !in removed ==> (d2 - removed)[id] == d[id]
  {
  }

  /** When every changed document is found in `kind`, the update loop edits only that collection. */
  lemma ChangedPhaseInKind(store: AssetStore, p1: ProjectState, diff: DocumentDiff, kind: TextDocumentKind)
    requires CanUpdateChanged(store, p1, diff)
    requires forall id :: id in diff.Changed() ==> FindDocument(p1, id) == Some(kind)
    ensures var p2 := ChangedApplied(store, p1, diff);
      && SameNonDocumentParts(p1, p2)
      && (forall k :: k != kind ==> DocumentsOf(p2, k) == DocumentsOf(p1, k))
      && DocumentsOf(p2, kind).Keys == DocumentsOf(p1, kind).Keys
      && (forall id :: id in diff.Changed() ==> DocumentsOf(p2, kind)[id] == UpdatedDocument(store, p1, diff, id))
      && (forall id :: id in DocumentsOf(p1, kind) && id !in diff.Changed() ==> DocumentsOf(p2, kind)[id] == DocumentsOf(p1, kind)[id])
  {
    ChangedAppliedKinds(store, p1, diff);
    forall k | k != kind
      ensures ChangedOfKind(store, p1, diff, k, diff.newMap.Keys) == DocumentsOf(p1, k)
    {
      ChangedOfOtherKind(store, p1, diff, kind, k);
    }
    ChangedOfOwnKind(store, p1, diff, kind);
  }

  lemma ChangedAppliedKinds(store: AssetStore, p1: ProjectState, diff: DocumentDiff)
    requires CanUpdateChanged(store, p1, diff)
    ensures SameNonDocumentParts(p1, ChangedApplied(store, p1, diff))
    ensures forall k :: DocumentsOf(ChangedApplied(store, p1, diff), k) == ChangedOfKind(store, p1, diff, k, diff.newMap.Keys)
  {
    var q := ChangesApplied(store, p1, diff, diff.newMap.Keys);
    forall k ensures DocumentsOf(q, k) == ChangedOfKind(store, p1, diff, k, diff.newMap.Keys) {
      match k
      case Document =>
      case AdditionalDocument =>
      case AnalyzerConfigDocument =>
    }
  }

  lemma ChangedOfOtherKind(store: AssetStore, p1: ProjectState, diff: DocumentDiff, kind: TextDocumentKind, k: TextDocumentKind)
    requires CanUpdateChanged(store, p1, diff) && k != kind
    requires forall id :: id in diff.Changed() ==> FindDocument(p1, id) == Some(kind)
    ensures ChangedOfKind(store, p1, diff, k, diff.newMap.Keys) == DocumentsOf(p1, k)
  {
  }

  lemma ChangedOfOwnKind(store: AssetStore, p1: ProjectState, diff: DocumentDiff, kind: TextDocumentKind)
    requires CanUpdateChanged(store, p1, diff)
    requires forall id :: id in diff.Changed() ==> FindDocument(p1, id) == Some(kind)
    ensures var m := ChangedOfKind(store, p1, diff, kind, diff.newMap.Keys);
      && m.Keys == DocumentsOf(p1, kind).Keys
      && (forall id :: id in diff.Changed() ==> m[id] == UpdatedDocument(store, p1, diff, id))
      && (forall id :: id in DocumentsOf(p1, kind) && id !in diff.Changed() ==> m[id] == DocumentsOf(p1, kind)[id])
  {
  }

  /** A collection whose members are the same on both sides leaves the project as it was. */
  lemma UnchangedCollectionKeepsProject(store: AssetStore, hasher: Hasher, p: ProjectState, kind: TextDocumentKind,
                                        oldC: ChecksumCollection, newC: ChecksumCollection)
    requires Members(oldC.children) == Members(newC.children)
    ensures DocumentsUpdated(store, hasher, p, kind, oldC, newC) == Some(p)
  {
    assert News(oldC, newC) == {} && Olds(oldC, newC) == {};
    var diff := DiffOf(store, hasher, p, kind, oldC, newC);
    assert diff.newMap == map[] && diff.oldMap == map[];
    EmptyDiffKeepsProject(store, p, kind, diff);
  }

  lemma EmptyDiffKeepsProject(store: AssetStore, p: ProjectState, kind: TextDocumentKind, diff: DocumentDiff)
    requires diff.newMap == map[] && diff.oldMap == map[]
    ensures DiffApplied(store, p, kind, diff) == Some(p)
  {
    NothingAdded(store, diff, p, kind);
    ChangesAppliedNone(store, p, diff);
    assert diff.newMap.Keys == {};
    assert DocumentsOf(p, kind) - diff.Removed() == DocumentsOf(p, kind);
    ProjectByParts(WithDocumentsOf(p, kind, DocumentsOf(p, kind)), p);
  }

  /** Whatever it does to the documents, UpdateDocumentsAsync leaves the rest of the project alone. */
  lemma DocumentsUpdatedKeepsRest(store: AssetStore, hasher: Hasher, p: ProjectState, kind: TextDocumentKind,
                                  oldC: ChecksumCollection, newC: ChecksumCollection, q: ProjectState)
    requires DocumentsUpdated(store, hasher, p, kind, oldC, newC) == Some(q)
    ensures SameNonDocumentParts(p, q)
  {
    var diff := DiffOf(store, hasher, p, kind, oldC, newC);
    var p1 := WithDocumentsOf(p, kind, DocumentsOf(p, kind) + AddedDocuments(store, diff));
    ChangesAppliedShape(store, p1, diff, diff.newMap.Keys);
  }
}
