/**
 * The live snapshot tree as immutable values: a solution maps project ids to
 * project states, and each project holds three maps from document ids to
 * document states. The persistent-tree operations (Solution.With*,
 * AddProject, AddDocuments, RemoveDocuments, ...) become value updates.
 */
module Workspace {
  import opened Wrappers
  import opened Checksums

  datatype SolutionId = SolutionId(guid: nat)
  datatype ProjectId = ProjectId(guid: nat)
  datatype DocumentId = DocumentId(guid: nat)

  datatype SolutionAttributes = SolutionAttributes(id: SolutionId, filePath: Option<string>, version: nat)

  datatype CompilationOutputInfo = CompilationOutputInfo(assemblyPath: Option<string>)

  /**
   * Project attributes. Id, Language and IsSubmission cannot change once the
   * project exists; the other ten have a Solution.With* operation each.
   */
  datatype ProjectAttributes = ProjectAttributes(
    id: ProjectId,
    language: string,
    isSubmission: bool,
    name: string,
    assemblyName: string,
    filePath: Option<string>,
    outputFilePath: Option<string>,
    outputRefFilePath: Option<string>,
    compilationOutputInfo: CompilationOutputInfo,
    defaultNamespace: Option<string>,
    hasAllInformation: bool,
    runAnalyzers: bool,
    checksumAlgorithm: nat)

  /** The project attributes that UpdateProjectInfoAsync may rewrite, one per With* call. */
  datatype ProjectAttribute =
    | Name | AssemblyName | ProjectFilePath | OutputFilePath | OutputRefFilePath
    | OutputInfo | DefaultNamespace | HasAllInformation | RunAnalyzers | ChecksumAlgorithm

  datatype SourceCodeKind = Regular | Script

  /**
   * Document attributes. Id, Name, FilePath, IsGenerated and DesignTimeOnly
   * cannot change once the document exists; Folders and SourceCodeKind can,
   * but only for ordinary documents.
   */
  datatype DocumentAttributes = DocumentAttributes(
    id: DocumentId,
    name: string,
    folders: seq<string>,
    sourceCodeKind: SourceCodeKind,
    filePath: Option<string>,
    isGenerated: bool,
    designTimeOnly: bool)

  /** The document attributes that UpdateDocumentInfoAsync may rewrite. */
  datatype DocumentAttribute = Folders | Kind

  datatype SourceText = SourceText(content: string)

  datatype DocumentState = DocumentState(attributes: DocumentAttributes, text: SourceText)

  datatype TextDocumentKind = Document | AdditionalDocument | AnalyzerConfigDocument

  datatype CompilationOptions = CompilationOptions(settings: nat)
  datatype ParseOptions = ParseOptions(settings: nat)
  datatype ProjectReference = ProjectReference(projectId: ProjectId)
  datatype MetadataReference = MetadataReference(image: nat)
  datatype AnalyzerReference = AnalyzerReference(assembly: nat)

  datatype ProjectState = ProjectState(
    attributes: ProjectAttributes,
    compilationOptions: CompilationOptions,
    parseOptions: ParseOptions,
    projectReferences: seq<ProjectReference>,
    metadataReferences: seq<MetadataReference>,
    analyzerReferences: seq<AnalyzerReference>,
    documents: map<DocumentId, DocumentState>,
    additionalDocuments: map<DocumentId, DocumentState>,
    analyzerConfigDocuments: map<DocumentId, DocumentState>)

  datatype SourceGeneratedDocumentIdentity = SourceGeneratedDocumentIdentity(documentId: DocumentId, hintName: string)

  datatype FrozenDocument = FrozenDocument(identity: SourceGeneratedDocumentIdentity, text: SourceText)

  datatype Solution = Solution(
    attributes: SolutionAttributes,
    projects: map<ProjectId, ProjectState>,
    analyzerReferences: seq<AnalyzerReference>,
    frozenDocument: Option<FrozenDocument>)

  /**
   * GetStateChecksumsAsync of the live tree. Hashing is cryptographic and not
   * part of this model, so the receiver's checksums of its own states are
   * given as functions.
   */
  datatype Hasher = Hasher(
    solution: Solution -> SolutionStateChecksums,
    project: ProjectState -> ProjectStateChecksums,
    document: DocumentState -> DocumentStateChecksums)

  datatype Error =
    | AssetNotFound(missing: set<Checksum>)   // the asset provider cannot resolve these checksums
    | SolutionIdentityChanged                  // solution id or file path differs
    | ProjectIdentityChanged                   // project id, language or IsSubmission differs
    | DocumentIdentityChanged                  // document id, name, file path, IsGenerated or DesignTimeOnly differs
    | ChecksumUnchanged                        // an item in both maps has the same checksum on both sides
    | DocumentNotFound                         // GetDocument ?? GetAdditionalDocument ?? GetAnalyzerConfigDocument is null
    | KindCannotChangeAttribute                // folders or source kind changed on a non-ordinary document
    | DuplicateId                              // an id is added where it already exists


  function DocumentsOf(p: ProjectState, kind: TextDocumentKind): map<DocumentId, DocumentState> {
    match kind
    case Document => p.documents
    case AdditionalDocument => p.additionalDocuments
    case AnalyzerConfigDocument => p.analyzerConfigDocuments
  }

  /** Replaces the documents of one kind; everything else in the project is kept. */
  function WithDocumentsOf(p: ProjectState, kind: TextDocumentKind, docs: map<DocumentId, DocumentState>): (q: ProjectState)
    ensures DocumentsOf(q, kind) == docs
    ensures forall k :: k != kind ==> DocumentsOf(q, k) == DocumentsOf(p, k)
    ensures SameNonDocumentParts(p, q)
  {
    match kind
    case Document => p.(documents := docs)
    case AdditionalDocument => p.(additionalDocuments := docs)
    case AnalyzerConfigDocument => p.(analyzerConfigDocuments := docs)
  }

  predicate SameNonDocumentParts(p: ProjectState, q: ProjectState) {
    && q.attributes == p.attributes
    && q.compilationOptions == p.compilationOptions
    && q.parseOptions == p.parseOptions
    && q.projectReferences == p.projectReferences
    && q.metadataReferences == p.metadataReferences
    && q.analyzerReferences == p.analyzerReferences
  }

  /** A project is determined by its non-document parts and its three document maps. */
  lemma ProjectByParts(p: ProjectState, q: ProjectState)
    requires SameNonDocumentParts(p, q)
    requires forall k :: DocumentsOf(p, k) == DocumentsOf(q, k)
    ensures p == q
  {
    assert DocumentsOf(p, Document) == DocumentsOf(q, Document);
    assert DocumentsOf(p, AdditionalDocument) == DocumentsOf(q, AdditionalDocument);
    assert DocumentsOf(p, AnalyzerConfigDocument) == DocumentsOf(q, AnalyzerConfigDocument);
  }

  /**
   * project.GetDocument(id) ?? project.GetAdditionalDocument(id) ?? project.GetAnalyzerConfigDocument(id):
   * the kind of the first document collection holding the id.
   */
  function FindDocument(p: ProjectState, id: DocumentId): (r: Option<TextDocumentKind>)
    ensures r.None? <==> id !in p.documents && id !in p.additionalDocuments && id !in p.analyzerConfigDocuments
    ensures r.Some? ==> id in DocumentsOf(p, r.value)
    ensures r == Some(AdditionalDocument) ==> id !in p.documents
    ensures r == Some(AnalyzerConfigDocument) ==> id !in p.documents && id !in p.additionalDocuments
  {
    if id in p.documents then Some(Document)
    else if id in p.additionalDocuments then Some(AdditionalDocument)
    else if id in p.analyzerConfigDocuments then Some(AnalyzerConfigDocument)
    else None
  }

  /** No document id is used by two of a project's document collections. */
  predicate DocumentIdsDisjoint(p: ProjectState) {
    && p.documents.Keys !! p.additionalDocuments.Keys
    && p.documents.Keys !! p.analyzerConfigDocuments.Keys
    && p.additionalDocuments.Keys !! p.analyzerConfigDocuments.Keys
  }

  /** Ids of a batch, in order, are pairwise distinct. */
  predicate DistinctDocumentIds(docs: seq<DocumentState>) {
    forall i, j :: 0 <= i < j < |docs| ==> docs[i].attributes.id != docs[j].attributes.id
  }

  function BatchIds(docs: seq<DocumentState>): set<DocumentId> {
    set d | d in docs :: d.attributes.id
  }

  /** A batch with distinct ids, keyed by id. */
  function BatchMap(docs: seq<DocumentState>): (m: map<DocumentId, DocumentState>)
    requires DistinctDocumentIds(docs)
    ensures m.Keys == BatchIds(docs)
    ensures forall i :: 0 <= i < |docs| ==> m[docs[i].attributes.id] == docs[i]
  {
    map d | d in docs :: d.attributes.id := d
  }

  /**
   * Solution.AddDocuments (and its additional / analyzer config siblings):
   * one batch added to one collection of the project; an id already present
   * in that collection, or twice in the batch, is refused.
   */
  function AddDocuments(p: ProjectState, kind: TextDocumentKind, docs: seq<DocumentState>): (r: Result<ProjectState, Error>)
    ensures r.Success? <==> DistinctDocumentIds(docs) && BatchIds(docs) !! DocumentsOf(p, kind).Keys
    ensures r.Success? ==> DocumentsOf(r.value, kind).Keys == DocumentsOf(p, kind).Keys + BatchIds(docs)
    ensures r.Success? ==> forall id :: id in DocumentsOf(p, kind) ==> DocumentsOf(r.value, kind)[id] == DocumentsOf(p, kind)[id]
    ensures r.Success? ==> forall i :: 0 <= i < |docs| ==> DocumentsOf(r.value, kind)[docs[i].attributes.id] == docs[i]
    ensures r.Success? ==> forall k :: k != kind ==> DocumentsOf(r.value, k) == DocumentsOf(p, k)
    ensures r.Success? ==> SameNonDocumentParts(p, r.value)
  {
    if DistinctDocumentIds(docs) && BatchIds(docs) !! DocumentsOf(p, kind).Keys then
      Success(WithDocumentsOf(p, kind, DocumentsOf(p, kind) + BatchMap(docs)))
    else
      Failure(DuplicateId)
  }

  /** Solution.RemoveDocuments (and siblings): one batch removed from one collection. */
  function RemoveDocuments(p: ProjectState, kind: TextDocumentKind, ids: seq<DocumentId>): (q: ProjectState)
    ensures DocumentsOf(q, kind).Keys == DocumentsOf(p, kind).Keys - (set id | id in ids)
    ensures forall id :: id in DocumentsOf(q, kind) ==> DocumentsOf(q, kind)[id] == DocumentsOf(p, kind)[id]
    ensures forall k :: k != kind ==> DocumentsOf(q, k) == DocumentsOf(p, k)
    ensures SameNonDocumentParts(p, q)
  {
    WithDocumentsOf(p, kind, DocumentsOf(p, kind) - (set id | id in ids))
  }

  /** Solution.AddProject: a project whose id already exists is refused. */
  function AddProject(s: Solution, p: ProjectState): (r: Result<Solution, Error>)
    ensures r.Success? <==> p.attributes.id !in s.projects
    ensures r.Success? ==> r.value == s.(projects := s.projects[p.attributes.id := p])
  {
    if p.attributes.id in s.projects then Failure(DuplicateId)
    else Success(s.(projects := s.projects[p.attributes.id := p]))
  }

  /** Solution.RemoveProject: the project must exist. */
  function RemoveProject(s: Solution, id: ProjectId): (r: Solution)
    requires id in s.projects
    ensures r.projects.Keys == s.projects.Keys - {id}
    ensures forall other :: other in r.projects ==> r.projects[other] == s.projects[other]
    ensures r.attributes == s.attributes && r.analyzerReferences == s.analyzerReferences && r.frozenDocument == s.frozenDocument
  {
    s.(projects := s.projects - {id})
  }

  /** Solution.WithProjectReferences: one existing project's project references replaced. */
  function WithProjectReferences(s: Solution, id: ProjectId, references: seq<ProjectReference>): (r: Solution)
    requires id in s.projects
    ensures r.projects.Keys == s.projects.Keys
    ensures r.projects[id] == s.projects[id].(projectReferences := references)
    ensures forall other :: other in r.projects && other != id ==> r.projects[other] == s.projects[other]
    ensures r.attributes == s.attributes && r.analyzerReferences == s.analyzerReferences && r.frozenDocument == s.frozenDocument
  {
    s.(projects := s.projects[id := s.projects[id].(projectReferences := references)])
  }
}
