/**
 * The asset provider as a finite, content-addressed store: one map per asset
 * type, from checksum to value. Fetching a checksum that the store cannot
 * resolve is a failure (the two sides disagree on the tree's shape).
 */
module Assets {
  import opened Wrappers
  import opened Checksums
  import opened Workspace

  datatype AssetStore = AssetStore(
    solutionChecksums: map<Checksum, SolutionStateChecksums>,
    solutionAttributes: map<Checksum, SolutionAttributes>,
    projectChecksums: map<Checksum, ProjectStateChecksums>,
    projectAttributes: map<Checksum, ProjectAttributes>,
    compilationOptions: map<Checksum, CompilationOptions>,
    parseOptions: map<Checksum, ParseOptions>,
    projectReferences: map<Checksum, ProjectReference>,
    metadataReferences: map<Checksum, MetadataReference>,
    analyzerReferences: map<Checksum, AnalyzerReference>,
    documentChecksums: map<Checksum, DocumentStateChecksums>,
    documentAttributes: map<Checksum, DocumentAttributes>,
    texts: map<Checksum, SourceText>,
    generatedDocumentIdentities: map<Checksum, SourceGeneratedDocumentIdentity>)

  /** Every checksum-tree node in the store records the checksum it is stored under. */
  predicate ContentAddressed(store: AssetStore) {
    && (forall c :: c in store.solutionChecksums ==> store.solutionChecksums[c].checksum == c)
    && (forall c :: c in store.projectChecksums ==> store.projectChecksums[c].checksum == c)
    && (forall c :: c in store.documentChecksums ==> store.documentChecksums[c].checksum == c)
  }

  /** Languages a project may have to be created on the receiving side (RemoteSupportedLanguages). */
  const RemoteSupportedLanguages: set<string> := {"C#", "Visual Basic"}

  /** GetAssetAsync: one checksum. */
  function Fetch<T>(m: map<Checksum, T>, c: Checksum): (r: Result<T, Error>)
    ensures r.Success? <==> c in m
    ensures r.Success? ==> r.value == m[c]
    ensures r.Failure? ==> r.error == AssetNotFound({c})
  {
    if c in m then Success(m[c]) else Failure(AssetNotFound({c}))
  }

  /** GetAssetsAsync: a set of checksums, all of which must resolve. */
  function FetchAll<T>(m: map<Checksum, T>, cs: set<Checksum>): (r: Result<map<Checksum, T>, Error>)
    ensures r.Success? <==> cs <= m.Keys
    ensures r.Success? ==> r.value.Keys == cs && forall c :: c in cs ==> r.value[c] == m[c]
    ensures r.Failure? ==> r.error == AssetNotFound(cs - m.Keys)
  {
    if cs <= m.Keys then Success(map c | c in cs :: m[c]) else Failure(AssetNotFound(cs - m.Keys))
  }

  /** CreateCollectionAsync: the members of a checksum collection, in order. */
  function CreateCollection<T>(m: map<Checksum, T>, children: seq<Checksum>): (r: Result<seq<T>, Error>)
    ensures r.Success? <==> Members(children) <= m.Keys
    ensures r.Success? ==> |r.value| == |children|
    ensures r.Success? ==> forall i :: 0 <= i < |children| ==> r.value[i] == m[children[i]]
  {
    if children == [] then Success([])
    else
      var x :- Fetch(m, children[0]);
      var rest :- CreateCollection(m, children[1..]);
      assert Members(children) == {children[0]} + Members(children[1..]);
      Success([x] + rest)
  }

  /** CreateDocumentInfoAsync: a document's attributes and text from its checksum tree. */
  function CreateDocumentInfo(store: AssetStore, c: Checksum): (r: Result<DocumentState, Error>)
    ensures r.Success? <==>
      && c in store.documentChecksums
      && store.documentChecksums[c].info in store.documentAttributes
      && store.documentChecksums[c].text in store.texts
    ensures r.Success? ==> r.value.attributes == store.documentAttributes[store.documentChecksums[c].info]
    ensures r.Success? ==> r.value.text == store.texts[store.documentChecksums[c].text]
  {
    var dc :- Fetch(store.documentChecksums, c);
    var attributes :- Fetch(store.documentAttributes, dc.info);
    var text :- Fetch(store.texts, dc.text);
    Success(DocumentState(attributes, text))
  }

  /**
   * The attribute checksums of a set of checksum-tree nodes: the loop that
   * both GetProjectMapAsync and GetDocumentMapAsync run over the fetched
   * nodes before fetching their attributes in bulk.
   */
  method CollectInfoChecksums<T>(trees: map<Checksum, T>, info: T -> Checksum) returns (infoChecksums: set<Checksum>)
    ensures forall c :: c in trees ==> info(trees[c]) in infoChecksums
    ensures forall i :: i in infoChecksums ==> exists c :: c in trees && info(trees[c]) == i
  {
    infoChecksums := {};
    var remaining := trees.Keys;
    while remaining != {}
      invariant remaining <= trees.Keys
      invariant forall c :: c in trees && c !in remaining ==> info(trees[c]) in infoChecksums
      invariant forall i :: i in infoChecksums ==> exists c :: c in trees && info(trees[c]) == i
    {
      var c :| c in remaining;
      remaining := remaining - {c};
      infoChecksums := infoChecksums + {info(trees[c])};
    }
  }

  /** Every checksum of a document collection yields a document. */
  predicate DocumentsCreatable(store: AssetStore, children: seq<Checksum>) {
    forall i :: 0 <= i < |children| ==> CreateDocumentInfo(store, children[i]).Success?
  }

  function CreatedDocumentAt(store: AssetStore, children: seq<Checksum>, i: nat): DocumentState
    requires DocumentsCreatable(store, children) && i < |children|
  {
    CreateDocumentInfo(store, children[i]).value
  }

  /** The ids of the documents a creatable collection yields. */
  function CreatedIds(store: AssetStore, children: seq<Checksum>): set<DocumentId>
    requires DocumentsCreatable(store, children)
  {
    set i | 0 <= i < |children| :: CreatedDocumentAt(store, children, i).attributes.id
  }

  /** No two documents of a creatable collection share an id. */
  predicate CreatedIdsDistinct(store: AssetStore, children: seq<Checksum>)
    requires DocumentsCreatable(store, children)
  {
    forall i, j :: 0 <= i < j < |children| ==>
      CreatedDocumentAt(store, children, i).attributes.id != CreatedDocumentAt(store, children, j).attributes.id
  }

  /** A collection is creatable exactly when its head and its tail are, with the tail's documents shifted by one. */
  lemma DocumentsCreatableTail(store: AssetStore, children: seq<Checksum>)
    requires children != []
    ensures DocumentsCreatable(store, children) <==>
      CreateDocumentInfo(store, children[0]).Success? && DocumentsCreatable(store, children[1..])
    ensures DocumentsCreatable(store, children) ==> forall i :: 1 <= i < |children| ==>
      CreatedDocumentAt(store, children, i) == CreatedDocumentAt(store, children[1..], i - 1)
  {
    if CreateDocumentInfo(store, children[0]).Success? && DocumentsCreatable(store, children[1..]) {
      forall i | 1 <= i < |children|
        ensures CreateDocumentInfo(store, children[i]).Success?
      {
        assert children[i] == children[1..][i - 1];
      }
    }
  }

  /** The ids of a creatable collection are its head's id and its tail's ids, all distinct exactly when the head's is new and the tail's are distinct. */
  lemma CreatedIdsTail(store: AssetStore, children: seq<Checksum>)
    requires children != []
    ensures DocumentsCreatable(store, children) ==>
      && DocumentsCreatable(store, children[1..])
      && CreatedIds(store, children) == {CreatedDocumentAt(store, children, 0).attributes.id} + CreatedIds(store, children[1..])
      && (CreatedIdsDistinct(store, children) <==>
            CreatedDocumentAt(store, children, 0).attributes.id !in CreatedIds(store, children[1..]) && CreatedIdsDistinct(store, children[1..]))
  {
    DocumentsCreatableTail(store, children);
    if !DocumentsCreatable(store, children) {
      return;
    }
    var tail := children[1..];
    var head := CreatedDocumentAt(store, children, 0).attributes.id;
    forall id | id in CreatedIds(store, tail)
      ensures id in CreatedIds(store, children)
    {
      var i :| 0 <= i < |tail| && CreatedDocumentAt(store, tail, i).attributes.id == id;
      assert CreatedDocumentAt(store, children, i + 1).attributes.id == id;
    }
    forall id | id in CreatedIds(store, children)
      ensures id == head || id in CreatedIds(store, tail)
    {
      var i :| 0 <= i < |children| && CreatedDocumentAt(store, children, i).attributes.id == id;
      if i > 0 {
        assert CreatedDocumentAt(store, tail, i - 1).attributes.id == id;
      }
    }
    if CreatedIdsDistinct(store, children) {
      forall i | 0 <= i < |tail|
        ensures CreatedDocumentAt(store, tail, i).attributes.id != head
      {
        assert CreatedDocumentAt(store, tail, i) == CreatedDocumentAt(store, children, i + 1);
      }
      forall i, j | 0 <= i < j < |tail|
        ensures CreatedDocumentAt(store, tail, i).attributes.id != CreatedDocumentAt(store, tail, j).attributes.id
      {
        assert CreatedDocumentAt(store, tail, i) == CreatedDocumentAt(store, children, i + 1);
        assert CreatedDocumentAt(store, tail, j) == CreatedDocumentAt(store, children, j + 1);
      }
    }
    if head !in CreatedIds(store, tail) && CreatedIdsDistinct(store, tail) {
      forall i, j | 0 <= i < j < |children|
        ensures CreatedDocumentAt(store, children, i).attributes.id != CreatedDocumentAt(store, children, j).attributes.id
      {
        assert CreatedDocumentAt(store, tail, j - 1).attributes.id in CreatedIds(store, tail);
        if i > 0 {
          assert CreatedDocumentAt(store, tail, i - 1).attributes.id != CreatedDocumentAt(store, tail, j - 1).attributes.id;
        }
      }
    }
  }

  /**
   * The documents of one collection of a new project, keyed by their ids: it
   * fails when a document cannot be created or two documents share an id.
   */
  function CreateDocumentStates(store: AssetStore, children: seq<Checksum>): (r: Result<map<DocumentId, DocumentState>, Error>)
    ensures r.Success? <==> DocumentsCreatable(store, children) && CreatedIdsDistinct(store, children)
    ensures r.Success? ==> r.value.Keys == CreatedIds(store, children)
    ensures r.Success? ==> forall i :: 0 <= i < |children| ==>
      r.value[CreatedDocumentAt(store, children, i).attributes.id] == CreatedDocumentAt(store, children, i)
    ensures r.Success? ==> forall id :: id in r.value ==> r.value[id].attributes.id == id
    ensures r.Success? ==> |r.value| == |children|
  {
    if children == [] then Success(map[])
    else
      var d :- CreateDocumentInfo(store, children[0]);
      DocumentsCreatableTail(store, children);
      CreatedIdsTail(store, children);
      var rest :- CreateDocumentStates(store, children[1..]);
      if d.attributes.id in rest then Failure(DuplicateId)
      else Success(rest[d.attributes.id := d])
  }

  /** The parts of a project that are fetched once its language is known to be supported. */
  predicate ProjectPartsCreatable(store: AssetStore, pc: ProjectStateChecksums) {
    && pc.compilationOptions in store.compilationOptions
    && pc.parseOptions in store.parseOptions
    && CreateCollection(store.projectReferences, pc.projectReferences.children).Success?
    && CreateCollection(store.metadataReferences, pc.metadataReferences.children).Success?
    && CreateCollection(store.analyzerReferences, pc.analyzerReferences.children).Success?
    && CreateDocumentStates(store, pc.documents.children).Success?
    && CreateDocumentStates(store, pc.additionalDocuments.children).Success?
    && CreateDocumentStates(store, pc.analyzerConfigDocuments.children).Success?
  }

  /**
   * CreateProjectInfoAsync: a whole project from its checksum tree, or None
   * when its language is not supported on the receiving side.
   */
  function CreateProjectInfo(store: AssetStore, c: Checksum): (r: Result<Option<ProjectState>, Error>)
    ensures r.Success? ==> c in store.projectChecksums && store.projectChecksums[c].info in store.projectAttributes
    ensures r.Success? ==> (r.value.None? <==> store.projectAttributes[store.projectChecksums[c].info].language !in RemoteSupportedLanguages)
    ensures r.Success? && r.value.Some? ==> r.value.value.attributes == store.projectAttributes[store.projectChecksums[c].info]
  {
    var pc :- Fetch(store.projectChecksums, c);
    var attributes :- Fetch(store.projectAttributes, pc.info);
    if attributes.language !in RemoteSupportedLanguages then Success(None)
    else
      var compilationOptions :- Fetch(store.compilationOptions, pc.compilationOptions);
      var parseOptions :- Fetch(store.parseOptions, pc.parseOptions);
      var projectReferences :- CreateCollection(store.projectReferences, pc.projectReferences.children);
      var metadataReferences :- CreateCollection(store.metadataReferences, pc.metadataReferences.children);
      var analyzerReferences :- CreateCollection(store.analyzerReferences, pc.analyzerReferences.children);
      var documents :- CreateDocumentStates(store, pc.documents.children);
      var additionalDocuments :- CreateDocumentStates(store, pc.additionalDocuments.children);
      var analyzerConfigDocuments :- CreateDocumentStates(store, pc.analyzerConfigDocuments.children);
      Success(Some(ProjectState(
        attributes, compilationOptions, parseOptions,
        projectReferences, metadataReferences, analyzerReferences,
        documents, additionalDocuments, analyzerConfigDocuments)))
  }

  /**
   * When CreateProjectInfoAsync succeeds, and what each part of the project
   * it creates is: every fetch succeeds, and each part is the asset or the
   * collection its checksum names.
   */
  lemma CreateProjectInfoEffect(store: AssetStore, c: Checksum)
    ensures CreateProjectInfo(store, c).Success? <==>
      && c in store.projectChecksums
      && store.projectChecksums[c].info in store.projectAttributes
      && (store.projectAttributes[store.projectChecksums[c].info].language in RemoteSupportedLanguages ==>
            ProjectPartsCreatable(store, store.projectChecksums[c]))
    ensures CreateProjectInfo(store, c).Success? && CreateProjectInfo(store, c).value.Some? ==>
      var pc := store.projectChecksums[c];
      var p := CreateProjectInfo(store, c).value.value;
      && p.compilationOptions == store.compilationOptions[pc.compilationOptions]
      && p.parseOptions == store.parseOptions[pc.parseOptions]
      && p.projectReferences == CreateCollection(store.projectReferences, pc.projectReferences.children).value
      && p.metadataReferences == CreateCollection(store.metadataReferences, pc.metadataReferences.children).value
      && p.analyzerReferences == CreateCollection(store.analyzerReferences, pc.analyzerReferences.children).value
      && p.documents == CreateDocumentStates(store, pc.documents.children).value
      && p.additionalDocuments == CreateDocumentStates(store, pc.additionalDocuments.children).value
      && p.analyzerConfigDocuments == CreateDocumentStates(store, pc.analyzerConfigDocuments.children).value
  {
  }
}
