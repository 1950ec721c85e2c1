/**
 * Project-level reconciliation of RemoteWorkspace.SolutionCreator:
 * UpdateProjectsAsync (both overloads), SynchronizeAssetsAsync,
 * UpdateProjectAsync, UpdateProjectInfoAsync and the two GetProjectMapAsync
 * overloads. The solution is threaded as a value.
 */
module ProjectReconciliation {
  import opened Wrappers
  import opened Checksums
  import opened Workspace
  import opened Assets
  import opened DocumentReconciliation

  // ----- GetProjectMapAsync over the solution -----

  /** The solution's projects whose current checksum is in `projects`, with their checksums. */
  function OldProjectMap(hasher: Hasher, states: map<ProjectId, ProjectState>, projects: set<Checksum>): map<ProjectId, ProjectStateChecksums> {
    map id | id in states && hasher.project(states[id]).checksum in projects :: hasher.project(states[id])
  }

  method GetProjectMapFromSolution(hasher: Hasher, solution: Solution, projects: set<Checksum>)
    returns (m: map<ProjectId, ProjectStateChecksums>)
    ensures forall id :: id in m <==> id in solution.projects && hasher.project(solution.projects[id]).checksum in projects
    ensures forall id :: id in m ==> m[id] == hasher.project(solution.projects[id])
    ensures m == OldProjectMap(hasher, solution.projects, projects)
  {
    m := map[];
    var remaining := solution.projects.Keys;
    while remaining != {}
      invariant remaining <= solution.projects.Keys
      invariant forall id :: id in m <==> id in solution.projects && id !in remaining && hasher.project(solution.projects[id]).checksum in projects
      invariant forall id :: id in m ==> m[id] == hasher.project(solution.projects[id])
    {
      var id :| id in remaining;
      remaining := remaining - {id};
      var projectChecksums := hasher.project(solution.projects[id]);
      if projectChecksums.checksum in projects {
        m := m[id := projectChecksums];
      }
    }
  }

  // ----- GetProjectMapAsync over the asset provider -----

  predicate ProjectsResolvable(store: AssetStore, projects: set<Checksum>) {
    forall c :: c in projects ==> c in store.projectChecksums && store.projectChecksums[c].info in store.projectAttributes
  }

  function ProjectIdAt(store: AssetStore, c: Checksum): ProjectId
    requires c in store.projectChecksums && store.projectChecksums[c].info in store.projectAttributes
  {
    store.projectAttributes[store.projectChecksums[c].info].id
  }

  /** No two of the checksums describe projects with the same id (Dictionary.Add would throw). */
  predicate DistinctProjectIdsAt(store: AssetStore, projects: set<Checksum>)
    requires ProjectsResolvable(store, projects)
  {
    forall c1, c2 :: c1 in projects && c2 in projects && ProjectIdAt(store, c1) == ProjectIdAt(store, c2) ==> c1 == c2
  }

  predicate NewProjectSideResolvable(store: AssetStore, projects: set<Checksum>) {
    ProjectsResolvable(store, projects) && DistinctProjectIdsAt(store, projects)
  }

  /** The new projects' checksum trees, keyed by the id their attributes carry. */
  function NewProjectMap(store: AssetStore, projects: set<Checksum>): map<ProjectId, ProjectStateChecksums>
    requires NewProjectSideResolvable(store, projects)
  {
    map c | c in projects :: ProjectIdAt(store, c) := store.projectChecksums[c]
  }

  /** Each entry of a map built from the store is the stored tree of a project with that id. */
  predicate ResolvedProjectMap(store: AssetStore, m: map<ProjectId, ProjectStateChecksums>) {
    forall id :: id in m ==>
      && m[id].checksum in store.projectChecksums
      && store.projectChecksums[m[id].checksum] == m[id]
      && m[id].info in store.projectAttributes
      && store.projectAttributes[m[id].info].id == id
  }

  lemma NewProjectMapIsResolved(store: AssetStore, projects: set<Checksum>)
    requires ContentAddressed(store) && NewProjectSideResolvable(store, projects)
    ensures ResolvedProjectMap(store, NewProjectMap(store, projects))
    ensures forall id :: id in NewProjectMap(store, projects) ==> NewProjectMap(store, projects)[id].checksum in projects
  {
    var m := NewProjectMap(store, projects);
    forall id | id in m
      ensures m[id].checksum in projects && m[id].checksum in store.projectChecksums
      ensures store.projectChecksums[m[id].checksum] == m[id]
      ensures m[id].info in store.projectAttributes && store.projectAttributes[m[id].info].id == id
    {
      var c :| c in projects && ProjectIdAt(store, c) == id;
      assert m[id] == store.projectChecksums[c];
    }
  }

  method GetProjectMapFromAssets(store: AssetStore, projects: set<Checksum>)
    returns (r: Result<map<ProjectId, ProjectStateChecksums>, Error>)
    ensures r.Success? <==> NewProjectSideResolvable(store, projects)
    ensures r.Success? ==> r.value == NewProjectMap(store, projects)
    ensures !(projects <= store.projectChecksums.Keys) ==> r == Failure(AssetNotFound(projects - store.projectChecksums.Keys))
  {
    var fetched := FetchAll(store.projectChecksums, projects);
    if fetched.Failure? {
      return Failure(fetched.error);
    }
    var infoChecksums := CollectInfoChecksums(fetched.value, (p: ProjectStateChecksums) => p.info);
    var infos := FetchAll(store.projectAttributes, infoChecksums);
    if infos.Failure? {
      var c :| c in infoChecksums && c !in store.projectAttributes;
      return Failure(infos.error);
    }
    assert ProjectsResolvable(store, projects);
    r := IndexByProjectId(store, fetched.value, projects);
  }

  /** One more checksum indexed: either its id is new, or the whole set has a repeated id. */
  lemma NewProjectMapStep(store: AssetStore, projects: set<Checksum>, done: set<Checksum>, c: Checksum)
    requires ProjectsResolvable(store, projects) && done <= projects && c in projects && c !in done
    requires NewProjectSideResolvable(store, done)
    ensures ProjectIdAt(store, c) in NewProjectMap(store, done) ==> !DistinctProjectIdsAt(store, projects)
    ensures ProjectIdAt(store, c) !in NewProjectMap(store, done) ==>
      && NewProjectSideResolvable(store, done + {c})
      && NewProjectMap(store, done + {c}) == NewProjectMap(store, done)[ProjectIdAt(store, c) := store.projectChecksums[c]]
  {
    if ProjectIdAt(store, c) in NewProjectMap(store, done) {
      var c' :| c' in done && ProjectIdAt(store, c') == ProjectIdAt(store, c);
      assert c' != c;
    } else {
      assert DistinctProjectIdsAt(store, done + {c});
    }
  }

  /** The dictionary of the new projects, keyed by id; a repeated id fails as Dictionary.Add does. */
  method IndexByProjectId(store: AssetStore, projectChecksums: map<Checksum, ProjectStateChecksums>, projects: set<Checksum>)
    returns (r: Result<map<ProjectId, ProjectStateChecksums>, Error>)
    requires ProjectsResolvable(store, projects)
    requires projectChecksums.Keys == projects && forall c :: c in projects ==> projectChecksums[c] == store.projectChecksums[c]
    ensures r.Success? <==> DistinctProjectIdsAt(store, projects)
    ensures r.Success? ==> r.value == NewProjectMap(store, projects)
  {
    var m: map<ProjectId, ProjectStateChecksums> := map[];
    var remaining := projectChecksums.Keys;
    ghost var done: set<Checksum> := {};
    while remaining != {}
      invariant done !! remaining && done + remaining == projects
      invariant NewProjectSideResolvable(store, done)
      invariant m == NewProjectMap(store, done)
    {
      var c :| c in remaining;
      var info := store.projectAttributes[projectChecksums[c].info];
      NewProjectMapStep(store, projects, done, c);
      if info.id in m {
        return Failure(DuplicateId);
      }
      remaining := remaining - {c};
      done := done + {c};
      m := m[info.id := projectChecksums[c]];
    }
    return Success(m);
  }

  // ----- SynchronizeAssetsAsync -----

  /** The checksums whose assets are requested in bulk: exactly those of the added projects. */
  /** The checksum trees of the projects only the new side has: the ones worth fetching ahead of the add loop. */
  function ProjectsToPrefetch(oldMap: map<ProjectId, ProjectStateChecksums>, newMap: map<ProjectId, ProjectStateChecksums>): set<Checksum> {
    set id | id in newMap && id !in oldMap :: newMap[id].checksum
  }

  method SynchronizeAssets(oldMap: map<ProjectId, ProjectStateChecksums>, newMap: map<ProjectId, ProjectStateChecksums>)
    returns (requested: set<Checksum>)
    ensures forall id :: id in newMap && id !in oldMap ==> newMap[id].checksum in requested
    ensures forall c :: c in requested ==> exists id :: id in newMap && id !in oldMap && newMap[id].checksum == c
    ensures requested == ProjectsToPrefetch(oldMap, newMap)
  {
    requested := {};
    var remaining := newMap.Keys;
    while remaining != {}
      invariant remaining <= newMap.Keys
      invariant forall id :: id in newMap && id !in oldMap && id !in remaining ==> newMap[id].checksum in requested
      invariant forall c :: c in requested ==> exists id :: id in newMap && id !in oldMap && newMap[id].checksum == c
    {
      var id :| id in remaining;
      remaining := remaining - {id};
      if id in oldMap {
        continue;
      }
      requested := requested + {newMap[id].checksum};
    }
  }

  // ----- UpdateProjectInfoAsync -----

  /** The attributes that no API can change once a project exists. */
  predicate SameProjectIdentity(a: ProjectAttributes, b: ProjectAttributes) {
    a.id == b.id && a.language == b.language && a.isSubmission == b.isSubmission
  }

  /** Whether two attribute records differ in the given rewritable attribute. */
  predicate AttributeDiffers(a: ProjectAttributes, b: ProjectAttributes, attribute: ProjectAttribute) {
    match attribute
    case Name => a.name != b.name
    case AssemblyName => a.assemblyName != b.assemblyName
    case ProjectFilePath => a.filePath != b.filePath
    case OutputFilePath => a.outputFilePath != b.outputFilePath
    case OutputRefFilePath => a.outputRefFilePath != b.outputRefFilePath
    case OutputInfo => a.compilationOutputInfo != b.compilationOutputInfo
    case DefaultNamespace => a.defaultNamespace != b.defaultNamespace
    case HasAllInformation => a.hasAllInformation != b.hasAllInformation
    case RunAnalyzers => a.runAnalyzers != b.runAnalyzers
    case ChecksumAlgorithm => a.checksumAlgorithm != b.checksumAlgorithm
  }

  /** The project with the attributes stored under `infoChecksum`, which must keep its identity. */
  function ProjectInfoUpdated(store: AssetStore, p: ProjectState, infoChecksum: Checksum): Result<ProjectState, Error> {
    var a :- Fetch(store.projectAttributes, infoChecksum);
    if !SameProjectIdentity(p.attributes, a) then Failure(ProjectIdentityChanged)
    else Success(p.(attributes := a))
  }

  /** `a` with the given attribute taken from `b` (the matching Solution.With* call). */
  function WithAttribute(a: ProjectAttributes, b: ProjectAttributes, attribute: ProjectAttribute): ProjectAttributes {
    match attribute
    case Name => a.(name := b.name)
    case AssemblyName => a.(assemblyName := b.assemblyName)
    case ProjectFilePath => a.(filePath := b.filePath)
    case OutputFilePath => a.(outputFilePath := b.outputFilePath)
    case OutputRefFilePath => a.(outputRefFilePath := b.outputRefFilePath)
    case OutputInfo => a.(compilationOutputInfo := b.compilationOutputInfo)
    case DefaultNamespace => a.(defaultNamespace := b.defaultNamespace)
    case HasAllInformation => a.(hasAllInformation := b.hasAllInformation)
    case RunAnalyzers => a.(runAnalyzers := b.runAnalyzers)
    case ChecksumAlgorithm => a.(checksumAlgorithm := b.checksumAlgorithm)
  }

  /**
   * Midway through UpdateProjectInfoAsync: an attribute of the original `origin`
   * differs from the target `b` exactly when it has been rewritten already or
   * still differs in the current `a`.
   */
  predicate RewriteInvariant(origin: ProjectAttributes, a: ProjectAttributes, b: ProjectAttributes, rewritten: set<ProjectAttribute>) {
    forall x ::
      && (x in rewritten ==> !AttributeDiffers(a, b, x))
      && (AttributeDiffers(origin, b, x) <==> x in rewritten || AttributeDiffers(a, b, x))
  }

  /** One guarded With* call: the attribute is rewritten, and recorded, only when it differs. */
  method RewriteAttribute(ghost origin: ProjectAttributes, a: ProjectAttributes, b: ProjectAttributes, attribute: ProjectAttribute, rewritten: set<ProjectAttribute>)
    returns (a': ProjectAttributes, rewritten': set<ProjectAttribute>)
    requires RewriteInvariant(origin, a, b, rewritten)
    ensures a' == WithAttribute(a, b, attribute)
    ensures RewriteInvariant(origin, a', b, rewritten')
  {
    if AttributeDiffers(a, b, attribute) {
      a', rewritten' := WithAttribute(a, b, attribute), rewritten + {attribute};
    } else {
      a', rewritten' := a, rewritten;
    }
    assert !AttributeDiffers(a', b, attribute);
    assert forall x :: x != attribute ==> (AttributeDiffers(a', b, x) <==> AttributeDiffers(a, b, x));
  }

  /** The ten guarded With* calls, in the order UpdateProjectInfoAsync makes them. */
  method RewriteAttributes(origin: ProjectAttributes, b: ProjectAttributes) returns (a: ProjectAttributes, rewritten: set<ProjectAttribute>)
    requires SameProjectIdentity(origin, b)
    ensures a == b
    ensures forall x :: x in rewritten <==> AttributeDiffers(origin, b, x)
  {
    a, rewritten := origin, {};
    a, rewritten := RewriteAttribute(origin, a, b, Name, rewritten);
    a, rewritten := RewriteAttribute(origin, a, b, AssemblyName, rewritten);
    a, rewritten := RewriteAttribute(origin, a, b, ProjectFilePath, rewritten);
    a, rewritten := RewriteAttribute(origin, a, b, OutputFilePath, rewritten);
    a, rewritten := RewriteAttribute(origin, a, b, OutputRefFilePath, rewritten);
    a, rewritten := RewriteAttribute(origin, a, b, OutputInfo, rewritten);
    a, rewritten := RewriteAttribute(origin, a, b, DefaultNamespace, rewritten);
    a, rewritten := RewriteAttribute(origin, a, b, HasAllInformation, rewritten);
    a, rewritten := RewriteAttribute(origin, a, b, RunAnalyzers, rewritten);
    a, rewritten := RewriteAttribute(origin, a, b, ChecksumAlgorithm, rewritten);
  }

  method UpdateProjectInfo(store: AssetStore, project: ProjectState, infoChecksum: Checksum)
    returns (r: Result<ProjectState, Error>, rewritten: set<ProjectAttribute>)
    ensures r == ProjectInfoUpdated(store, project, infoChecksum)
    ensures infoChecksum in store.projectAttributes && !SameProjectIdentity(project.attributes, store.projectAttributes[infoChecksum])
      ==> r == Failure(ProjectIdentityChanged)
    ensures r.Success? ==> r.value.attributes == store.projectAttributes[infoChecksum]
    ensures r.Success? ==> SameNonAttributeParts(project, r.value)
    ensures r.Success? ==> forall a :: a in rewritten <==> AttributeDiffers(project.attributes, r.value.attributes, a)
  {
    rewritten := {};
    if infoChecksum !in store.projectAttributes {
      return Failure(AssetNotFound({infoChecksum})), rewritten;
    }
    var newAttributes := store.projectAttributes[infoChecksum];
    if project.attributes.id != newAttributes.id { return Failure(ProjectIdentityChanged), rewritten; }
    if project.attributes.language != newAttributes.language { return Failure(ProjectIdentityChanged), rewritten; }
    if project.attributes.isSubmission != newAttributes.isSubmission { return Failure(ProjectIdentityChanged), rewritten; }

    var attributes;
    attributes, rewritten := RewriteAttributes(project.attributes, newAttributes);
    return Success(project.(attributes := attributes)), rewritten;
  }

  /** Everything but the attributes is the same. */
  predicate SameNonAttributeParts(p: ProjectState, q: ProjectState) {
    p.(attributes := q.attributes) == q
  }

  // ----- UpdateProjectAsync -----

  /** An option set re-read from the store when its checksum differs, else kept. */
  function OptionReread<T>(m: map<Checksum, T>, current: T, oldC: Checksum, newC: Checksum): (r: Result<T, Error>)
    ensures r.Success? <==> oldC == newC || newC in m
    ensures r.Success? ==> r.value == if oldC == newC then current else m[newC]
  {
    if oldC != newC then Fetch(m, newC) else Success(current)
  }

  /** A reference list re-created from the store when its collection checksum differs, else kept. */
  function ReferencesReread<T>(m: map<Checksum, T>, current: seq<T>, oldC: ChecksumCollection, newC: ChecksumCollection)
    : (r: Result<seq<T>, Error>)
    ensures r.Success? <==> oldC.checksum == newC.checksum || Members(newC.children) <= m.Keys
    ensures r.Success? && oldC.checksum == newC.checksum ==> r.value == current
    ensures r.Success? && oldC.checksum != newC.checksum ==>
      && |r.value| == |newC.children|
      && forall i :: 0 <= i < |newC.children| ==> r.value[i] == m[newC.children[i]]
  {
    if oldC.checksum != newC.checksum then CreateCollection(m, newC.children) else Success(current)
  }

  /**
   * The compilation options, parse options and three reference lists of a
   * changed project, in the order UpdateProjectAsync re-reads them; the first
   * asset that cannot be fetched is the error.
   */
  function OptionsAndReferencesUpdated(store: AssetStore, p: ProjectState, oldC: ProjectStateChecksums, newC: ProjectStateChecksums)
    : (r: Result<ProjectState, Error>)
    ensures r.Success? <==>
      && (oldC.compilationOptions != newC.compilationOptions ==> newC.compilationOptions in store.compilationOptions)
      && (oldC.parseOptions != newC.parseOptions ==> newC.parseOptions in store.parseOptions)
      && (oldC.projectReferences.checksum != newC.projectReferences.checksum ==> Members(newC.projectReferences.children) <= store.projectReferences.Keys)
      && (oldC.metadataReferences.checksum != newC.metadataReferences.checksum ==> Members(newC.metadataReferences.children) <= store.metadataReferences.Keys)
      && (oldC.analyzerReferences.checksum != newC.analyzerReferences.checksum ==> Members(newC.analyzerReferences.children) <= store.analyzerReferences.Keys)
    ensures r.Success? ==> r.value.attributes == p.attributes
    ensures r.Success? ==> forall k :: DocumentsOf(r.value, k) == DocumentsOf(p, k)
    ensures r.Success? ==>
      r.value.compilationOptions == if oldC.compilationOptions == newC.compilationOptions then p.compilationOptions else store.compilationOptions[newC.compilationOptions]
    ensures r.Success? ==>
      r.value.parseOptions == if oldC.parseOptions == newC.parseOptions then p.parseOptions else store.parseOptions[newC.parseOptions]
    ensures r.Success? && oldC.projectReferences.checksum == newC.projectReferences.checksum ==> r.value.projectReferences == p.projectReferences
    ensures r.Success? && oldC.projectReferences.checksum != newC.projectReferences.checksum ==>
      && |r.value.projectReferences| == |newC.projectReferences.children|
      && forall i :: 0 <= i < |newC.projectReferences.children| ==>
           r.value.projectReferences[i] == store.projectReferences[newC.projectReferences.children[i]]
    ensures r.Success? && oldC.metadataReferences.checksum == newC.metadataReferences.checksum ==> r.value.metadataReferences == p.metadataReferences
    ensures r.Success? && oldC.metadataReferences.checksum != newC.metadataReferences.checksum ==>
      && |r.value.metadataReferences| == |newC.metadataReferences.children|
      && forall i :: 0 <= i < |newC.metadataReferences.children| ==>
           r.value.metadataReferences[i] == store.metadataReferences[newC.metadataReferences.children[i]]
    ensures r.Success? && oldC.analyzerReferences.checksum == newC.analyzerReferences.checksum ==> r.value.analyzerReferences == p.analyzerReferences
    ensures r.Success? && oldC.analyzerReferences.checksum != newC.analyzerReferences.checksum ==>
      && |r.value.analyzerReferences| == |newC.analyzerReferences.children|
      && forall i :: 0 <= i < |newC.analyzerReferences.children| ==>
           r.value.analyzerReferences[i] == store.analyzerReferences[newC.analyzerReferences.children[i]]
  {
    var compilationOptions :- OptionReread(store.compilationOptions, p.compilationOptions, oldC.compilationOptions, newC.compilationOptions);
    var parseOptions :- OptionReread(store.parseOptions, p.parseOptions, oldC.parseOptions, newC.parseOptions);
    var projectReferences :- ReferencesReread(store.projectReferences, p.projectReferences, oldC.projectReferences, newC.projectReferences);
    var metadataReferences :- ReferencesReread(store.metadataReferences, p.metadataReferences, oldC.metadataReferences, newC.metadataReferences);
    var analyzerReferences :- ReferencesReread(store.analyzerReferences, p.analyzerReferences, oldC.analyzerReferences, newC.analyzerReferences);
    Success(p.(compilationOptions := compilationOptions, parseOptions := parseOptions,
               projectReferences := projectReferences, metadataReferences := metadataReferences,
               analyzerReferences := analyzerReferences))
  }

  /** The attributes of a changed project, re-read only when the info checksum differs. */
  function InfoUpdated(store: AssetStore, p: ProjectState, oldC: ProjectStateChecksums, newC: ProjectStateChecksums): Result<ProjectState, Error> {
    if oldC.info != newC.info then ProjectInfoUpdated(store, p, newC.info) else Success(p)
  }

  /** One document collection of a changed project, updated only when its collection checksum differs. */
  ghost function CollectionUpdated(store: AssetStore, hasher: Hasher, p: ProjectState, kind: TextDocumentKind, oldC: ChecksumCollection, newC: ChecksumCollection)
    : Option<ProjectState>
  {
    if oldC.checksum != newC.checksum then DocumentsUpdated(store, hasher, p, kind, oldC, newC) else Some(p)
  }

  /** What UpdateProjectAsync makes of a changed project, or None when it fails. */
  ghost function ProjectUpdated(store: AssetStore, hasher: Hasher, p: ProjectState, oldC: ProjectStateChecksums, newC: ProjectStateChecksums)
    : Option<ProjectState>
  {
    var p1 :- InfoUpdated(store, p, oldC, newC).ToOption();
    var p2 :- OptionsAndReferencesUpdated(store, p1, oldC, newC).ToOption();
    var p3 :- CollectionUpdated(store, hasher, p2, Document, oldC.documents, newC.documents);
    var p4 :- CollectionUpdated(store, hasher, p3, AdditionalDocument, oldC.additionalDocuments, newC.additionalDocuments);
    CollectionUpdated(store, hasher, p4, AnalyzerConfigDocument, oldC.analyzerConfigDocuments, newC.analyzerConfigDocuments)
  }

  method UpdateCollection(store: AssetStore, hasher: Hasher, project: ProjectState, projectChecksums: ProjectStateChecksums,
                          kind: TextDocumentKind, oldC: ChecksumCollection, newC: ChecksumCollection)
    returns (r: Result<ProjectState, Error>)
    requires ContentAddressed(store)
    ensures r.ToOption() == CollectionUpdated(store, hasher, project, kind, oldC, newC)
  {
    if oldC.checksum == newC.checksum {
      return Success(project);
    }
    var trace;
    r, trace := UpdateDocuments(store, hasher, project, projectChecksums, kind, oldC, newC);
  }

  method UpdateProject(store: AssetStore, hasher: Hasher, project: ProjectState, oldC: ProjectStateChecksums, newC: ProjectStateChecksums)
    returns (r: Result<ProjectState, Error>)
    requires ContentAddressed(store)
    ensures r.ToOption() == ProjectUpdated(store, hasher, project, oldC, newC)
  {
    var p := project;
    if oldC.info != newC.info {
      var rewritten;
      p, rewritten :- UpdateProjectInfo(store, p, newC.info);
    }
    p :- OptionsAndReferencesUpdated(store, p, oldC, newC);
    p :- UpdateCollection(store, hasher, p, newC, Document, oldC.documents, newC.documents);
    p :- UpdateCollection(store, hasher, p, newC, AdditionalDocument, oldC.additionalDocuments, newC.additionalDocuments);
    r := UpdateCollection(store, hasher, p, newC, AnalyzerConfigDocument, oldC.analyzerConfigDocuments, newC.analyzerConfigDocuments);
  }

  // ----- UpdateProjectsAsync: the four loops -----

  /** The two maps UpdateProjectsAsync works from, and the three id sets they split into. */
  datatype ProjectDiff = ProjectDiff(oldMap: map<ProjectId, ProjectStateChecksums>, newMap: map<ProjectId, ProjectStateChecksums>) {
    function Added(): set<ProjectId> { newMap.Keys - oldMap.Keys }
    function Changed(): set<ProjectId> { newMap.Keys * oldMap.Keys }
    function Removed(): set<ProjectId> { oldMap.Keys - newMap.Keys }
  }

  /** CreateProjectInfoAsync on an added project's checksum: a project, None for an unsupported language, or an error. */
  function CreatedProject(store: AssetStore, diff: ProjectDiff, id: ProjectId): Result<Option<ProjectState>, Error>
    requires id in diff.newMap
  {
    CreateProjectInfo(store, diff.newMap[id].checksum)
  }

  predicate CanCreateProjectsOn(store: AssetStore, diff: ProjectDiff, ids: set<ProjectId>) {
    forall id :: id in diff.Added() && id in ids ==> CreatedProject(store, diff, id).Success?
  }

  /** The added projects among `ids` that the receiving side supports, as created from the store. */
  function AddedProjectsOn(store: AssetStore, diff: ProjectDiff, ids: set<ProjectId>): map<ProjectId, ProjectState>
    requires CanCreateProjectsOn(store, diff, ids)
  {
    map id | id in diff.Added() && id in ids && CreatedProject(store, diff, id).value.Some? :: CreatedProject(store, diff, id).value.value
  }

  /** Every added project among `ids` can be created, and none of the supported ones is already in `s`. */
  predicate CanAddProjectsOn(store: AssetStore, s: Solution, diff: ProjectDiff, ids: set<ProjectId>) {
    CanCreateProjectsOn(store, diff, ids) && AddedProjectsOn(store, diff, ids).Keys !! s.projects.Keys
  }

  function ProjectsAddedOn(store: AssetStore, s: Solution, diff: ProjectDiff, ids: set<ProjectId>): Solution
    requires CanAddProjectsOn(store, s, diff, ids)
  {
    s.(projects := s.projects + AddedProjectsOn(store, diff, ids))
  }

  /** A project created from the new map carries the id it is listed under there. */
  lemma CreatedProjectId(store: AssetStore, diff: ProjectDiff, id: ProjectId)
    requires ContentAddressed(store) && ResolvedProjectMap(store, diff.newMap) && id in diff.newMap
    requires CreatedProject(store, diff, id).Success? && CreatedProject(store, diff, id).value.Some?
    ensures CreatedProject(store, diff, id).value.value.attributes.id == id
  {
    assert store.projectChecksums[diff.newMap[id].checksum] == diff.newMap[id];
  }

  lemma AddedProjectsNone(store: AssetStore, s: Solution, diff: ProjectDiff)
    ensures CanAddProjectsOn(store, s, diff, {})
    ensures ProjectsAddedOn(store, s, diff, {}) == s
  {
    assert AddedProjectsOn(store, diff, {}) == map[];
    assert s.projects + map[] == s.projects;
  }

  /** One more id handled by the "added project" loop. */
  lemma AddedProjectsStep(store: AssetStore, diff: ProjectDiff, ids: set<ProjectId>, id: ProjectId)
    requires CanCreateProjectsOn(store, diff, ids) && id in diff.newMap && id !in ids
    ensures CanCreateProjectsOn(store, diff, ids + {id}) <==> (id in diff.Added() ==> CreatedProject(store, diff, id).Success?)
    ensures id !in AddedProjectsOn(store, diff, ids)
    ensures CanCreateProjectsOn(store, diff, ids + {id}) ==>
      AddedProjectsOn(store, diff, ids + {id}) ==
        if id in diff.Added() && CreatedProject(store, diff, id).value.Some?
        then AddedProjectsOn(store, diff, ids)[id := CreatedProject(store, diff, id).value.value]
        else AddedProjectsOn(store, diff, ids)
  {
    if CanCreateProjectsOn(store, diff, ids + {id}) {
      if id in diff.Added() && CreatedProject(store, diff, id).value.Some? {
        AddedProjectsGrow(store, diff, ids, id);
      } else {
        AddedProjectsKeep(store, diff, ids, id);
      }
    }
  }

  lemma AddedProjectsGrow(store: AssetStore, diff: ProjectDiff, ids: set<ProjectId>, id: ProjectId)
    requires CanCreateProjectsOn(store, diff, ids + {id}) && id !in ids
    requires id in diff.Added() && CreatedProject(store, diff, id).value.Some?
    ensures CanCreateProjectsOn(store, diff, ids)
    ensures AddedProjectsOn(store, diff, ids + {id}) == AddedProjectsOn(store, diff, ids)[id := CreatedProject(store, diff, id).value.value]
  {
  }

  lemma AddedProjectsKeep(store: AssetStore, diff: ProjectDiff, ids: set<ProjectId>, id: ProjectId)
    requires CanCreateProjectsOn(store, diff, ids + {id}) && id !in ids
    requires id in diff.newMap && !(id in diff.Added() && CreatedProject(store, diff, id).value.Some?)
    ensures CanCreateProjectsOn(store, diff, ids)
    ensures AddedProjectsOn(store, diff, ids + {id}) == AddedProjectsOn(store, diff, ids)
  {
  }

  lemma CanAddProjectsOnSubset(store: AssetStore, s: Solution, diff: ProjectDiff, ids: set<ProjectId>, more: set<ProjectId>)
    requires ids <= more && CanAddProjectsOn(store, s, diff, more)
    ensures CanAddProjectsOn(store, s, diff, ids)
  {
    assert AddedProjectsOn(store, diff, ids).Keys <= AddedProjectsOn(store, diff, more).Keys;
  }

  /** An id the "added project" loop skips: not added, or of an unsupported language. */
  lemma AddedProjectSkipped(store: AssetStore, s: Solution, diff: ProjectDiff, done: set<ProjectId>, id: ProjectId)
    requires CanAddProjectsOn(store, s, diff, done) && id in diff.newMap && id !in done
    requires id in diff.Added() ==> CreatedProject(store, diff, id) == Success(None)
    ensures CanAddProjectsOn(store, s, diff, done + {id})
    ensures ProjectsAddedOn(store, s, diff, done + {id}) == ProjectsAddedOn(store, s, diff, done)
  {
    AddedProjectsStep(store, diff, done, id);
  }

  /** An added project that could be created: the loop adds it, unless its id is taken. */
  lemma AddedProjectCreated(store: AssetStore, s: Solution, diff: ProjectDiff, done: set<ProjectId>, id: ProjectId, p: ProjectState)
    requires CanAddProjectsOn(store, s, diff, done) && id !in done
    requires id in diff.Added() && CreatedProject(store, diff, id) == Success(Some(p))
    ensures CanAddProjectsOn(store, s, diff, done + {id}) <==> id !in ProjectsAddedOn(store, s, diff, done).projects
    ensures CanAddProjectsOn(store, s, diff, done + {id}) ==>
      ProjectsAddedOn(store, s, diff, done + {id}) == ProjectsAddedOn(store, s, diff, done).(projects := ProjectsAddedOn(store, s, diff, done).projects[id := p])
  {
    AddedProjectsStep(store, diff, done, id);
    var before := AddedProjectsOn(store, diff, done);
    assert AddedProjectsOn(store, diff, done + {id}) == before[id := p];
    UnionUpdate(s.projects, before, id, p);
  }

  lemma UnionUpdate<K, V>(a: map<K, V>, b: map<K, V>, k: K, v: V)
    ensures a + b[k := v] == (a + b)[k := v]
  {
  }

  /** One pass of the "added project" loop, for the id `id` of the new map. */
  method AddProjectPass(store: AssetStore, s: Solution, diff: ProjectDiff, ghost done: set<ProjectId>, current: Solution, id: ProjectId)
    returns (r: Result<Solution, Error>)
    requires ContentAddressed(store) && ResolvedProjectMap(store, diff.newMap)
    requires CanAddProjectsOn(store, s, diff, done) && current == ProjectsAddedOn(store, s, diff, done)
    requires id in diff.newMap && id !in done
    ensures r.Success? <==> CanAddProjectsOn(store, s, diff, done + {id})
    ensures r.Success? ==> r.value == ProjectsAddedOn(store, s, diff, done + {id})
  {
    if id in diff.oldMap {
      AddedProjectSkipped(store, s, diff, done, id);
      return Success(current);
    }
    var projectInfo := CreateProjectInfo(store, diff.newMap[id].checksum);
    if projectInfo.Failure? {
      AddedProjectsStep(store, diff, done, id);
      return Failure(projectInfo.error);
    }
    if projectInfo.value.None? {
      // a language the receiving side does not support: skipped
      AddedProjectSkipped(store, s, diff, done, id);
      return Success(current);
    }
    CreatedProjectId(store, diff, id);
    AddedProjectCreated(store, s, diff, done, id, projectInfo.value.value);
    r := AddProject(current, projectInfo.value.value);
  }

  /** The "added project" loop. */
  method AddProjects(store: AssetStore, s: Solution, diff: ProjectDiff) returns (r: Result<Solution, Error>)
    requires ContentAddressed(store) && ResolvedProjectMap(store, diff.newMap)
    ensures r.Success? <==> CanAddProjectsOn(store, s, diff, diff.newMap.Keys)
    ensures r.Success? ==> r.value == ProjectsAddedOn(store, s, diff, diff.newMap.Keys)
  {
    var current := s;
    var remaining := diff.newMap.Keys;
    ghost var done: set<ProjectId> := {};
    AddedProjectsNone(store, s, diff);
    while remaining != {}
      invariant done !! remaining && done + remaining == diff.newMap.Keys
      invariant CanAddProjectsOn(store, s, diff, done)
      invariant current == ProjectsAddedOn(store, s, diff, done)
    {
      var id :| id in remaining;
      var next := AddProjectPass(store, s, diff, done, current, id);
      if next.Failure? {
        if CanAddProjectsOn(store, s, diff, diff.newMap.Keys) {
          CanAddProjectsOnSubset(store, s, diff, done + {id}, diff.newMap.Keys);
        }
        return next;
      }
      current := next.value;
      remaining := remaining - {id};
      done := done + {id};
    }
    return Success(current);
  }

  /** A project in both maps whose project-reference collection changed: its references are cleared first. */
  predicate StripsReferences(diff: ProjectDiff, id: ProjectId) {
    id in diff.Changed() && diff.oldMap[id].projectReferences.checksum != diff.newMap[id].projectReferences.checksum
  }

  /** `s` with the project references of the stripped projects among `ids` cleared. */
  function StrippedOn(s: Solution, diff: ProjectDiff, ids: set<ProjectId>): Solution {
    s.(projects := map id | id in s.projects ::
         if id in ids && StripsReferences(diff, id) then s.projects[id].(projectReferences := []) else s.projects[id])
  }

  lemma StrippedNone(s: Solution, diff: ProjectDiff)
    ensures StrippedOn(s, diff, {}) == s
  {
    assert StrippedOn(s, diff, {}).projects == s.projects;
  }

  /** One more id handled by the "strip project references" loop. */
  lemma StrippedStep(s: Solution, diff: ProjectDiff, ids: set<ProjectId>, id: ProjectId)
    requires diff.Changed() <= s.projects.Keys && id !in ids
    ensures StrippedOn(s, diff, ids).projects.Keys == s.projects.Keys
    ensures StrippedOn(s, diff, ids + {id}) ==
      if StripsReferences(diff, id) then WithProjectReferences(StrippedOn(s, diff, ids), id, []) else StrippedOn(s, diff, ids)
  {
    var t := StrippedOn(s, diff, ids);
    if StripsReferences(diff, id) {
      assert StrippedOn(s, diff, ids + {id}).projects == t.projects[id := t.projects[id].(projectReferences := [])];
    } else {
      assert StrippedOn(s, diff, ids + {id}).projects == t.projects;
    }
  }

  /** The "strip project references" loop. */
  method StripProjectReferences(s: Solution, diff: ProjectDiff) returns (t: Solution)
    requires diff.Changed() <= s.projects.Keys
    ensures t == StrippedOn(s, diff, diff.newMap.Keys)
  {
    t := s;
    var remaining := diff.newMap.Keys;
    ghost var done: set<ProjectId> := {};
    StrippedNone(s, diff);
    while remaining != {}
      invariant done !! remaining && done + remaining == diff.newMap.Keys
      invariant t == StrippedOn(s, diff, done)
    {
      var id :| id in remaining;
      remaining := remaining - {id};
      StrippedStep(s, diff, done, id);
      if id in diff.oldMap && diff.oldMap[id].projectReferences.checksum != diff.newMap[id].projectReferences.checksum {
        t := WithProjectReferences(t, id, []);
      }
      done := done + {id};
    }
  }

  /** The "removed project" loop. */
  method RemoveProjects(s: Solution, diff: ProjectDiff) returns (t: Solution)
    requires diff.Removed() <= s.projects.Keys
    ensures t == s.(projects := s.projects - diff.Removed())
  {
    t := s;
    var remaining := diff.oldMap.Keys;
    ghost var done: set<ProjectId> := {};
    assert s.projects - (diff.Removed() * done) == s.projects;
    while remaining != {}
      invariant done !! remaining && done + remaining == diff.oldMap.Keys
      invariant t == s.(projects := s.projects - (diff.Removed() * done))
    {
      var id :| id in remaining;
      remaining := remaining - {id};
      if id !in diff.newMap {
        t := RemoveProject(t, id);
      }
      assert t.projects == s.projects - (diff.Removed() * (done + {id}));
      done := done + {id};
    }
    assert diff.Removed() * done == diff.Removed();
  }

  /** The changed project `id` passes the checksum assertion and updates cleanly. */
  ghost predicate ProjectChangeApplies(store: AssetStore, hasher: Hasher, s: Solution, diff: ProjectDiff, id: ProjectId)
    requires id in diff.Changed() && id in s.projects
  {
    && diff.oldMap[id].checksum != diff.newMap[id].checksum
    && ProjectUpdated(store, hasher, s.projects[id], diff.oldMap[id], diff.newMap[id]).Some?
  }

  ghost predicate CanUpdateProjectsOn(store: AssetStore, hasher: Hasher, s: Solution, diff: ProjectDiff, ids: set<ProjectId>) {
    && diff.Changed() <= s.projects.Keys
    && forall id :: id in diff.Changed() && id in ids ==> ProjectChangeApplies(store, hasher, s, diff, id)
  }

  /** `s` after the changed projects among `ids` have been updated. */
  ghost function ProjectsChangedOn(store: AssetStore, hasher: Hasher, s: Solution, diff: ProjectDiff, ids: set<ProjectId>): Solution
    requires CanUpdateProjectsOn(store, hasher, s, diff, ids)
  {
    s.(projects := map id | id in s.projects ::
         if id in diff.Changed() && id in ids then ProjectUpdated(store, hasher, s.projects[id], diff.oldMap[id], diff.newMap[id]).value
         else s.projects[id])
  }

  lemma ProjectsChangedNone(store: AssetStore, hasher: Hasher, s: Solution, diff: ProjectDiff)
    requires diff.Changed() <= s.projects.Keys
    ensures CanUpdateProjectsOn(store, hasher, s, diff, {})
    ensures ProjectsChangedOn(store, hasher, s, diff, {}) == s
  {
    assert ProjectsChangedOn(store, hasher, s, diff, {}).projects == s.projects;
  }

  /** One more id handled by the "changed project" loop. */
  lemma ProjectsChangedStep(store: AssetStore, hasher: Hasher, s: Solution, diff: ProjectDiff, ids: set<ProjectId>, id: ProjectId)
    requires CanUpdateProjectsOn(store, hasher, s, diff, ids) && id in diff.newMap && id !in ids
    ensures id in diff.Changed() ==> ProjectsChangedOn(store, hasher, s, diff, ids).projects[id] == s.projects[id]
    ensures CanUpdateProjectsOn(store, hasher, s, diff, ids + {id}) <==>
      (id in diff.Changed() ==> ProjectChangeApplies(store, hasher, s, diff, id))
    ensures CanUpdateProjectsOn(store, hasher, s, diff, ids + {id}) ==>
      var t := ProjectsChangedOn(store, hasher, s, diff, ids);
      ProjectsChangedOn(store, hasher, s, diff, ids + {id}) ==
        if id in diff.Changed()
        then t.(projects := t.projects[id := ProjectUpdated(store, hasher, s.projects[id], diff.oldMap[id], diff.newMap[id]).value])
        else t
  {
    if CanUpdateProjectsOn(store, hasher, s, diff, ids + {id}) {
      var t := ProjectsChangedOn(store, hasher, s, diff, ids);
      var t' := ProjectsChangedOn(store, hasher, s, diff, ids + {id});
      if id in diff.Changed() {
        assert t'.projects == t.projects[id := ProjectUpdated(store, hasher, s.projects[id], diff.oldMap[id], diff.newMap[id]).value];
      } else {
        assert t'.projects == t.projects;
      }
    }
  }

  lemma CanUpdateProjectsOnSubset(store: AssetStore, hasher: Hasher, s: Solution, diff: ProjectDiff, ids: set<ProjectId>, more: set<ProjectId>)
    requires ids <= more && CanUpdateProjectsOn(store, hasher, s, diff, more)
    ensures CanUpdateProjectsOn(store, hasher, s, diff, ids)
  {
  }

  /** One pass of the "changed project" loop, for the id `id` of the new map. */
  method UpdateChangedProjectPass(store: AssetStore, hasher: Hasher, s: Solution, diff: ProjectDiff, ghost done: set<ProjectId>,
                                  current: Solution, id: ProjectId)
    returns (r: Result<Solution, Error>)
    requires ContentAddressed(store)
    requires CanUpdateProjectsOn(store, hasher, s, diff, done) && current == ProjectsChangedOn(store, hasher, s, diff, done)
    requires id in diff.newMap && id !in done
    ensures r.Success? <==> CanUpdateProjectsOn(store, hasher, s, diff, done + {id})
    ensures r.Success? ==> r.value == ProjectsChangedOn(store, hasher, s, diff, done + {id})
  {
    ProjectsChangedStep(store, hasher, s, diff, done, id);
    if id !in diff.oldMap {
      return Success(current);
    }
    if diff.oldMap[id].checksum == diff.newMap[id].checksum {
      return Failure(ChecksumUnchanged);
    }
    var project := current.projects[id];
    var updated :- UpdateProject(store, hasher, project, diff.oldMap[id], diff.newMap[id]);
    return Success(current.(projects := current.projects[id := updated]));
  }

  /** The "changed project" loop. */
  method UpdateChangedProjects(store: AssetStore, hasher: Hasher, s: Solution, diff: ProjectDiff) returns (r: Result<Solution, Error>)
    requires ContentAddressed(store) && diff.Changed() <= s.projects.Keys
    ensures r.Success? <==> CanUpdateProjectsOn(store, hasher, s, diff, diff.newMap.Keys)
    ensures r.Success? ==> r.value == ProjectsChangedOn(store, hasher, s, diff, diff.newMap.Keys)
  {
    var current := s;
    var remaining := diff.newMap.Keys;
    ghost var done: set<ProjectId> := {};
    ProjectsChangedNone(store, hasher, s, diff);
    while remaining != {}
      invariant done !! remaining && done + remaining == diff.newMap.Keys
      invariant CanUpdateProjectsOn(store, hasher, s, diff, done)
      invariant current == ProjectsChangedOn(store, hasher, s, diff, done)
    {
      var id :| id in remaining;
      var next := UpdateChangedProjectPass(store, hasher, s, diff, done, current, id);
      if next.Failure? {
        if CanUpdateProjectsOn(store, hasher, s, diff, diff.newMap.Keys) {
          CanUpdateProjectsOnSubset(store, hasher, s, diff, done + {id}, diff.newMap.Keys);
        }
        return next;
      }
      current := next.value;
      remaining := remaining - {id};
      done := done + {id};
    }
    return Success(current);
  }

  // ----- UpdateProjectsAsync: the whole -----

  /** The four loops of UpdateProjectsAsync, in order: add, strip references, remove, update. */
  ghost function ProjectDiffApplied(store: AssetStore, hasher: Hasher, s: Solution, diff: ProjectDiff): Option<Solution> {
    if !CanAddProjectsOn(store, s, diff, diff.newMap.Keys) then None
    else
      var s2 := StrippedOn(ProjectsAddedOn(store, s, diff, diff.newMap.Keys), diff, diff.newMap.Keys);
      var s3 := s2.(projects := s2.projects - diff.Removed());
      if !CanUpdateProjectsOn(store, hasher, s3, diff, diff.newMap.Keys) then None
      else Some(ProjectsChangedOn(store, hasher, s3, diff, diff.newMap.Keys))
  }

  /** What UpdateProjectsAsync (the set overload) makes of the solution, or None when it fails. */
  ghost function ProjectsUpdated(store: AssetStore, hasher: Hasher, s: Solution, olds: set<Checksum>, news: set<Checksum>): Option<Solution> {
    if !NewProjectSideResolvable(store, news) then None
    else ProjectDiffApplied(store, hasher, s, ProjectDiff(OldProjectMap(hasher, s.projects, olds), NewProjectMap(store, news)))
  }

  /** UpdateProjectsAsync over the two checksum sets. */
  /**
   * UpdateProjectsAsync over the two checksum sets. Besides the new solution
   * it yields the project trees it asked the asset source to fetch ahead of
   * the add loop: those of the projects only the new side has, and nothing
   * when the new side does not resolve.
   */
  method UpdateProjectsFromSets(store: AssetStore, hasher: Hasher, s: Solution, olds: set<Checksum>, news: set<Checksum>)
    returns (r: Result<Solution, Error>, requested: set<Checksum>)
    requires ContentAddressed(store)
    ensures r.ToOption() == ProjectsUpdated(store, hasher, s, olds, news)
    ensures NewProjectSideResolvable(store, news) ==>
      requested == ProjectsToPrefetch(OldProjectMap(hasher, s.projects, olds), NewProjectMap(store, news))
    ensures !NewProjectSideResolvable(store, news) ==> requested == {}
  {
    requested := {};
    var oldMap := GetProjectMapFromSolution(hasher, s, olds);
    var newMap :- GetProjectMapFromAssets(store, news);
    NewProjectMapIsResolved(store, news);
    requested := SynchronizeAssets(oldMap, newMap);
    var diff := ProjectDiff(oldMap, newMap);
    var added :- AddProjects(store, s, diff);
    var stripped := StripProjectReferences(added, diff);
    var remaining := RemoveProjects(stripped, diff);
    r := UpdateChangedProjects(store, hasher, remaining, diff);
  }

  /** UpdateProjectsAsync over two project collections: the checksum diff, then the set overload. */
  method UpdateProjects(store: AssetStore, hasher: Hasher, s: Solution, oldC: ChecksumCollection, newC: ChecksumCollection)
    returns (r: Result<Solution, Error>, requested: set<Checksum>)
    requires ContentAddressed(store)
    ensures r.ToOption() == ProjectsUpdated(store, hasher, s, Olds(oldC, newC), News(oldC, newC))
    ensures NewProjectSideResolvable(store, News(oldC, newC)) ==>
      requested == ProjectsToPrefetch(OldProjectMap(hasher, s.projects, Olds(oldC, newC)), NewProjectMap(store, News(oldC, newC)))
    ensures !NewProjectSideResolvable(store, News(oldC, newC)) ==> requested == {}
  {
    var olds, news := Diff(oldC.children, newC.children);
    assert olds == Olds(oldC, newC);
    assert news == News(oldC, newC);
    r, requested := UpdateProjectsFromSets(store, hasher, s, olds, news);
  }

  /**
   * When the two sets come from the collection diff, a project found on both
   * sides always has a changed checksum: the assertion of the "changed
   * project" loop cannot fire.
   */
  lemma ChangedProjectChecksumsDiffer(store: AssetStore, hasher: Hasher, s: Solution, olds: set<Checksum>, news: set<Checksum>)
    requires ContentAddressed(store) && NewProjectSideResolvable(store, news) && olds !! news
    ensures var diff := ProjectDiff(OldProjectMap(hasher, s.projects, olds), NewProjectMap(store, news));
      forall id :: id in diff.Changed() ==> diff.oldMap[id].checksum != diff.newMap[id].checksum
  {
    NewProjectMapIsResolved(store, news);
  }

  /** Nothing to add or remove leaves the solution as it was. */
  lemma EmptyProjectSetsKeepSolution(store: AssetStore, hasher: Hasher, s: Solution)
    ensures ProjectsUpdated(store, hasher, s, {}, {}) == Some(s)
  {
    assert NewProjectSideResolvable(store, {});
    var diff := ProjectDiff(OldProjectMap(hasher, s.projects, {}), NewProjectMap(store, {}));
    assert diff.oldMap == map[] && diff.newMap.Keys == {};
    AddedProjectsNone(store, s, diff);
    StrippedNone(s, diff);
    assert s.projects - diff.Removed() == s.projects;
    ProjectsChangedNone(store, hasher, s, diff);
    assert s.(projects := s.projects - diff.Removed()) == s;
  }

  /** A project as the "strip project references" loop leaves it. */
  function Stripped(p: ProjectState, diff: ProjectDiff, id: ProjectId): ProjectState {
    if StripsReferences(diff, id) then p.(projectReferences := []) else p
  }

  /**
   * The net effect of the four loops: removed projects are gone, supported
   * added projects are created from the store under their own ids, changed
   * projects are updated as UpdateProjectAsync updates them (the temporary
   * clearing of their references leaves no trace), and every other project
   * and the rest of the solution are untouched.
   */
  lemma ProjectDiffAppliedEffect(store: AssetStore, hasher: Hasher, s: Solution, diff: ProjectDiff, t: Solution)
    requires ContentAddressed(store) && ResolvedProjectMap(store, diff.newMap) && diff.oldMap.Keys <= s.projects.Keys
    requires ProjectDiffApplied(store, hasher, s, diff) == Some(t)
    ensures forall id :: id in diff.Added() ==> CreatedProject(store, diff, id).Success?
    ensures forall id :: id in t.projects <==>
      || (id in s.projects && id !in diff.Removed())
      || (id in diff.Added() && CreatedProject(store, diff, id).value.Some?)
    ensures forall id :: id in diff.Added() && CreatedProject(store, diff, id).value.Some? ==>
      && id !in s.projects
      && t.projects[id] == CreatedProject(store, diff, id).value.value
      && t.projects[id].attributes.id == id
    ensures forall id :: id in diff.Changed() ==>
      ProjectUpdated(store, hasher, s.projects[id], diff.oldMap[id], diff.newMap[id]) == Some(t.projects[id])
    ensures forall id :: id in s.projects && id !in diff.oldMap ==> t.projects[id] == s.projects[id]
    ensures t.attributes == s.attributes && t.analyzerReferences == s.analyzerReferences && t.frozenDocument == s.frozenDocument
  {
    var s1, s3 := ProjectDiffAppliedStages(store, hasher, s, diff, t);
    ProjectStagesEffect(store, hasher, s, diff, t, s1, s3);
    forall id | id in diff.Added() && CreatedProject(store, diff, id).value.Some?
      ensures t.projects[id].attributes.id == id
    {
      CreatedProjectId(store, diff, id);
    }
    forall id | id in diff.Changed()
      ensures ProjectUpdated(store, hasher, s.projects[id], diff.oldMap[id], diff.newMap[id]) == Some(t.projects[id])
    {
      ChangedFromStripped(store, hasher, s, diff, t, s1, s3, id);
      if StripsReferences(diff, id) {
        StripIsOverwritten(store, hasher, s.projects[id], diff.oldMap[id], diff.newMap[id]);
      }
    }
  }

  /** What the "added project" loop did, stated per id. */
  ghost predicate AddedStageDid(store: AssetStore, s: Solution, diff: ProjectDiff, s1: Solution) {
    && (forall id :: id in diff.Added() ==> CreatedProject(store, diff, id).Success?)
    && (forall id :: id in s1.projects <==>
          id in s.projects || (id in diff.Added() && CreatedProject(store, diff, id).value.Some?))
    && (forall id :: id in diff.Added() && CreatedProject(store, diff, id).value.Some? ==>
          id !in s.projects && s1.projects[id] == CreatedProject(store, diff, id).value.value)
    && (forall id :: id in s.projects ==> id in s1.projects && s1.projects[id] == s.projects[id])
    && s1.attributes == s.attributes && s1.analyzerReferences == s.analyzerReferences && s1.frozenDocument == s.frozenDocument
  }

  /** What the "strip project references" and "removed project" loops did, stated per id. */
  ghost predicate StripRemoveStageDid(s1: Solution, diff: ProjectDiff, s3: Solution) {
    && s3.projects.Keys == s1.projects.Keys - diff.Removed()
    && (forall id :: id in s3.projects ==> s3.projects[id] == Stripped(s1.projects[id], diff, id))
    && s3.attributes == s1.attributes && s3.analyzerReferences == s1.analyzerReferences && s3.frozenDocument == s1.frozenDocument
  }

  /** What the "changed project" loop left alone. */
  ghost predicate ChangedStageShape(s3: Solution, diff: ProjectDiff, t: Solution) {
    && t.projects.Keys == s3.projects.Keys
    && diff.Changed() <= s3.projects.Keys
    && (forall id :: id in s3.projects && id !in diff.Changed() ==> t.projects[id] == s3.projects[id])
    && t.attributes == s3.attributes && t.analyzerReferences == s3.analyzerReferences && t.frozenDocument == s3.frozenDocument
  }

  /** What the "changed project" loop made of each changed project. */
  ghost predicate ChangedStageUpdates(store: AssetStore, hasher: Hasher, s3: Solution, diff: ProjectDiff, t: Solution)
    requires ChangedStageShape(s3, diff, t)
  {
    forall id :: id in diff.Changed() ==>
      ProjectUpdated(store, hasher, s3.projects[id], diff.oldMap[id], diff.newMap[id]) == Some(t.projects[id])
  }

  /** The solutions between the loops, each described by what its loop did. */
  lemma ProjectDiffAppliedStages(store: AssetStore, hasher: Hasher, s: Solution, diff: ProjectDiff, t: Solution)
    returns (s1: Solution, s3: Solution)
    requires ProjectDiffApplied(store, hasher, s, diff) == Some(t)
    ensures AddedStageDid(store, s, diff, s1)
    ensures StripRemoveStageDid(s1, diff, s3)
    ensures ChangedStageShape(s3, diff, t) && ChangedStageUpdates(store, hasher, s3, diff, t)
  {
    s1 := ProjectsAddedOn(store, s, diff, diff.newMap.Keys);
    AddedStage(store, s, diff);
    var s2 := StrippedOn(s1, diff, diff.newMap.Keys);
    s3 := s2.(projects := s2.projects - diff.Removed());
    StripRemoveStage(s1, diff);
    ChangedStage(store, hasher, s3, diff);
  }

  lemma AddedStage(store: AssetStore, s: Solution, diff: ProjectDiff)
    requires CanAddProjectsOn(store, s, diff, diff.newMap.Keys)
    ensures AddedStageDid(store, s, diff, ProjectsAddedOn(store, s, diff, diff.newMap.Keys))
  {
  }

  lemma StripRemoveStage(s1: Solution, diff: ProjectDiff)
    ensures var s2 := StrippedOn(s1, diff, diff.newMap.Keys);
      StripRemoveStageDid(s1, diff, s2.(projects := s2.projects - diff.Removed()))
  {
  }

  lemma ChangedStage(store: AssetStore, hasher: Hasher, s3: Solution, diff: ProjectDiff)
    requires CanUpdateProjectsOn(store, hasher, s3, diff, diff.newMap.Keys)
    ensures var t := ProjectsChangedOn(store, hasher, s3, diff, diff.newMap.Keys);
      ChangedStageShape(s3, diff, t) && ChangedStageUpdates(store, hasher, s3, diff, t)
  {
  }

  /** The net effect, from what each loop did. */
  lemma ProjectStagesEffect(store: AssetStore, hasher: Hasher, s: Solution, diff: ProjectDiff, t: Solution, s1: Solution, s3: Solution)
    requires diff.oldMap.Keys <= s.projects.Keys
    requires AddedStageDid(store, s, diff, s1) && StripRemoveStageDid(s1, diff, s3) && ChangedStageShape(s3, diff, t)
    ensures forall id :: id in diff.Added() ==> CreatedProject(store, diff, id).Success?
    ensures forall id :: id in t.projects <==>
      || (id in s.projects && id !in diff.Removed())
      || (id in diff.Added() && CreatedProject(store, diff, id).value.Some?)
    ensures forall id :: id in diff.Added() && CreatedProject(store, diff, id).value.Some? ==>
      && id !in s.projects
      && t.projects[id] == CreatedProject(store, diff, id).value.value
    ensures forall id :: id in s.projects && id !in diff.oldMap ==> t.projects[id] == s.projects[id]
    ensures t.attributes == s.attributes && t.analyzerReferences == s.analyzerReferences && t.frozenDocument == s.frozenDocument
  {
    forall id | id in diff.Added() && CreatedProject(store, diff, id).value.Some?
      ensures id !in s.projects && t.projects[id] == CreatedProject(store, diff, id).value.value
    {
      AddedSurvives(store, hasher, s, diff, t, s1, s3, id);
    }
  }

  lemma AddedSurvives(store: AssetStore, hasher: Hasher, s: Solution, diff: ProjectDiff, t: Solution, s1: Solution, s3: Solution, id: ProjectId)
    requires AddedStageDid(store, s, diff, s1) && StripRemoveStageDid(s1, diff, s3) && ChangedStageShape(s3, diff, t)
    requires id in diff.Added() && CreatedProject(store, diff, id).value.Some?
    ensures id !in s.projects && t.projects[id] == CreatedProject(store, diff, id).value.value
  {
    assert !StripsReferences(diff, id);
    assert s3.projects[id] == s1.projects[id];
  }

  lemma ChangedFromStripped(store: AssetStore, hasher: Hasher, s: Solution, diff: ProjectDiff, t: Solution, s1: Solution, s3: Solution, id: ProjectId)
    requires diff.oldMap.Keys <= s.projects.Keys
    requires AddedStageDid(store, s, diff, s1) && StripRemoveStageDid(s1, diff, s3)
    requires ChangedStageShape(s3, diff, t) && ChangedStageUpdates(store, hasher, s3, diff, t)
    requires id in diff.Changed()
    ensures ProjectUpdated(store, hasher, Stripped(s.projects[id], diff, id), diff.oldMap[id], diff.newMap[id]) == Some(t.projects[id])
  {
    assert s3.projects[id] == Stripped(s1.projects[id], diff, id);
  }

  // ----- UpdateProjectAsync: what a changed project becomes -----

  /** A reference list as UpdateProjectAsync leaves it: kept, or re-created member by member from the store. */
  ghost predicate RereadFrom<T>(m: map<Checksum, T>, current: seq<T>, oldC: ChecksumCollection, newC: ChecksumCollection, result: seq<T>) {
    if oldC.checksum == newC.checksum then result == current
    else
      && Members(newC.children) <= m.Keys
      && |result| == |newC.children|
      && forall i :: 0 <= i < |newC.children| ==> result[i] == m[newC.children[i]]
  }

  /** One document collection step never touches the non-document parts, and is skipped when its checksum is unchanged. */
  lemma CollectionKeepsRest(store: AssetStore, hasher: Hasher, p: ProjectState, kind: TextDocumentKind,
                            oldC: ChecksumCollection, newC: ChecksumCollection)
    requires CollectionUpdated(store, hasher, p, kind, oldC, newC).Some?
    ensures SameNonDocumentParts(p, CollectionUpdated(store, hasher, p, kind, oldC, newC).value)
    ensures oldC.checksum == newC.checksum ==> CollectionUpdated(store, hasher, p, kind, oldC, newC).value == p
  {
    if oldC.checksum != newC.checksum {
      DocumentsUpdatedKeepsRest(store, hasher, p, kind, oldC, newC, CollectionUpdated(store, hasher, p, kind, oldC, newC).value);
    }
  }

  /**
   * What UpdateProjectAsync does to a changed project: each part is re-read
   * from the store exactly when its checksum differs, and is kept otherwise;
   * the project's identity never changes.
   */
  lemma ProjectUpdatedEffect(store: AssetStore, hasher: Hasher, p: ProjectState, oldC: ProjectStateChecksums, newC: ProjectStateChecksums, q: ProjectState)
    requires ProjectUpdated(store, hasher, p, oldC, newC) == Some(q)
    ensures SameProjectIdentity(p.attributes, q.attributes)
    ensures oldC.info == newC.info ==> q.attributes == p.attributes
    ensures oldC.info != newC.info ==> newC.info in store.projectAttributes && q.attributes == store.projectAttributes[newC.info]
    ensures oldC.compilationOptions == newC.compilationOptions ==> q.compilationOptions == p.compilationOptions
    ensures oldC.compilationOptions != newC.compilationOptions ==>
      newC.compilationOptions in store.compilationOptions && q.compilationOptions == store.compilationOptions[newC.compilationOptions]
    ensures oldC.parseOptions == newC.parseOptions ==> q.parseOptions == p.parseOptions
    ensures oldC.parseOptions != newC.parseOptions ==>
      newC.parseOptions in store.parseOptions && q.parseOptions == store.parseOptions[newC.parseOptions]
    ensures RereadFrom(store.projectReferences, p.projectReferences, oldC.projectReferences, newC.projectReferences, q.projectReferences)
    ensures RereadFrom(store.metadataReferences, p.metadataReferences, oldC.metadataReferences, newC.metadataReferences, q.metadataReferences)
    ensures RereadFrom(store.analyzerReferences, p.analyzerReferences, oldC.analyzerReferences, newC.analyzerReferences, q.analyzerReferences)
    ensures && oldC.documents.checksum == newC.documents.checksum
            && oldC.additionalDocuments.checksum == newC.additionalDocuments.checksum
            && oldC.analyzerConfigDocuments.checksum == newC.analyzerConfigDocuments.checksum
            ==> forall k :: DocumentsOf(q, k) == DocumentsOf(p, k)
  {
    var p1, p2 := ProjectUpdatedStages(store, hasher, p, oldC, newC, q);
    InfoStageEffect(store, p, oldC, newC, p1);
    OptionsStageEffect(store, p1, oldC, newC, p2);
  }

  /** The checksum collection of one document kind in a project's checksum tree. */
  function CollectionChecksumsOf(c: ProjectStateChecksums, kind: TextDocumentKind): ChecksumCollection {
    match kind
    case Document => c.documents
    case AdditionalDocument => c.additionalDocuments
    case AnalyzerConfigDocument => c.analyzerConfigDocuments
  }

  /** The ids a document collection can hold after the update: the ones it has and the ones on the new side of its diff. */
  function ReachableDocumentIds(store: AssetStore, p: ProjectState, oldC: ProjectStateChecksums, newC: ProjectStateChecksums,
                                kind: TextDocumentKind): set<DocumentId>
  {
    DocumentsOf(p, kind).Keys + NewSideIds(store, CollectionChecksumsOf(oldC, kind), CollectionChecksumsOf(newC, kind))
  }

  /** No document id can come to sit in two collections of the project while it is updated. */
  predicate CollectionsKeptApart(store: AssetStore, p: ProjectState, oldC: ProjectStateChecksums, newC: ProjectStateChecksums) {
    forall k, k' :: k != k' ==> ReachableDocumentIds(store, p, oldC, newC, k) !! ReachableDocumentIds(store, p, oldC, newC, k')
  }

  /**
   * A document collection whose checksum is unchanged comes out of
   * UpdateProjectAsync as it went in, one collection at a time, provided no
   * id moves between collections: the per-id lookup of an update looks in
   * all three collections, so an id shared across kinds could otherwise be
   * removed from a collection that was not being updated.
   */
  lemma ProjectUpdatedKeepsUnchangedCollections(store: AssetStore, hasher: Hasher, p: ProjectState,
                                               oldC: ProjectStateChecksums, newC: ProjectStateChecksums, q: ProjectState)
    requires ProjectUpdated(store, hasher, p, oldC, newC) == Some(q)
    requires CollectionsKeptApart(store, p, oldC, newC)
    ensures forall k :: CollectionChecksumsOf(oldC, k).checksum == CollectionChecksumsOf(newC, k).checksum ==>
      DocumentsOf(q, k) == DocumentsOf(p, k)
    ensures forall k :: DocumentsOf(q, k).Keys <= ReachableDocumentIds(store, p, oldC, newC, k)
  {
    var p2, p3, p4 := CollectionStages(store, hasher, p, oldC, newC, q);
    CollectionStepKeepsApart(store, hasher, p, oldC, newC, Document, p2, p3);
    CollectionStepKeepsApart(store, hasher, p, oldC, newC, AdditionalDocument, p3, p4);
    CollectionStepKeepsApart(store, hasher, p, oldC, newC, AnalyzerConfigDocument, p4, q);
  }

  /** The project before each of the three collection steps of UpdateProjectAsync. */
  lemma CollectionStages(store: AssetStore, hasher: Hasher, p: ProjectState, oldC: ProjectStateChecksums, newC: ProjectStateChecksums, q: ProjectState)
    returns (p2: ProjectState, p3: ProjectState, p4: ProjectState)
    requires ProjectUpdated(store, hasher, p, oldC, newC) == Some(q)
    ensures forall k :: DocumentsOf(p2, k) == DocumentsOf(p, k)
    ensures CollectionUpdated(store, hasher, p2, Document, CollectionChecksumsOf(oldC, Document), CollectionChecksumsOf(newC, Document)) == Some(p3)
    ensures CollectionUpdated(store, hasher, p3, AdditionalDocument,
                              CollectionChecksumsOf(oldC, AdditionalDocument), CollectionChecksumsOf(newC, AdditionalDocument)) == Some(p4)
    ensures CollectionUpdated(store, hasher, p4, AnalyzerConfigDocument,
                              CollectionChecksumsOf(oldC, AnalyzerConfigDocument), CollectionChecksumsOf(newC, AnalyzerConfigDocument)) == Some(q)
  {
    var p1;
    p1, p2 := ProjectUpdatedStages(store, hasher, p, oldC, newC, q);
    InfoStageEffect(store, p, oldC, newC, p1);
    OptionsStageEffect(store, p1, oldC, newC, p2);
    p3 := CollectionUpdated(store, hasher, p2, Document, oldC.documents, newC.documents).value;
    p4 := CollectionUpdated(store, hasher, p3, AdditionalDocument, oldC.additionalDocuments, newC.additionalDocuments).value;
  }

  /** One collection step of UpdateProjectAsync keeps every collection within its reachable ids and leaves the others alone. */
  lemma CollectionStepKeepsApart(store: AssetStore, hasher: Hasher, p: ProjectState, oldC: ProjectStateChecksums, newC: ProjectStateChecksums,
                                 kind: TextDocumentKind, before: ProjectState, after: ProjectState)
    requires CollectionsKeptApart(store, p, oldC, newC)
    requires forall k :: DocumentsOf(before, k).Keys <= ReachableDocumentIds(store, p, oldC, newC, k)
    requires CollectionUpdated(store, hasher, before, kind, CollectionChecksumsOf(oldC, kind), CollectionChecksumsOf(newC, kind)) == Some(after)
    ensures forall k :: DocumentsOf(after, k).Keys <= ReachableDocumentIds(store, p, oldC, newC, k)
    ensures forall k :: k != kind ==> DocumentsOf(after, k) == DocumentsOf(before, k)
    ensures CollectionChecksumsOf(oldC, kind).checksum == CollectionChecksumsOf(newC, kind).checksum ==> after == before
  {
    var o, n := CollectionChecksumsOf(oldC, kind), CollectionChecksumsOf(newC, kind);
    KeptApartDisjoint(store, p, oldC, newC, before);
    CollectionUpdatedWithin(store, hasher, before, kind, o, n, after);
    assert DocumentsOf(before, kind).Keys + NewSideIds(store, o, n) <= ReachableDocumentIds(store, p, oldC, newC, kind);
  }

  /** One collection step stays within the collection's old ids and its new-side ids, and is skipped when its checksum is unchanged. */
  lemma CollectionUpdatedWithin(store: AssetStore, hasher: Hasher, before: ProjectState, kind: TextDocumentKind,
                                oldC: ChecksumCollection, newC: ChecksumCollection, after: ProjectState)
    requires DocumentIdsDisjoint(before)
    requires CollectionUpdated(store, hasher, before, kind, oldC, newC) == Some(after)
    ensures DocumentsOf(after, kind).Keys <= DocumentsOf(before, kind).Keys + NewSideIds(store, oldC, newC)
    ensures forall k :: k != kind ==> DocumentsOf(after, k) == DocumentsOf(before, k)
    ensures oldC.checksum == newC.checksum ==> after == before
  {
    if oldC.checksum != newC.checksum {
      DocumentsUpdatedWithin(store, hasher, before, kind, oldC, newC, after);
    }
  }

  /** A project whose collections stay within their reachable ids, kept apart, has no id in two collections. */
  lemma KeptApartDisjoint(store: AssetStore, p: ProjectState, oldC: ProjectStateChecksums, newC: ProjectStateChecksums, before: ProjectState)
    requires CollectionsKeptApart(store, p, oldC, newC)
    requires forall k :: DocumentsOf(before, k).Keys <= ReachableDocumentIds(store, p, oldC, newC, k)
    ensures DocumentIdsDisjoint(before)
  {
    var d := ReachableDocumentIds(store, p, oldC, newC, Document);
    var a := ReachableDocumentIds(store, p, oldC, newC, AdditionalDocument);
    var g := ReachableDocumentIds(store, p, oldC, newC, AnalyzerConfigDocument);
    assert d !! a && d !! g && a !! g;
    assert before.documents.Keys <= d && before.additionalDocuments.Keys <= a && before.analyzerConfigDocuments.Keys <= g;
  }

  /** The project after the attribute step and after the options-and-references step. */
  lemma ProjectUpdatedStages(store: AssetStore, hasher: Hasher, p: ProjectState, oldC: ProjectStateChecksums, newC: ProjectStateChecksums, q: ProjectState)
    returns (p1: ProjectState, p2: ProjectState)
    requires ProjectUpdated(store, hasher, p, oldC, newC) == Some(q)
    ensures InfoUpdated(store, p, oldC, newC) == Success(p1)
    ensures OptionsAndReferencesUpdated(store, p1, oldC, newC) == Success(p2)
    ensures SameNonDocumentParts(p2, q)
    ensures && oldC.documents.checksum == newC.documents.checksum
            && oldC.additionalDocuments.checksum == newC.additionalDocuments.checksum
            && oldC.analyzerConfigDocuments.checksum == newC.analyzerConfigDocuments.checksum
            ==> q == p2
  {
    p1 := InfoUpdated(store, p, oldC, newC).value;
    p2 := OptionsAndReferencesUpdated(store, p1, oldC, newC).value;
    CollectionKeepsRest(store, hasher, p2, Document, oldC.documents, newC.documents);
    var p3 := CollectionUpdated(store, hasher, p2, Document, oldC.documents, newC.documents).value;
    CollectionKeepsRest(store, hasher, p3, AdditionalDocument, oldC.additionalDocuments, newC.additionalDocuments);
    var p4 := CollectionUpdated(store, hasher, p3, AdditionalDocument, oldC.additionalDocuments, newC.additionalDocuments).value;
    CollectionKeepsRest(store, hasher, p4, AnalyzerConfigDocument, oldC.analyzerConfigDocuments, newC.analyzerConfigDocuments);
  }

  lemma InfoStageEffect(store: AssetStore, p: ProjectState, oldC: ProjectStateChecksums, newC: ProjectStateChecksums, p1: ProjectState)
    requires InfoUpdated(store, p, oldC, newC) == Success(p1)
    ensures SameProjectIdentity(p.attributes, p1.attributes)
    ensures oldC.info == newC.info ==> p1.attributes == p.attributes
    ensures oldC.info != newC.info ==> newC.info in store.projectAttributes && p1.attributes == store.projectAttributes[newC.info]
    ensures SameNonAttributeParts(p, p1)
  {
  }

  lemma OptionsStageEffect(store: AssetStore, p1: ProjectState, oldC: ProjectStateChecksums, newC: ProjectStateChecksums, p2: ProjectState)
    requires OptionsAndReferencesUpdated(store, p1, oldC, newC) == Success(p2)
    ensures p2.attributes == p1.attributes && forall k :: DocumentsOf(p2, k) == DocumentsOf(p1, k)
    ensures oldC.compilationOptions == newC.compilationOptions ==> p2.compilationOptions == p1.compilationOptions
    ensures oldC.compilationOptions != newC.compilationOptions ==>
      newC.compilationOptions in store.compilationOptions && p2.compilationOptions == store.compilationOptions[newC.compilationOptions]
    ensures oldC.parseOptions == newC.parseOptions ==> p2.parseOptions == p1.parseOptions
    ensures oldC.parseOptions != newC.parseOptions ==>
      newC.parseOptions in store.parseOptions && p2.parseOptions == store.parseOptions[newC.parseOptions]
    ensures RereadFrom(store.projectReferences, p1.projectReferences, oldC.projectReferences, newC.projectReferences, p2.projectReferences)
    ensures RereadFrom(store.metadataReferences, p1.metadataReferences, oldC.metadataReferences, newC.metadataReferences, p2.metadataReferences)
    ensures RereadFrom(store.analyzerReferences, p1.analyzerReferences, oldC.analyzerReferences, newC.analyzerReferences, p2.analyzerReferences)
  {
  }

  /**
   * Clearing the project references of a project whose reference collection
   * changed does not change what UpdateProjectAsync makes of it: the list is
   * re-created from the store afterwards. The strip loop only guards the
   * intermediate solutions against reference cycles.
   */
  lemma StripIsOverwritten(store: AssetStore, hasher: Hasher, p: ProjectState, oldC: ProjectStateChecksums, newC: ProjectStateChecksums)
    requires oldC.projectReferences.checksum != newC.projectReferences.checksum
    ensures ProjectUpdated(store, hasher, p.(projectReferences := []), oldC, newC) == ProjectUpdated(store, hasher, p, oldC, newC)
  {
    var stripped := p.(projectReferences := []);
    var i := InfoUpdated(store, p, oldC, newC);
    var i' := InfoUpdated(store, stripped, oldC, newC);
    assert i'.Success? <==> i.Success?;
    if i.Success? {
      assert i'.value == i.value.(projectReferences := []);
      assert OptionsAndReferencesUpdated(store, i'.value, oldC, newC) == OptionsAndReferencesUpdated(store, i.value, oldC, newC);
    }
  }
}
