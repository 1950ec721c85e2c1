/**
 * RemoteWorkspace.SolutionCreator at the solution level: deciding whether an
 * update is incremental, and bringing the base solution up to the solution
 * that a new solution checksum describes.
 */
module SolutionCreator {
  import opened Wrappers
  import opened Checksums
  import opened Workspace
  import opened Assets
  import opened ProjectReconciliation

  /** The two solution attributes an incremental update may not change. */
  predicate SameSolutionIdentity(a: SolutionAttributes, b: SolutionAttributes) {
    a.id == b.id && a.filePath == b.filePath
  }

  /** IsIncrementalUpdateAsync: the new solution keeps the base solution's id and file path. */
  function IsIncrementalUpdate(store: AssetStore, base: Solution, newSolutionChecksum: Checksum): (r: Result<bool, Error>)
    ensures r.Success? <==>
      && newSolutionChecksum in store.solutionChecksums
      && store.solutionChecksums[newSolutionChecksum].attributes in store.solutionAttributes
    ensures r.Success? ==>
      (r.value <==> SameSolutionIdentity(base.attributes, store.solutionAttributes[store.solutionChecksums[newSolutionChecksum].attributes]))
  {
    var newSolutionChecksums :- Fetch(store.solutionChecksums, newSolutionChecksum);
    var newSolutionInfo :- Fetch(store.solutionAttributes, newSolutionChecksums.attributes);
    Success(base.attributes.id == newSolutionInfo.id && base.attributes.filePath == newSolutionInfo.filePath)
  }

  /**
   * The identity assertion of CreateSolutionAsync: when the attribute checksum
   * changed, the new attributes must keep the id and file path. The new
   * attributes are not applied to the solution.
   */
  function CheckSolutionIdentity(store: AssetStore, s: Solution, oldC: SolutionStateChecksums, newC: SolutionStateChecksums): (r: Result<Solution, Error>)
    ensures r.Success? ==> r.value == s
    ensures r.Success? <==>
      || oldC.attributes == newC.attributes
      || (newC.attributes in store.solutionAttributes && SameSolutionIdentity(s.attributes, store.solutionAttributes[newC.attributes]))
  {
    if oldC.attributes == newC.attributes then Success(s)
    else
      var newSolutionInfo :- Fetch(store.solutionAttributes, newC.attributes);
      if SameSolutionIdentity(s.attributes, newSolutionInfo) then Success(s) else Failure(SolutionIdentityChanged)
  }

  /** The projects step of CreateSolutionAsync: taken only when the project collection checksum changed. */
  ghost function ProjectsStep(store: AssetStore, hasher: Hasher, s: Solution, oldC: SolutionStateChecksums, newC: SolutionStateChecksums): Option<Solution> {
    if oldC.projects.checksum != newC.projects.checksum
    then ProjectsUpdated(store, hasher, s, Olds(oldC.projects, newC.projects), News(oldC.projects, newC.projects))
    else Some(s)
  }

  /** The analyzer reference step: the list is re-created only when its collection checksum changed. */
  function AnalyzerReferencesStep(store: AssetStore, s: Solution, oldC: SolutionStateChecksums, newC: SolutionStateChecksums): (r: Result<Solution, Error>)
    ensures r.Success? ==> r.value.projects == s.projects && r.value.attributes == s.attributes && r.value.frozenDocument == s.frozenDocument
    ensures r.Success? ==> RereadFrom(store.analyzerReferences, s.analyzerReferences, oldC.analyzerReferences, newC.analyzerReferences, r.value.analyzerReferences)
  {
    if oldC.analyzerReferences.checksum != newC.analyzerReferences.checksum then
      var references :- CreateCollection(store.analyzerReferences, newC.analyzerReferences.children);
      Success(s.(analyzerReferences := references))
    else Success(s)
  }

  /** The frozen source-generated document is re-attached exactly when both of its checksums are non-null. */
  predicate HasFrozenDocument(newC: SolutionStateChecksums) {
    newC.frozenSourceGeneratedDocumentIdentity != Null && newC.frozenSourceGeneratedDocumentText != Null
  }

  function FrozenDocumentStep(store: AssetStore, s: Solution, newC: SolutionStateChecksums): (r: Result<Solution, Error>)
    ensures r.Success? ==> r.value.projects == s.projects && r.value.attributes == s.attributes && r.value.analyzerReferences == s.analyzerReferences
    ensures r.Success? && !HasFrozenDocument(newC) ==> r.value.frozenDocument == s.frozenDocument
    ensures r.Success? <==> (!HasFrozenDocument(newC) ||
      (newC.frozenSourceGeneratedDocumentIdentity in store.generatedDocumentIdentities && newC.frozenSourceGeneratedDocumentText in store.texts))
    ensures r.Success? && HasFrozenDocument(newC) ==>
      r.value.frozenDocument == Some(FrozenDocument(
        store.generatedDocumentIdentities[newC.frozenSourceGeneratedDocumentIdentity],
        store.texts[newC.frozenSourceGeneratedDocumentText]))
  {
    if HasFrozenDocument(newC) then
      var identity :- Fetch(store.generatedDocumentIdentities, newC.frozenSourceGeneratedDocumentIdentity);
      var text :- Fetch(store.texts, newC.frozenSourceGeneratedDocumentText);
      Success(s.(frozenDocument := Some(FrozenDocument(identity, text))))
    else Success(s)
  }

  /**
   * What CreateSolutionAsync makes of the base solution, or None when it
   * fails: the frozen document is dropped, the new checksum tree fetched, the
   * identity checked, then projects, analyzer references and the frozen
   * document are brought up to date, each only when its checksum says so.
   */
  ghost function SolutionCreated(store: AssetStore, hasher: Hasher, base: Solution, newSolutionChecksum: Checksum): Option<Solution> {
    var s0 := base.(frozenDocument := None);
    var oldC := hasher.solution(s0);
    var newC :- Fetch(store.solutionChecksums, newSolutionChecksum).ToOption();
    var s1 :- CheckSolutionIdentity(store, s0, oldC, newC).ToOption();
    var s2 :- ProjectsStep(store, hasher, s1, oldC, newC);
    var s3 :- AnalyzerReferencesStep(store, s2, oldC, newC).ToOption();
    FrozenDocumentStep(store, s3, newC).ToOption()
  }

  /** CreateSolutionAsync. */
  method CreateSolution(store: AssetStore, hasher: Hasher, base: Solution, newSolutionChecksum: Checksum)
    returns (r: Result<Solution, Error>)
    requires ContentAddressed(store)
    ensures r.ToOption() == SolutionCreated(store, hasher, base, newSolutionChecksum)
  {
    // WithoutFrozenSourceGeneratedDocuments: the document is re-frozen below if still wanted
    var solution := base.(frozenDocument := None);
    var oldSolutionChecksums := hasher.solution(solution);
    var newSolutionChecksums :- Fetch(store.solutionChecksums, newSolutionChecksum);

    if oldSolutionChecksums.attributes != newSolutionChecksums.attributes {
      var newSolutionInfo :- Fetch(store.solutionAttributes, newSolutionChecksums.attributes);
      if !(solution.attributes.id == newSolutionInfo.id && solution.attributes.filePath == newSolutionInfo.filePath) {
        return Failure(SolutionIdentityChanged);
      }
    }

    if oldSolutionChecksums.projects.checksum != newSolutionChecksums.projects.checksum {
      var updated, _ := UpdateProjects(store, hasher, solution, oldSolutionChecksums.projects, newSolutionChecksums.projects);
      solution :- updated;
    }

    solution :- AnalyzerReferencesStep(store, solution, oldSolutionChecksums, newSolutionChecksums);
    r := FrozenDocumentStep(store, solution, newSolutionChecksums);
  }

  /** An update judged incremental never trips the identity assertion of CreateSolutionAsync. */
  lemma IncrementalUpdatePassesIdentityCheck(store: AssetStore, hasher: Hasher, base: Solution, newSolutionChecksum: Checksum)
    requires IsIncrementalUpdate(store, base, newSolutionChecksum) == Success(true)
    ensures var s0 := base.(frozenDocument := None);
      CheckSolutionIdentity(store, s0, hasher.solution(s0), store.solutionChecksums[newSolutionChecksum]).Success?
  {
  }

  /** An update judged not incremental fails, unless its attribute checksum is the base solution's own. */
  lemma NonIncrementalUpdateFails(store: AssetStore, hasher: Hasher, base: Solution, newSolutionChecksum: Checksum)
    requires IsIncrementalUpdate(store, base, newSolutionChecksum) == Success(false)
    requires hasher.solution(base.(frozenDocument := None)).attributes != store.solutionChecksums[newSolutionChecksum].attributes
    ensures SolutionCreated(store, hasher, base, newSolutionChecksum) == None
  {
  }

  /** A successful ProjectsUpdated touches only the projects. */
  lemma ProjectsUpdatedKeepsRest(store: AssetStore, hasher: Hasher, s: Solution, olds: set<Checksum>, news: set<Checksum>, t: Solution)
    requires ContentAddressed(store) && ProjectsUpdated(store, hasher, s, olds, news) == Some(t)
    ensures t.attributes == s.attributes && t.analyzerReferences == s.analyzerReferences && t.frozenDocument == s.frozenDocument
  {
    NewProjectMapIsResolved(store, news);
    var diff := ProjectDiff(OldProjectMap(hasher, s.projects, olds), NewProjectMap(store, news));
    ProjectDiffAppliedEffect(store, hasher, s, diff, t);
  }

  /**
   * The solution CreateSolutionAsync returns: the base attributes are kept,
   * the projects are kept when their collection checksum is unchanged, the
   * analyzer references are re-read only when theirs changed, and the frozen
   * document is exactly the one the new checksums name, if any.
   */
  lemma SolutionCreatedEffect(store: AssetStore, hasher: Hasher, base: Solution, newSolutionChecksum: Checksum, t: Solution)
    requires ContentAddressed(store)
    requires SolutionCreated(store, hasher, base, newSolutionChecksum) == Some(t)
    ensures newSolutionChecksum in store.solutionChecksums
    ensures var oldC := hasher.solution(base.(frozenDocument := None));
      var newC := store.solutionChecksums[newSolutionChecksum];
      && t.attributes == base.attributes
      && (oldC.projects.checksum == newC.projects.checksum ==> t.projects == base.projects)
      && RereadFrom(store.analyzerReferences, base.analyzerReferences, oldC.analyzerReferences, newC.analyzerReferences, t.analyzerReferences)
      && (!HasFrozenDocument(newC) ==> t.frozenDocument == None)
      && (HasFrozenDocument(newC) ==>
            && newC.frozenSourceGeneratedDocumentIdentity in store.generatedDocumentIdentities
            && newC.frozenSourceGeneratedDocumentText in store.texts
            && t.frozenDocument == Some(FrozenDocument(
                 store.generatedDocumentIdentities[newC.frozenSourceGeneratedDocumentIdentity],
                 store.texts[newC.frozenSourceGeneratedDocumentText])))
  {
    var s0 := base.(frozenDocument := None);
    var oldC := hasher.solution(s0);
    var newC := store.solutionChecksums[newSolutionChecksum];
    var s2 := ProjectsStep(store, hasher, s0, oldC, newC).value;
    if oldC.projects.checksum != newC.projects.checksum {
      ProjectsUpdatedKeepsRest(store, hasher, s0, Olds(oldC.projects, newC.projects), News(oldC.projects, newC.projects), s2);
    }
  }

  /**
   * A new solution whose checksum tree is the base solution's own, with no
   * frozen document, leaves the base solution as it is (minus any frozen
   * document it held).
   */
  lemma SameChecksumsKeepSolution(store: AssetStore, hasher: Hasher, base: Solution, newSolutionChecksum: Checksum)
    requires newSolutionChecksum in store.solutionChecksums
    requires store.solutionChecksums[newSolutionChecksum] == hasher.solution(base.(frozenDocument := None))
    requires !HasFrozenDocument(store.solutionChecksums[newSolutionChecksum])
    ensures SolutionCreated(store, hasher, base, newSolutionChecksum) == Some(base.(frozenDocument := None))
  {
  }
}
