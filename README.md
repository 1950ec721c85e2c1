# Incremental solution reconstruction and output kinds

This project models two pieces of Roslyn in Dafny and proves properties of the model.

**`RemoteWorkspace.SolutionCreator`.** This is the out-of-process side of Roslyn's remote workspace. It receives a *solution checksum*, which is the root of a Merkle-style tree of checksums describing:
- the solution attributes;
- its projects;
- each project's info, options, reference lists and three document collections: documents, additional documents and analyzer config documents;
- each document's info and text.

From a base solution it builds the solution that the checksum describes, and it only edits what differs:
- At every layer it diffs two checksum collections as sets.
- It maps the differing checksums back to project or document ids, through the current solution on the old side and through the asset provider on the new side.
- It then adds, removes and updates, and each part of a project or document is re-read only when that part's checksum changed.
- Every `Contract.ThrowIf*` becomes an error result.

The model is value-level:
- A solution is a map from project id to project state.
- A project holds its attributes, options, reference lists and three document maps.
- A document holds its attributes and its text.
- The asset provider is a finite, content-addressed store: one map per asset type, from checksum to value.
- Computing the checksums of the current state is a parameter (`Hasher`).
- The `foreach` loops over dictionaries become `while` loops that pick an unspecified element. Each loop method is proved against a specification function of what the whole loop does, and properties are proved about those functions.

**The `OutputKind` helpers.** `OutputKind` is an integer-backed enumeration. The model covers its validity range, its default file extension, and its application, net-module and Windows Runtime classifiers. Undeclared values are included, because any integer can be cast to the enum.

Modules, one per file:
- `Wrappers`: Option and Result.
- `Checksums`: checksums, the checksum-tree nodes and the collection diff.
- `Workspace`: ids, attributes, project and solution values, and the persistent-tree edits as map updates.
- `Assets`: the asset store and the fetches.
- `DocumentReconciliation`: the document-level operations.
- `ProjectReconciliation`: the project-level operations.
- `SolutionCreator`: the solution-level operations.
- `OutputKinds`: the output-kind helpers.

## Model

| member | source | states |
|---|---|---|
| Checksums.Diff | src/Workspaces/Remote/ServiceHub/Host/RemoteWorkspace.SolutionCreator.cs:106-119 | `olds` holds exactly the checksums that are only in the old collection, and `news` those only in the new one. The two are disjoint, and each side is the common part plus its own difference. UpdateDocumentsAsync repeats the same diff at lines 368-376. |
| Assets.Fetch | src/Workspaces/Remote/ServiceHub/Host/RemoteWorkspace.SolutionCreator.cs:46-47 | Succeeds exactly when the store holds the checksum, and then returns the stored value. Otherwise it fails, naming that checksum. |
| Assets.FetchAll | src/Workspaces/Remote/ServiceHub/Host/RemoteWorkspace.SolutionCreator.cs:504 | Succeeds exactly when every requested checksum resolves. The result is keyed by exactly the requested set. A failure names exactly the missing checksums. |
| Assets.CreateCollection | src/Workspaces/Remote/ServiceHub/Host/RemoteWorkspace.SolutionCreator.cs:81-82 | Succeeds exactly when every member resolves. The result keeps the collection's length and order. |
| Assets.CreateDocumentInfo | src/Workspaces/Remote/ServiceHub/Host/RemoteWorkspace.SolutionCreator.cs:400 | Succeeds exactly when the document's tree, attributes and text all resolve. The document carries those attributes and that text. |
| Assets.CreateProjectInfo | src/Workspaces/Remote/ServiceHub/Host/RemoteWorkspace.SolutionCreator.cs:134-139 | On success the result is null exactly when the project's language is not supported remotely. Otherwise the project carries the stored attributes. |
| Assets.CreateProjectInfoEffect | src/Workspaces/Remote/ServiceHub/Host/RemoteWorkspace.SolutionCreator.cs:134-139 | Succeeds exactly when the tree and its attributes resolve and, for a supported language, the two option sets, the three reference lists and the three document collections all resolve. Each part of the created project is the stored asset or the collection its checksum names. |
| Assets.CreateDocumentStates | src/Workspaces/Remote/ServiceHub/Host/RemoteWorkspace.SolutionCreator.cs:134 | One document collection of a created project. It succeeds exactly when every document can be created and no two share an id. The map holds exactly the created ids, each bound to the document created for it. |
| Workspace.AddDocuments | src/Workspaces/Remote/ServiceHub/Host/RemoteWorkspace.SolutionCreator.cs:405-408 | The batch add succeeds exactly when the batch ids are distinct and new to the collection. Afterwards the collection holds its old documents plus exactly the batch. The other collections and the non-document parts are unchanged. |
| Workspace.RemoveDocuments | src/Workspaces/Remote/ServiceHub/Host/RemoteWorkspace.SolutionCreator.cs:438-441 | The batch remove drops exactly the listed ids from one collection. It leaves every other document, and every other part of the project, as it was. |
| Workspace.AddProject | src/Workspaces/Remote/ServiceHub/Host/RemoteWorkspace.SolutionCreator.cs:142 | Fails exactly when the project id already exists. Otherwise it inserts that one project and changes nothing else. |
| Workspace.RemoveProject | src/Workspaces/Remote/ServiceHub/Host/RemoteWorkspace.SolutionCreator.cs:167 | Removes exactly that project id. It leaves the other projects and the rest of the solution untouched. |
| Workspace.WithProjectReferences | src/Workspaces/Remote/ServiceHub/Host/RemoteWorkspace.SolutionCreator.cs:157 | Replaces only the given project's reference list. |
| Workspace.FindDocument | src/Workspaces/Remote/ServiceHub/Host/RemoteWorkspace.SolutionCreator.cs:420-421 | The three-way lookup. It finds nothing exactly when no collection holds the id. Otherwise it names a collection that does, looking first in documents, then additional documents, then analyzer config documents. |
| DocumentReconciliation.GetDocumentMapFromStates | src/Workspaces/Remote/ServiceHub/Host/RemoteWorkspace.SolutionCreator.cs:523-537 | The map holds exactly the existing documents whose current checksum is in the diff set, each with its current checksum tree. |
| DocumentReconciliation.GetDocumentMapFromAssets | src/Workspaces/Remote/ServiceHub/Host/RemoteWorkspace.SolutionCreator.cs:500-521 | Succeeds exactly when every checksum resolves, together with its attributes, and no two checksums name the same document id. The result maps each id to its tree. Missing trees fail with exactly the missing checksums. |
| Assets.CollectInfoChecksums | src/Workspaces/Remote/ServiceHub/Host/RemoteWorkspace.SolutionCreator.cs:509-510 | The set holds exactly the info checksums of the fetched trees. GetProjectMapAsync runs the same loop over project trees at lines 548-549. |
| DocumentReconciliation.IndexByDocumentId | src/Workspaces/Remote/ServiceHub/Host/RemoteWorkspace.SolutionCreator.cs:514-518 | Indexing by id succeeds exactly when the ids are distinct, as `Dictionary.Add` demands. The result is the new-side map. |
| DocumentReconciliation.NewDocumentMapIsResolved | src/Workspaces/Remote/ServiceHub/Host/RemoteWorkspace.SolutionCreator.cs:514-518 | Each entry of the new-side map is the stored tree of a document with that id, and its checksum is one of the diffed checksums. |
| DocumentReconciliation.UpdateDocumentInfo | src/Workspaces/Remote/ServiceHub/Host/RemoteWorkspace.SolutionCreator.cs:472-498 | Fails if the id, name, file path, IsGenerated or DesignTimeOnly would change. Folders and source kind may change only for an ordinary document. On success the attributes are the new ones and the text is kept. Exactly the differing folders or kind are rewritten. |
| DocumentReconciliation.DocumentUpdated | src/Workspaces/Remote/ServiceHub/Host/RemoteWorkspace.SolutionCreator.cs:446-470 | The attributes are re-read only when the info checksum differs. The text is replaced wholesale only when the text checksum differs. Identity is always kept. It succeeds exactly when both re-reads succeed. |
| DocumentReconciliation.UpdateDocument | src/Workspaces/Remote/ServiceHub/Host/RemoteWorkspace.SolutionCreator.cs:446-470 | The step-by-step update produces exactly the `DocumentUpdated` result, error paths included. |
| DocumentReconciliation.CollectAddedDocuments | src/Workspaces/Remote/ServiceHub/Host/RemoteWorkspace.SolutionCreator.cs:391-403 | The batch exists exactly when some id is added. It holds each added document once, created from the store. It fails exactly when some added document cannot be created. |
| DocumentReconciliation.UpdateChangedDocument | src/Workspaces/Remote/ServiceHub/Host/RemoteWorkspace.SolutionCreator.cs:413-423 | One iteration of the changed-document loop extends the finished part of the specification by one id. It fails exactly when that id's change cannot apply. |
| DocumentReconciliation.UpdateChangedDocuments | src/Workspaces/Remote/ServiceHub/Host/RemoteWorkspace.SolutionCreator.cs:410-424 | Succeeds exactly when every changed document has differing checksums, is found by the three-way lookup and updates cleanly. The result has every changed document updated where it was found, and nothing else changed. |
| DocumentReconciliation.CollectRemovedDocuments | src/Workspaces/Remote/ServiceHub/Host/RemoteWorkspace.SolutionCreator.cs:426-436 | The batch exists exactly when some id is removed. It lists each removed id exactly once. |
| DocumentReconciliation.AddBatchIsUnion | src/Workspaces/Remote/ServiceHub/Host/RemoteWorkspace.SolutionCreator.cs:405-408 | Adding the batch equals taking the union of the collection with the added map. It succeeds exactly when the two are disjoint. |
| DocumentReconciliation.AddNewDocuments | src/Workspaces/Remote/ServiceHub/Host/RemoteWorkspace.SolutionCreator.cs:391-408 | Collecting and then adding the batch leaves the collection as the old one plus the created added documents. It fails exactly when creation fails or an added id is already present. |
| DocumentReconciliation.ApplyDocumentDiff | src/Workspaces/Remote/ServiceHub/Host/RemoteWorkspace.SolutionCreator.cs:391-441 | The add, update and remove phases produce the specified project. One batched add call is made exactly when something is added, and one batched remove call exactly when something is removed. |
| DocumentReconciliation.UpdateDocuments | src/Workspaces/Remote/ServiceHub/Host/RemoteWorkspace.SolutionCreator.cs:358-444 | Produces the specified project. A bulk sync of the project checksum happens exactly when the new-side map has more than two entries. The add and remove batches are made exactly when there is something to add or remove. |
| DocumentReconciliation.ChangedChecksumsDiffer | src/Workspaces/Remote/ServiceHub/Host/RemoteWorkspace.SolutionCreator.cs:418 | With a content-addressed store, a document in both maps always has differing old and new checksums. So the assertion never fires on a diff the method computed itself. |
| DocumentReconciliation.DocumentsUpdatedEffect | src/Workspaces/Remote/ServiceHub/Host/RemoteWorkspace.SolutionCreator.cs:358-444 | On a project whose document ids are unique across kinds: added documents are created from the store; changed ones are updated as `UpdateDocumentAsync` does; removed ones are gone. Every other document, the other two collections and the non-document parts are untouched. |
| DocumentReconciliation.DiffAppliedEffect | src/Workspaces/Remote/ServiceHub/Host/RemoteWorkspace.SolutionCreator.cs:391-441 | The same net effect, stated for a given pair of maps. |
| DocumentReconciliation.UnchangedCollectionKeepsProject | src/Workspaces/Remote/ServiceHub/Host/RemoteWorkspace.SolutionCreator.cs:368-379 | When both collections have the same members, the update leaves the project exactly as it was. |
| DocumentReconciliation.EmptyDiffKeepsProject | src/Workspaces/Remote/ServiceHub/Host/RemoteWorkspace.SolutionCreator.cs:391-441 | Empty maps leave the project unchanged. |
| DocumentReconciliation.DocumentsUpdatedKeepsRest | src/Workspaces/Remote/ServiceHub/Host/RemoteWorkspace.SolutionCreator.cs:358-444 | Any successful document update changes only the document collections of the project. |
| ProjectReconciliation.GetProjectMapFromSolution | src/Workspaces/Remote/ServiceHub/Host/RemoteWorkspace.SolutionCreator.cs:562-576 | The map holds exactly the solution's projects whose current checksum is in the diff set, each with its current tree. |
| ProjectReconciliation.NewProjectMapIsResolved | src/Workspaces/Remote/ServiceHub/Host/RemoteWorkspace.SolutionCreator.cs:553-557 | Each entry of the new-side project map is the stored tree of a project with that id, and its checksum is one of the diffed checksums. |
| ProjectReconciliation.GetProjectMapFromAssets | src/Workspaces/Remote/ServiceHub/Host/RemoteWorkspace.SolutionCreator.cs:539-560 | Succeeds exactly when every checksum and its attributes resolve and the project ids are distinct. The result is the new-side map keyed by id. |
| ProjectReconciliation.IndexByProjectId | src/Workspaces/Remote/ServiceHub/Host/RemoteWorkspace.SolutionCreator.cs:553-557 | Indexing by id succeeds exactly when the ids are distinct. The result is the new-side map. |
| ProjectReconciliation.SynchronizeAssets | src/Workspaces/Remote/ServiceHub/Host/RemoteWorkspace.SolutionCreator.cs:187-203 | Requests exactly the checksums of projects in the new map whose id is not in the old map. |
| ProjectReconciliation.RewriteAttribute | src/Workspaces/Remote/ServiceHub/Host/RemoteWorkspace.SolutionCreator.cs:305-308 | One guarded `With*` call takes the attribute from the target. The attribute is recorded as rewritten only when it differed. |
| ProjectReconciliation.RewriteAttributes | src/Workspaces/Remote/ServiceHub/Host/RemoteWorkspace.SolutionCreator.cs:305-353 | Afterwards every mutable attribute equals the target's. The rewritten set is exactly the set of attributes that differed. |
| ProjectReconciliation.UpdateProjectInfo | src/Workspaces/Remote/ServiceHub/Host/RemoteWorkspace.SolutionCreator.cs:294-356 | Fails if the id, language or IsSubmission would change. On success the attributes are the stored ones and nothing else in the project changes. Exactly the differing attributes are rewritten. |
| ProjectReconciliation.OptionReread | src/Workspaces/Remote/ServiceHub/Host/RemoteWorkspace.SolutionCreator.cs:213-226 | An option set is re-read from the store exactly when its checksum differs. Otherwise it is kept. |
| ProjectReconciliation.ReferencesReread | src/Workspaces/Remote/ServiceHub/Host/RemoteWorkspace.SolutionCreator.cs:228-247 | A reference list is re-created wholesale, in collection order, exactly when its collection checksum differs. Otherwise it is kept. |
| ProjectReconciliation.OptionsAndReferencesUpdated | src/Workspaces/Remote/ServiceHub/Host/RemoteWorkspace.SolutionCreator.cs:213-247 | The compilation options, parse options and three reference lists are each re-read exactly when their checksum differs. The attributes and documents are untouched. It succeeds exactly when every needed asset resolves. |
| ProjectReconciliation.UpdateCollection | src/Workspaces/Remote/ServiceHub/Host/RemoteWorkspace.SolutionCreator.cs:249-261 | A document collection is reconciled only when its collection checksum differs. |
| ProjectReconciliation.UpdateProject | src/Workspaces/Remote/ServiceHub/Host/RemoteWorkspace.SolutionCreator.cs:205-292 | The step-by-step project update produces the specified project. |
| ProjectReconciliation.ProjectUpdatedEffect | src/Workspaces/Remote/ServiceHub/Host/RemoteWorkspace.SolutionCreator.cs:205-292 | The identity is kept. The info, the two option sets and the three reference lists each change only when their checksum differs, and then take the stored value. The three document collections are all kept when all three collection checksums are unchanged. |
| ProjectReconciliation.ProjectUpdatedKeepsUnchangedCollections | src/Workspaces/Remote/ServiceHub/Host/RemoteWorkspace.SolutionCreator.cs:249-261 | Per collection: when no document id can come to sit in two collections, a collection whose checksum is unchanged comes out as it went in, and every collection holds only its old ids and the ids on the new side of its diff. |
| ProjectReconciliation.StripIsOverwritten | src/Workspaces/Remote/ServiceHub/Host/RemoteWorkspace.SolutionCreator.cs:146-159 | Clearing the references of a project whose reference checksum changed does not change what `UpdateProjectAsync` makes of it, because the list is re-created later. |
| ProjectReconciliation.CreatedProjectId | src/Workspaces/Remote/ServiceHub/Host/RemoteWorkspace.SolutionCreator.cs:134-142 | A project created for an added id carries that id. |
| ProjectReconciliation.AddProjectPass | src/Workspaces/Remote/ServiceHub/Host/RemoteWorkspace.SolutionCreator.cs:130-143 | One iteration of the added-project loop either skips an unsupported project or adds the created one. It fails exactly when creation fails or the id exists. |
| ProjectReconciliation.AddProjects | src/Workspaces/Remote/ServiceHub/Host/RemoteWorkspace.SolutionCreator.cs:129-144 | Adds every added project whose language is supported. It fails exactly when some creation fails or an id collides. |
| ProjectReconciliation.StripProjectReferences | src/Workspaces/Remote/ServiceHub/Host/RemoteWorkspace.SolutionCreator.cs:146-159 | Clears the references of exactly the projects in both maps whose reference checksum changed. |
| ProjectReconciliation.RemoveProjects | src/Workspaces/Remote/ServiceHub/Host/RemoteWorkspace.SolutionCreator.cs:161-169 | Removes exactly the ids in the old map that are absent from the new one. |
| ProjectReconciliation.UpdateChangedProjectPass | src/Workspaces/Remote/ServiceHub/Host/RemoteWorkspace.SolutionCreator.cs:172-182 | One iteration of the changed-project loop. It fails if the project checksums are equal or the update fails. |
| ProjectReconciliation.UpdateChangedProjects | src/Workspaces/Remote/ServiceHub/Host/RemoteWorkspace.SolutionCreator.cs:171-182 | Every project in both maps is updated by `UpdateProjectAsync`. It succeeds exactly when each one's checksums differ and its update succeeds. |
| ProjectReconciliation.UpdateProjectsFromSets | src/Workspaces/Remote/ServiceHub/Host/RemoteWorkspace.SolutionCreator.cs:121-185 | The maps, then the add, strip, remove and change loops, produce the specified solution. The prefetch requested is exactly the trees of the projects only the new map holds, and nothing when the new side does not resolve. |
| ProjectReconciliation.UpdateProjects | src/Workspaces/Remote/ServiceHub/Host/RemoteWorkspace.SolutionCreator.cs:106-119 | The collection overload equals the set overload applied to the two set differences, result and prefetch alike. |
| ProjectReconciliation.ChangedProjectChecksumsDiffer | src/Workspaces/Remote/ServiceHub/Host/RemoteWorkspace.SolutionCreator.cs:179 | With disjoint diff sets and a content-addressed store, a project in both maps always has differing checksums. So the assertion never fires. |
| ProjectReconciliation.EmptyProjectSetsKeepSolution | src/Workspaces/Remote/ServiceHub/Host/RemoteWorkspace.SolutionCreator.cs:121-185 | Empty difference sets leave the solution unchanged. |
| ProjectReconciliation.ProjectDiffAppliedEffect | src/Workspaces/Remote/ServiceHub/Host/RemoteWorkspace.SolutionCreator.cs:129-182 | Removed projects are gone. Supported added projects are created under their own ids, and unsupported ones are skipped. Changed projects are exactly what `UpdateProjectAsync` makes of the originals, so the stripping leaves no trace. Every other project and the rest of the solution are untouched. |
| SolutionCreator.IsIncrementalUpdate | src/Workspaces/Remote/ServiceHub/Host/RemoteWorkspace.SolutionCreator.cs:44-51 | Succeeds exactly when both fetches resolve. The answer is true exactly when the new attributes keep the base solution's id and file path. |
| SolutionCreator.CheckSolutionIdentity | src/Workspaces/Remote/ServiceHub/Host/RemoteWorkspace.SolutionCreator.cs:66-72 | Passes exactly when the attribute checksum is unchanged, or when the new attributes resolve and keep the id and file path. The solution is not changed. |
| SolutionCreator.AnalyzerReferencesStep | src/Workspaces/Remote/ServiceHub/Host/RemoteWorkspace.SolutionCreator.cs:79-83 | The solution's analyzer references are replaced wholesale exactly when their collection checksum differs. Nothing else changes. |
| SolutionCreator.FrozenDocumentStep | src/Workspaces/Remote/ServiceHub/Host/RemoteWorkspace.SolutionCreator.cs:85-91 | A frozen document is attached exactly when both its identity and text checksums are non-null. It is then the stored identity with the stored text. |
| SolutionCreator.CreateSolution | src/Workspaces/Remote/ServiceHub/Host/RemoteWorkspace.SolutionCreator.cs:53-104 | The step-by-step reconstruction produces the specified solution. |
| SolutionCreator.IncrementalUpdatePassesIdentityCheck | src/Workspaces/Remote/ServiceHub/Host/RemoteWorkspace.SolutionCreator.cs:44-72 | An update judged incremental never trips the identity assertion of `CreateSolutionAsync`. |
| SolutionCreator.NonIncrementalUpdateFails | src/Workspaces/Remote/ServiceHub/Host/RemoteWorkspace.SolutionCreator.cs:66-72 | An update judged not incremental, with a changed attribute checksum, makes `CreateSolutionAsync` fail. |
| SolutionCreator.ProjectsUpdatedKeepsRest | src/Workspaces/Remote/ServiceHub/Host/RemoteWorkspace.SolutionCreator.cs:74-77 | The projects step touches only the projects. |
| SolutionCreator.SolutionCreatedEffect | src/Workspaces/Remote/ServiceHub/Host/RemoteWorkspace.SolutionCreator.cs:57-91 | The result keeps the base attributes. Its projects are unchanged when the projects checksum is. Its analyzer references are re-read only when their checksum changed. Its frozen document is exactly the one the new checksums name, and none otherwise. |
| SolutionCreator.SameChecksumsKeepSolution | src/Workspaces/Remote/ServiceHub/Host/RemoteWorkspace.SolutionCreator.cs:61-91 | A target whose checksum tree is the base's own, with no frozen document, yields the base solution without its frozen document. |
| OutputKinds.IsValid | src/Compilers/Core/Portable/OutputKind.cs:54-57 | True exactly for the six declared members, from ConsoleApplication to WindowsRuntimeApplication. |
| OutputKinds.IsApplication | src/Compilers/Core/Portable/OutputKind.cs:82-99 | True exactly for ConsoleApplication, WindowsApplication and WindowsRuntimeApplication, and never for an invalid value. |
| OutputKinds.IsNetModule | src/Compilers/Core/Portable/OutputKind.cs:101-104 | A net module is a valid kind and not an application. |
| OutputKinds.IsWindowsRuntime | src/Compilers/Core/Portable/OutputKind.cs:106-109 | Windows Runtime metadata is a valid kind that is neither an application nor a net module. So WindowsRuntimeApplication is not Windows Runtime. |
| OutputKinds.GetDefaultExtension | src/Compilers/Core/Portable/OutputKind.cs:59-80 | ".exe" exactly for applications, ".netmodule" exactly for net modules, ".winmdobj" exactly for Windows Runtime metadata, and ".dll" for everything else, including every undeclared value. |

## Left out

- Async/await, cancellation tokens, `ConfigureAwait`, pooled objects and the fatal-error filter are plumbing. A thrown contract failure is an error result.
- The asset provider is a finite map. Its network fetching and caching are not modelled, and `SerializableSourceText.GetTextAsync` is treated as an opaque text value.
- Checksums are opaque. Computing the checksums of the current solution, projects and documents (`GetStateChecksumsAsync`) is the `Hasher` parameter.
- The store is assumed content-addressed: a stored tree node records the checksum it is stored under. This stands in for the collision-free hashing the source relies on.
- The bulk prefetches (`SynchronizeProjectAssetsAsync`) only warm a cache. They are modelled as the set of checksums requested, or as the trace entry of the project checksum, with no effect on the result.
- `ValidateChecksumAsync` is not part of this model. It is a debug-only check that builds a separate workspace.
- `FixUpCompilationOptions` is not part of this model. Fetched compilation options are applied as they are.
- `RemoteSupportedLanguages` is modelled as the constant set {C#, Visual Basic}. Its definition is not part of this model.
- `CreateProjectInfoAsync` and `CreateDocumentInfoAsync` are not part of this model. They are modelled as fetches of every part a tree names, and a duplicate document id within one collection fails.
- Document ids carry no project component. `addDocuments` places each document by the project of its `DocumentId`, and the source then re-reads `GetProject(project.Id)`. The model adds the batch to the project being updated.
- ProjectReconciliation.UpdateProjectsFromSets: the prefetch is returned as a set. That it is issued before the add loop, and any effect it has on the asset cache, are not modelled.
- The `Solution` API (`AddProject`, `AddDocuments`, `With*` and so on) is not part of this model. It is stated as map updates on the solution value. Its internal validation, such as project-reference cycle checks, is not modelled.
- `WithFrozenSourceGeneratedDocument` is modelled as setting the solution's frozen document. The generator run and the project lookup behind it are not modelled.
- DocumentReconciliation.UpdateDocumentInfo: folders are compared by value. The source compares the two folder lists with `!=`, which compares references.
- DocumentReconciliation.CollectAddedDocuments: states success and the resulting value but not which error is raised, because the source iterates dictionaries in an unspecified order and that order decides which failure is hit first.
- DocumentReconciliation.UpdateChangedDocuments: states success and the resulting value but not which error is raised, because the source iterates dictionaries in an unspecified order and that order decides which failure is hit first.
- DocumentReconciliation.ApplyDocumentDiff: states success and the resulting value but not which error is raised, because the source iterates dictionaries in an unspecified order and that order decides which failure is hit first.
- DocumentReconciliation.UpdateDocuments: states success and the resulting value but not which error is raised, because the source iterates dictionaries in an unspecified order and that order decides which failure is hit first.
- ProjectReconciliation.AddProjects: states success and the resulting value but not which error is raised, because the source iterates dictionaries in an unspecified order and that order decides which failure is hit first.
- ProjectReconciliation.UpdateChangedProjects: states success and the resulting value but not which error is raised, because the source iterates dictionaries in an unspecified order and that order decides which failure is hit first.
- ProjectReconciliation.UpdateCollection: states success and the resulting value but not which error is raised, because the source iterates dictionaries in an unspecified order and that order decides which failure is hit first.
- ProjectReconciliation.UpdateProject: states success and the resulting value but not which error is raised, because the source iterates dictionaries in an unspecified order and that order decides which failure is hit first.
- ProjectReconciliation.UpdateProjectsFromSets: states success and the resulting value but not which error is raised, because the source iterates dictionaries in an unspecified order and that order decides which failure is hit first.
- ProjectReconciliation.UpdateProjects: states success and the resulting value but not which error is raised, because the source iterates dictionaries in an unspecified order and that order decides which failure is hit first.
- SolutionCreator.CreateSolution: states success and the resulting value but not which error is raised, because the source iterates dictionaries in an unspecified order and that order decides which failure is hit first.
- ProjectReconciliation.ProjectUpdatedEffect: states the document collections unchanged only when all three collection checksums are unchanged. Each collection on its own is not promised, because the three-way lookup of the changed-document loop looks a changed id up in all three collections, so when another collection holds the same id, that collection is the one updated. `ProjectReconciliation.ProjectUpdatedKeepsUnchangedCollections` gives the per-collection statement when no id can sit in two collections.
- DocumentReconciliation.DocumentsUpdatedEffect: assumes document ids are unique across the three collections of a project. Without that, the three-way lookup may find a changed document in another collection. `DocumentReconciliation.DocumentsUpdatedKeepsRest` holds without the assumption.
- The solution attributes are checked for identity but never applied when their checksum changes, as in the source.
