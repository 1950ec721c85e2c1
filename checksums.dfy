/**
 * Checksums and the checksum tree that describes a solution snapshot.
 * A checksum is an opaque, comparable content hash: equal checksums stand for
 * equal content (collisions are not defended against).
 */
module Checksums {

  datatype Checksum = Checksum(hash: nat)

  /** The checksum the sender uses for "no value" (Checksum.Null). */
  const Null: Checksum := Checksum(0)

  /** An ordered collection of member checksums, checksummed as a whole. */
  datatype ChecksumCollection = ChecksumCollection(checksum: Checksum, children: seq<Checksum>)

  datatype SolutionStateChecksums = SolutionStateChecksums(
    checksum: Checksum,
    attributes: Checksum,
    projects: ChecksumCollection,
    analyzerReferences: ChecksumCollection,
    frozenSourceGeneratedDocumentIdentity: Checksum,
    frozenSourceGeneratedDocumentText: Checksum)

  datatype ProjectStateChecksums = ProjectStateChecksums(
    checksum: Checksum,
    info: Checksum,
    compilationOptions: Checksum,
    parseOptions: Checksum,
    documents: ChecksumCollection,
    projectReferences: ChecksumCollection,
    metadataReferences: ChecksumCollection,
    analyzerReferences: ChecksumCollection,
    additionalDocuments: ChecksumCollection,
    analyzerConfigDocuments: ChecksumCollection)

  datatype DocumentStateChecksums = DocumentStateChecksums(
    checksum: Checksum,
    info: Checksum,
    text: Checksum)

  /** The checksums of a collection, as a set (HashSet.UnionWith of the collection). */
  function Members(s: seq<Checksum>): set<Checksum> {
    set c | c in s
  }

  /** The members found only on the old side of a collection diff. */
  function Olds(oldC: ChecksumCollection, newC: ChecksumCollection): set<Checksum> {
    Members(oldC.children) - Members(newC.children)
  }

  /** The members found only on the new side of a collection diff. */
  function News(oldC: ChecksumCollection, newC: ChecksumCollection): set<Checksum> {
    Members(newC.children) - Members(oldC.children)
  }

  /**
   * The collection diff done at the head of both UpdateProjectsAsync and
   * UpdateDocumentsAsync: two scratch sets are filled with UnionWith and then
   * reduced with ExceptWith, leaving the checksums found only on the old side
   * and only on the new side.
   */
  method Diff(oldChecksums: seq<Checksum>, newChecksums: seq<Checksum>) returns (olds: set<Checksum>, news: set<Checksum>)
    ensures forall c :: c in olds <==> c in oldChecksums && c !in newChecksums
    ensures forall c :: c in news <==> c in newChecksums && c !in oldChecksums
    ensures olds !! news
    ensures Members(oldChecksums) == (Members(oldChecksums) * Members(newChecksums)) + olds
    ensures Members(newChecksums) == (Members(oldChecksums) * Members(newChecksums)) + news
  {
    olds, news := {}, {};
    for i := 0 to |oldChecksums|
      invariant olds == Members(oldChecksums[..i])
    {
      assert oldChecksums[..i + 1] == oldChecksums[..i] + [oldChecksums[i]];
      olds := olds + {oldChecksums[i]};
    }
    for i := 0 to |newChecksums|
      invariant news == Members(newChecksums[..i])
    {
      assert newChecksums[..i + 1] == newChecksums[..i] + [newChecksums[i]];
      news := news + {newChecksums[i]};
    }
    assert oldChecksums[..|oldChecksums|] == oldChecksums;
    assert newChecksums[..|newChecksums|] == newChecksums;
    for i := 0 to |newChecksums|
      invariant olds == Members(oldChecksums) - Members(newChecksums[..i])
    {
      assert newChecksums[..i + 1] == newChecksums[..i] + [newChecksums[i]];
      olds := olds - {newChecksums[i]};
    }
    for i := 0 to |oldChecksums|
      invariant news == Members(newChecksums) - Members(oldChecksums[..i])
    {
      assert oldChecksums[..i + 1] == oldChecksums[..i] + [oldChecksums[i]];
      news := news - {oldChecksums[i]};
    }
  }
}
