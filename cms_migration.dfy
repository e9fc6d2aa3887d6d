/**
 * cms/src/index.ts: the `bootstrap` migration that copies the legacy
 * `project_title` and `project_description` fields of every project into
 * `title` and `description`.
 *
 * The document store is an in-memory array updated in place. Which update
 * call throws, if any, is a parameter; the log is the method's result.
 */
module CmsMigration {
  import opened Common

  /** A project document, with the fields the migration reads or writes and one it never touches. */
  datatype ProjectDoc = ProjectDoc(
    documentId: string,
    title: Option<string>,
    description: Option<string>,
    projectTitle: Option<string>,
    projectDescription: Option<string>,
    slug: Option<string>)

  /** `!project.title && project.project_title`. */
  predicate NeedsMigration(p: ProjectDoc) {
    !Truthy(p.title) && Truthy(p.projectTitle)
  }

  /** The document after the loop has visited it. */
  function Migrated(p: ProjectDoc): (q: ProjectDoc)
    ensures NeedsMigration(p) ==> q.title == p.projectTitle && q.description == Some(OrString(p.projectDescription, ""))
    ensures !NeedsMigration(p) ==> q == p
    ensures q.documentId == p.documentId && q.slug == p.slug
    ensures q.projectTitle == p.projectTitle && q.projectDescription == p.projectDescription
  {
    if NeedsMigration(p) then p.(title := p.projectTitle, description := Some(OrString(p.projectDescription, "")))
    else p
  }

  /** A migrated document has a non-empty title, so it is never migrated again. */
  lemma MigratedNeedsNothing(p: ProjectDoc)
    ensures !NeedsMigration(Migrated(p))
  {
  }

  function MigrateAll(ps: seq<ProjectDoc>): (qs: seq<ProjectDoc>)
    ensures |qs| == |ps|
    ensures forall i :: 0 <= i < |ps| ==> qs[i] == Migrated(ps[i])
  {
    seq(|ps|, i requires 0 <= i < |ps| => Migrated(ps[i]))
  }

  /** Running the migration twice is the same as running it once. */
  lemma MigrateAllIdempotent(ps: seq<ProjectDoc>)
    ensures MigrateAll(MigrateAll(ps)) == MigrateAll(ps)
  {
    forall i | 0 <= i < |ps|
      ensures MigrateAll(MigrateAll(ps))[i] == MigrateAll(ps)[i]
    {
      MigratedNeedsNothing(ps[i]);
    }
  }

  /** After a migration, no document needs migrating. */
  lemma {:induction false} NothingLeftToMigrate(ps: seq<ProjectDoc>)
    ensures Count(MigrateAll(ps), NeedsMigration) == 0
  {
    if |ps| > 0 {
      MigratedNeedsNothing(ps[0]);
      assert MigrateAll(ps)[1..] == MigrateAll(ps[1..]);
      NothingLeftToMigrate(ps[1..]);
    }
  }

  datatype Log =
    | MigratedSome(count: nat)
    | NothingNeeded
    | Failed

  /** The log line a finished loop writes. */
  function Summary(migratedCount: nat): (l: Log)
    ensures migratedCount > 0 <==> l.MigratedSome?
    ensures l.MigratedSome? ==> l.count == migratedCount
  {
    if migratedCount > 0 then MigratedSome(migratedCount) else NothingNeeded
  }

  /** Whether the update for document `i` throws, given the index of the failing document. */
  predicate UpdateThrows(docs: seq<ProjectDoc>, failing: Option<nat>, i: nat) {
    failing == Some(i) && i < |docs| && NeedsMigration(docs[i])
  }

  /**
   * `bootstrap`: each document that needs it is updated and counted. An
   * update that throws (the one for document `failing`, if that document
   * needs an update) ends the loop: the documents before it stay migrated,
   * the rest are untouched and the count is not logged.
   */
  method Bootstrap(docs: array<ProjectDoc>, failing: Option<nat>) returns (log: Log)
    modifies docs
    ensures !UpdateThrows(old(docs[..]), failing, OrNat(failing)) ==>
      docs[..] == MigrateAll(old(docs[..])) && log == Summary(Count(old(docs[..]), NeedsMigration))
    ensures UpdateThrows(old(docs[..]), failing, OrNat(failing)) ==>
      var k := failing.value;
      docs[..k] == MigrateAll(old(docs[..k])) && docs[k..] == old(docs[k..]) && log == Failed
  {
    var migratedCount := 0;
    var i := 0;
    while i < docs.Length
      invariant 0 <= i <= docs.Length
      invariant docs[..i] == MigrateAll(old(docs[..i]))
      invariant docs[i..] == old(docs[i..])
      invariant migratedCount == Count(old(docs[..i]), NeedsMigration)
      invariant forall j :: 0 <= j < i ==> !UpdateThrows(old(docs[..]), failing, j)
    {
      assert old(docs[..i + 1]) == old(docs[..i]) + [old(docs[i])];
      CountSnoc(old(docs[..i]), old(docs[i]), NeedsMigration);
      var project := docs[i];
      assert project == old(docs[i]);
      if NeedsMigration(project) {
        if failing == Some(i) {
          assert UpdateThrows(old(docs[..]), failing, i);
          return Failed;
        }
        docs[i] := Migrated(project);
        migratedCount := migratedCount + 1;
      }
      assert docs[..i + 1] == docs[..i] + [Migrated(old(docs[i]))];
      i := i + 1;
    }
    assert old(docs[..i]) == old(docs[..]);
    assert docs[..i] == docs[..];
    log := Summary(migratedCount);
  }

  function OrNat(n: Option<nat>): (m: nat) {
    if n.Some? then n.value else 0
  }

  /** A second run of a completed migration logs that nothing was needed and changes nothing. */
  lemma SecondRunDoesNothing(ps: seq<ProjectDoc>)
    ensures Summary(Count(MigrateAll(ps), NeedsMigration)) == NothingNeeded
    ensures MigrateAll(MigrateAll(ps)) == MigrateAll(ps)
  {
    NothingLeftToMigrate(ps);
    MigrateAllIdempotent(ps);
  }
}
