/**
 * `reference_management/reference_importer_improved.py`: the import script
 * that uses the improved extraction rules. Its `extract_reference_from_text`
 * and `extract_references_from_content` are the same code as the improved
 * extractor's, so this module uses ImprovedReferenceExtractor's definitions;
 * the import loop is ReferenceImport's, with the in-content repeat check on.
 */
module ReferenceImporterImproved {
  import opened Wrappers
  import opened StrUtil
  import opened Items
  import opened ImprovedReferenceExtractor
  import opened ReferenceImport

  /** The lowered title that the loop compares, given what the unscanned patterns capture in each text. */
  function TitleOf(captures: string -> Captures): string -> string
  {
    t => ExtractReference(t, captures(t)).title
  }

  function Extract(): string -> seq<string>
  {
    t => ExtractReferences(t)
  }

  function Improved(captures: string -> Captures): Importer
  {
    Importer(Extract(), TitleOf(captures), true)
  }

  /** `[ref.get('title', '').lower() for ref in existing_references]` on the dicts `get_references` returns. */
  function ExistingTitles(refs: seq<Item>): (r: seq<string>)
    ensures |r| == |refs|
    ensures forall k :: 0 <= k < |refs| ==> r[k] == Lower(FieldOr(refs[k], "title", ""))
  {
    if refs == [] then [] else ExistingTitles(refs[..|refs| - 1]) + [Lower(FieldOr(refs[|refs| - 1], "title", ""))]
  }

  /** `import_references_from_database`: the number of references both created and linked. */
  method ImportReferencesFromDatabase(outputs: seq<Item>, existing: seq<Item>, linkedBefore: set<string>,
                                      captures: string -> Captures, db: Db) returns (count: nat)
    ensures count == Import(outputs, ExistingTitles(existing), linkedBefore, Improved(captures), db).imported
    ensures count == |Import(outputs, ExistingTitles(existing), linkedBefore, Improved(captures), db).links|
  {
    var r := ImportReferences(outputs, ExistingTitles(existing), linkedBefore, Improved(captures), db);
    ImportInvariants(outputs, ExistingTitles(existing), linkedBefore, Improved(captures), db);
    count := r.imported;
  }

  /** An item that repeats an earlier item of the same content (after strip) is skipped. */
  lemma RepeatSkipped(st: State, o: nat, c: string, items: seq<string>, i: nat, j: nat,
                      captures: string -> Captures, db: Db)
    requires j < i < |items| && Strip(items[j]) == Strip(items[i])
    ensures ItemStep(st, o, c, items, i, Improved(captures), db) == st
  {
  }

  /** Without the repeat check the same two items would make two passes: the check is what skips the second. */
  lemma RepeatCheckMatters(items: seq<string>)
    requires |items| == 2 && items[0] == items[1]
    ensures RepeatsEarlier(items, 1) && !RepeatsEarlier(items, 0)
  {
  }
}
