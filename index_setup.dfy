/** What the two ingestion scripts (`ai_search_ingestion/create_index_and_documents.py`
    and `src/enterprise_mcp_auth/ingestion/create_index_and_documents.py`) share:
    the index definition, the calls made to the index service, and the summary
    of an upload. The index service and the upload are oracles. */
module IndexSetup {
  import opened PyRuntime
  import Relay

  datatype FieldType = EdmString | Collection(element: FieldType)

  /** The permission-filter role of a field (`PermissionFilter.USER_IDS` / `GROUP_IDS`). */
  datatype PermissionFilter = UserIds | GroupIds

  datatype Field = Field(
    name: string, fieldType: FieldType, key: bool, searchable: bool,
    filterable: bool, sortable: bool, facetable: bool, permissionFilter: Option<PermissionFilter>)

  datatype Suggester = Suggester(name: string, sourceFields: seq<string>)

  datatype SearchIndex = SearchIndex(
    name: string, fields: seq<Field>, suggesters: seq<Suggester>, permissionFilterEnabled: bool)

  /** `SimpleField` and `SearchableField` with the library's defaults for the
      flags the scripts leave out. */
  function SimpleField(name: string, t: FieldType, key: bool, filterable: bool, pf: Option<PermissionFilter>): Field {
    Field(name, t, key, false, filterable, false, false, pf)
  }

  function SearchableField(name: string, filterable: bool, sortable: bool, facetable: bool): Field {
    Field(name, EdmString, false, true, filterable, sortable, facetable, None)
  }

  /** The six fields; `withPermissionFilters` says whether `oid` and `group`
      carry their permission-filter roles (the root script) or not (the
      `src/` script). */
  function Fields(withPermissionFilters: bool): (fs: seq<Field>)
    ensures |fs| == 6
  {
    [ SimpleField("id", EdmString, true, true, None),
      SimpleField("oid", Collection(EdmString), false, true, if withPermissionFilters then Some(UserIds) else None),
      SimpleField("group", Collection(EdmString), false, true, if withPermissionFilters then Some(GroupIds) else None),
      SearchableField("name", true, true, false),
      SearchableField("content", false, false, false),
      SearchableField("category", true, false, true) ]
  }

  const Suggesters: seq<Suggester> := [Suggester("sg", ["name", "content", "category"])]

  function FieldNames(fs: seq<Field>): (names: seq<string>)
    ensures |names| == |fs| && forall i :: 0 <= i < |fs| ==> names[i] == fs[i].name
  {
    if fs == [] then [] else [fs[0].name] + FieldNames(fs[1..])
  }

  /** The index both scripts define: exactly one key field, "id"; the ACL
      fields are string collections, filterable, with the user and group
      roles exactly when permission filters are requested; and the one
      suggester is the one the servers query, over searchable fields only. */
  lemma {:induction false} IndexShape(withPermissionFilters: bool)
    ensures var fs := Fields(withPermissionFilters);
            && FieldNames(fs) == ["id", "oid", "group", "name", "content", "category"]
            && (forall i :: 0 <= i < |fs| ==> (fs[i].key <==> fs[i].name == "id"))
            && fs[1].fieldType == Collection(EdmString) && fs[1].filterable
            && fs[2].fieldType == Collection(EdmString) && fs[2].filterable
            && (fs[1].permissionFilter == Some(UserIds) <==> withPermissionFilters)
            && (fs[2].permissionFilter == Some(GroupIds) <==> withPermissionFilters)
            && (forall i :: 0 <= i < |fs| && i != 1 && i != 2 ==> fs[i].permissionFilter.None?)
    ensures |Suggesters| == 1 && Suggesters[0].name == Relay.Suggester
    ensures var fs := Fields(withPermissionFilters);
            forall s :: s in Suggesters[0].sourceFields ==>
              exists i :: 0 <= i < |fs| && fs[i].name == s && fs[i].searchable
  {
    var fs := Fields(withPermissionFilters);
    assert fs[3].name == "name" && fs[4].name == "content" && fs[5].name == "category";
    assert FieldNames(fs) == ["id", "oid", "group", "name", "content", "category"];
  }

  /** A call made to the index service. */
  datatype IndexOp = DeleteIndex(name: string) | GetIndex(name: string) | CreateIndex(index: SearchIndex)

  /** The index service: what deleting raises (swallowed by both scripts),
      whether `get_index` finds the index, what creating raises. */
  datatype IndexService = IndexService(
    deleteIndex: string -> Option<Exn>,
    getIndex: string -> bool,
    createIndex: SearchIndex -> Option<Exn>)

  /** The exception index creation ends with, if any, and the calls made. */
  datatype IndexRun = IndexRun(error: Option<Exn>, ops: seq<IndexOp>)

  // ---------------------------------------------------------------------
  // Upload summary

  /** One entry of the upload result (`IndexingResult`). */
  datatype IndexingResult = IndexingResult(key: string, succeeded: bool, errorMessage: Option<string>)

  /** `sum(1 for r in result if r.succeeded)`. */
  function SuccessCount(results: seq<IndexingResult>): (n: nat)
    ensures n <= |results|
  {
    if results == [] then 0 else (if results[0].succeeded then 1 else 0) + SuccessCount(results[1..])
  }

  /** The entries listed as failures, in result order. */
  function Failures(results: seq<IndexingResult>): (fs: seq<IndexingResult>)
    ensures forall f :: f in fs <==> f in results && !f.succeeded
    ensures IsSubsequence(fs, results)
  {
    if results == [] then []
    else
      var rest := Failures(results[1..]);
      assert forall x :: x in results <==> x == results[0] || x in results[1..];
      if results[0].succeeded then rest else [results[0]] + rest
  }

  /** What `upload_documents` prints: the two counts and, only when something
      failed, the failures. */
  datatype UploadReport = UploadReport(successCount: nat, failedCount: int, listed: seq<IndexingResult>)

  function Summarise(results: seq<IndexingResult>): (r: UploadReport)
    ensures r.successCount + r.failedCount == |results|
    ensures r.failedCount >= 0
  {
    var success := SuccessCount(results);
    var failed := |results| - success;
    UploadReport(success, failed, if failed > 0 then Failures(results) else [])
  }

  /** The failed count is the number of failed entries, and the listing is
      exactly the failed entries, in order (empty when nothing failed). */
  lemma {:induction false} SummaryListsFailures(results: seq<IndexingResult>)
    ensures Summarise(results).failedCount == |Failures(results)|
    ensures Summarise(results).listed == Failures(results)
    ensures Summarise(results).failedCount > 0 <==> exists i :: 0 <= i < |results| && !results[i].succeeded
  {
    CountsAddUp(results);
    if Summarise(results).failedCount == 0 {
      assert Failures(results) == [];
    } else {
      var f := Failures(results)[0];
      assert f in Failures(results);
      var i :| 0 <= i < |results| && results[i] == f;
    }
    if exists i :: 0 <= i < |results| && !results[i].succeeded {
      var i :| 0 <= i < |results| && !results[i].succeeded;
      assert results[i] in Failures(results);
    }
  }

  lemma {:induction false} CountsAddUp(results: seq<IndexingResult>)
    ensures SuccessCount(results) + |Failures(results)| == |results|
  {
    if results != [] {
      CountsAddUp(results[1..]);
    }
  }
}
