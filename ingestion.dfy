/** Index creation and ACL-injecting ingestion (`ai_search_ingestion/create_index_and_documents.py`).

    The documents loaded from the sample file are extended in place: every
    configured user id goes into each document's `oid` list and every configured
    group id into its `group` list, each only if absent; then the signed-in
    user's id and groups, as reported by Microsoft Graph, are injected the same
    way. The list of documents is an array whose elements are rewritten. */
module Ingestion {
  import opened PyRuntime
  import opened IndexSetup

  /** A sample document: its two ACL lists and every other field. */
  datatype Doc = Doc(oid: seq<string>, group: seq<string>, fields: Dict)

  // ---------------------------------------------------------------------
  // Append-if-absent

  /** `if x not in xs: xs.append(x)`. */
  function AppendIfAbsent(xs: seq<string>, x: string): (r: seq<string>)
    ensures x in xs ==> r == xs
    ensures x !in xs ==> r == xs + [x]
  {
    if x in xs then xs else xs + [x]
  }

  /** The list after appending each of `ids`, in order, if absent. */
  function AddMissing(xs: seq<string>, ids: seq<string>): (r: seq<string>)
    ensures |xs| <= |r|
    decreases |ids|
  {
    if ids == [] then xs else AppendIfAbsent(AddMissing(xs, ids[..|ids| - 1]), ids[|ids| - 1])
  }

  predicate NoDuplicates(xs: seq<string>) {
    forall i, j :: 0 <= i < j < |xs| ==> xs[i] != xs[j]
  }

  /** The original list is kept as a prefix, and the result holds exactly the
      original entries and the ids. */
  lemma {:induction false} AddMissingExtends(xs: seq<string>, ids: seq<string>)
    ensures xs <= AddMissing(xs, ids)
    ensures forall x :: x in AddMissing(xs, ids) <==> x in xs || x in ids
    decreases |ids|
  {
    if ids != [] {
      var init := ids[..|ids| - 1];
      AddMissingExtends(xs, init);
      var prev := AddMissing(xs, init);
      assert AddMissing(xs, ids) == AppendIfAbsent(prev, ids[|ids| - 1]);
      assert forall x :: x in ids <==> x in init || x == ids[|ids| - 1];
      if ids[|ids| - 1] !in prev {
        assert (prev + [ids[|ids| - 1]])[..|xs|] == prev[..|xs|];
      }
    }
  }

  /** Only absent ids are appended, each at most once: the appended part has no
      duplicates and shares nothing with the original list. */
  lemma {:induction false} AddMissingAppendsFresh(xs: seq<string>, ids: seq<string>)
    ensures var r := AddMissing(xs, ids);
            |xs| <= |r|
            && (forall i :: |xs| <= i < |r| ==> r[i] !in xs && r[i] in ids)
            && (forall i, j :: |xs| <= i < j < |r| ==> r[i] != r[j])
    decreases |ids|
  {
    AddMissingExtends(xs, ids);
    if ids != [] {
      var init := ids[..|ids| - 1];
      var x := ids[|ids| - 1];
      AddMissingAppendsFresh(xs, init);
      AddMissingExtends(xs, init);
      var prev := AddMissing(xs, init);
      if x !in prev {
        var r := prev + [x];
        assert r[|r| - 1] == x;
        forall i | |xs| <= i < |r|
          ensures r[i] !in xs && r[i] in ids
        {
          if i < |prev| {
            assert r[i] == prev[i] && prev[i] in init;
          } else {
            assert r[i] == x;
            assert forall k :: 0 <= k < |xs| ==> xs[k] == prev[..|xs|][k] == prev[k];
          }
        }
        forall i, j | |xs| <= i < j < |r|
          ensures r[i] != r[j]
        {
          if j == |r| - 1 {
            assert r[i] == prev[i];
          }
        }
      }
    }
  }

  /** A list without duplicates keeps that property. */
  lemma {:induction false} AddMissingKeepsNoDuplicates(xs: seq<string>, ids: seq<string>)
    requires NoDuplicates(xs)
    ensures NoDuplicates(AddMissing(xs, ids))
  {
    var r := AddMissing(xs, ids);
    AddMissingExtends(xs, ids);
    AddMissingAppendsFresh(xs, ids);
    forall i, j | 0 <= i < j < |r|
      ensures r[i] != r[j]
    {
      if i < |xs| && j >= |xs| {
        assert r[i] == xs[i];
      } else if j < |xs| {
        assert r[i] == xs[i] && r[j] == xs[j];
      }
    }
  }

  /** When every id is already present nothing changes. */
  lemma {:induction false} AddMissingPresent(xs: seq<string>, ids: seq<string>)
    requires forall x :: x in ids ==> x in xs
    ensures AddMissing(xs, ids) == xs
    decreases |ids|
  {
    if ids != [] {
      var init := ids[..|ids| - 1];
      assert forall x :: x in init ==> x in ids;
      AddMissingPresent(xs, init);
      assert ids[|ids| - 1] in ids;
    }
  }

  /** Injecting the same ids twice is injecting them once. */
  lemma {:induction false} AddMissingIdempotent(xs: seq<string>, ids: seq<string>)
    ensures AddMissing(AddMissing(xs, ids), ids) == AddMissing(xs, ids)
  {
    AddMissingExtends(xs, ids);
    AddMissingPresent(AddMissing(xs, ids), ids);
  }

  // ---------------------------------------------------------------------
  // Documents

  /** One document after injecting user ids and group ids. */
  function Inject(d: Doc, oids: seq<string>, groups: seq<string>): (r: Doc)
    ensures r.fields == d.fields
    ensures r.oid == AddMissing(d.oid, oids) && r.group == AddMissing(d.group, groups)
  {
    d.(oid := AddMissing(d.oid, oids), group := AddMissing(d.group, groups))
  }

  /** Every document injected; count and order are kept. */
  function InjectAll(docs: seq<Doc>, oids: seq<string>, groups: seq<string>): (r: seq<Doc>)
    ensures |r| == |docs|
    ensures forall i :: 0 <= i < |docs| ==> r[i] == Inject(docs[i], oids, groups)
  {
    seq(|docs|, i requires 0 <= i < |docs| => Inject(docs[i], oids, groups))
  }

  /** After injection every document grants every injected id, each original
      ACL list is a prefix of the new one, every other field is unchanged, and
      running the injection again changes nothing. */
  lemma {:induction false} InjectionGrantsAccess(docs: seq<Doc>, oids: seq<string>, groups: seq<string>)
    ensures var r := InjectAll(docs, oids, groups);
            forall i :: 0 <= i < |docs| ==>
              && (forall x :: x in oids ==> x in r[i].oid)
              && (forall g :: g in groups ==> g in r[i].group)
              && docs[i].oid <= r[i].oid
              && docs[i].group <= r[i].group
              && r[i].fields == docs[i].fields
    ensures InjectAll(InjectAll(docs, oids, groups), oids, groups) == InjectAll(docs, oids, groups)
  {
    var r := InjectAll(docs, oids, groups);
    forall i | 0 <= i < |docs|
      ensures (forall x :: x in oids ==> x in r[i].oid) && (forall g :: g in groups ==> g in r[i].group)
      ensures docs[i].oid <= r[i].oid && docs[i].group <= r[i].group
      ensures Inject(r[i], oids, groups) == r[i]
    {
      AddMissingExtends(docs[i].oid, oids);
      AddMissingExtends(docs[i].group, groups);
      AddMissingIdempotent(docs[i].oid, oids);
      AddMissingIdempotent(docs[i].group, groups);
    }
  }

  /** `if AI_SEARCH_QUERY_USER_ID: extra_oids.append(...)` (and the same for the
      group) on the setting, which was stripped when it was read: never an
      empty id, and the setting itself whenever it is non-empty. */
  function ExtraIds(value: string): (r: seq<string>)
    ensures |r| <= 1
    ensures forall x :: x in r ==> x == value && x != ""
    ensures value != "" ==> value in r
  {
    if value != "" then [value] else []
  }

  /** The inner loop over one list: append each id that is absent. */
  method AppendMissing(xs: seq<string>, ids: seq<string>) returns (r: seq<string>)
    ensures r == AddMissing(xs, ids)
  {
    r := xs;
    var k := 0;
    while k < |ids|
      invariant 0 <= k <= |ids|
      invariant r == AddMissing(xs, ids[..k])
    {
      assert ids[..k + 1][..k] == ids[..k];
      if ids[k] !in r {
        r := r + [ids[k]];
      }
      k := k + 1;
    }
    assert ids[..k] == ids;
  }

  /** The injection loop of `get_sample_documents`: for each document, the
      user ids into `oid`, then the group ids into `group`. */
  method InjectExtraIds(docs: array<Doc>, oids: seq<string>, groups: seq<string>)
    modifies docs
    ensures docs[..] == InjectAll(old(docs[..]), oids, groups)
  {
    var i := 0;
    while i < docs.Length
      invariant 0 <= i <= docs.Length
      invariant forall j :: 0 <= j < i ==> docs[j] == Inject(old(docs[j]), oids, groups)
      invariant forall j :: i <= j < docs.Length ==> docs[j] == old(docs[j])
    {
      var oid := AppendMissing(docs[i].oid, oids);
      var group := AppendMissing(docs[i].group, groups);
      docs[i] := docs[i].(oid := oid, group := group);
      i := i + 1;
    }
  }

  /** `get_sample_documents`: the loaded documents (the JSON file is read by
      the caller) with the configured ids injected. */
  method GetSampleDocuments(loaded: seq<Doc>, userId: string, groupId: string) returns (docs: array<Doc>)
    ensures fresh(docs)
    ensures docs[..] == InjectAll(loaded, ExtraIds(userId), ExtraIds(groupId))
  {
    docs := new Doc[|loaded|](i requires 0 <= i < |loaded| => loaded[i]);
    var extraOids: seq<string> := [];
    if userId != "" {
      extraOids := extraOids + [userId];
    }
    var extraGroups: seq<string> := [];
    if groupId != "" {
      extraGroups := extraGroups + [groupId];
    }
    assert docs[..] == loaded;
    InjectExtraIds(docs, extraOids, extraGroups);
  }

  /** `if current_user_oid:` */
  function CurrentUserIds(oid: Option<string>): (r: seq<string>)
    ensures r == [] <==> oid.None? || oid.value == ""
    ensures r != [] ==> r == [oid.value]
  {
    if oid.Some? && oid.value != "" then [oid.value] else []
  }

  /** The injection of the signed-in user in `_async_main`: the user's id into
      every document, then, group by group, each group into every document. The
      group-major order gives the same lists as injecting per document. */
  method InjectCurrentUser(docs: array<Doc>, oid: Option<string>, groups: seq<string>)
    modifies docs
    ensures docs[..] == InjectAll(old(docs[..]), CurrentUserIds(oid), groups)
  {
    if oid.Some? && oid.value != "" {
      var i := 0;
      while i < docs.Length
        invariant 0 <= i <= docs.Length
        invariant forall j :: 0 <= j < i ==> docs[j] == old(docs[j]).(oid := AddMissing(old(docs[j]).oid, [oid.value]))
        invariant forall j :: i <= j < docs.Length ==> docs[j] == old(docs[j])
      {
        assert [oid.value][..0] == [];
        if oid.value !in docs[i].oid {
          docs[i] := docs[i].(oid := docs[i].oid + [oid.value]);
        }
        i := i + 1;
      }
    }
    ghost var afterOid := docs[..];
    assert forall j :: 0 <= j < docs.Length ==>
      afterOid[j] == old(docs[j]).(oid := AddMissing(old(docs[j]).oid, CurrentUserIds(oid)));
    var k := 0;
    while k < |groups|
      invariant 0 <= k <= |groups|
      invariant forall j :: 0 <= j < docs.Length ==> docs[j] == Inject(old(docs[j]), CurrentUserIds(oid), groups[..k])
    {
      var gid := groups[k];
      assert groups[..k + 1][..k] == groups[..k];
      var i := 0;
      while i < docs.Length
        invariant 0 <= i <= docs.Length
        invariant forall j :: 0 <= j < i ==> docs[j] == Inject(old(docs[j]), CurrentUserIds(oid), groups[..k + 1])
        invariant forall j :: i <= j < docs.Length ==> docs[j] == Inject(old(docs[j]), CurrentUserIds(oid), groups[..k])
      {
        if gid !in docs[i].group {
          docs[i] := docs[i].(group := docs[i].group + [gid]);
        }
        i := i + 1;
      }
      k := k + 1;
    }
    assert groups[..k] == groups;
  }

  // ---------------------------------------------------------------------
  // Microsoft Graph

  /** What Graph reports for the signed-in user: the id and the ids of the
      directory objects the user is a member of (`None` where an item has no id). */
  datatype GraphUser = GraphUser(id: Option<string>, memberOf: seq<Option<string>>)

  /** The group ids `get_current_user_info` keeps: the truthy ones, in order. */
  function GroupIds(memberOf: seq<Option<string>>): (r: seq<string>)
    ensures forall g :: g in r <==> Some(g) in memberOf && g != ""
    ensures |r| <= |memberOf|
  {
    if memberOf == [] then []
    else
      var rest := GroupIds(memberOf[1..]);
      assert forall x :: x in memberOf <==> x == memberOf[0] || x in memberOf[1..];
      if memberOf[0].Some? && memberOf[0].value != "" then [memberOf[0].value] + rest else rest
  }

  /** The user id and groups `_async_main` injects: none when the Graph call raised. */
  function CurrentUser(graph: Outcome<GraphUser>): (r: (Option<string>, seq<string>))
    ensures graph.Raised? ==> r == (None, [])
    ensures graph.Returned? ==> r == (graph.value.id, GroupIds(graph.value.memberOf))
  {
    match graph
    case Raised(_) => (None, [])
    case Returned(u) => (u.id, GroupIds(u.memberOf))
  }

  // ---------------------------------------------------------------------
  // Index creation and the main flow

  /** The index of this script: permission filters on `oid` and `group`, and
      permission filtering enabled on the index. */
  function PermissionIndex(name: string): (ix: SearchIndex)
    ensures ix.name == name && ix.permissionFilterEnabled
    ensures ix.fields == Fields(true) && ix.suggesters == Suggesters
  {
    SearchIndex(name, Fields(true), Suggesters, true)
  }

  /** `create_index_with_permission_filtering`. `recreate` is the module constant
      `RECREATE_INDEX` (false as shipped). Recreating deletes first, ignoring a
      failed delete; otherwise an index `get_index` finds is left alone. */
  function CreateIndexWithPermissionFiltering(recreate: bool, name: string, svc: IndexService): (r: IndexRun)
    ensures recreate ==>
              r == IndexRun(svc.createIndex(PermissionIndex(name)), [DeleteIndex(name), CreateIndex(PermissionIndex(name))])
    ensures !recreate && svc.getIndex(name) ==> r == IndexRun(None, [GetIndex(name)])
    ensures !recreate && !svc.getIndex(name) ==>
              r == IndexRun(svc.createIndex(PermissionIndex(name)), [GetIndex(name), CreateIndex(PermissionIndex(name))])
  {
    var index := PermissionIndex(name);
    if recreate then
      var _ := svc.deleteIndex(name);
      IndexRun(svc.createIndex(index), [DeleteIndex(name), CreateIndex(index)])
    else if svc.getIndex(name) then IndexRun(None, [GetIndex(name)])
    else IndexRun(svc.createIndex(index), [GetIndex(name), CreateIndex(index)])
  }

  /** The environment as read at import time. */
  datatype Settings = Settings(endpoint: string, indexName: string, adminKey: string, queryUserId: string, queryGroupId: string)

  function SettingsFromEnv(env: Env): (s: Settings)
    ensures s.queryUserId == Strip(GetEnvOr(env, "AI_SEARCH_QUERY_USER_ID", ""))
    ensures s.queryGroupId == Strip(GetEnvOr(env, "AI_SEARCH_QUERY_GROUP_ID", ""))
    ensures s.indexName == GetEnvOr(env, "AZURE_SEARCH_INDEX", "documents")
  {
    Settings(GetEnvOr(env, "AZURE_SEARCH_ENDPOINT", ""), GetEnvOr(env, "AZURE_SEARCH_INDEX", "documents"),
             GetEnvOr(env, "AZURE_SEARCH_ADMIN_KEY", ""),
             Strip(GetEnvOr(env, "AI_SEARCH_QUERY_USER_ID", "")), Strip(GetEnvOr(env, "AI_SEARCH_QUERY_GROUP_ID", "")))
  }

  /** A query id read as `os.getenv(...).strip()` is injected exactly when the
      variable holds something other than whitespace, and then stripped. */
  lemma {:induction false} ExtraIdsOfStripped(raw: string)
    ensures ExtraIds(Strip(raw)) == [] <==> forall k :: 0 <= k < |raw| ==> IsSpace(raw[k])
    ensures ExtraIds(Strip(raw)) != [] ==> ExtraIds(Strip(raw)) == [Strip(raw)]
  {
    StripEmpty(raw);
  }

  /** The end of `_async_main`. */
  datatype IngestRun =
    | Exit(code: int, message: string)
    | Ingested(indexOps: seq<IndexOp>, uploaded: seq<Doc>, report: UploadReport)

  /** The documents `_async_main` uploads. */
  function UploadedDocuments(s: Settings, loaded: seq<Doc>, graph: Outcome<GraphUser>): seq<Doc> {
    var user := CurrentUser(graph);
    InjectAll(InjectAll(loaded, ExtraIds(s.queryUserId), ExtraIds(s.queryGroupId)), CurrentUserIds(user.0), user.1)
  }

  /** `_async_main`: exit 1 without a search endpoint or admin key (before any
      service call), exit 1 when index creation raises, exit 1 when the upload
      raises; otherwise the injected documents are uploaded. */
  method AsyncMain(s: Settings, recreate: bool, svc: IndexService, graph: Outcome<GraphUser>,
                   loaded: seq<Doc>, upload: seq<Doc> -> Outcome<seq<IndexingResult>>)
    returns (r: IngestRun)
    ensures s.endpoint == "" ==> r == Exit(1, "Error: AZURE_SEARCH_ENDPOINT environment variable is required")
    ensures s.endpoint != "" && s.adminKey == "" ==>
              r == Exit(1, "Error: AZURE_SEARCH_ADMIN_KEY environment variable is required")
    ensures var created := CreateIndexWithPermissionFiltering(recreate, s.indexName, svc);
            s.endpoint != "" && s.adminKey != "" && created.error.Some? ==>
              r == Exit(1, "Error creating index: " + created.error.value.message)
    ensures var created := CreateIndexWithPermissionFiltering(recreate, s.indexName, svc);
            var docs := UploadedDocuments(s, loaded, graph);
            s.endpoint != "" && s.adminKey != "" && created.error.None? ==>
              match upload(docs)
              case Raised(e) => r == Exit(1, "Error during ingestion: " + e.message)
              case Returned(results) => r == Ingested(created.ops, docs, Summarise(results))
  {
    if s.endpoint == "" {
      return Exit(1, "Error: AZURE_SEARCH_ENDPOINT environment variable is required");
    }
    if s.adminKey == "" {
      return Exit(1, "Error: AZURE_SEARCH_ADMIN_KEY environment variable is required");
    }
    var created := CreateIndexWithPermissionFiltering(recreate, s.indexName, svc);
    if created.error.Some? {
      return Exit(1, "Error creating index: " + created.error.value.message);
    }
    var user := CurrentUser(graph);
    var docs := GetSampleDocuments(loaded, s.queryUserId, s.queryGroupId);
    InjectCurrentUser(docs, user.0, user.1);
    match upload(docs[..])
    case Raised(e) =>
      r := Exit(1, "Error during ingestion: " + e.message);
    case Returned(results) =>
      r := Ingested(created.ops, docs[..], Summarise(results));
  }

  /** Each uploaded document grants the configured user and group, the
      signed-in user and all of the user's groups, on top of its own lists,
      and its other fields are the loaded ones. */
  lemma {:induction false} UploadGrantsConfiguredAndCurrentUser(s: Settings, loaded: seq<Doc>, graph: Outcome<GraphUser>, i: int)
    requires 0 <= i < |loaded|
    ensures |UploadedDocuments(s, loaded, graph)| == |loaded|
    ensures var d := UploadedDocuments(s, loaded, graph)[i];
            var user := CurrentUser(graph);
            && (forall x :: x in ExtraIds(s.queryUserId) || x in CurrentUserIds(user.0) ==> x in d.oid)
            && (forall g :: g in ExtraIds(s.queryGroupId) || g in user.1 ==> g in d.group)
            && loaded[i].oid <= d.oid
            && loaded[i].group <= d.group
            && d.fields == loaded[i].fields
  {
    var user := CurrentUser(graph);
    var mid := Inject(loaded[i], ExtraIds(s.queryUserId), ExtraIds(s.queryGroupId));
    var d := Inject(mid, CurrentUserIds(user.0), user.1);
    InjectGrants(loaded[i], ExtraIds(s.queryUserId), ExtraIds(s.queryGroupId));
    InjectGrants(mid, CurrentUserIds(user.0), user.1);
    assert d == UploadedDocuments(s, loaded, graph)[i];
  }

  /** One document's injection: every id is granted and the old lists are prefixes. */
  lemma {:induction false} InjectGrants(d: Doc, oids: seq<string>, groups: seq<string>)
    ensures var r := Inject(d, oids, groups);
            && (forall x :: x in oids || x in d.oid ==> x in r.oid)
            && (forall g :: g in groups || g in d.group ==> g in r.group)
            && d.oid <= r.oid && d.group <= r.group
  {
    AddMissingExtends(d.oid, oids);
    AddMissingExtends(d.group, groups);
  }
}
