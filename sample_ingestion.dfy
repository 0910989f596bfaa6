/** Index creation and sample-document upload of the packaged ingestion
    module (`src/enterprise_mcp_auth/ingestion/create_index_and_documents.py`).

    Unlike the stand-alone script, this one always deletes and recreates the
    index, declares no permission-filter roles, and uploads eight fixed
    documents without injecting any ids. */
module SampleIngestion {
  import opened PyRuntime
  import opened IndexSetup

  /** A sample document: its key, the users and groups it grants, and its text. */
  datatype SampleDocument = SampleDocument(
    id: string, oid: seq<string>, group: seq<string>, name: string, content: string, category: string)

  /** The dict uploaded for a document. */
  function AsDict(d: SampleDocument): (r: Dict)
    ensures r.Keys == {"id", "oid", "group", "name", "content", "category"}
    ensures r["id"] == JStr(d.id) && r["oid"] == JArr(JsonStrings(d.oid)) && r["group"] == JArr(JsonStrings(d.group))
    ensures r["name"] == JStr(d.name) && r["content"] == JStr(d.content) && r["category"] == JStr(d.category)
  {
    map["id" := JStr(d.id), "oid" := JArr(JsonStrings(d.oid)), "group" := JArr(JsonStrings(d.group)),
        "name" := JStr(d.name), "content" := JStr(d.content), "category" := JStr(d.category)]
  }

  const User1 := "user1@example.com"
  const User2 := "user2@example.com"
  const User3 := "user3@example.com"
  const User4 := "user4@example.com"

  /** The text of the eight documents. */
  const Content1: string := "This document contains security best practices for enterprise applications including authentication, authorization, and data protection strategies."
  const Content2: string := "Azure AI Search is a cloud search service that provides infrastructure, APIs, and tools for building search experiences over private, heterogeneous content in web, mobile, and enterprise applications."
  const Content3: string := "The Model Context Protocol (MCP) is an open protocol that standardizes how applications provide context to LLMs. This guide covers authentication, transport, and tool definitions."
  const Content4: string := "This document describes various enterprise authentication patterns including OAuth 2.0, OpenID Connect, SAML, and On-Behalf-Of flow for secure access to resources."
  const Content5: string := "A comprehensive guide to Python development covering best practices, code organization, testing strategies, and common patterns for building maintainable applications."
  const Content6: string := "Best practices for designing secure APIs including rate limiting, input validation, output encoding, authentication mechanisms, and secure communication protocols."
  const Content7: string := "Learn about various search optimization techniques including indexing strategies, query optimization, relevance tuning, and performance monitoring."
  const Content8: string := "Guide to managing secrets in Azure using Azure Key Vault, managed identities, and secure coding practices to prevent credential leakage."

  /** `get_sample_documents`. */
  function SampleDocuments(): (docs: seq<SampleDocument>)
    ensures |docs| == 8
  {
    [ SampleDocument("doc1", [User1, User2], ["group1", "group2"], "Security Best Practices",
                Content1,
                "Security"),
      SampleDocument("doc2", [User1], ["group1"], "Azure AI Search Overview",
                Content2,
                "Documentation"),
      SampleDocument("doc3", [User2, User3], ["group2", "group3"], "MCP Protocol Guide",
                Content3,
                "Documentation"),
      SampleDocument("doc4", [User1, User2, User3], ["group1", "group2", "group3"], "Enterprise Authentication Patterns",
                Content4,
                "Security"),
      SampleDocument("doc5", [User3], ["group3"], "Python Development Guide",
                Content5,
                "Development"),
      SampleDocument("doc6", [User1, User4], ["group1", "group4"], "Secure API Design",
                Content6,
                "Security"),
      SampleDocument("doc7", [User2, User3, User4], ["group2", "group3", "group4"], "Search Optimization Techniques",
                Content7,
                "Documentation"),
      SampleDocument("doc8", [User1], ["group1"], "Secret Management in Azure",
                Content8,
                "Security") ]
  }

  /** The document keys, in order. */
  const SampleKeys: seq<string> := ["doc1", "doc2", "doc3", "doc4", "doc5", "doc6", "doc7", "doc8"]

  /** The uploaded payload: one dict per document, in order. */
  function Payload(docs: seq<SampleDocument>): (r: seq<Dict>)
    ensures |r| == |docs| && forall i :: 0 <= i < |docs| ==> r[i] == AsDict(docs[i])
  {
    seq(|docs|, i requires 0 <= i < |docs| => AsDict(docs[i]))
  }

  /** Every uploaded dict has exactly the fields of the index. */
  lemma {:induction false} PayloadMatchesIndex(docs: seq<SampleDocument>)
    ensures forall d, k :: d in Payload(docs) ==> (k in d <==> k in FieldNames(Fields(false)))
  {
    IndexShape(false);
  }

  /** The keys are `doc1` … `doc8` in order, so no upload overwrites another,
      and every document grants at least one user and at least one group. */
  lemma {:induction false} SampleDocumentsKeyedAndGranted()
    ensures forall i :: 0 <= i < |SampleDocuments()| ==> SampleDocuments()[i].id == SampleKeys[i]
    ensures forall i, j :: 0 <= i < j < |SampleKeys| ==> SampleKeys[i] != SampleKeys[j]
    ensures forall d :: d in SampleDocuments() ==> d.oid != [] && d.group != []
  {
  }

  /** The index this module creates: no permission-filter roles and no
      permission-filter option. */
  function SampleIndex(name: string): (ix: SearchIndex)
    ensures ix.name == name && !ix.permissionFilterEnabled
    ensures ix.fields == Fields(false) && ix.suggesters == Suggesters
  {
    SearchIndex(name, Fields(false), Suggesters, false)
  }

  /** `create_index_with_permission_filtering`: always deletes (a failed
      delete is ignored), then creates. */
  function CreateIndexWithPermissionFiltering(name: string, svc: IndexService): (r: IndexRun)
    ensures r.ops == [DeleteIndex(name), CreateIndex(SampleIndex(name))]
    ensures r.error == svc.createIndex(SampleIndex(name))
  {
    var _ := svc.deleteIndex(name);
    IndexRun(svc.createIndex(SampleIndex(name)), [DeleteIndex(name), CreateIndex(SampleIndex(name))])
  }

  datatype IngestRun =
    | Exit(code: int, message: string)
    | Ingested(indexOps: seq<IndexOp>, uploaded: seq<Dict>, report: UploadReport)

  /** `main`, over the variables read at import time. */
  function Main(env: Env, svc: IndexService, upload: seq<Dict> -> Outcome<seq<IndexingResult>>): (r: IngestRun)
    ensures GetEnvOr(env, "AZURE_SEARCH_ENDPOINT", "") == "" ==>
              r == Exit(1, "Error: AZURE_SEARCH_ENDPOINT environment variable is required")
    ensures GetEnvOr(env, "AZURE_SEARCH_ENDPOINT", "") != "" && GetEnvOr(env, "AZURE_SEARCH_ADMIN_KEY", "") == "" ==>
              r == Exit(1, "Error: AZURE_SEARCH_ADMIN_KEY environment variable is required")
    ensures r.Ingested? ==>
              && r.indexOps == CreateIndexWithPermissionFiltering(GetEnvOr(env, "AZURE_SEARCH_INDEX", "documents"), svc).ops
              && r.uploaded == Payload(SampleDocuments())
              && upload(Payload(SampleDocuments())).Returned?
              && r.report == Summarise(upload(Payload(SampleDocuments())).value)
    ensures r.Exit? ==> r.code == 1
  {
    var endpoint := GetEnvOr(env, "AZURE_SEARCH_ENDPOINT", "");
    var indexName := GetEnvOr(env, "AZURE_SEARCH_INDEX", "documents");
    var adminKey := GetEnvOr(env, "AZURE_SEARCH_ADMIN_KEY", "");
    if endpoint == "" then Exit(1, "Error: AZURE_SEARCH_ENDPOINT environment variable is required")
    else if adminKey == "" then Exit(1, "Error: AZURE_SEARCH_ADMIN_KEY environment variable is required")
    else
      var created := CreateIndexWithPermissionFiltering(indexName, svc);
      if created.error.Some? then Exit(1, "Error creating index: " + created.error.value.message)
      else
        var documents := Payload(SampleDocuments());
        match upload(documents)
        case Raised(e) => Exit(1, "Error during ingestion: " + e.message)
        case Returned(results) => Ingested(created.ops, documents, Summarise(results))
  }

  /** With both variables set the run ends in exactly one of: an index error
      (nothing uploaded), an upload error, or the upload summary. */
  lemma {:induction false} MainOutcomes(env: Env, svc: IndexService, upload: seq<Dict> -> Outcome<seq<IndexingResult>>)
    requires GetEnvOr(env, "AZURE_SEARCH_ENDPOINT", "") != "" && GetEnvOr(env, "AZURE_SEARCH_ADMIN_KEY", "") != ""
    ensures var name := GetEnvOr(env, "AZURE_SEARCH_INDEX", "documents");
            var created := svc.createIndex(SampleIndex(name));
            var r := Main(env, svc, upload);
            && (created.Some? ==> r == Exit(1, "Error creating index: " + created.value.message))
            && (created.None? && upload(Payload(SampleDocuments())).Raised? ==>
                  r == Exit(1, "Error during ingestion: " + upload(Payload(SampleDocuments())).exn.message))
            && (created.None? && upload(Payload(SampleDocuments())).Returned? ==> r.Ingested?)
  {
  }
}
