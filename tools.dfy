/** The two search tools (agents/rag/tools/base.py) and their invocation from a
    model's tool call: argument validation with the injected graph state, the
    search each tool issues, and the projection of every hit onto a fixed set
    of fields. */
module Tools {
  import opened Common
  import opened ToolSchemas
  import opened GraphSchema
  import opened Retriever

  /** The fields each tool copies out of a search hit, in output order. */
  const IncludeFields: seq<string> :=
    ["domain", "source", "id_document", "id_content", "@search.score", "@search.reranker_score", "content"]

  /** Both tools ask for the 20 best hits. */
  const SearchTop: int := 20

  /** A projected hit: exactly the included fields. */
  type Record = map<string, Value>

  /** `{field: record.get(field) for field in include_fields}`. */
  function Project(doc: Document): (r: Record)
    ensures r.Keys == set f | f in IncludeFields
    ensures forall f :: f in r ==> r[f] == (if f in doc then doc[f] else VNull)
  {
    map f | f in IncludeFields :: if f in doc then doc[f] else VNull
  }

  /** The list comprehension over all hits: one record per hit, in order. */
  function ProjectAll(docs: seq<Document>): (r: seq<Record>)
    ensures |r| == |docs|
    ensures forall i :: 0 <= i < |docs| ==> r[i] == Project(docs[i])
  {
    if |docs| == 0 then [] else [Project(docs[0])] + ProjectAll(docs[1..])
  }

  /** Projecting a projected record changes nothing: the included fields are
      kept, and a field that was missing stays None. */
  lemma ProjectIdempotent(doc: Document)
    ensures Project(Project(doc)) == Project(doc)
  {
    var p := Project(doc);
    assert forall f :: f in IncludeFields ==> f in p;
  }

  /** A hit that carries exactly the included fields comes back unchanged. */
  lemma ProjectKeepsIncludedFields(doc: Document)
    requires doc.Keys == set f | f in IncludeFields
    ensures Project(doc) == doc
  {
  }

  /** Projection keeps each hit's id, so distinct hits stay distinct. */
  lemma {:induction false} ProjectAllKeepsIds(docs: seq<Document>)
    requires AllKeyed(docs) && DistinctIds(docs)
    ensures AllKeyed(ProjectAll(docs)) && DistinctIds(ProjectAll(docs))
  {
    var rs := ProjectAll(docs);
    assert IdField in IncludeFields;
    forall i | 0 <= i < |docs| ensures Keyed(rs[i]) && Id(rs[i]) == Id(docs[i]) {
      assert rs[i] == Project(docs[i]);
    }
  }

  /** `general_search`: the query, the top 20, no filter.  The embedding
      service's error comes first, and the records carry distinct ids. */
  function GeneralSearch(input: GeneralSearchInput, backend: Backend): (r: Result<seq<Record>>)
    ensures backend.embed(input.query).Err? ==> r == Err(backend.embed(input.query).error)
    ensures r.Ok? ==> AllKeyed(r.value) && DistinctIds(r.value)
  {
    var docs :- SearchResult(input.query, SearchTop, None, backend);
    SearchHitsDistinct(input.query, SearchTop, None, backend);
    ProjectAllKeepsIds(docs);
    Ok(ProjectAll(docs))
  }

  /** The filter dictionary of `domain_search`. */
  function DomainFilters(d: Domain): Filters
  {
    [("domain", FText(DomainName(d)))]
  }

  /** `domain_search`: the query, the top 20, and the domain as the only
      filter.  The embedding service's error comes first, and the records
      carry distinct ids. */
  function DomainSearch(input: DomainSearchInput, backend: Backend): (r: Result<seq<Record>>)
    ensures backend.embed(input.query).Err? ==> r == Err(backend.embed(input.query).error)
    ensures r.Ok? ==> AllKeyed(r.value) && DistinctIds(r.value)
  {
    var docs :- SearchResult(input.query, SearchTop, Some(DomainFilters(input.domain)), backend);
    SearchHitsDistinct(input.query, SearchTop, Some(DomainFilters(input.domain)), backend);
    ProjectAllKeepsIds(docs);
    Ok(ProjectAll(docs))
  }

  /** The request `general_search` sends: the query's embedding, 20 nearest
      neighbours, the top 20 and no filter.  Two backends that embed the
      query alike and answer those requests alike give the same tool result. */
  lemma GeneralSearchRequest(input: GeneralSearchInput, b1: Backend, b2: Backend)
    requires b1.embed(input.query) == b2.embed(input.query)
    requires forall v :: b1.index(SearchRequest(input.query, v, SearchTop, None, SearchTop))
                         == b2.index(SearchRequest(input.query, v, SearchTop, None, SearchTop))
    ensures forall v :: Request(input.query, v, SearchTop, None) == Ok(SearchRequest(input.query, v, SearchTop, None, SearchTop))
    ensures GeneralSearch(input, b1) == GeneralSearch(input, b2)
  {
  }

  /** The request `domain_search` sends carries the filter `domain eq '<domain>'`. */
  lemma DomainSearchRequest(input: DomainSearchInput, b1: Backend, b2: Backend)
    requires b1.embed(input.query) == b2.embed(input.query)
    requires
      var f := Some("domain eq '" + DomainName(input.domain) + "'");
      forall v :: b1.index(SearchRequest(input.query, v, SearchTop, f, SearchTop))
                  == b2.index(SearchRequest(input.query, v, SearchTop, f, SearchTop))
    ensures forall v :: Request(input.query, v, SearchTop, Some(DomainFilters(input.domain)))
                        == Ok(SearchRequest(input.query, v, SearchTop, Some("domain eq '" + DomainName(input.domain) + "'"), SearchTop))
    ensures DomainSearch(input, b1) == DomainSearch(input, b2)
  {
    TextFilter("domain", DomainName(input.domain));
    assert "domain" + " eq '" == "domain eq '";
    assert EqClause("domain", DomainName(input.domain)) == "domain eq '" + DomainName(input.domain) + "'";
  }

  /** A tool result lists the de-duplicated hits in the index's order,
      projected. */
  lemma GeneralSearchOutput(input: GeneralSearchInput, backend: Backend)
    requires GeneralSearch(input, backend).Ok?
    ensures var hits := SearchResult(input.query, SearchTop, None, backend);
            && hits.Ok?
            && |GeneralSearch(input, backend).value| == |hits.value|
            && forall i :: 0 <= i < |hits.value| ==> GeneralSearch(input, backend).value[i] == Project(hits.value[i])
  {
  }

  /** The domain tool's result lists the de-duplicated hits of the
      domain-filtered search in the index's order, projected. */
  lemma DomainSearchOutput(input: DomainSearchInput, backend: Backend)
    requires DomainSearch(input, backend).Ok?
    ensures var hits := SearchResult(input.query, SearchTop, Some(DomainFilters(input.domain)), backend);
            && hits.Ok?
            && |DomainSearch(input, backend).value| == |hits.value|
            && forall i :: 0 <= i < |hits.value| ==> DomainSearch(input, backend).value[i] == Project(hits.value[i])
  {
  }

  // ------------------------------------------------------ the tool list

  datatype ToolName = GeneralSearchTool | DomainSearchTool

  function ToolNameString(t: ToolName): string
  {
    match t
    case GeneralSearchTool => "general_search"
    case DomainSearchTool => "domain_search"
  }

  /** `AVAILABLE_TOOLS`, in order. */
  const AvailableTools: seq<ToolName> := [GeneralSearchTool, DomainSearchTool]

  /** Finding the tool a call names. */
  function LookupTool(name: string): (r: Option<ToolName>)
    ensures r.Some? ==> r.value in AvailableTools && ToolNameString(r.value) == name
    ensures r.None? ==> forall t :: t in AvailableTools ==> ToolNameString(t) != name
  {
    if name == "general_search" then Some(GeneralSearchTool)
    else if name == "domain_search" then Some(DomainSearchTool)
    else None
  }

  /** Every available tool is found under its own name. */
  lemma LookupFindsEveryTool(t: ToolName)
    ensures t in AvailableTools && LookupTool(ToolNameString(t)) == Some(t)
  {
    match t
    case GeneralSearchTool =>
    case DomainSearchTool =>
  }

  /** What one tool call produces: the records, or the exception it raised. */
  datatype ToolOutcome = Records(records: seq<Record>) | ToolFailed(error: Error)

  function Outcome(r: Result<seq<Record>>): ToolOutcome
  {
    match r
    case Ok(rs) => Records(rs)
    case Err(e) => ToolFailed(e)
  }

  /** One tool call: the graph state is injected as the `state` argument, the
      arguments are validated against the tool's schema, and the tool runs. */
  function Invoke(call: ToolCall, injected: map<string, Value>, backend: Backend): (r: ToolOutcome)
    ensures LookupTool(call.name).None? ==> r == ToolFailed(UnknownAction(call.name))
    ensures r.Records? ==> LookupTool(call.name).Some? && AllKeyed(r.records) && DistinctIds(r.records)
  {
    var args := call.args["state" := VDict(injected)];
    match LookupTool(call.name)
    case None => ToolFailed(UnknownAction(call.name))
    case Some(GeneralSearchTool) =>
      (match ValidateGeneralSearch(args)
       case Err(e) => ToolFailed(e)
       case Ok(input) => Outcome(GeneralSearch(input, backend)))
    case Some(DomainSearchTool) =>
      (match ValidateDomainSearch(args)
       case Err(e) => ToolFailed(e)
       case Ok(input) => Outcome(DomainSearch(input, backend)))
  }

  /** Neither tool reads the injected state: the outcome is the same whatever
      state is injected. */
  lemma InvokeIgnoresState(call: ToolCall, s1: map<string, Value>, s2: map<string, Value>, backend: Backend)
    ensures Invoke(call, s1, backend) == Invoke(call, s2, backend)
  {
    var a1, a2 := call.args["state" := VDict(s1)], call.args["state" := VDict(s2)];
    assert ParseQuery(a1) == ParseQuery(a2);
    assert ParseDomain(a1) == ParseDomain(a2);
    assert ParseState(a1).Ok? && ParseState(a2).Ok?;
  }

  /** A call with a valid query reaches the search; one whose query is missing
      or not a string fails validation without searching. */
  lemma InvokeValidatesQuery(call: ToolCall, injected: map<string, Value>, backend: Backend)
    requires call.name == "general_search"
    ensures ("query" in call.args && call.args["query"].VStr?) ==>
              Invoke(call, injected, backend)
              == Outcome(GeneralSearch(GeneralSearchInput(call.args["query"].s, Some(injected)), backend))
    ensures !("query" in call.args && call.args["query"].VStr?) ==>
              Invoke(call, injected, backend) == ToolFailed(ValidationError("query"))
  {
    var args := call.args["state" := VDict(injected)];
    assert ParseQuery(args) == ParseQuery(call.args);
  }
}
