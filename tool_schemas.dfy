/** The argument schemas of the two search tools (agents/rag/schemas/tools.py):
    validators from the tool-call arguments to typed inputs. */
module ToolSchemas {
  import opened Common

  datatype Domain = Manuales | Garantias

  /** `state` is the injected graph state: an optional dictionary. */
  datatype GeneralSearchInput = GeneralSearchInput(query: string, state: Option<map<string, Value>>)

  datatype DomainSearchInput = DomainSearchInput(query: string, domain: Domain, state: Option<map<string, Value>>)

  function DomainName(d: Domain): string
  {
    match d
    case Manuales => "manuales"
    case Garantias => "garantias"
  }

  function ParseQuery(args: map<string, Value>): (r: Result<string>)
    ensures r.Ok? <==> "query" in args && args["query"].VStr?
    ensures r.Ok? ==> args["query"] == VStr(r.value)
  {
    if "query" in args && args["query"].VStr? then Ok(args["query"].s) else Err(ValidationError("query"))
  }

  /** `state`: absent or null means None, a dictionary is kept, anything else is refused. */
  function ParseState(args: map<string, Value>): (r: Result<Option<map<string, Value>>>)
    ensures "state" !in args || args["state"] == VNull ==> r == Ok(None)
    ensures r.Ok? && r.value.Some? ==> args["state"] == VDict(r.value.value)
    ensures r.Err? <==> "state" in args && !args["state"].VNull? && !args["state"].VDict?
  {
    if "state" !in args then Ok(None)
    else
      match args["state"]
      case VNull => Ok(None)
      case VDict(m) => Ok(Some(m))
      case _ => Err(ValidationError("state"))
  }

  /** `domain` must be exactly one of the two literals. */
  function ParseDomain(args: map<string, Value>): (r: Result<Domain>)
    ensures r.Ok? ==> "domain" in args && args["domain"] == VStr(DomainName(r.value))
    ensures r.Err? <==> "domain" !in args || args["domain"] !in {VStr("manuales"), VStr("garantias")}
  {
    if "domain" !in args then Err(ValidationError("domain"))
    else if args["domain"] == VStr("manuales") then Ok(Manuales)
    else if args["domain"] == VStr("garantias") then Ok(Garantias)
    else Err(ValidationError("domain"))
  }

  /** The general search input has a query and an optional state, and nothing
      else: a `domain` argument is ignored. */
  function ValidateGeneralSearch(args: map<string, Value>): (r: Result<GeneralSearchInput>)
    ensures r.Ok? <==> ParseQuery(args).Ok? && ParseState(args).Ok?
    ensures r.Ok? ==> r.value == GeneralSearchInput(ParseQuery(args).value, ParseState(args).value)
  {
    match ParseQuery(args)
    case Err(e) => Err(e)
    case Ok(q) =>
      match ParseState(args)
      case Err(e) => Err(e)
      case Ok(st) => Ok(GeneralSearchInput(q, st))
  }

  function ValidateDomainSearch(args: map<string, Value>): (r: Result<DomainSearchInput>)
    ensures r.Ok? <==> ParseQuery(args).Ok? && ParseDomain(args).Ok? && ParseState(args).Ok?
    ensures r.Ok? ==> r.value == DomainSearchInput(ParseQuery(args).value, ParseDomain(args).value, ParseState(args).value)
  {
    match ParseQuery(args)
    case Err(e) => Err(e)
    case Ok(q) =>
      match ParseDomain(args)
      case Err(e) => Err(e)
      case Ok(d) =>
        match ParseState(args)
        case Err(e) => Err(e)
        case Ok(st) => Ok(DomainSearchInput(q, d, st))
  }

  /** The general input has no `domain` field: a `domain` argument changes nothing. */
  lemma GeneralSearchIgnoresDomain(args: map<string, Value>, d: Value)
    ensures ValidateGeneralSearch(args["domain" := d]) == ValidateGeneralSearch(args)
  {
    var args' := args["domain" := d];
    assert ParseQuery(args') == ParseQuery(args);
    assert ParseState(args') == ParseState(args);
  }

  /** A query alone validates for the general tool, with `state` defaulting to None;
      a query and a domain literal validate for the domain tool. */
  lemma QueryAloneSuffices(q: string, d: Domain)
    ensures ValidateGeneralSearch(map["query" := VStr(q)]) == Ok(GeneralSearchInput(q, None))
    ensures ValidateDomainSearch(map["query" := VStr(q), "domain" := VStr(DomainName(d))])
            == Ok(DomainSearchInput(q, d, None))
  {
    var args := map["query" := VStr(q), "domain" := VStr(DomainName(d))];
    assert "state" !in args;
    assert ParseDomain(args) == Ok(d) by {
      match d
      case Manuales =>
      case Garantias =>
    }
  }
}
