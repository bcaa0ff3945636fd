/** The tool pretty-printer (agents/rag/utils.py, `format_tool_for_prompt`):
    a tool's name, stripped description and schema fields become a text block
    with a Python-like signature and an argument list, which the agent's system
    prompt embeds. */
module ToolPrompt {
  import opened Common
  import opened Tools

  /** What the pretty-printer reads of one schema field: its name, the
      annotation's type name, whether it is required, the `repr` of its
      default, and its description if it has one. */
  datatype FieldInfo = FieldInfo(name: string, typeName: string, required: bool, defaultRepr: string, description: Option<string>)

  datatype ToolSpec = ToolSpec(name: string, description: string, fields: seq<FieldInfo>)

  /** The return type every block announces. */
  const ReturnType: string := "str"

  // ------------------------------------------------------------- strip

  /** The characters Python's `str.isspace` accepts, which `str.strip()`
      removes: the ASCII controls tab to carriage return and the file, group,
      record and unit separators, the space, and the Unicode spaces, line and
      paragraph separators. */
  predicate IsWhitespace(c: char)
  {
    || '\U{0009}' <= c <= '\U{000D}'
    || '\U{001C}' <= c <= '\U{0020}'
    || c == '\U{0085}' || c == '\U{00A0}' || c == '\U{1680}'
    || '\U{2000}' <= c <= '\U{200A}'
    || c == '\U{2028}' || c == '\U{2029}' || c == '\U{202F}' || c == '\U{205F}' || c == '\U{3000}'
  }

  function TrimLeft(s: string): (r: string)
    ensures |r| <= |s|
  {
    if |s| > 0 && IsWhitespace(s[0]) then TrimLeft(s[1..]) else s
  }

  function TrimRight(s: string): (r: string)
    ensures |r| <= |s|
  {
    if |s| > 0 && IsWhitespace(s[|s| - 1]) then TrimRight(s[..|s| - 1]) else s
  }

  /** `str.strip()`: what is left neither starts nor ends with whitespace. */
  function Strip(s: string): (r: string)
    ensures |r| <= |s|
    ensures |r| == 0 || (!IsWhitespace(r[0]) && !IsWhitespace(r[|r| - 1]))
  {
    var l := TrimLeft(s);
    TrimLeftSpec(s);
    TrimRightSpec(l);
    var r := TrimRight(l);
    if |r| > 0 then TrimRightFirst(l); r else r
  }

  /** Left trimming removes exactly the leading whitespace. */
  lemma {:induction false} TrimLeftSpec(s: string)
    ensures var r := TrimLeft(s);
            && |r| <= |s| && r == s[|s| - |r|..]
            && (|r| == 0 || !IsWhitespace(r[0]))
            && forall i :: 0 <= i < |s| - |r| ==> IsWhitespace(s[i])
  {
    if |s| > 0 && IsWhitespace(s[0]) {
      TrimLeftSpec(s[1..]);
      var r := TrimLeft(s[1..]);
      forall i | 1 <= i < |s| - |r| ensures IsWhitespace(s[i]) {
        assert s[i] == s[1..][i - 1];
      }
    }
  }

  /** Right trimming removes exactly the trailing whitespace. */
  lemma {:induction false} TrimRightSpec(s: string)
    ensures var r := TrimRight(s);
            && |r| <= |s| && r == s[..|r|]
            && (|r| == 0 || !IsWhitespace(r[|r| - 1]))
            && forall i :: |r| <= i < |s| ==> IsWhitespace(s[i])
  {
    if |s| > 0 && IsWhitespace(s[|s| - 1]) {
      var s' := s[..|s| - 1];
      TrimRightSpec(s');
      var r := TrimRight(s');
      assert r == s'[..|r|] == s[..|r|];
      forall i | |r| <= i < |s| - 1 ensures IsWhitespace(s[i]) {
        assert s[i] == s'[i];
      }
    }
  }

  /** Stripping yields the infix left after removing the leading and the
      trailing whitespace: it neither starts nor ends with whitespace and
      everything cut off is whitespace. */
  lemma StripSpec(s: string)
    ensures var r := Strip(s);
            var k := |s| - |TrimLeft(s)|;
            && (|r| == 0 || (!IsWhitespace(r[0]) && !IsWhitespace(r[|r| - 1])))
            && k + |r| <= |s| && r == s[k..k + |r|]
            && (forall i :: 0 <= i < k ==> IsWhitespace(s[i]))
            && (forall i :: k + |r| <= i < |s| ==> IsWhitespace(s[i]))
  {
    var l := TrimLeft(s);
    TrimLeftSpec(s);
    TrimRightSpec(l);
    var r := TrimRight(l);
    var k := |s| - |l|;
    assert forall i :: 0 <= i < |l| ==> l[i] == s[k + i];
    assert r == l[..|r|];
    if |r| > 0 {
      assert r[0] == l[0];
      TrimRightFirst(l);
    }
  }

  /** Right trimming a string that does not start with whitespace keeps its
      first character, when anything is left. */
  lemma {:induction false} TrimRightFirst(s: string)
    requires |TrimRight(s)| > 0
    ensures TrimRight(s)[0] == s[0]
  {
    TrimRightSpec(s);
  }

  lemma {:induction false} TrimLeftOfClean(s: string)
    requires |s| == 0 || !IsWhitespace(s[0])
    ensures TrimLeft(s) == s
  {
  }

  lemma {:induction false} TrimRightOfClean(s: string)
    requires |s| == 0 || !IsWhitespace(s[|s| - 1])
    ensures TrimRight(s) == s
  {
  }

  /** Stripping twice is stripping once. */
  lemma StripIdempotent(s: string)
    ensures Strip(Strip(s)) == Strip(s)
  {
    var r := Strip(s);
    StripSpec(s);
    TrimLeftOfClean(r);
    TrimRightOfClean(r);
  }

  // ----------------------------------------------------------- signature

  /** Fields left out of the signature: the injected state and call id. */
  predicate HiddenFromSignature(f: FieldInfo)
  {
    f.name == "state" || f.name == "tool_call_id"
  }

  /** Fields left out of the argument list: only the injected state. */
  predicate HiddenFromDocs(f: FieldInfo)
  {
    f.name == "state"
  }

  /** A visible field's parameter, as the code renders it.  The test
      `model_field.is_required` names pydantic's method without calling it,
      and a bound method is always true, so every field renders as `name: T`,
      the optional ones included. */
  function SignatureParam(f: FieldInfo): string
  {
    f.name + ": " + f.typeName
  }

  /** The rendering the test was evidently meant to select: `name: T` for a
      required field, `name: T = repr(default)` for an optional one. */
  function IntendedSignatureParam(f: FieldInfo): string
  {
    if f.required then f.name + ": " + f.typeName
    else f.name + ": " + f.typeName + " = " + f.defaultRepr
  }

  /** `name: description`, with an empty description when there is none. */
  function DocLine(f: FieldInfo): string
  {
    f.name + ": " + (if f.description.Some? then f.description.value else "")
  }

  function SignatureParams(fields: seq<FieldInfo>): seq<string>
  {
    if |fields| == 0 then []
    else
      var last := fields[|fields| - 1];
      SignatureParams(fields[..|fields| - 1]) + (if HiddenFromSignature(last) then [] else [SignatureParam(last)])
  }

  function DocLines(fields: seq<FieldInfo>): seq<string>
  {
    if |fields| == 0 then []
    else
      var last := fields[|fields| - 1];
      DocLines(fields[..|fields| - 1]) + (if HiddenFromDocs(last) then [] else [DocLine(last)])
  }

  function Signature(tool: ToolSpec): string
  {
    tool.name + "(" + Join(SignatureParams(tool.fields), ", ") + ")"
  }

  /** The text block for one tool. */
  function PromptBlock(tool: ToolSpec): string
  {
    Signature(tool) + " -> " + ReturnType + ":\n    " + Strip(tool.description)
    + "\n\n    Args:\n        " + Join(DocLines(tool.fields), "\n        ")
    + "\n\n    Returns:\n        " + ReturnType + " result."
  }

  /** `format_tool_for_prompt`: two passes over the fields, then the template. */
  method FormatToolForPrompt(tool: ToolSpec) returns (block: string)
    ensures block == PromptBlock(tool)
  {
    var desc := Strip(tool.description);
    var fields := tool.fields;
    var params: seq<string> := [];
    var i := 0;
    while i < |fields|
      invariant 0 <= i <= |fields|
      invariant params == SignatureParams(fields[..i])
    {
      var f := fields[i];
      assert fields[..i + 1][..i] == fields[..i];
      if f.name == "state" || f.name == "tool_call_id" {
        i := i + 1;
        continue;
      }
      // the uncalled `is_required` is always true: the required branch runs
      params := params + [f.name + ": " + f.typeName];
      i := i + 1;
    }
    assert fields[..|fields|] == fields;
    var signature := tool.name + "(" + Join(params, ", ") + ")";
    var docs: seq<string> := [];
    i := 0;
    while i < |fields|
      invariant 0 <= i <= |fields|
      invariant docs == DocLines(fields[..i])
    {
      var f := fields[i];
      assert fields[..i + 1][..i] == fields[..i];
      if f.name != "state" {
        var descField := if f.description.Some? then f.description.value else "";
        docs := docs + [f.name + ": " + descField];
      }
      i := i + 1;
    }
    var docsText := Join(docs, "\n        ");
    block := signature + " -> " + ReturnType + ":\n    " + desc
      + "\n\n    Args:\n        " + docsText
      + "\n\n    Returns:\n        " + ReturnType + " result.";
  }

  lemma {:induction false} SignatureParamsAppend(a: seq<FieldInfo>, b: seq<FieldInfo>)
    ensures SignatureParams(a + b) == SignatureParams(a) + SignatureParams(b)
    decreases |b|
  {
    if |b| == 0 {
      assert a + b == a;
    } else {
      var b' := b[..|b| - 1];
      assert (a + b)[..|a + b| - 1] == a + b';
      assert (a + b)[|a + b| - 1] == b[|b| - 1];
      SignatureParamsAppend(a, b');
    }
  }

  lemma {:induction false} DocLinesAppend(a: seq<FieldInfo>, b: seq<FieldInfo>)
    ensures DocLines(a + b) == DocLines(a) + DocLines(b)
    decreases |b|
  {
    if |b| == 0 {
      assert a + b == a;
    } else {
      var b' := b[..|b| - 1];
      assert (a + b)[..|a + b| - 1] == a + b';
      assert (a + b)[|a + b| - 1] == b[|b| - 1];
      DocLinesAppend(a, b');
    }
  }

  lemma OneField(f: FieldInfo)
    ensures SignatureParams([f]) == (if HiddenFromSignature(f) then [] else [SignatureParam(f)])
    ensures DocLines([f]) == (if HiddenFromDocs(f) then [] else [DocLine(f)])
  {
    assert [f][..0] == [];
  }

  /** A `state` or `tool_call_id` field, wherever it stands, adds nothing to
      the signature; a `tool_call_id` field is still documented, a `state`
      field is not. */
  lemma HiddenFields(a: seq<FieldInfo>, f: FieldInfo, b: seq<FieldInfo>)
    requires HiddenFromSignature(f)
    ensures SignatureParams(a + [f] + b) == SignatureParams(a + b)
    ensures DocLines(a + [f] + b) == DocLines(a) + (if f.name == "tool_call_id" then [DocLine(f)] else []) + DocLines(b)
  {
    SignatureParamsAppend(a + [f], b);
    SignatureParamsAppend(a, [f]);
    SignatureParamsAppend(a, b);
    DocLinesAppend(a + [f], b);
    DocLinesAppend(a, [f]);
    OneField(f);
    assert SignatureParams(a) + [] == SignatureParams(a);
    assert DocLines(a) + [] == DocLines(a);
  }

  /** Without hidden fields, the signature and the argument list show every
      field, in order. */
  lemma {:induction false} VisibleFieldsListed(fields: seq<FieldInfo>)
    requires forall i :: 0 <= i < |fields| ==> !HiddenFromSignature(fields[i])
    ensures |SignatureParams(fields)| == |fields| && |DocLines(fields)| == |fields|
    ensures forall i :: 0 <= i < |fields| ==> SignatureParams(fields)[i] == SignatureParam(fields[i])
    ensures forall i :: 0 <= i < |fields| ==> DocLines(fields)[i] == DocLine(fields[i])
  {
    if |fields| > 0 {
      var n := |fields| - 1;
      var init := fields[..n];
      VisibleFieldsListed(init);
      var ps, ds := SignatureParams(init), DocLines(init);
      assert SignatureParams(fields) == ps + [SignatureParam(fields[n])];
      assert DocLines(fields) == ds + [DocLine(fields[n])];
      assert forall i :: 0 <= i < n ==> init[i] == fields[i];
    }
  }

  /** As written, a field's parameter does not depend on whether it is
      required or on its default. */
  lemma RequirednessIgnored(f: FieldInfo, required: bool, defaultRepr: string)
    ensures SignatureParam(f.(required := required, defaultRepr := defaultRepr)) == SignatureParam(f)
    ensures StartsWith(SignatureParam(f), f.name + ": ")
  {
    assert SignatureParam(f)[..|f.name + ": "|] == f.name + ": ";
  }

  /** The field `k: int = 5` gives `k: int` as written, where the evident
      intent is `k: int = 5`. */
  lemma OptionalDefaultDropped(f: FieldInfo)
    requires f == FieldInfo("k", "int", false, "5", None)
    ensures SignatureParams([f]) == ["k: int"]
    ensures IntendedSignatureParam(f) == "k: int = 5"
  {
    OneField(f);
    assert !HiddenFromSignature(f) by {
      assert |f.name| != |"state"| && |f.name| != |"tool_call_id"|;
    }
    assert SignatureParam(f) == "k" + ": " + "int" == "k: int";
    assert IntendedSignatureParam(f) == "k" + ": " + "int" + " = " + "5" == "k: int = 5";
  }

  /** The intended rendering: a required field without a default, an
      optional one with ` = ` and the default's repr after the type. */
  lemma ParamRendering(f: FieldInfo)
    ensures StartsWith(IntendedSignatureParam(f), f.name + ": " + f.typeName)
    ensures f.required <==> IntendedSignatureParam(f) == f.name + ": " + f.typeName
    ensures f.required ==> IntendedSignatureParam(f) == SignatureParam(f)
  {
    var head := f.name + ": " + f.typeName;
    if !f.required {
      assert |IntendedSignatureParam(f)| == |head| + |" = " + f.defaultRepr| > |head|;
    }
    assert IntendedSignatureParam(f)[..|head|] == head;
  }

  // --------------------------------------------------------- the two tools

  const QueryField: FieldInfo := FieldInfo("query", "str", true, "", Some("Frase de búsqueda"))

  const DomainField: FieldInfo :=
    FieldInfo("domain", "Literal", true, "",
      Some("Dominio de la búsqueda: consultas relacionadas con manuales de producto debes usar el dominio 'manuales' y para consultas relacionadas con garantías debes usar el dominio 'garantias'"))

  const StateField: FieldInfo := FieldInfo("state", "Optional", false, "None", None)

  /** The schema of each available tool, as the pretty-printer sees it. */
  function SpecOf(t: ToolName): ToolSpec
  {
    match t
    case GeneralSearchTool =>
      ToolSpec(ToolNameString(t), "\n    Utiliza este tool para buscar información en la base de conocimiento.\n    ",
               [QueryField, StateField])
    case DomainSearchTool =>
      ToolSpec(ToolNameString(t), "\n    Utiliza este tool para buscar información en la base de conocimiento filtrada por dominio.\n    ",
               [QueryField, DomainField, StateField])
  }

  /** The tool descriptions of the agent's system prompt: one block per
      available tool, in list order, separated by a blank line. */
  function ToolsDescription(tools: seq<ToolName>): string
  {
    Join(Blocks(tools), "\n\n")
  }

  /** `format_tool_for_prompt` of one available tool. */
  function ToolBlock(t: ToolName): string
  {
    PromptBlock(SpecOf(t))
  }

  function Blocks(tools: seq<ToolName>): (r: seq<string>)
    ensures |r| == |tools|
    ensures forall i :: 0 <= i < |tools| ==> r[i] == ToolBlock(tools[i])
  {
    seq(|tools|, i requires 0 <= i < |tools| => ToolBlock(tools[i]))
  }

  /** Both signatures show the query, only the domain tool shows the domain,
      and neither shows the injected state. */
  lemma AvailableSignatures()
    ensures SignatureParams(SpecOf(GeneralSearchTool).fields) == [SignatureParam(QueryField)]
    ensures SignatureParams(SpecOf(DomainSearchTool).fields) == [SignatureParam(QueryField), SignatureParam(DomainField)]
    ensures DocLines(SpecOf(DomainSearchTool).fields) == [DocLine(QueryField), DocLine(DomainField)]
  {
    GeneralSignature();
    DomainSignature();
  }

  lemma GeneralSignature()
    ensures SignatureParams(SpecOf(GeneralSearchTool).fields) == [SignatureParam(QueryField)]
  {
    HiddenFields([QueryField], StateField, []);
    assert [QueryField] + [StateField] + [] == SpecOf(GeneralSearchTool).fields;
    assert [QueryField] + [] == [QueryField];
    VisibleFieldsListed([QueryField]);
  }

  lemma DomainSignature()
    ensures SignatureParams(SpecOf(DomainSearchTool).fields) == [SignatureParam(QueryField), SignatureParam(DomainField)]
    ensures DocLines(SpecOf(DomainSearchTool).fields) == [DocLine(QueryField), DocLine(DomainField)]
  {
    HiddenFields([QueryField, DomainField], StateField, []);
    assert [QueryField, DomainField] + [StateField] + [] == SpecOf(DomainSearchTool).fields;
    assert [QueryField, DomainField] + [] == [QueryField, DomainField];
    VisibleFieldsListed([QueryField, DomainField]);
  }

  /** Every field the signature shows for an available tool is required, so
      the intended rendering gives the same parameters as the code's. */
  lemma AvailableToolsUnaffected(t: ToolName)
    ensures forall i :: 0 <= i < |SpecOf(t).fields| && !HiddenFromSignature(SpecOf(t).fields[i]) ==>
              IntendedSignatureParam(SpecOf(t).fields[i]) == SignatureParam(SpecOf(t).fields[i])
  {
  }
}
