/** `transform_tools_to_ollama`: client tool declarations to backend function declarations. */
module Tools {
  import opened Wrappers
  import opened Json
  import opened Seqs
  import Anthropic
  import opened Ollama

  /** One declaration: the envelope key `input_schema` becomes `parameters`, with defaults. */
  function ToOllamaTool(t: Anthropic.ToolDef): Tool {
    Tool("function", FunctionDecl(t.name.GetOr(""), t.description.GetOr(""), t.inputSchema.GetOr(Obj([]))))
  }

  /** The declaration a backend tool was made from, read back key by key. */
  function FromOllamaTool(tool: Tool): Anthropic.ToolDef {
    Anthropic.ToolDef(Some(tool.func.name), Some(tool.func.description), Some(tool.func.parameters))
  }

  /** The loop of `transform_tools_to_ollama`: one backend tool per declaration, in order. */
  method TransformToolsToOllama(tools: seq<Anthropic.ToolDef>) returns (r: seq<Tool>)
    ensures |r| == |tools|
    ensures forall i :: 0 <= i < |tools| ==> r[i] == ToOllamaTool(tools[i])
  {
    r := [];
    var i := 0;
    while i < |tools|
      invariant 0 <= i <= |tools|
      invariant |r| == i
      invariant forall k :: 0 <= k < i ==> r[k] == ToOllamaTool(tools[k])
    {
      var tool := tools[i];
      var ollamaTool := Tool("function", FunctionDecl(
        tool.name.GetOr(""), tool.description.GetOr(""), tool.inputSchema.GetOr(Obj([]))));
      r := r + [ollamaTool];
      i := i + 1;
    }
  }

  /** Every backend tool has kind "function" and carries its declaration's three values. */
  lemma ToolsEnvelope(tools: seq<Anthropic.ToolDef>)
    ensures forall i :: 0 <= i < |tools| ==>
      var t := Map(tools, ToOllamaTool)[i];
      t.kind == "function" &&
      t.func.name == tools[i].name.GetOr("") &&
      t.func.description == tools[i].description.GetOr("") &&
      t.func.parameters == tools[i].inputSchema.GetOr(Obj([]))
  {
  }

  /** A declaration that gives all three keys is recovered from its backend tool. */
  lemma ToolRoundTrip(t: Anthropic.ToolDef)
    requires t.name.Some? && t.description.Some? && t.inputSchema.Some?
    ensures FromOllamaTool(ToOllamaTool(t)) == t
  {
  }

  /** Every backend tool of kind "function" is the image of the declaration read back from it. */
  lemma ToolEnvelopeSurjective(tool: Tool)
    requires tool.kind == "function"
    ensures ToOllamaTool(FromOllamaTool(tool)) == tool
  {
  }
}
