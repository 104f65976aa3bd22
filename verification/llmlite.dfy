/** The thin LiteLLM wrapper of the first agent: the function-calling
    schema built from a tool's signature, and the shape of the reply. */
module LlmLite {
  import opened Wrappers
  import opened Json

  /** A tool: its name, description, and the parameter names of its
      function's signature in declaration order. */
  datatype Tool = Tool(name: string, description: string, params: seq<string>)

  /** The signature's parameters without `self`, in order. */
  function NonSelf(params: seq<string>): (r: seq<string>)
    ensures |r| <= |params|
    ensures forall n :: n in r <==> n in params && n != "self"
    ensures "self" !in params ==> r == params
  {
    if |params| == 0 then []
    else if params[0] == "self" then NonSelf(params[1..])
    else [params[0]] + NonSelf(params[1..])
  }

  /** The schema of one parameter: every parameter is declared a string. */
  function ParamSchema(name: string): Json {
    JObj(map["type" := JStr("string"), "description" := JStr("Parameter " + name)])
  }

  /** The "parameters" object: an object schema with one string property
      per name, every one of them required, in order. */
  function ParamsSchema(names: seq<string>): (p: Json)
    ensures p.JObj? && p.fields.Keys == {"type", "properties", "required"}
    ensures p.fields["type"] == JStr("object") && p.fields["required"] == StrList(names)
    ensures p.fields["properties"].JObj? && p.fields["properties"].fields.Keys == set n | n in names
    ensures forall n :: n in p.fields["properties"].fields ==> p.fields["properties"].fields[n] == ParamSchema(n)
  {
    var props := map n | n in names :: ParamSchema(n);
    JObj(map["type" := JStr("object"), "properties" := JObj(props), "required" := StrList(names)])
  }

  /** The "function" object of the schema: the tool's name and description
      and the parameters object of its non-self parameters. */
  function FunctionObject(t: Tool): (f: Json)
    ensures f.JObj? && f.fields.Keys == {"name", "description", "parameters"}
    ensures f.fields["name"] == JStr(t.name) && f.fields["description"] == JStr(t.description)
    ensures f.fields["parameters"] == ParamsSchema(NonSelf(t.params))
  {
    JObj(map["name" := JStr(t.name), "description" := JStr(t.description),
             "parameters" := ParamsSchema(NonSelf(t.params))])
  }

  /** `Tool.to_openai_tool`. */
  function ToOpenAiTool(t: Tool): (r: Json)
    ensures r.JObj? && r.fields.Keys == {"type", "function"} && r.fields["type"] == JStr("function")
    ensures r.fields["function"] == FunctionObject(t)
  {
    JObj(map["type" := JStr("function"), "function" := FunctionObject(t)])
  }

  /** The schema's parameters object declares exactly the signature's
      parameters other than `self`, each as a string, and requires them all. */
  lemma ToolParameters(t: Tool)
    ensures var p := ToOpenAiTool(t).fields["function"].fields["parameters"];
      && p.JObj? && p.fields["type"] == JStr("object")
      && p.fields["properties"].JObj?
      && p.fields["properties"].fields.Keys == set n | n in t.params && n != "self"
      && (forall n :: n in p.fields["properties"].fields ==> p.fields["properties"].fields[n] == ParamSchema(n))
      && p.fields["required"] == StrList(NonSelf(t.params))
  {
    var names := NonSelf(t.params);
    assert (set n | n in names) == set n | n in t.params && n != "self";
  }

  /** The strings of a JSON list of strings. */
  function Strs(v: Json): Option<seq<string>> {
    if v.JArr? then StrItems(v.items) else None
  }

  function StrItems(items: seq<Json>): Option<seq<string>> {
    if |items| == 0 then Some([])
    else if !items[0].JStr? then None
    else
      var rest := StrItems(items[1..]);
      if rest.None? then None else Some([items[0].s] + rest.value)
  }

  lemma {:induction false} StrItemsStrList(xs: seq<string>)
    ensures StrItems(StrList(xs).items) == Some(xs)
  {
    if |xs| > 0 {
      var tail := StrList(xs[1..]).items;
      StrItemsStrList(xs[1..]);
      assert StrList(xs).items == [JStr(xs[0])] + tail;
      StrItemsCons(xs[0], tail, xs[1..]);
      assert [xs[0]] + xs[1..] == xs;
    }
  }

  /** A string in front of a list of strings is read first. */
  lemma StrItemsCons(x: string, items: seq<Json>, ys: seq<string>)
    requires StrItems(items) == Some(ys)
    ensures StrItems([JStr(x)] + items) == Some([x] + ys)
  {
    assert ([JStr(x)] + items)[1..] == items;
  }

  /** The schema's `required` list reads back as exactly the signature's
      parameters other than `self`, in signature order, defaults included. */
  lemma RequiredIsSignature(t: Tool)
    requires "self" !in t.params
    ensures Strs(ToOpenAiTool(t).fields["function"].fields["parameters"].fields["required"]) == Some(t.params)
  {
    StrItemsStrList(t.params);
  }

  /** What the completion call gave back: the first choice's content and
      tool calls, or the text of the exception it raised. */
  datatype Completion = Completed(content: Json, toolCalls: Json) | CompletionFailed(message: string)

  /** `generate_response`: it never raises; a reply is `{content, tool_calls}`
      and a failure is `{error}`. */
  function GenerateResponse(call: Completion): (r: map<string, Json>)
    ensures r.Keys == {"content", "tool_calls"} || r.Keys == {"error"}
    ensures "error" in r <==> call.CompletionFailed?
    ensures call.Completed? ==> r["content"] == call.content && r["tool_calls"] == call.toolCalls
    ensures call.CompletionFailed? ==> r["error"] == JStr(call.message)
  {
    match call
    case Completed(content, toolCalls) => map["content" := content, "tool_calls" := toolCalls]
    case CompletionFailed(message) => map["error" := JStr(message)]
  }
}
