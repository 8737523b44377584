/**
 * The request half of `send_to_gigachat` (gpt2giga.py, lines 24-42): the
 * caller's chat-completion request is rewritten, in place in the source, into
 * the request the GigaChat backend accepts.
 *
 * The functions here say what each step computes; the methods at the end
 * perform the same steps the way the source does, with its loops, and are
 * proved to compute exactly what the functions say.
 */
module RequestTranslation {
  import opened Wrappers
  import opened JsonValue
  import opened Seqs

  /** The temperature sent when the caller gave none, or gave zero (1e-15 in the source). */
  const TemperatureFloor: real := 0.000000000000001

  /** The rewritten request, with the caller's `model`, which is not sent but echoed in the reply. */
  datatype Translated = Translated(model: Json, request: seq<Member>)

  // ---------------------------------------------------------------- temperature

  /**
   * `temperature` is always present afterwards: absent or zero (0, 0.0 or
   * False, as Python's `== 0` has it) becomes the floor, anything else is
   * kept. No other key changes.
   */
  function ApplyTemperature(ms: seq<Member>): (r: seq<Member>)
    ensures Get(ms, "temperature").None? ==> Get(r, "temperature") == Some(Float(TemperatureFloor))
    ensures Get(ms, "temperature").Some? && EqualsZero(Get(ms, "temperature").value) ==>
              Get(r, "temperature") == Some(Float(TemperatureFloor))
    ensures Get(ms, "temperature").Some? && !EqualsZero(Get(ms, "temperature").value) ==>
              Get(r, "temperature") == Get(ms, "temperature")
    ensures forall k :: k != "temperature" ==> Get(r, k) == Get(ms, k)
    ensures Keys(r) == if "temperature" in Keys(ms) then Keys(ms) else Keys(ms) + ["temperature"]
  {
    var t := Get(ms, "temperature").GetOr(Float(TemperatureFloor));
    Set(ms, "temperature", if EqualsZero(t) then Float(TemperatureFloor) else t)
  }

  // ---------------------------------------------------------------- tools -> functions

  /** A tool the loop can read: a dict with a `type`, and a `function` when that type is "function". */
  predicate ToolShaped(tool: Json) {
    && tool.Obj?
    && "type" in Keys(tool.members)
    && (Get(tool.members, "type") == Some(Str("function")) ==> "function" in Keys(tool.members))
  }

  predicate IsFunctionTool(tool: Json) {
    tool.Obj? && Get(tool.members, "type") == Some(Str("function"))
  }

  function FunctionPayload(tool: Json): Json {
    if tool.Obj? then Get(tool.members, "function").GetOr(Null) else Null
  }

  /** One pass of the tools loop: the tool's `function` when its type is "function", else nothing. */
  function ToolFunction(tool: Json): (r: Result<seq<Json>>)
    ensures r.Ok? <==> ToolShaped(tool)
    ensures r.Ok? && IsFunctionTool(tool) ==> r.value == [FunctionPayload(tool)]
    ensures r.Ok? && !IsFunctionTool(tool) ==> r.value == []
  {
    if !tool.Obj? then Err(WrongType("tool is not a dict"))
    else
      match Get(tool.members, "type")
      case None => Err(MissingKey("type"))
      case Some(kind) =>
        if kind != Str("function") then Ok([])
        else
          match Get(tool.members, "function")
          case None => Err(MissingKey("function"))
          case Some(f) => Ok([f])
  }

  /** The whole tools loop: the passes in order, or the first failing one. */
  function FunctionsOf(tools: seq<Json>): (r: Result<seq<Json>>)
  {
    if tools == [] then Ok([])
    else
      var head :- ToolFunction(tools[0]);
      var rest :- FunctionsOf(tools[1..]);
      Ok(head + rest)
  }

  lemma FunctionsOfStep(tools: seq<Json>, i: nat)
    requires i < |tools|
    ensures ToolFunction(tools[i]).Err? ==> FunctionsOf(tools[i..]) == Err(ToolFunction(tools[i]).error)
    ensures ToolFunction(tools[i]).Ok? ==>
              FunctionsOf(tools[i..]) == Prepend(ToolFunction(tools[i]).value, FunctionsOf(tools[i + 1..]))
  {
    assert tools[i..][0] == tools[i];
    assert tools[i..][1..] == tools[i + 1..];
  }

  /**
   * The tools loop succeeds exactly when every tool is readable, and then
   * yields the `function` of each tool whose type is "function", in the
   * tools' order; other tools are skipped.
   */
  lemma {:induction false} FunctionsOfSelectsFunctionTools(tools: seq<Json>)
    ensures FunctionsOf(tools).Ok? <==> forall i :: 0 <= i < |tools| ==> ToolShaped(tools[i])
    ensures FunctionsOf(tools).Ok? ==>
              FunctionsOf(tools).value == Map(FunctionPayload, Filter(IsFunctionTool, tools))
  {
    if tools != [] {
      FunctionsOfSelectsFunctionTools(tools[1..]);
      assert forall i :: 1 <= i < |tools| ==> tools[i] == tools[1..][i - 1];
    }
  }

  /**
   * `functions` is derived from `tools` only when the caller sent no
   * `functions` and a truthy `tools`; the tools are then iterated.
   */
  function DeriveFunctions(ms: seq<Member>): (r: Result<seq<Member>>)
  {
    if "functions" in Keys(ms) || !Truthy(Get(ms, "tools").GetOr(Null)) then Ok(ms)
    else
      var tools :- Elements(Get(ms, "tools").value);
      var functions :- FunctionsOf(tools);
      Ok(Set(ms, "functions", Arr(functions)))
  }

  /**
   * The functions rule: untouched when `functions` was already there or
   * `tools` is missing or falsy; otherwise `functions` becomes the ordered
   * `function` payloads of the "function" tools, and a `tools` value that is
   * not a list, or a tool that cannot be read, makes the step fail.
   */
  lemma FunctionsRule(ms: seq<Member>)
    ensures "functions" in Keys(ms) ==> DeriveFunctions(ms) == Ok(ms)
    ensures !Truthy(Get(ms, "tools").GetOr(Null)) ==> DeriveFunctions(ms) == Ok(ms)
    ensures var tools := Get(ms, "tools").GetOr(Null);
            "functions" !in Keys(ms) && Truthy(tools) && !tools.Arr? ==> DeriveFunctions(ms).Err?
    ensures var tools := Get(ms, "tools").GetOr(Null);
            "functions" !in Keys(ms) && Truthy(tools) && tools.Arr? ==>
              && (DeriveFunctions(ms).Ok? <==> forall i :: 0 <= i < |tools.items| ==> ToolShaped(tools.items[i]))
              && (DeriveFunctions(ms).Ok? ==>
                    && Get(DeriveFunctions(ms).value, "functions") ==
                         Some(Arr(Map(FunctionPayload, Filter(IsFunctionTool, tools.items))))
                    && forall k :: k != "functions" ==> Get(DeriveFunctions(ms).value, k) == Get(ms, k))
  {
    var tools := Get(ms, "tools").GetOr(Null);
    if "functions" !in Keys(ms) && Truthy(tools) {
      var elems := Elements(tools);
      if elems.Ok? {
        FunctionsOfSelectsFunctionTools(elems.value);
        if !tools.Arr? {
          ElementsOfNonList(tools);
          assert !ToolShaped(elems.value[0]);
        }
      }
    }
  }

  // ---------------------------------------------------------------- messages

  predicate IsToolMessage(m: Json) {
    m.Obj? && Get(m.members, "role") == Some(Str("tool"))
  }

  /**
   * A message the loop can rewrite: a dict with a `role`, and with a
   * `content` unless it is a tool message (whose content defaults to "").
   */
  predicate MessageShaped(m: Json) {
    && m.Obj?
    && "role" in Keys(m.members)
    && (IsToolMessage(m) || "content" in Keys(m.members))
  }

  /**
   * One pass of the message loop: drop `name`; turn a tool message into a
   * function message whose content is the JSON text of its old content;
   * turn a null content into "".
   */
  function NormalizeMessage(dumps: Json -> string, m: Json): (r: Result<Json>)
  {
    if !m.Obj? then Err(WrongType("message is not a dict"))
    else
      var ms := Pop(m.members, "name");
      match Get(ms, "role")
      case None => Err(MissingKey("role"))
      case Some(role) =>
        var ms' :=
          if role == Str("tool") then
            Set(Set(ms, "role", Str("function")), "content", Str(dumps(Get(ms, "content").GetOr(Str("")))))
          else ms;
        match Get(ms', "content")
        case None => Err(MissingKey("content"))
        case Some(content) => Ok(Obj(if content == Null then Set(ms', "content", Str("")) else ms'))
  }

  /**
   * The message rules. A message is rewritten exactly when it is a dict with
   * a role and (unless it is a tool message) a content. Afterwards it has no
   * `name` and a content that is not null. A tool message gets role
   * "function" and, as content, the JSON text (`dumps`) of its old content,
   * of "" when it had none, and of null when that was null, since the text is
   * made before the null check. Any other message keeps its role and its
   * content, except that a null content becomes "". Every other key is kept.
   */
  lemma NormalizeMessageRules(dumps: Json -> string, m: Json)
    ensures var r := NormalizeMessage(dumps, m);
      && (r.Ok? <==> MessageShaped(m))
      && (r.Ok? ==>
            var out := r.value.members;
            && r.value.Obj?
            && "name" !in Keys(out)
            && "content" in Keys(out) && Get(out, "content") != Some(Null)
            && (IsToolMessage(m) ==>
                  && Get(out, "role") == Some(Str("function"))
                  && Get(out, "content") == Some(Str(dumps(Get(m.members, "content").GetOr(Str(""))))))
            && (!IsToolMessage(m) ==>
                  && Get(out, "role") == Get(m.members, "role")
                  && Get(out, "content") ==
                       if Get(m.members, "content") == Some(Null) then Some(Str("")) else Get(m.members, "content"))
            && forall k :: k != "name" && k != "role" && k != "content" ==> Get(out, k) == Get(m.members, k))
  {
  }

  function MessageStep(dumps: Json -> string): Json -> Result<Json> {
    m => NormalizeMessage(dumps, m)
  }

  /**
   * The message loop over `data["messages"]`: a list keeps its length and
   * order and message i of the result is message i rewritten; the loop fails
   * exactly when some message cannot be rewritten. Any other value gets
   * through only when it is an empty dict or string, and then unchanged.
   */
  lemma MessageListRule(dumps: Json -> string, messages: Json)
    ensures messages.Arr? ==>
              var r := RewriteElements(MessageStep(dumps), messages);
              && (r.Ok? <==> forall i :: 0 <= i < |messages.items| ==> MessageShaped(messages.items[i]))
              && (r.Ok? ==>
                    && r.value.Arr? && |r.value.items| == |messages.items|
                    && forall i :: 0 <= i < |messages.items| ==>
                         NormalizeMessage(dumps, messages.items[i]).Ok? &&
                         r.value.items[i] == NormalizeMessage(dumps, messages.items[i]).value)
    ensures !messages.Arr? && RewriteElements(MessageStep(dumps), messages).Ok? ==>
              !Truthy(messages) && RewriteElements(MessageStep(dumps), messages).value == messages
  {
    forall s ensures MessageStep(dumps)(Str(s)).Err? {
      NormalizeMessageRules(dumps, Str(s));
    }
    RewriteElementsRule(MessageStep(dumps), messages);
    if messages.Arr? {
      forall i | 0 <= i < |messages.items|
        ensures MessageStep(dumps)(messages.items[i]).Ok? <==> MessageShaped(messages.items[i])
      {
        NormalizeMessageRules(dumps, messages.items[i]);
      }
    }
  }

  // ---------------------------------------------------------------- the whole request

  /**
   * Lines 24-42 of gpt2giga.py as one function: pop `model` (kept for the
   * reply), apply the temperature rule, derive `functions`, rewrite the
   * messages. Any exception of the source is an Err here.
   */
  function TranslateRequest(dumps: Json -> string, data: Json): (r: Result<Translated>)
  {
    if !data.Obj? then Err(WrongType("request is not a dict"))
    else
      var model := Get(data.members, "model").GetOr(Null);
      var ms :- DeriveFunctions(ApplyTemperature(Pop(data.members, "model")));
      match Get(ms, "messages")
      case None => Err(MissingKey("messages"))
      case Some(messages) =>
        var normalised :- RewriteElements(MessageStep(dumps), messages);
        Ok(Translated(model, Set(ms, "messages", normalised)))
  }

  /**
   * What the backend is handed: no `model` (which is kept for the reply, or
   * null when there was none), a `temperature` always, and every key other
   * than `model`, `temperature`, `functions` and `messages` as the caller sent it.
   * A request that is not a dict, or has no `messages`, fails.
   */
  lemma TranslateRequestModel(dumps: Json -> string, data: Json)
    ensures !data.Obj? ==> TranslateRequest(dumps, data).Err?
    ensures data.Obj? && "messages" !in Keys(data.members) ==> TranslateRequest(dumps, data).Err?
    ensures TranslateRequest(dumps, data).Ok? ==>
              var t := TranslateRequest(dumps, data).value;
              && t.model == Get(data.members, "model").GetOr(Null)
              && "model" !in Keys(t.request)
              && "temperature" in Keys(t.request)
              && forall k :: k != "model" && k != "temperature" && k != "functions" && k != "messages" ==>
                   Get(t.request, k) == Get(data.members, k)
  {
    if data.Obj? {
      var popped := Pop(data.members, "model");
      var ms0 := ApplyTemperature(popped);
      FunctionsRule(ms0);
      assert Get(ms0, "messages") == Get(data.members, "messages");
      var derived := DeriveFunctions(ms0);
      if derived.Ok? {
        var ms := derived.value;
        assert Get(ms, "messages") == Get(data.members, "messages");
        assert "model" !in Keys(ms) && "temperature" in Keys(ms) by {
          assert Get(ms, "model") == Get(ms0, "model") == Get(popped, "model");
          assert Get(ms, "temperature") == Get(ms0, "temperature");
        }
      }
    }
  }

  /**
   * The temperature, functions and messages the backend is handed, each as
   * its own rule says, in terms of what the caller sent.
   */
  lemma TranslateRequestFields(dumps: Json -> string, data: Json)
    ensures TranslateRequest(dumps, data).Ok? ==> data.Obj?
    ensures TranslateRequest(dumps, data).Ok? ==>
              var t := TranslateRequest(dumps, data).value;
              var sent := Get(data.members, "temperature");
              Get(t.request, "temperature") ==
                if sent.None? || EqualsZero(sent.value) then Some(Float(TemperatureFloor)) else sent
    ensures TranslateRequest(dumps, data).Ok? ==>
              var t := TranslateRequest(dumps, data).value;
              var tools := Get(data.members, "tools").GetOr(Null);
              if "functions" in Keys(data.members) || !Truthy(tools) then
                Get(t.request, "functions") == Get(data.members, "functions")
              else
                && tools.Arr?
                && Get(t.request, "functions") == Some(Arr(Map(FunctionPayload, Filter(IsFunctionTool, tools.items))))
    ensures TranslateRequest(dumps, data).Ok? ==>
              var t := TranslateRequest(dumps, data).value;
              && "messages" in Keys(data.members)
              && "messages" in Keys(t.request)
              && RewriteElements(MessageStep(dumps), Get(data.members, "messages").value) == Ok(Get(t.request, "messages").value)
  {
    if TranslateRequest(dumps, data).Ok? {
      var popped := Pop(data.members, "model");
      var ms0 := ApplyTemperature(popped);
      FunctionsRule(ms0);
      var ms := DeriveFunctions(ms0).value;
      var messages := Get(ms, "messages").value;
      var t := TranslateRequest(dumps, data).value;
      assert t.request == Set(ms, "messages", RewriteElements(MessageStep(dumps), messages).value);
      assert Get(popped, "temperature") == Get(data.members, "temperature");
      assert Get(ms0, "tools") == Get(popped, "tools") == Get(data.members, "tools");
      assert Get(ms0, "functions") == Get(popped, "functions") == Get(data.members, "functions");
      assert Get(ms, "temperature") == Get(ms0, "temperature");
      assert Get(ms, "messages") == Get(ms0, "messages") == Get(popped, "messages") == Get(data.members, "messages");
    }
  }

  // ---------------------------------------------------------------- the source's loops

  /** The tools loop of lines 30-33: `functions.append(tool["function"])` for each "function" tool. */
  method CollectFunctions(tools: seq<Json>) returns (r: Result<seq<Json>>)
    ensures r == FunctionsOf(tools)
  {
    var functions: seq<Json> := [];
    var i := 0;
    assert tools[0..] == tools;
    PrependNothing(FunctionsOf(tools));
    while i < |tools|
      invariant 0 <= i <= |tools|
      invariant FunctionsOf(tools) == Prepend(functions, FunctionsOf(tools[i..]))
    {
      FunctionsOfStep(tools, i);
      var found := ToolFunction(tools[i]);
      if found.Err? {
        return Err(found.error);
      }
      PrependTwice(functions, found.value, FunctionsOf(tools[i + 1..]));
      functions := functions + found.value;
      i := i + 1;
    }
    assert tools[i..] == [] && functions + [] == functions;
    return Ok(functions);
  }

  /**
   * Lines 24-42 as the source runs them, one in-place step after another: a
   * driver around the tools loop `CollectFunctions` and the message loop `RewriteEachElement`.
   */
  method NormalizeRequest(dumps: Json -> string, data: Json) returns (r: Result<Translated>)
    ensures r == TranslateRequest(dumps, data)
  {
    if !data.Obj? {
      return Err(WrongType("request is not a dict"));
    }
    var fields := data.members;
    var model := Get(fields, "model").GetOr(Null);
    fields := Pop(fields, "model");
    fields := ApplyTemperature(fields);
    if "functions" !in Keys(fields) && Truthy(Get(fields, "tools").GetOr(Null)) {
      var tools := Elements(Get(fields, "tools").value);
      if tools.Err? {
        return Err(tools.error);
      }
      var functions := CollectFunctions(tools.value);
      if functions.Err? {
        return Err(functions.error);
      }
      fields := Set(fields, "functions", Arr(functions.value));
    }
    var messages := Get(fields, "messages");
    if messages.None? {
      return Err(MissingKey("messages"));
    }
    var normalised := RewriteEachElement(MessageStep(dumps), messages.value);
    if normalised.Err? {
      return Err(normalised.error);
    }
    fields := Set(fields, "messages", normalised.value);
    return Ok(Translated(model, fields));
  }
}
