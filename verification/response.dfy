/**
 * The response half of `send_to_gigachat` (gpt2giga.py, lines 60-78): the
 * backend's reply, with its nulls already removed, has each of its choices rewritten
 * in place into the shape the caller's client library expects.
 */
module ResponseTranslation {
  import opened Wrappers
  import opened JsonValue
  import opened Seqs
  import opened NullRemoval

  /** The message calls a function: it is an assistant message with a truthy `function_call`. */
  predicate CallsFunction(m: seq<Member>) {
    Get(m, "role") == Some(Str("assistant")) && Truthy(Get(m, "function_call").GetOr(Null))
  }

  /** A message the loop can rewrite: a dict with a role whose function call, if any, is a dict with `name` and `arguments`. */
  predicate ReplyMessageShaped(msg: Json) {
    && msg.Obj?
    && "role" in Keys(msg.members)
    && (CallsFunction(msg.members) ==>
          var call := Get(msg.members, "function_call").value;
          call.Obj? && "arguments" in Keys(call.members) && "name" in Keys(call.members))
  }

  /**
   * Lines 66-78, for an assistant message: a truthy function call is
   * replaced by exactly its name and its arguments as JSON text, an empty
   * content becomes null and the backend's `functions_state_id` goes.
   */
  function RewriteFunctionCall(dumps: Json -> string, m: seq<Member>): (r: Result<seq<Member>>)
  {
    var call := Get(m, "function_call").GetOr(Null);
    if !Truthy(call) then Ok(m)
    else if !call.Obj? then Err(WrongType("function_call is not a dict"))
    else
      match Get(call.members, "arguments")
      case None => Err(MissingKey("arguments"))
      case Some(arguments) =>
        match Get(call.members, "name")
        case None => Err(MissingKey("name"))
        case Some(name) =>
          var m1 := Set(m, "function_call", Obj([Member("name", name), Member("arguments", Str(dumps(arguments)))]));
          var m2 := if Get(m1, "content") == Some(Str("")) then Set(m1, "content", Null) else m1;
          Ok(Set(Pop(m2, "functions_state_id"), "refusal", Null))
  }

  /** Lines 63-78: the `message` of one choice. */
  function RewriteReplyMessage(dumps: Json -> string, msg: Json): (r: Result<Json>)
  {
    if !msg.Obj? then Err(WrongType("message is not a dict"))
    else
      var m := Set(msg.members, "refusal", Null);
      match Get(m, "role")
      case None => Err(MissingKey("role"))
      case Some(role) =>
        var m' :- if role == Str("assistant") then RewriteFunctionCall(dumps, m) else Ok(m);
        Ok(Obj(m'))
  }

  /**
   * The message rules. The message is rewritten exactly when it is
   * readable; afterwards `refusal` is null, the role is kept, and every key
   * the function-call branch does not touch is kept.
   */
  lemma ReplyMessageRules(dumps: Json -> string, msg: Json)
    ensures var r := RewriteReplyMessage(dumps, msg);
      && (r.Ok? <==> ReplyMessageShaped(msg))
      && (r.Ok? ==>
            var out := r.value.members;
            && r.value.Obj?
            && Get(out, "refusal") == Some(Null)
            && Get(out, "role") == Get(msg.members, "role")
            && forall k :: k != "refusal" && k != "function_call" && k != "content" && k != "functions_state_id" ==>
                 Get(out, k) == Get(msg.members, k))
  {
  }

  /**
   * A message that calls no function keeps everything but `refusal`. A
   * message that calls a function gets a `function_call` with exactly `name`
   * and `arguments`, in that order, the arguments being the JSON text of the
   * old ones; its content "" becomes null, any other content is kept, and
   * `functions_state_id` is gone.
   */
  lemma FunctionCallRules(dumps: Json -> string, msg: Json)
    ensures var r := RewriteReplyMessage(dumps, msg);
      r.Ok? && !CallsFunction(msg.members) ==>
        forall k :: k != "refusal" ==> Get(r.value.members, k) == Get(msg.members, k)
    ensures var r := RewriteReplyMessage(dumps, msg);
      r.Ok? && CallsFunction(msg.members) ==>
        var call := Get(msg.members, "function_call").value.members;
        var out := r.value.members;
        && Get(out, "function_call") ==
             Some(Obj([Member("name", Get(call, "name").value),
                       Member("arguments", Str(dumps(Get(call, "arguments").value)))]))
        && Get(out, "content") ==
             (if Get(msg.members, "content") == Some(Str("")) then Some(Null) else Get(msg.members, "content"))
        && "functions_state_id" !in Keys(out)
  {
  }

  /**
   * The order of the message's keys: `refusal`, when new, goes last; a
   * message that calls a function then loses `functions_state_id`, and the
   * other keys keep their places.
   */
  lemma ReplyMessageKeys(dumps: Json -> string, msg: Json)
    ensures var r := RewriteReplyMessage(dumps, msg);
      r.Ok? && !CallsFunction(msg.members) ==>
        Keys(r.value.members) == WithKey(Keys(msg.members), "refusal")
    ensures var r := RewriteReplyMessage(dumps, msg);
      r.Ok? && CallsFunction(msg.members) ==>
        Keys(r.value.members) == Filter((k: string) => k != "functions_state_id", WithKey(Keys(msg.members), "refusal"))
  {
    if msg.Obj? && RewriteReplyMessage(dumps, msg).Ok? && CallsFunction(msg.members) {
      var m := Set(msg.members, "refusal", Null);
      assert Get(m, "role") == Get(msg.members, "role");
      assert Get(m, "function_call") == Get(msg.members, "function_call");
      var call := Get(m, "function_call").value;
      var name := Get(call.members, "name").value;
      var arguments := Get(call.members, "arguments").value;
      var m1 := Set(m, "function_call", Obj([Member("name", name), Member("arguments", Str(dumps(arguments)))]));
      assert Keys(m1) == Keys(m);
      var m2 := if Get(m1, "content") == Some(Str("")) then Set(m1, "content", Null) else m1;
      assert Keys(m2) == Keys(m1);
      var p := Pop(m2, "functions_state_id");
      assert Get(p, "refusal") == Some(Null);
      assert RewriteReplyMessage(dumps, msg).value.members == Set(p, "refusal", Null);
    }
  }

  /** Lines 61-78: one pass of the choices loop. */
  function NormalizeChoice(dumps: Json -> string, c: Json): (r: Result<Json>)
  {
    if !c.Obj? then Err(WrongType("choice is not a dict"))
    else
      var cs := Set(Set(c.members, "index", Int(0)), "logprobs", Null);
      match Get(cs, "message")
      case None => Err(MissingKey("message"))
      case Some(msg) =>
        var msg' :- RewriteReplyMessage(dumps, msg);
        Ok(Obj(Set(cs, "message", msg')))
  }

  predicate ChoiceShaped(c: Json) {
    c.Obj? && "message" in Keys(c.members) && ReplyMessageShaped(Get(c.members, "message").value)
  }

  /**
   * The choice rules: a choice is rewritten exactly when it is readable;
   * afterwards `index` is 0, `logprobs` is null, the message is the rewritten
   * message, and every other key is kept.
   */
  lemma ChoiceRules(dumps: Json -> string, c: Json)
    ensures var r := NormalizeChoice(dumps, c);
      && (r.Ok? <==> ChoiceShaped(c))
      && (r.Ok? ==>
            var out := r.value.members;
            && r.value.Obj?
            && Get(out, "index") == Some(Int(0))
            && Get(out, "logprobs") == Some(Null)
            && Keys(out) == WithKey(WithKey(Keys(c.members), "index"), "logprobs")
            && Get(out, "message") == Some(RewriteReplyMessage(dumps, Get(c.members, "message").value).value)
            && forall k :: k != "index" && k != "logprobs" && k != "message" ==> Get(out, k) == Get(c.members, k))
  {
    if c.Obj? {
      var cs := Set(Set(c.members, "index", Int(0)), "logprobs", Null);
      assert Get(cs, "message") == Get(c.members, "message");
      if "message" in Keys(c.members) {
        ReplyMessageRules(dumps, Get(c.members, "message").value);
      }
    }
  }

  function ChoiceStep(dumps: Json -> string): Json -> Result<Json> {
    c => NormalizeChoice(dumps, c)
  }

  /** Lines 60-78 as one function: the rewritten `choices` of a reply, or why it could not be rewritten. */
  function TranslateChoices(dumps: Json -> string, reply: Json): (r: Result<Json>)
  {
    if !reply.Obj? then Err(WrongType("reply is not a dict"))
    else
      match Get(reply.members, "choices")
      case None => Err(MissingKey("choices"))
      case Some(choices) => RewriteElements(ChoiceStep(dumps), choices)
  }

  /**
   * The choices rule: the number and order of choices is kept, choice i of
   * the result is choice i rewritten, and the loop fails exactly when some
   * choice cannot be rewritten.
   */
  lemma ChoiceListRule(dumps: Json -> string, choices: Json)
    ensures choices.Arr? ==>
              var r := RewriteElements(ChoiceStep(dumps), choices);
              && (r.Ok? <==> forall i :: 0 <= i < |choices.items| ==> ChoiceShaped(choices.items[i]))
              && (r.Ok? ==>
                    && r.value.Arr? && |r.value.items| == |choices.items|
                    && forall i :: 0 <= i < |choices.items| ==>
                         NormalizeChoice(dumps, choices.items[i]).Ok? &&
                         r.value.items[i] == NormalizeChoice(dumps, choices.items[i]).value)
    ensures !choices.Arr? && RewriteElements(ChoiceStep(dumps), choices).Ok? ==>
              !Truthy(choices) && RewriteElements(ChoiceStep(dumps), choices).value == choices
  {
    forall s ensures ChoiceStep(dumps)(Str(s)).Err? {
      ChoiceRules(dumps, Str(s));
    }
    RewriteElementsRule(ChoiceStep(dumps), choices);
    if choices.Arr? {
      forall i | 0 <= i < |choices.items|
        ensures ChoiceStep(dumps)(choices.items[i]).Ok? <==> ChoiceShaped(choices.items[i])
      {
        ChoiceRules(dumps, choices.items[i]);
      }
    }
  }

  /**
   * A reply without `choices` (or not a dict) fails; a reply whose choices
   * form a list gets every choice rewritten, in order, and fails exactly when
   * one of them cannot be rewritten; any other `choices` value gets through
   * only when it is empty.
   */
  lemma TranslateChoicesRule(dumps: Json -> string, reply: Json)
    ensures !reply.Obj? ==> TranslateChoices(dumps, reply).Err?
    ensures reply.Obj? && "choices" !in Keys(reply.members) ==> TranslateChoices(dumps, reply) == Err(MissingKey("choices"))
    ensures reply.Obj? && "choices" in Keys(reply.members) ==>
              TranslateChoices(dumps, reply) == RewriteElements(ChoiceStep(dumps), Get(reply.members, "choices").value)
  {
  }

  /** The choices loop of lines 60-78, rewriting each choice where it stands: a driver around `RewriteEachElement`. */
  method NormalizeChoices(dumps: Json -> string, reply: Json) returns (r: Result<Json>)
    ensures r == TranslateChoices(dumps, reply)
  {
    if !reply.Obj? {
      return Err(WrongType("reply is not a dict"));
    }
    var choices := Get(reply.members, "choices");
    if choices.None? {
      return Err(MissingKey("choices"));
    }
    r := RewriteEachElement(ChoiceStep(dumps), choices.value);
  }
}
