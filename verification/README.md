# Gpt2Giga translation core in Dafny

Gpt2Giga is a local HTTP proxy. It accepts OpenAI-style chat-completion
requests, forwards them to the GigaChat backend, and hands back GigaChat's
answer dressed as an OpenAI chat completion. All of the translation happens
in one function, `send_to_gigachat` (`gpt2giga.py`, lines 22-98). This
project models that function.

On the way in, the function does four things:

- It pops the caller's `model`, which is echoed back later.
- It forces a `temperature`: an absent or zero temperature becomes 1e-15.
- It derives `functions` from `tools`.
- It rewrites every message: `name` is dropped; a `tool` message becomes a `function` message whose content is the JSON text of its old content; a null content becomes "".

The request is then validated and sent to the backend. On the way out:

- Every null is stripped from the reply, at every depth (`remove_none`).
- Every choice is rewritten: `index` 0, `logprobs` and `message.refusal` null, and a function call re-serialised as `{name, arguments-as-JSON-text}`. In a message with a function call, an empty content becomes null and `functions_state_id` is dropped.
- The choices are wrapped in an envelope with a fresh id, the creation time in milliseconds, the echoed model, fixed usage counters and a fingerprint.

Any exception on the way makes the function return None.

The modules:

- `JsonValue` (json.dfy) defines JSON values as `json.loads` builds them, together with the Python operations the function applies to them. Dicts keep their insertion order, so an object is an ordered member list. The operations are `get`, item assignment, `pop`, truthiness, `== 0`, and `for x in v` iteration over a list, a dict or a string.
- `Seqs` (seqs.dfy) holds `Map`, `Filter`, and a fail-fast map `MapAll` that stands for a `for` loop whose body may raise. Its in-place loop `RewriteEach` is proved equal to `MapAll`.
- `NullRemoval` (remove_none.dfy) is `remove_none`. It is proved equal to the two comprehensions it is written with, to leave no null below the top, to leave null-free values alone, and to be idempotent.
- `RequestTranslation` (request.dfy) covers lines 24-42. Each step is a function with its rules proved as lemmas. The imperative methods `CollectFunctions` and `NormalizeRequest` run the steps the way the source does, in place and with its loops. They are proved to compute exactly what the functions say.
- `ResponseTranslation` (response.dfy) covers lines 60-78, the choices loop, in the same style. The null stripping of line 58 that comes before it is applied in `Gateway.Pipeline`.
- `UuidFormat` (uuid.dfy) is the text form `str(uuid)` of a 128-bit number, with its parse and a round-trip proof.
- `Gateway` (gateway.dfy) holds the envelope of lines 80-94 and the whole function as `Pipeline`/`Send`. It also holds `SendToGigachat`, the imperative version proved equal to `Send`.

Everything outside the function is a parameter:

- `Env.dumps`: the JSON text that `json.dumps` gives for a value.
- `Env.validate`: whether `Chat.parse_obj` accepts the request.
- `Env.chat`: the backend call plus the `json.loads(resp.json())` round trip. It returns None when the call raises.
- `Stamp`: the clock reading and the two numbers `uuid.uuid4()` draws.

Every exception the source raises on a malformed request or reply becomes an `Err` in the model. The exception is a `RecursionError` on a too deeply nested reply, which is listed under "## Left out". It is `MissingKey` for a `KeyError`, and `WrongType` for a `TypeError` or `AttributeError` on a value of the wrong kind. `InvalidRequest` means validation failed and `BackendFailed` means the backend call failed. `Send` maps every `Err` to None, as lines 96-98 do.

Where the code and the usual description of this gateway differ, the model follows the code:

- The code always sends a temperature, with a floor of 1e-15. It never sends `top_p`.
- It does not demote non-leading `system` messages to `user`.
- It does not require `messages` to be non-empty.
- It keeps the `function_call` convention and does not use `tool_calls`.
- An explicit `"temperature": null` is sent on as null, because None is not equal to 0.

## Model

| member | source | states |
|---|---|---|
| JsonValue.Get | gpt2giga.py:25 | `d.get(k)` is None exactly when k is not a key |
| JsonValue.Set | gpt2giga.py:28 | after `d[k] = v`, k maps to v, every other key is unchanged, an existing key keeps its position, and a new key goes last |
| JsonValue.Pop | gpt2giga.py:35 | after `d.pop(k, None)`, k is gone, the remaining keys keep their order, no other key changes, and a dict without k is left as it was |
| JsonValue.Truthy | gpt2giga.py:29 | defined as Python truthiness: None, False, 0, 0.0 and empty strings, lists and dicts are false; used at lines 29 and 66 and in the rules of `FunctionsRule` and `FunctionCallRules` |
| JsonValue.EqualsZero | gpt2giga.py:26 | defined as Python's `== 0`, which 0, 0.0 and False satisfy; its rule is stated in `ApplyTemperature` |
| JsonValue.Elements | gpt2giga.py:31 | what `for x in v` visits: Ok exactly for a list, dict or string; a list yields its items (dicts and strings: `ElementsOfNonList`) |
| JsonValue.RewriteElements | gpt2giga.py:34 | defined as a loop rewriting each element in place, the first failure ending it; its rules are proved in `RewriteElementsRule` |
| JsonValue.GetAt | gpt2giga.py:80-94 | in a dict display with distinct keys, each key looks up its own value |
| JsonValue.ElementsOfNonList | gpt2giga.py:31 | iterating a dict or string yields only strings, and yields nothing exactly when it is empty |
| JsonValue.RewriteElementsRule | gpt2giga.py:34 | a loop rewriting each element of a list keeps length and order and fails exactly when one element fails; a dict or string gets through only when empty, unchanged; anything else fails |
| JsonValue.RewriteEachElement | gpt2giga.py:34 | the in-place element loop computes exactly `RewriteElements` |
| Seqs.MapAllOk | gpt2giga.py:34-42 | a loop whose body may raise succeeds exactly when every pass does, and element i of the result is pass i's result |
| Seqs.MapAllErr | gpt2giga.py:60-78 | when such a loop fails, it fails with the error of the first element whose pass raised, all earlier passes having succeeded |
| Seqs.RewriteEach | gpt2giga.py:34-42 | the in-place loop over a list computes exactly `MapAll` |
| RequestTranslation.ApplyTemperature | gpt2giga.py:25-28 | a missing temperature, or one equal to 0 (including 0.0 and False), becomes 1e-15; any other temperature is kept; the key is always present afterwards; no other key changes |
| RequestTranslation.ToolFunction | gpt2giga.py:32-33 | one tool yields its `function` when its type is "function" and nothing otherwise; it fails when it is not a dict, lacks `type`, or is a function tool without `function` |
| RequestTranslation.FunctionsOfSelectsFunctionTools | gpt2giga.py:30-33 | the tools loop succeeds exactly when every tool is readable, and then yields the `function` payloads of the function tools, in order |
| RequestTranslation.FunctionsRule | gpt2giga.py:29-33 | `functions` is untouched when already present or when `tools` is missing or falsy; otherwise it becomes the ordered function payloads; a truthy non-list `tools` fails; no other key changes |
| RequestTranslation.FunctionsOf | gpt2giga.py:30-33 | defined as the tools loop, pass by pass; its rules are proved in `FunctionsOfSelectsFunctionTools` |
| RequestTranslation.DeriveFunctions | gpt2giga.py:29-33 | defined as the `functions` step; its rules are proved in `FunctionsRule` |
| RequestTranslation.CollectFunctions | gpt2giga.py:30-33 | the imperative append loop computes exactly `FunctionsOf` |
| RequestTranslation.NormalizeMessage | gpt2giga.py:35-42 | defined as one pass of the message loop; its rules are proved in `NormalizeMessageRules` |
| RequestTranslation.NormalizeMessageRules | gpt2giga.py:35-42 | a message is rewritten exactly when it is a dict with a role and, unless it is a tool message, a content; `name` is gone and content is never null afterwards; a tool message becomes a function message whose content is `dumps` of its old content, or of "" when it had none; other messages keep role and content, except that null becomes ""; all other keys are kept |
| RequestTranslation.MessageListRule | gpt2giga.py:34-42 | the message list keeps its length and order, message i is message i rewritten, and the loop fails exactly when some message is malformed |
| RequestTranslation.TranslateRequest | gpt2giga.py:24-42 | defined as the request steps in order, the first failure being the result; its rules are proved in `TranslateRequestModel` and `TranslateRequestFields` |
| RequestTranslation.TranslateRequestModel | gpt2giga.py:24-42 | a non-dict request, or one without `messages`, fails; otherwise `model` is removed and echoed (null when absent), `temperature` is present, and every other key except `functions` and `messages` is as sent |
| RequestTranslation.TranslateRequestFields | gpt2giga.py:24-42 | the translated temperature, functions and messages, each given in terms of what the caller sent |
| RequestTranslation.NormalizeRequest | gpt2giga.py:24-42 | the in-place request rewrite computes exactly `TranslateRequest` |
| NullRemoval.RemoveNone | gpt2giga.py:50-56 | null stays null, lists stay lists, dicts stay dicts, and scalars are returned as they are |
| NullRemoval.RemoveNoneItems | gpt2giga.py:54 | defined as the list comprehension, element by element; proved equal to it in `RemoveNoneIsComprehension` |
| NullRemoval.RemoveNoneMembers | gpt2giga.py:52 | defined as the dict comprehension, member by member; proved equal to it in `RemoveNoneIsComprehension` |
| NullRemoval.RemoveNoneIsComprehension | gpt2giga.py:51-56 | equal to the list and dict comprehensions that drop None entries and recurse, in order |
| NullRemoval.RemoveNoneLeavesNoNull | gpt2giga.py:49-56 | no null remains at any depth below the top |
| NullRemoval.RemoveNoneKeepsNullFree | gpt2giga.py:50-56 | a value with no nested null is returned unchanged |
| NullRemoval.RemoveNoneIdempotent | gpt2giga.py:58 | stripping twice is the same as stripping once |
| ResponseTranslation.RewriteFunctionCall | gpt2giga.py:66-78 | defined as the function-call branch of an assistant message; its rules are proved in `FunctionCallRules` and `ReplyMessageKeys` |
| ResponseTranslation.RewriteReplyMessage | gpt2giga.py:63-78 | defined as the rewrite of one choice's message; its rules are proved in `ReplyMessageRules`, `FunctionCallRules` and `ReplyMessageKeys` |
| ResponseTranslation.ReplyMessageRules | gpt2giga.py:63-78 | a reply message is rewritten exactly when it is a dict with a role whose truthy function call (if it is an assistant message) is a dict with `arguments` and `name`; `refusal` is null and the role is kept; every key the function-call branch does not touch is kept |
| ResponseTranslation.FunctionCallRules | gpt2giga.py:64-78 | a message that calls no function keeps everything but `refusal`; in a message that does, the function call becomes exactly `{name, arguments: dumps(arguments)}`, content "" becomes null (any other content is kept), and `functions_state_id` is dropped |
| ResponseTranslation.ReplyMessageKeys | gpt2giga.py:63-78 | `refusal`, when new, is appended last; a message that calls a function then loses `functions_state_id`; all other keys keep their order |
| ResponseTranslation.NormalizeChoice | gpt2giga.py:61-78 | defined as one pass of the choices loop; its rules are proved in `ChoiceRules` |
| ResponseTranslation.ChoiceRules | gpt2giga.py:61-78 | a choice is rewritten exactly when it is a dict whose message can be rewritten; `index` is 0 and `logprobs` is null, each appended last when new; the message is the rewritten message; all other keys are kept in their order |
| ResponseTranslation.TranslateChoices | gpt2giga.py:60-78 | defined as the choices loop over `reply["choices"]`; its rules are proved in `TranslateChoicesRule` and `ChoiceListRule` |
| ResponseTranslation.ChoiceListRule | gpt2giga.py:60-78 | the choices keep their number and order, choice i is choice i rewritten, and the loop fails exactly when some choice is malformed |
| ResponseTranslation.TranslateChoicesRule | gpt2giga.py:60 | a reply that is not a dict, or has no `choices`, fails; otherwise its `choices` go through the choices loop |
| ResponseTranslation.NormalizeChoices | gpt2giga.py:60-78 | the in-place choices loop computes exactly `TranslateChoices` |
| UuidFormat.HexRoundTrip | gpt2giga.py:81 | reading back the hexadecimal digits of a number that fits gives the number |
| UuidFormat.UuidText | gpt2giga.py:81 | `str(uuid)` is 36 characters, with hyphens at positions 8, 13, 18 and 23 and lower-case hex digits elsewhere |
| UuidFormat.UuidTextRoundTrip | gpt2giga.py:81 | the text of a UUID parses back to that UUID, so distinct UUIDs give distinct texts |
| Gateway.Truncate | gpt2giga.py:83 | `int(x)` truncates toward zero: within 1 below a non-negative x, within 1 above a negative x |
| Gateway.Usage | gpt2giga.py:86-92 | defined as the fixed usage dict; its rule is proved in `UsageAddsUp` |
| Gateway.UsageAddsUp | gpt2giga.py:86-92 | the usage counters are integers, and the total is the prompt count plus the completion count |
| Gateway.Envelope | gpt2giga.py:80-94 | defined as the result dict display; its rules are proved in `EnvelopeKeysInOrder`, `EnvelopeIsChatCompletion` and `EnvelopeStamps` |
| Gateway.EnvelopeKeysInOrder | gpt2giga.py:80-94 | the answer has exactly the keys id, object, created, model, choices, usage, system_fingerprint, in that order, each once |
| Gateway.EnvelopeIsChatCompletion | gpt2giga.py:80-94 | object is "chat.completion"; model, choices and usage are what was given |
| Gateway.EnvelopeStamps | gpt2giga.py:81-93 | the id is "chatcmpl-" followed by the text of the first UUID; the fingerprint is "fp_" followed by the text of the second; created is the clock reading in whole milliseconds |
| Gateway.AnswerIsEnvelope | gpt2giga.py:80-95 | an answer is the envelope around the caller's model (null when absent) and the translated choices of the backend's reply with its nulls removed |
| Gateway.Pipeline | gpt2giga.py:23-95 | defined as every step in order, the first exception being the result; its rules are proved in `AnswerIsEnvelope` and `SendFailures` |
| Gateway.Send | gpt2giga.py:22-98 | defined as the envelope, or None when the pipeline fails; its rules are proved in `SendAnswersIffEveryStepSucceeds`, `SendFailures` and `AnswerIsEnvelope` |
| Gateway.SendAnswersIffEveryStepSucceeds | gpt2giga.py:22-98 | the call answers exactly when translation, validation, the backend call and the choices rewrite all succeed |
| Gateway.SendFailures | gpt2giga.py:96-98 | a non-dict request, a request without messages, failed validation, a raising backend, or a reply without choices gives None |
| Gateway.SendToGigachat | gpt2giga.py:22-98 | the step-by-step function computes exactly `Send` |

## Left out

- The HTTP handler, the threaded server and the command line (lines 101-224) are not part of this model. That includes the observation that when `send_to_gigachat` returns None, the handler still answers 200 with the JSON body `null` (lines 132-142).
- The `stream` flag, which the handler pops before the call, is not part of this model.
- NullRemoval.RemoveNone: always succeeds. The source's `remove_none` recurses once per nesting level, so a reply nested deeper than Python's recursion limit raises `RecursionError` there, and the function returns None (lines 50-56 and 96-98). The model has no recursion limit, so `Send` answers such a reply.
- Logging (line 97) is left out, because it has no effect on the result.
- The text `json.dumps` produces is the parameter `Env.dumps`. Its exact formatting, including `ensure_ascii=False`, is not modelled.
- `Chat.parse_obj` is reduced to the yes/no predicate `Env.validate`. Pydantic's coercion and the dropping of unknown fields are not modelled: the backend is handed the translated request itself.
- `giga.chat` and the `json.loads(resp.json())` round trip are the parameter `Env.chat`. The client's authentication, retries and TLS are outside the function.
- `uuid.uuid4()` and `time.time()` are parameters. Any 128-bit number is accepted as a UUID; the version and variant bits that uuid4 fixes are not enforced.
- Gateway.Truncate: floating-point rounding of `time.time() * 1000` is not modelled. Numbers are exact reals and integers, and NaN and the infinities are left out.
- Python mutates the caller's request dict and the reply dict in place, and the caller's dict stays changed afterwards. The model works on values, so this aliasing is not captured. The imperative methods mirror the in-place steps on local copies.
- Duplicate keys cannot occur in a Python dict. The member-list operations agree with Python on lists without duplicates and are not claimed to mean anything more for lists with duplicates.
- The order in which an exception is raised inside one loop pass matters only for which error is reported. The model reports the first failing key in source order, and `Send` discards it.
