/**
 * `send_to_gigachat` (gpt2giga.py, lines 22-98) end to end: translate the
 * caller's OpenAI-style request, validate it, hand it to the GigaChat
 * backend, strip the nulls from the reply, rewrite its choices, and wrap them
 * in an OpenAI chat-completion envelope. Any exception on the way makes the
 * whole call return None.
 *
 * What the source reaches outside itself for is a parameter here: the JSON
 * text of a value (`json.dumps`), the request validation (`Chat.parse_obj`),
 * the backend call with its JSON round trip, the clock and the two UUIDs.
 */
module Gateway {
  import opened Wrappers
  import opened JsonValue
  import opened NullRemoval
  import opened RequestTranslation
  import opened ResponseTranslation
  import opened UuidFormat

  /**
   * The world outside the function: `dumps` gives the JSON text of a value,
   * `validate` says whether the request passes validation, and `chat` is the
   * backend's reply as a JSON value, or None when the call raised.
   */
  datatype Env = Env(
    dumps: Json -> string,
    validate: seq<Member> -> bool,
    chat: seq<Member> -> Option<Json>)

  /** The clock reading in seconds and the two random UUIDs the envelope is stamped with. */
  datatype Stamp = Stamp(now: real, completion: Uuid, fingerprint: Uuid)

  /** Python's `int(x)` on a number: truncation toward zero. */
  function Truncate(x: real): (r: int)
    ensures 0.0 <= x ==> r as real <= x < r as real + 1.0
    ensures x < 0.0 ==> r as real - 1.0 < x <= r as real
  {
    if x >= 0.0 then x.Floor else -((-x).Floor)
  }

  /** Lines 86-92: the fixed token counts the gateway always reports. */
  function Usage(): Json {
    Obj([
      Member("prompt_tokens", Int(10)),
      Member("completion_tokens", Int(10)),
      Member("total_tokens", Int(20)),
      Member("prompt_tokens_details", Obj([Member("cached_tokens", Int(0))])),
      Member("completion_tokens_details", Obj([Member("reasoning_tokens", Int(0))]))])
  }

  const EnvelopeKeys: seq<string> := ["id", "object", "created", "model", "choices", "usage", "system_fingerprint"]

  /** Lines 80-94: the chat-completion envelope around the rewritten choices. */
  function Envelope(model: Json, choices: Json, stamp: Stamp): Json {
    Obj([
      Member("id", Str("chatcmpl-" + UuidText(stamp.completion))),
      Member("object", Str("chat.completion")),
      Member("created", Int(Truncate(stamp.now * 1000.0))),
      Member("model", model),
      Member("choices", choices),
      Member("usage", Usage()),
      Member("system_fingerprint", Str("fp_" + UuidText(stamp.fingerprint)))])
  }

  /** Lines 23-95: every step in order; the first exception is the Err. */
  function Pipeline(env: Env, data: Json, stamp: Stamp): (r: Result<Json>)
  {
    var translated :- TranslateRequest(env.dumps, data);
    if !env.validate(translated.request) then Err(InvalidRequest)
    else
      match env.chat(translated.request)
      case None => Err(BackendFailed)
      case Some(reply) =>
        var choices :- TranslateChoices(env.dumps, RemoveNone(reply));
        Ok(Envelope(translated.model, choices, stamp))
  }

  /** Lines 22-98: the envelope, or None when anything raised (lines 96-98). */
  function Send(env: Env, data: Json, stamp: Stamp): Option<Json> {
    match Pipeline(env, data, stamp)
    case Ok(result) => Some(result)
    case Err(_) => None
  }

  /**
   * The call answers exactly when every step succeeds: the request
   * translates, passes validation, the backend replies, and the reply's
   * choices can be rewritten.
   */
  lemma SendAnswersIffEveryStepSucceeds(env: Env, data: Json, stamp: Stamp)
    ensures Send(env, data, stamp).Some? <==>
              var t := TranslateRequest(env.dumps, data);
              && t.Ok?
              && env.validate(t.value.request)
              && env.chat(t.value.request).Some?
              && TranslateChoices(env.dumps, RemoveNone(env.chat(t.value.request).value)).Ok?
  {
  }

  /**
   * The ways the call gives None: a request that is not a dict or has no
   * `messages`, a request that fails validation, a backend that raises, and
   * a reply without `choices` once its nulls are gone.
   */
  lemma SendFailures(env: Env, data: Json, stamp: Stamp)
    ensures !data.Obj? ==> Send(env, data, stamp).None?
    ensures data.Obj? && "messages" !in Keys(data.members) ==> Send(env, data, stamp).None?
    ensures var t := TranslateRequest(env.dumps, data);
            t.Ok? && !env.validate(t.value.request) ==> Send(env, data, stamp).None?
    ensures var t := TranslateRequest(env.dumps, data);
            t.Ok? && env.validate(t.value.request) && env.chat(t.value.request).None? ==>
              Send(env, data, stamp).None?
    ensures var t := TranslateRequest(env.dumps, data);
            t.Ok? && env.validate(t.value.request) && env.chat(t.value.request).Some? ==>
              var reply := RemoveNone(env.chat(t.value.request).value);
              (reply.Obj? && "choices" !in Keys(reply.members) ==> Send(env, data, stamp).None?)
  {
    TranslateRequestModel(env.dumps, data);
    var t := TranslateRequest(env.dumps, data);
    if t.Ok? && env.validate(t.value.request) && env.chat(t.value.request).Some? {
      TranslateChoicesRule(env.dumps, RemoveNone(env.chat(t.value.request).value));
    }
  }

  /** The envelope's keys are the seven keys of a chat completion, in order, each once. */
  lemma EnvelopeKeysInOrder(model: Json, choices: Json, stamp: Stamp)
    ensures Envelope(model, choices, stamp).Obj?
    ensures Keys(Envelope(model, choices, stamp).members) == EnvelopeKeys
    ensures DistinctKeys(Envelope(model, choices, stamp).members)
  {
    var ms := Envelope(model, choices, stamp).members;
    KeysAt(ms);
    assert |Keys(ms)| == |EnvelopeKeys|;
    forall i | 0 <= i < |EnvelopeKeys| ensures Keys(ms)[i] == EnvelopeKeys[i] {
    }
  }

  /**
   * The envelope is a chat completion: the object kind, the model and
   * choices it was given, and the usage.
   */
  lemma EnvelopeIsChatCompletion(model: Json, choices: Json, stamp: Stamp)
    ensures var e := Envelope(model, choices, stamp);
            && e.Obj?
            && Get(e.members, "object") == Some(Str("chat.completion"))
            && Get(e.members, "model") == Some(model)
            && Get(e.members, "choices") == Some(choices)
    ensures var e := Envelope(model, choices, stamp);
            e.Obj? && Get(e.members, "usage") == Some(Usage())
  {
    var ms := Envelope(model, choices, stamp).members;
    EnvelopeKeysInOrder(model, choices, stamp);
    GetAt(ms, 1);
    GetAt(ms, 3);
    GetAt(ms, 4);
    GetAt(ms, 5);
  }

  /** The reported usage: its total is the sum of the prompt and completion counts. */
  lemma UsageAddsUp()
    ensures Usage().Obj?
    ensures var u := Usage().members;
            && Get(u, "prompt_tokens").Some? && Get(u, "prompt_tokens").value.Int?
            && Get(u, "completion_tokens").Some? && Get(u, "completion_tokens").value.Int?
            && Get(u, "total_tokens") ==
                 Some(Int(Get(u, "prompt_tokens").value.i + Get(u, "completion_tokens").value.i))
  {
    var us := Usage().members;
    assert DistinctKeys(us);
    GetAt(us, 0);
    GetAt(us, 1);
    GetAt(us, 2);
  }

  /**
   * The envelope's stamps: an id "chatcmpl-" followed by the text of the
   * first UUID, a fingerprint "fp_" followed by the text of the second, and
   * the clock reading in whole milliseconds.
   */
  lemma EnvelopeStamps(model: Json, choices: Json, stamp: Stamp)
    ensures var e := Envelope(model, choices, stamp);
            && e.Obj? && Get(e.members, "id").Some?
            && var id := Get(e.members, "id").value;
               && id.Str? && |id.s| == 45 && id.s[..9] == "chatcmpl-"
               && ParseUuidText(id.s[9..]) == Some(stamp.completion)
    ensures var e := Envelope(model, choices, stamp);
            && e.Obj? && Get(e.members, "system_fingerprint").Some?
            && var fp := Get(e.members, "system_fingerprint").value;
               && fp.Str? && |fp.s| == 39 && fp.s[..3] == "fp_"
               && ParseUuidText(fp.s[3..]) == Some(stamp.fingerprint)
    ensures var e := Envelope(model, choices, stamp);
            && e.Obj? && Get(e.members, "created").Some?
            && var created := Get(e.members, "created").value;
               && created.Int?
               && (0.0 <= stamp.now ==> created.i as real <= stamp.now * 1000.0 < created.i as real + 1.0)
  {
    var ms := Envelope(model, choices, stamp).members;
    EnvelopeKeysInOrder(model, choices, stamp);
    GetAt(ms, 0);
    GetAt(ms, 2);
    GetAt(ms, 6);
    var id := UuidText(stamp.completion);
    var fp := UuidText(stamp.fingerprint);
    assert ("chatcmpl-" + id)[9..] == id;
    assert ("fp_" + fp)[3..] == fp;
    UuidTextRoundTrip(stamp.completion);
    UuidTextRoundTrip(stamp.fingerprint);
  }

  /**
   * An answer is the envelope around the caller's model (null when it sent
   * none) and the backend's choices, with their nulls removed, rewritten.
   */
  lemma AnswerIsEnvelope(env: Env, data: Json, stamp: Stamp)
    ensures Send(env, data, stamp).Some? ==>
              var t := TranslateRequest(env.dumps, data);
              && data.Obj?
              && t.Ok? && env.validate(t.value.request) && env.chat(t.value.request).Some?
              && var reply := RemoveNone(env.chat(t.value.request).value);
                 && TranslateChoices(env.dumps, reply).Ok?
                 && Send(env, data, stamp).value ==
                      Envelope(Get(data.members, "model").GetOr(Null), TranslateChoices(env.dumps, reply).value, stamp)
  {
    TranslateRequestModel(env.dumps, data);
  }

  /** Lines 22-98 as the source runs them, step by step: a driver around `NormalizeRequest` and `NormalizeChoices`. */
  method SendToGigachat(env: Env, data: Json, stamp: Stamp) returns (result: Option<Json>)
    ensures result == Send(env, data, stamp)
  {
    var translated := NormalizeRequest(env.dumps, data);
    if translated.Err? {
      return None;
    }
    if !env.validate(translated.value.request) {
      return None;
    }
    var reply := env.chat(translated.value.request);
    if reply.None? {
      return None;
    }
    var choices := NormalizeChoices(env.dumps, RemoveNone(reply.value));
    if choices.Err? {
      return None;
    }
    return Some(Envelope(translated.value.model, choices.value, stamp));
  }
}
