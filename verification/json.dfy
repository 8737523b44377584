/**
 * JSON values as Python's `json.loads` produces them, and the handful of
 * Python dict, truthiness, equality and iteration operations the gateway
 * applies to them.
 *
 * An object is an ordered member list, because Python dicts keep insertion
 * order and the order reaches the caller. A Python dict never holds a key
 * twice; the operations below are written so that they agree with Python on
 * such lists (Get reads the first member with the key, Set overwrites every
 * member with the key, Pop removes every member with the key).
 */
module JsonValue {
  import opened Wrappers
  import opened Seqs

  datatype Json =
    | Null
    | Bool(b: bool)
    | Int(i: int)
    | Float(x: real)
    | Str(s: string)
    | Arr(items: seq<Json>)
    | Obj(members: seq<Member>)

  datatype Member = Member(key: string, value: Json)

  /** The keys of an object, in insertion order. */
  function Keys(ms: seq<Member>): (ks: seq<string>)
    ensures |ks| == |ms|
  {
    if ms == [] then [] else [ms[0].key] + Keys(ms[1..])
  }

  /** `d.get(k)`: the value stored under k, or None when k is not a key. */
  function Get(ms: seq<Member>, k: string): (r: Option<Json>)
    ensures r.None? <==> k !in Keys(ms)
  {
    if ms == [] then None
    else if ms[0].key == k then Some(ms[0].value)
    else Get(ms[1..], k)
  }

  /** Overwrites the value of every member whose key is k, in place. */
  function Overwrite(ms: seq<Member>, k: string, v: Json): (r: seq<Member>)
    ensures Keys(r) == Keys(ms)
    ensures k in Keys(ms) ==> Get(r, k) == Some(v)
    ensures forall k' :: k' != k ==> Get(r, k') == Get(ms, k')
  {
    if ms == [] then []
    else [if ms[0].key == k then Member(k, v) else ms[0]] + Overwrite(ms[1..], k, v)
  }

  lemma {:induction false} AppendMember(ms: seq<Member>, m: Member)
    ensures Keys(ms + [m]) == Keys(ms) + [m.key]
    ensures forall k :: Get(ms + [m], k) ==
                        if k in Keys(ms) then Get(ms, k)
                        else if k == m.key then Some(m.value) else None
  {
    if ms != [] {
      assert (ms + [m])[1..] == ms[1..] + [m];
      AppendMember(ms[1..], m);
    }
  }

  /** The keys after `d[k] = v`: unchanged when k is a key, k added last otherwise. */
  function WithKey(ks: seq<string>, k: string): seq<string> {
    if k in ks then ks else ks + [k]
  }

  /**
   * `d[k] = v`: a key already present keeps its position and takes the new
   * value; a new key goes to the end. No other key changes.
   */
  function Set(ms: seq<Member>, k: string, v: Json): (r: seq<Member>)
    ensures Get(r, k) == Some(v)
    ensures forall k' :: k' != k ==> Get(r, k') == Get(ms, k')
    ensures Keys(r) == if k in Keys(ms) then Keys(ms) else Keys(ms) + [k]
  {
    if k in Keys(ms) then Overwrite(ms, k, v)
    else
      AppendMember(ms, Member(k, v));
      ms + [Member(k, v)]
  }

  /** `d.pop(k, None)` with its result discarded: k is gone, the other keys keep their order, nothing else changes. */
  function Pop(ms: seq<Member>, k: string): (r: seq<Member>)
    ensures k !in Keys(r)
    ensures Keys(r) == Filter((k': string) => k' != k, Keys(ms))
    ensures forall k' :: k' != k ==> Get(r, k') == Get(ms, k')
    ensures k !in Keys(ms) ==> r == ms
  {
    if ms == [] then []
    else if ms[0].key == k then Pop(ms[1..], k)
    else [ms[0]] + Pop(ms[1..], k)
  }

  /** No key appears twice, as in every dict Python builds. */
  predicate DistinctKeys(ms: seq<Member>) {
    forall i, j :: 0 <= i < j < |ms| ==> ms[i].key != ms[j].key
  }

  /** The keys are the members' keys, position by position. */
  lemma {:induction false} KeysAt(ms: seq<Member>)
    ensures forall i :: 0 <= i < |ms| ==> Keys(ms)[i] == ms[i].key
  {
    if ms != [] {
      KeysAt(ms[1..]);
    }
  }

  /** With no key twice, looking up a member's key finds that member's value. */
  lemma {:induction false} GetAt(ms: seq<Member>, i: nat)
    requires DistinctKeys(ms) && i < |ms|
    ensures Get(ms, ms[i].key) == Some(ms[i].value)
  {
    if i > 0 {
      GetAt(ms[1..], i - 1);
    }
  }

  /** Python truthiness: None, False, 0, 0.0 and empty strings, lists and dicts are false. */
  predicate Truthy(j: Json) {
    match j
    case Null => false
    case Bool(b) => b
    case Int(i) => i != 0
    case Float(x) => x != 0.0
    case Str(s) => s != ""
    case Arr(items) => items != []
    case Obj(ms) => ms != []
  }

  /** Python's `j == 0`: true for 0, 0.0 and also False, since bool is a subclass of int. */
  predicate EqualsZero(j: Json) {
    j == Int(0) || j == Float(0.0) || j == Bool(false)
  }

  /**
   * What `for x in j` visits: the items of a list, the keys of a dict (as
   * strings), the one-character strings of a string. Any other value is not
   * iterable (TypeError).
   */
  function Elements(j: Json): (r: Result<seq<Json>>)
    ensures r.Ok? <==> j.Arr? || j.Obj? || j.Str?
    ensures j.Arr? ==> r == Ok(j.items)
  {
    match j
    case Arr(items) => Ok(items)
    case Obj(ms) => Ok(KeyStrings(ms))
    case Str(s) => Ok(CharStrings(s))
    case _ => Err(WrongType("iteration over a value that is not iterable"))
  }

  function KeyStrings(ms: seq<Member>): (r: seq<Json>)
    ensures |r| == |ms|
    ensures forall i :: 0 <= i < |r| ==> r[i].Str?
  {
    if ms == [] then [] else [Str(ms[0].key)] + KeyStrings(ms[1..])
  }

  function CharStrings(s: string): (r: seq<Json>)
    ensures |r| == |s|
    ensures forall i :: 0 <= i < |r| ==> r[i].Str?
  {
    if s == [] then [] else [Str([s[0]])] + CharStrings(s[1..])
  }

  /**
   * Iterating a dict or a string yields strings only, and nothing exactly
   * when the dict or string is empty (falsy).
   */
  lemma ElementsOfNonList(j: Json)
    requires !j.Arr? && Elements(j).Ok?
    ensures |Elements(j).value| == 0 <==> !Truthy(j)
    ensures forall i :: 0 <= i < |Elements(j).value| ==> Elements(j).value[i].Str?
  {
  }

  /**
   * A `for x in j:` loop whose body rewrites x in place and may raise: each
   * list element is replaced by the step's result, and the first failure
   * ends the loop. A dict or string is iterated too, but its elements are
   * strings, which the source's loop bodies cannot rewrite.
   */
  function RewriteElements(step: Json -> Result<Json>, j: Json): (r: Result<Json>)
  {
    var elems :- Elements(j);
    var out :- MapAll(step, elems);
    Ok(if j.Arr? then Arr(out) else j)
  }

  /** The step refuses every string, as every loop body of the source does. */
  ghost predicate RefusesStrings(step: Json -> Result<Json>) {
    forall s :: step(Str(s)).Err?
  }

  /**
   * For a step that refuses strings: a list keeps its length and order, its
   * element i becomes the step's result on element i, and the loop fails
   * exactly when the step fails on some element; any other value gets
   * through only when it is empty (falsy), and then unchanged.
   */
  lemma RewriteElementsRule(step: Json -> Result<Json>, j: Json)
    requires RefusesStrings(step)
    ensures j.Arr? ==>
              && (RewriteElements(step, j).Ok? <==> forall i :: 0 <= i < |j.items| ==> step(j.items[i]).Ok?)
              && (RewriteElements(step, j).Ok? ==>
                    && RewriteElements(step, j).value.Arr?
                    && |RewriteElements(step, j).value.items| == |j.items|
                    && forall i :: 0 <= i < |j.items| ==>
                         RewriteElements(step, j).value.items[i] == step(j.items[i]).value)
    ensures !j.Arr? ==> (RewriteElements(step, j).Ok? <==> (j.Obj? || j.Str?) && !Truthy(j))
    ensures !j.Arr? && RewriteElements(step, j).Ok? ==> RewriteElements(step, j).value == j
  {
    var elems := Elements(j);
    if elems.Ok? {
      MapAllOk(step, elems.value);
      if !j.Arr? {
        ElementsOfNonList(j);
        if |elems.value| > 0 {
          assert step(elems.value[0]).Err?;
        }
      }
    }
  }

  /** The loop itself, run the way the source runs it: a driver around the in-place loop `RewriteEach`. */
  method RewriteEachElement(step: Json -> Result<Json>, j: Json) returns (r: Result<Json>)
    ensures r == RewriteElements(step, j)
  {
    var elems := Elements(j);
    if elems.Err? {
      return Err(elems.error);
    }
    var out := RewriteEach(step, elems.value);
    if out.Err? {
      return Err(out.error);
    }
    return Ok(if j.Arr? then Arr(out.value) else j);
  }
}
