/** Sequence combinators: the reference definitions the translation loops are checked against. */
module Seqs {
  import opened Wrappers

  /** `[f(x) for x in s]` */
  function Map<T, U>(f: T -> U, s: seq<T>): (r: seq<U>)
    ensures |r| == |s|
    ensures forall i :: 0 <= i < |s| ==> r[i] == f(s[i])
  {
    seq(|s|, i requires 0 <= i < |s| => f(s[i]))
  }

  /** `[x for x in s if keep(x)]` */
  function Filter<T>(keep: T -> bool, s: seq<T>): (r: seq<T>)
    ensures |r| <= |s|
    ensures forall x :: x in r ==> x in s && keep(x)
  {
    if s == [] then []
    else if keep(s[0]) then [s[0]] + Filter(keep, s[1..])
    else Filter(keep, s[1..])
  }

  /**
   * Applies a step that may fail to every element in order, as a `for` loop
   * whose body may raise: the first failure is the result.
   */
  function MapAll<T>(f: T -> Result<T>, s: seq<T>): (r: Result<seq<T>>)
  {
    if s == [] then Ok([])
    else
      var x :- f(s[0]);
      var rest :- MapAll(f, s[1..]);
      Ok([x] + rest)
  }

  /** `done` followed by what a later step produced, or that step's failure. */
  function Prepend<T>(done: seq<T>, rest: Result<seq<T>>): (r: Result<seq<T>>)
    ensures r.Ok? <==> rest.Ok?
    ensures r.Ok? ==> r.value == done + rest.value
    ensures r.Err? ==> r.error == rest.error
  {
    match rest
    case Ok(v) => Ok(done + v)
    case Err(e) => Err(e)
  }

  /**
   * MapAll succeeds exactly when the step succeeds on every element, and then
   * keeps the length and order: element i of the result is the step's result
   * on element i.
   */
  lemma {:induction false} MapAllOk<T>(f: T -> Result<T>, s: seq<T>)
    ensures MapAll(f, s).Ok? <==> forall i :: 0 <= i < |s| ==> f(s[i]).Ok?
    ensures MapAll(f, s).Ok? ==>
              |MapAll(f, s).value| == |s| &&
              forall i :: 0 <= i < |s| ==> MapAll(f, s).value[i] == f(s[i]).value
  {
    if s != [] {
      MapAllOk(f, s[1..]);
      assert forall i :: 1 <= i < |s| ==> s[i] == s[1..][i - 1];
    }
  }

  /** When MapAll fails, it reports the failure of the first element the step refuses. */
  lemma {:induction false} MapAllErr<T>(f: T -> Result<T>, s: seq<T>)
    requires MapAll(f, s).Err?
    ensures exists i :: 0 <= i < |s| && f(s[i]) == Err(MapAll(f, s).error) &&
                        forall j :: 0 <= j < i ==> f(s[j]).Ok?
  {
    if f(s[0]).Err? {
      assert f(s[0]) == Err(MapAll(f, s).error);
    } else {
      MapAllErr(f, s[1..]);
      var i :| 0 <= i < |s[1..]| && f(s[1..][i]) == Err(MapAll(f, s[1..]).error) &&
                forall j :: 0 <= j < i ==> f(s[1..][j]).Ok?;
      assert f(s[i + 1]) == Err(MapAll(f, s).error);
      forall j | 0 <= j < i + 1 ensures f(s[j]).Ok? {
        if j > 0 { assert s[j] == s[1..][j - 1]; }
      }
    }
  }

  /**
   * The invariant shape of a loop that runs MapAll one element at a time:
   * having done the elements before i, what is left is MapAll on the rest.
   */
  lemma MapAllStep<T>(f: T -> Result<T>, s: seq<T>, i: nat)
    requires i < |s|
    ensures f(s[i]).Err? ==> MapAll(f, s[i..]) == Err(f(s[i]).error)
    ensures f(s[i]).Ok? ==> MapAll(f, s[i..]) == Prepend([f(s[i]).value], MapAll(f, s[i + 1..]))
  {
    assert s[i..][0] == s[i];
    assert s[i..][1..] == s[i + 1..];
  }

  /** Prepending twice is prepending the concatenation. */
  lemma PrependTwice<T>(a: seq<T>, b: seq<T>, rest: Result<seq<T>>)
    ensures Prepend(a, Prepend(b, rest)) == Prepend(a + b, rest)
  {
    if rest.Ok? {
      assert a + (b + rest.value) == (a + b) + rest.value;
    }
  }

  lemma PrependNothing<T>(rest: Result<seq<T>>)
    ensures Prepend([], rest) == rest
  {
    if rest.Ok? {
      assert [] + rest.value == rest.value;
    }
  }

  /**
   * A `for x in s:` loop whose body rewrites x where it stands and may raise:
   * element i is replaced by f's result on it, and the first failure ends
   * the loop.
   */
  method RewriteEach<T>(f: T -> Result<T>, s: seq<T>) returns (r: Result<seq<T>>)
    ensures r == MapAll(f, s)
  {
    var items := s;
    var i := 0;
    assert s[0..] == s;
    PrependNothing(MapAll(f, s));
    while i < |items|
      invariant 0 <= i <= |items| == |s|
      invariant items[i..] == s[i..]
      invariant MapAll(f, s) == Prepend(items[..i], MapAll(f, s[i..]))
    {
      assert items[i] == items[i..][0] == s[i];
      MapAllStep(f, s, i);
      var rewritten := f(items[i]);
      if rewritten.Err? {
        return Err(rewritten.error);
      }
      PrependTwice(items[..i], [rewritten.value], MapAll(f, s[i + 1..]));
      ghost var before := items;
      items := items[i := rewritten.value];
      assert items[..i + 1] == before[..i] + [rewritten.value];
      assert items[i + 1..] == before[i + 1..] == before[i..][1..];
      i := i + 1;
    }
    assert s[i..] == [] && items[..i] == items && items + [] == items;
    return Ok(items);
  }
}
