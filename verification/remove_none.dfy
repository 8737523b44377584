/**
 * The nested `remove_none` of `send_to_gigachat`: drops every null-valued
 * dict entry and every null list element, at every depth, and leaves
 * everything else, in its order, where it was.
 */
module NullRemoval {
  import opened JsonValue
  import opened Seqs

  function RemoveNone(j: Json): (r: Json)
    ensures r == Null <==> j == Null
    ensures r.Arr? <==> j.Arr?
    ensures r.Obj? <==> j.Obj?
    ensures !j.Arr? && !j.Obj? ==> r == j
    decreases j, 1
  {
    match j
    case Arr(items) => Arr(RemoveNoneItems(items))
    case Obj(ms) => Obj(RemoveNoneMembers(ms))
    case _ => j
  }

  function RemoveNoneItems(items: seq<Json>): (r: seq<Json>)
    decreases items, 0
  {
    if items == [] then []
    else if items[0] == Null then RemoveNoneItems(items[1..])
    else [RemoveNone(items[0])] + RemoveNoneItems(items[1..])
  }

  function RemoveNoneMembers(ms: seq<Member>): (r: seq<Member>)
    decreases ms, 0
  {
    if ms == [] then []
    else if ms[0].value == Null then RemoveNoneMembers(ms[1..])
    else [Member(ms[0].key, RemoveNone(ms[0].value))] + RemoveNoneMembers(ms[1..])
  }

  /** No null anywhere below the top of j (the top itself may be null). */
  ghost predicate NoNestedNull(j: Json) {
    match j
    case Arr(items) => forall i :: 0 <= i < |items| ==> items[i] != Null && NoNestedNull(items[i])
    case Obj(ms) => forall i :: 0 <= i < |ms| ==> ms[i].value != Null && NoNestedNull(ms[i].value)
    case _ => true
  }

  predicate IsNotNull(j: Json) { j != Null }

  predicate HasValue(m: Member) { m.value != Null }

  function RemoveNoneInMember(m: Member): Member { Member(m.key, RemoveNone(m.value)) }

  /**
   * Reference definition: the comprehensions
   * `[remove_none(v) for v in d if v is not None]` and
   * `{k: remove_none(v) for k, v in d.items() if v is not None}`,
   * one level at a time.
   */
  lemma {:induction false} RemoveNoneIsComprehension(j: Json)
    ensures j.Arr? ==> RemoveNone(j) == Arr(Map(RemoveNone, Filter(IsNotNull, j.items)))
    ensures j.Obj? ==> RemoveNone(j) == Obj(Map(RemoveNoneInMember, Filter(HasValue, j.members)))
    ensures !j.Arr? && !j.Obj? ==> RemoveNone(j) == j
  {
    match j
    case Arr(items) => ItemsAreComprehension(items);
    case Obj(ms) => MembersAreComprehension(ms);
    case _ =>
  }

  lemma {:induction false} ItemsAreComprehension(items: seq<Json>)
    ensures RemoveNoneItems(items) == Map(RemoveNone, Filter(IsNotNull, items))
  {
    if items != [] {
      ItemsAreComprehension(items[1..]);
    }
  }

  lemma {:induction false} MembersAreComprehension(ms: seq<Member>)
    ensures RemoveNoneMembers(ms) == Map(RemoveNoneInMember, Filter(HasValue, ms))
  {
    if ms != [] {
      MembersAreComprehension(ms[1..]);
    }
  }

  /** The result holds no null at any depth below the top. */
  lemma {:induction false} RemoveNoneLeavesNoNull(j: Json)
    ensures NoNestedNull(RemoveNone(j))
    decreases j, 1
  {
    match j
    case Arr(items) => ItemsLeaveNoNull(items);
    case Obj(ms) => MembersLeaveNoNull(ms);
    case _ =>
  }

  lemma {:induction false} ItemsLeaveNoNull(items: seq<Json>)
    ensures forall i :: 0 <= i < |RemoveNoneItems(items)| ==>
              RemoveNoneItems(items)[i] != Null && NoNestedNull(RemoveNoneItems(items)[i])
    decreases items, 0
  {
    if items != [] {
      ItemsLeaveNoNull(items[1..]);
      if items[0] != Null {
        RemoveNoneLeavesNoNull(items[0]);
      }
    }
  }

  lemma {:induction false} MembersLeaveNoNull(ms: seq<Member>)
    ensures forall i :: 0 <= i < |RemoveNoneMembers(ms)| ==>
              RemoveNoneMembers(ms)[i].value != Null && NoNestedNull(RemoveNoneMembers(ms)[i].value)
    decreases ms, 0
  {
    if ms != [] {
      MembersLeaveNoNull(ms[1..]);
      if ms[0].value != Null {
        RemoveNoneLeavesNoNull(ms[0].value);
      }
    }
  }

  /** A value with no nested null is left exactly as it is. */
  lemma {:induction false} RemoveNoneKeepsNullFree(j: Json)
    requires NoNestedNull(j)
    ensures RemoveNone(j) == j
    decreases j, 1
  {
    match j
    case Arr(items) => NullFreeItemsKept(items);
    case Obj(ms) => NullFreeMembersKept(ms);
    case _ =>
  }

  lemma {:induction false} NullFreeItemsKept(items: seq<Json>)
    requires forall i :: 0 <= i < |items| ==> items[i] != Null && NoNestedNull(items[i])
    ensures RemoveNoneItems(items) == items
    decreases items, 0
  {
    if items != [] {
      RemoveNoneKeepsNullFree(items[0]);
      NullFreeItemsKept(items[1..]);
    }
  }

  lemma {:induction false} NullFreeMembersKept(ms: seq<Member>)
    requires forall i :: 0 <= i < |ms| ==> ms[i].value != Null && NoNestedNull(ms[i].value)
    ensures RemoveNoneMembers(ms) == ms
    decreases ms, 0
  {
    if ms != [] {
      RemoveNoneKeepsNullFree(ms[0].value);
      NullFreeMembersKept(ms[1..]);
    }
  }

  /** Applying remove_none twice is the same as applying it once. */
  lemma RemoveNoneIdempotent(j: Json)
    ensures RemoveNone(RemoveNone(j)) == RemoveNone(j)
  {
    RemoveNoneLeavesNoNull(j);
    RemoveNoneKeepsNullFree(RemoveNone(j));
  }
}
