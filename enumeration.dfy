/** Dense enumeration over a sparse identifier range: `count` is the number of
    identifiers in [lo, hi] that are active, and `at(i)` is the i-th active
    identifier in ascending order, or -1. Every count/at pair of the binding
    layer (keys, mouse buttons, joystick slots, gamepad buttons) is an instance. */
module Enumeration {

  /** The active identifiers of [lo, hi], in ascending order. */
  function Actives(lo: int, hi: int, active: int -> bool): (r: seq<int>)
    ensures lo <= hi + 1 ==> |r| <= hi - lo + 1
    ensures forall k :: 0 <= k < |r| ==> lo <= r[k] <= hi && active(r[k])
    ensures forall i, j :: 0 <= i < j < |r| ==> r[i] < r[j]
    decreases hi - lo
  {
    if hi < lo then [] else Actives(lo, hi - 1, active) + (if active(hi) then [hi] else [])
  }

  /** The index-th active identifier, or -1 when there is none. */
  function At(lo: int, hi: int, active: int -> bool, index: int): (id: int)
    requires 0 <= lo
    ensures id == -1 <==> index < 0 || index >= |Actives(lo, hi, active)|
    ensures id != -1 ==> lo <= id <= hi && active(id)
  {
    var r := Actives(lo, hi, active);
    if 0 <= index < |r| then r[index] else -1
  }

  /** Splitting the range splits the enumeration. */
  lemma {:induction false} ActivesSplit(lo: int, mid: int, hi: int, active: int -> bool)
    requires lo <= mid <= hi + 1
    ensures Actives(lo, hi, active) == Actives(lo, mid - 1, active) + Actives(mid, hi, active)
    decreases hi - lo
  {
    if hi >= mid {
      ActivesSplit(lo, mid, hi - 1, active);
    }
  }

  /** Every active identifier of the range is enumerated. */
  lemma {:induction false} ActivesComplete(lo: int, hi: int, active: int -> bool, id: int)
    requires lo <= id <= hi && active(id)
    ensures id in Actives(lo, hi, active)
    decreases hi - lo
  {
    if id < hi {
      ActivesComplete(lo, hi - 1, active, id);
    }
  }

  /** The count is zero exactly when no identifier of the range is active. */
  lemma {:induction false} ActivesEmpty(lo: int, hi: int, active: int -> bool)
    ensures Actives(lo, hi, active) == [] <==> forall id :: lo <= id <= hi ==> !active(id)
    decreases hi - lo
  {
    if hi >= lo {
      ActivesEmpty(lo, hi - 1, active);
    }
  }

  /** An independent description of `At`: the index-th active identifier is the
      active identifier that has exactly `index` active identifiers below it. */
  lemma AtRank(lo: int, hi: int, active: int -> bool, index: int, id: int)
    requires 0 <= lo && 0 <= id
    ensures At(lo, hi, active, index) == id
        <==> lo <= id <= hi && active(id) && index == |Actives(lo, id - 1, active)|
  {
    var r := Actives(lo, hi, active);
    if lo <= id <= hi && active(id) {
      ActivesSplit(lo, id, hi, active);
      ActivesSplit(id, id + 1, hi, active);
      assert Actives(id, id, active) == [id];
    }
    if At(lo, hi, active, index) == id {
      assert r[index] == id;
      ActivesSplit(lo, id, hi, active);
      var below := Actives(lo, id - 1, active);
      ActivesSplit(id, id + 1, hi, active);
      assert Actives(id, id, active) == [id];
      assert r == below + [id] + Actives(id + 1, hi, active);
      assert r[|below|] == id;
    }
  }

  /** The law every count/at pair satisfies: `at` over [0, count) yields
      `count` distinct identifiers in strictly ascending order, each in range and
      active, and every other index yields -1. */
  lemma EnumerationLaw(lo: int, hi: int, active: int -> bool)
    requires 0 <= lo <= hi + 1
    ensures var count := |Actives(lo, hi, active)|;
      (forall i :: 0 <= i < count ==> lo <= At(lo, hi, active, i) <= hi && active(At(lo, hi, active, i)))
      && (forall i, j :: 0 <= i < j < count ==> At(lo, hi, active, i) < At(lo, hi, active, j))
      && (forall id :: lo <= id <= hi && active(id) ==> exists i :: 0 <= i < count && At(lo, hi, active, i) == id)
      && At(lo, hi, active, count) == -1
      && At(lo, hi, active, -1) == -1
  {
    var r := Actives(lo, hi, active);
    forall id | lo <= id <= hi && active(id)
      ensures exists i :: 0 <= i < |r| && At(lo, hi, active, i) == id
    {
      ActivesComplete(lo, hi, active, id);
      var i :| 0 <= i < |r| && r[i] == id;
      assert At(lo, hi, active, i) == id;
    }
  }

  /** The counting loop: one pass over [lo, hi]. */
  method CountActive(lo: int, hi: int, active: int -> bool) returns (count: int)
    requires lo <= hi + 1
    ensures count == |Actives(lo, hi, active)|
  {
    count := 0;
    var id := lo;
    while id <= hi
      invariant lo <= id <= hi + 1
      invariant count == |Actives(lo, id - 1, active)|
    {
      if active(id) {
        count := count + 1;
      }
      id := id + 1;
    }
  }

  /** The lookup loop: a running index of active identifiers, returning the
      identifier at which it meets `index`. */
  method ActiveAt(lo: int, hi: int, active: int -> bool, index: int) returns (id: int)
    requires 0 <= lo <= hi + 1 && 0 <= index
    ensures id == At(lo, hi, active, index)
  {
    var current := 0;
    var k := lo;
    while k <= hi
      invariant lo <= k <= hi + 1
      invariant current == |Actives(lo, k - 1, active)|
      invariant current <= index
    {
      if active(k) {
        if current == index {
          ActivesSplit(lo, k + 1, hi, active);
          return k;
        }
        current := current + 1;
      }
      k := k + 1;
    }
    return -1;
  }
}
