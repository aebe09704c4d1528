/**
 * Owner assignment on the map: a click on an owned star frees it; a click on
 * a free star gives it the smallest player index 0..7 that no star holds, or
 * leaves it free when all eight are taken.
 */
module Ownership {
  import opened Wrappers

  /** The number of players a click can assign. */
  const Players: int := 8

  /** The owner indices of the stars that have one, in order (Where HasValue, Select Value). */
  function UsedIndices(owners: seq<Option<int>>): seq<int> {
    if |owners| == 0 then []
    else
      var init := UsedIndices(owners[..|owners| - 1]);
      match owners[|owners| - 1]
      case None => init
      case Some(v) => init + [v]
  }

  /** An index is used exactly when some star holds it. */
  lemma {:induction false} UsedIndicesHeld(owners: seq<Option<int>>, v: int)
    ensures v in UsedIndices(owners) <==> exists i :: 0 <= i < |owners| && owners[i] == Some(v)
  {
    if |owners| > 0 {
      var init := owners[..|owners| - 1];
      UsedIndicesHeld(init, v);
      if exists i :: 0 <= i < |init| && init[i] == Some(v) {
        var i :| 0 <= i < |init| && init[i] == Some(v);
        assert owners[i] == Some(v);
      }
      if exists i :: 0 <= i < |owners| && owners[i] == Some(v) {
        var i :| 0 <= i < |owners| && owners[i] == Some(v);
        if i < |init| {
          assert init[i] == Some(v);
        }
      }
    }
  }

  /** The first index from i up to 7 that is not used. */
  function FreeFrom(used: seq<int>, i: int): (r: Option<int>)
    requires 0 <= i
    ensures r.Some? ==> i <= r.value < Players && r.value !in used
    ensures r.Some? ==> forall j :: i <= j < r.value ==> j in used
    ensures r.None? ==> forall j :: i <= j < Players ==> j in used
    decreases Players - i
  {
    if i >= Players then None
    else if i !in used then Some(i)
    else FreeFrom(used, i + 1)
  }

  /** The smallest player index no star holds, if any. */
  function SmallestFree(used: seq<int>): Option<int> {
    FreeFrom(used, 0)
  }

  /** What a click makes of a star's owner. */
  function ClickedOwner(current: Option<int>, owners: seq<Option<int>>): Option<int> {
    if current.Some? then None else SmallestFree(UsedIndices(owners))
  }

  /** No player owns two stars. */
  predicate DistinctOwners(owners: seq<Option<int>>) {
    forall i, j :: 0 <= i < |owners| && 0 <= j < |owners| && i != j && owners[i].Some? && owners[j].Some?
      ==> owners[i].value != owners[j].value
  }

  /**
   * A click on star p keeps the owners distinct, and a free star receives an
   * index in 0..7 that no other star holds, and every smaller index is held.
   */
  lemma ClickKeepsDistinct(owners: seq<Option<int>>, p: int)
    requires DistinctOwners(owners) && 0 <= p < |owners|
    ensures DistinctOwners(owners[p := ClickedOwner(owners[p], owners)])
    ensures var r := ClickedOwner(owners[p], owners);
            r.Some? ==> && 0 <= r.value < Players
                        && (forall i :: 0 <= i < |owners| ==> owners[i] != Some(r.value))
                        && (forall j :: 0 <= j < r.value ==> exists i :: 0 <= i < |owners| && owners[i] == Some(j))
  {
    var r := ClickedOwner(owners[p], owners);
    if r.Some? {
      var used := UsedIndices(owners);
      UsedIndicesHeld(owners, r.value);
      forall j | 0 <= j < r.value
        ensures exists i :: 0 <= i < |owners| && owners[i] == Some(j)
      {
        UsedIndicesHeld(owners, j);
      }
    }
  }

  /** When all eight indices are held, a click on a free star leaves it free. */
  lemma AllPlayersTaken(owners: seq<Option<int>>, p: int)
    requires 0 <= p < |owners| && owners[p].None?
    requires forall j :: 0 <= j < Players ==> exists i :: 0 <= i < |owners| && owners[i] == Some(j)
    ensures ClickedOwner(owners[p], owners) == None
  {
    forall j | 0 <= j < Players
      ensures j in UsedIndices(owners)
    {
      UsedIndicesHeld(owners, j);
    }
  }
}
