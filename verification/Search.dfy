/** Looking for the first item with a given key. */
module Search {
  // Where the first such item stands, or past the end.
  function PlaceOf<T>(items: seq<T>, key: T -> nat, id: nat): (i: nat)
    ensures i <= |items|
    ensures i < |items| ==> key(items[i]) == id
    ensures forall k :: 0 <= k < i ==> key(items[k]) != id
  {
    if items == [] then 0 else if key(items[0]) == id then 0 else 1 + PlaceOf(items[1..], key, id)
  }

  lemma {:induction false} PlaceAfterAppend<T>(items: seq<T>, t: T, key: T -> nat, id: nat)
    ensures PlaceOf(items + [t], key, id) ==
            if PlaceOf(items, key, id) < |items| then PlaceOf(items, key, id)
            else if key(t) == id then |items| else |items| + 1
  {
    if items == [] {
      assert items + [t] == [t];
      assert [t][1..] == [];
    } else {
      assert (items + [t])[1..] == items[1..] + [t];
      PlaceAfterAppend(items[1..], t, key, id);
    }
  }
}
