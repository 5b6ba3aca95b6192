/**
 * The id generator the chat draws message and session ids from (`uuidv4` in the client),
 * modelled as an injected source that never hands out the same id twice.
 */
module Uuid {

  function Repeat(c: char, n: nat): (r: string)
    ensures |r| == n
    ensures forall i :: 0 <= i < n ==> r[i] == c
  {
    if n == 0 then "" else [c] + Repeat(c, n - 1)
  }

  class UuidSource {
    /** Every id handed out so far. */
    ghost var issued: set<string>
    var next: nat

    ghost predicate Valid()
      reads this
    {
      forall s :: s in issued ==> |s| <= next
    }

    constructor ()
      ensures Valid() && issued == {}
    {
      issued := {};
      next := 0;
    }

    /** A non-empty id, distinct from every earlier one. */
    method Next() returns (id: string)
      requires Valid()
      modifies this
      ensures Valid()
      ensures id !in old(issued) && issued == old(issued) + {id}
      ensures id != ""
    {
      id := Repeat('u', next + 1);
      next := next + 1;
      issued := issued + {id};
    }
  }
}
