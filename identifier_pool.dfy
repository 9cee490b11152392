/** `IdentifierPool`: a front-to-back cursor over one fetched batch. */
module Pool {
  import opened Failures
  import opened Extraction

  class IdentifierPool {
    /** The list the pool's iterator walks over. */
    const identifiers: seq<Identifier>
    /** How many identifiers the iterator has already returned. */
    var position: nat

    ghost predicate Valid()
      reads this
    {
      position <= |identifiers|
    }

    /** The identifiers not yet handed out, front first. */
    ghost function Remaining(): seq<Identifier>
      reads this
      requires Valid()
    {
      identifiers[position..]
    }

    /** `IdentifierPool.forList`. */
    constructor ForList(ids: seq<Identifier>)
      ensures Valid() && Remaining() == ids
    {
      identifiers := ids;
      position := 0;
    }

    /** `IdentifierPool.empty()`. */
    constructor Empty()
      ensures Valid() && Remaining() == []
    {
      identifiers := [];
      position := 0;
    }

    /** `isEmpty()`: the iterator has no next element. */
    function IsEmpty(): (b: bool)
      reads this
      requires Valid()
      ensures b <==> Remaining() == []
    {
      position == |identifiers|
    }

    /** `next()`: the front identifier, removed from the pool; on an
        exhausted pool the iterator's NoSuchElementException. */
    method Next() returns (r: Result<Identifier>)
      requires Valid()
      modifies this
      ensures Valid()
      ensures old(Remaining()) == [] ==> r == Err(NoSuchElement) && Remaining() == []
      ensures old(Remaining()) != [] ==>
        r == Ok(old(Remaining())[0]) && Remaining() == old(Remaining())[1..]
    {
      if position == |identifiers| {
        r := Err(NoSuchElement);
      } else {
        r := Ok(identifiers[position]);
        position := position + 1;
      }
    }
  }
}
