/** Identifiers. The tracker names every entity with `UUID.randomUUID()`;
    the model draws them instead from a counter, which keeps the one property
    the code relies on: an identifier handed out is never handed out again. */
module Ids {

  type Id = nat

  /** The supplier of fresh identifiers. */
  class IdSupply {
    /** Every identifier below `next` has been handed out. */
    var next: Id

    constructor ()
      ensures next == 0
    {
      next := 0;
    }

    /** A new identifier, different from every one handed out before. */
    method Fresh() returns (id: Id)
      modifies this
      ensures id == old(next) && next == old(next) + 1
    {
      id := next;
      next := next + 1;
    }
  }
}
