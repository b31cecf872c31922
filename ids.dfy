/**
  The process-wide record number. Each of the three implementations keeps it in a class attribute of
  `Person` that starts at 1; every construction reads it into the new record and adds one.
 */
module Ids {

  class IdCounter {
    /** The number the next record will get. */
    var next: int

    constructor ()
      ensures next == 1
    {
      next := 1;
    }

    /** Read the counter for a new record and increment it by exactly one. */
    method Take() returns (id: int)
      modifies this
      ensures id == old(next)
      ensures next == old(next) + 1
    {
      id := next;
      next := next + 1;
    }
  }
}
