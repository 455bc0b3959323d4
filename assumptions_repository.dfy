/**
 * `AssumptionsRepositoryImpl`: one stored `Assumptions` value, the defaults
 * until the first save, replaced wholesale by each save.
 */
module AssumptionsRepository {
  import opened Domain

  class AssumptionsStore {
    var assumptions: Assumptions

    constructor ()
      ensures assumptions == DefaultAssumptions
    {
      assumptions := DefaultAssumptions;
    }

    method GetAssumptions() returns (a: Assumptions)
      ensures a == assumptions
    {
      a := assumptions;
    }

    method SaveAssumptions(a: Assumptions)
      modifies this
      ensures assumptions == a
    {
      assumptions := a;
    }
  }

  /**
   * A fresh store reads as the defaults (75.0, 4.5, 25, 4.0); after two
   * saves it reads as the second, no field of the first surviving; a read
   * changes nothing, so reading twice agrees.
   */
  method ReadsAfterSaves(first: Assumptions, second: Assumptions)
    returns (initial: Assumptions, afterBoth: Assumptions, again: Assumptions)
    ensures initial == Assumptions(75.0, 4.5, 25, 4.0)
    ensures afterBoth == second && again == second
  {
    var store := new AssumptionsStore();
    initial := store.GetAssumptions();
    store.SaveAssumptions(first);
    store.SaveAssumptions(second);
    afterBoth := store.GetAssumptions();
    again := store.GetAssumptions();
  }

  /** Saving the same value twice leaves the store as saving it once. */
  method SaveIsIdempotent(a: Assumptions) returns (once: Assumptions, twice: Assumptions)
    ensures once == a && twice == once
  {
    var store1 := new AssumptionsStore();
    store1.SaveAssumptions(a);
    once := store1.GetAssumptions();
    var store2 := new AssumptionsStore();
    store2.SaveAssumptions(a);
    store2.SaveAssumptions(a);
    twice := store2.GetAssumptions();
  }
}
