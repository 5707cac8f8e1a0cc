/**
 * The class-wide counters that number components and branches
 * (`GenericUnit.COMPONENT_ID_COUNT`, `Branch.BRANCH_ID_COUNT`), the two
 * `set_id` class methods that read them, and `ModelBase.reset_IDs`, which sets
 * them back to zero.  One object stands for the class attributes that every
 * instance shares.
 */
module Counters {
  import opened Misc

  class IdCounters {
    var componentCount: int
    var branchCount: int

    /** The counters as the class definitions initialise them. */
    constructor ()
      ensures componentCount == 0 && branchCount == 0
    {
      componentCount := 0;
      branchCount := 0;
    }

    /**
     * `GenericUnit.set_id`: the counter is incremented before it is formatted,
     * so the first component is C01.
     */
    method NextComponentId() returns (id: string)
      modifies this`componentCount
      ensures componentCount == old(componentCount) + 1
      ensures id == CreateId('C', componentCount)
    {
      componentCount := componentCount + 1;
      id := CreateId('C', componentCount);
    }

    /**
     * `Branch.set_id`: the counter is formatted before it is incremented, so
     * the first branch is B00.
     */
    method NextBranchId() returns (id: string)
      modifies this`branchCount
      ensures branchCount == old(branchCount) + 1
      ensures id == CreateId('B', old(branchCount))
    {
      id := CreateId('B', branchCount);
      branchCount := branchCount + 1;
    }

    /** The counter part of `ModelBase.reset_IDs`. */
    method ResetIDs()
      modifies this
      ensures componentCount == 0 && branchCount == 0
    {
      componentCount := 0;
      branchCount := 0;
    }
  }
}
