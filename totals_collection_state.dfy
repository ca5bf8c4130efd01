/** The flag that tells whether quote totals collection is in progress. */
module TotalsCollectionState {

  class TotalsCollectionState {
    var isCollecting: bool

    constructor ()
      ensures !isCollecting
    {
      isCollecting := false;
    }

    method SetIsCollecting(state: bool)
      modifies this
      ensures isCollecting == state
    {
      isCollecting := state;
    }

    /** Reads the flag; changes nothing. */
    method IsCollecting() returns (collecting: bool)
      ensures collecting == isCollecting
    {
      collecting := isCollecting;
    }
  }

  /**
   * A caller that toggles the flag several times, setting it once per element
   * of `writes`, in order: afterwards the flag is the last value written, or
   * what it was before when nothing was written.
   */
  method ApplyWrites(state: TotalsCollectionState, writes: seq<bool>)
    modifies state
    ensures writes == [] ==> state.isCollecting == old(state.isCollecting)
    ensures writes != [] ==> state.isCollecting == writes[|writes| - 1]
  {
    for i := 0 to |writes|
      invariant i == 0 ==> state.isCollecting == old(state.isCollecting)
      invariant i > 0 ==> state.isCollecting == writes[i - 1]
    {
      state.SetIsCollecting(writes[i]);
    }
  }
}
