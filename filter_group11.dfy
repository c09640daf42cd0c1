/**
 * A test filter with no parameters: its only behaviour is the error and cancel state it
 * resets, checks and reports.
 */
module FilterGroup11Filter {
  import opened FilterCommon

  class FilterGroup11 {
    var errorCondition: int
    var cancel: bool
    var inPreflight: bool
    var filterParameters: seq<DeclaredParameter>
    var statusMessages: seq<string>
    /** Whether the last check ran while the filter was preflighting. */
    ghost var checkedInPreflight: bool

    /** A new filter is initialised: no error, no cancel, no parameters, not preflighting. */
    constructor ()
      ensures errorCondition == 0 && !cancel && !inPreflight
      ensures filterParameters == [] && statusMessages == []
    {
      inPreflight := false;
      statusMessages := [];
      new;
      Initialize();
      SetupFilterParameters();
    }

    /** Clears the error and the cancel request. */
    method Initialize()
      modifies this`errorCondition, this`cancel
      ensures errorCondition == 0 && !cancel
    {
      errorCondition := 0;
      cancel := false;
    }

    /** The filter declares no parameters. */
    method SetupFilterParameters()
      modifies this`filterParameters
      ensures filterParameters == []
    {
      filterParameters := [];
    }

    /** The check always passes. */
    method DataCheck()
      modifies this`errorCondition, this`checkedInPreflight
      ensures errorCondition == 0
      ensures checkedInPreflight == inPreflight
    {
      errorCondition := 0;
      checkedInPreflight := inPreflight;
    }

    /** Runs the check with the preflight flag raised, and lowers it afterwards. */
    method Preflight()
      modifies this`inPreflight, this`errorCondition, this`checkedInPreflight
      ensures errorCondition == 0
      ensures checkedInPreflight && !inPreflight
    {
      inPreflight := true;
      DataCheck();
      inPreflight := false;
    }

    /**
     * Re-initialises, so a cancel requested before the run is cleared; the check passes, so
     * the run always reports completion.  The branch after the cancel test that would set
     * -99999999 cannot be reached.
     */
    method Execute()
      modifies this`errorCondition, this`cancel, this`checkedInPreflight, this`statusMessages
      ensures errorCondition == 0 && !cancel
      ensures statusMessages == old(statusMessages) + [StatusComplete]
    {
      Initialize();
      DataCheck();
      if errorCondition < 0 {
        return;
      }
      if cancel {
        return;
      }
      if errorCondition < 0 {
        assert false;
      }
      statusMessages := statusMessages + [StatusComplete];
    }
  }
}
