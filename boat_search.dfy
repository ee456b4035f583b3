/** The search page's loading flag, driven by the results list's loading and done-loading events. */
module Search {

  /** The two events that drive the flag. */
  datatype LoadingSignal = Loading | DoneLoading

  /** The BoatSearch component. */
  class BoatSearch {
    var isLoading: bool

    constructor ()
      ensures !isLoading
    {
      isLoading := false;
    }

    method HandleLoading()
      modifies this`isLoading
      ensures isLoading
    {
      isLoading := true;
    }

    method HandleDoneLoading()
      modifies this`isLoading
      ensures !isLoading
    {
      isLoading := false;
    }
  }

  /** Delivers a sequence of events to a fresh component: the flag is set by the last event, false if there was none. */
  method FinalLoading(signals: seq<LoadingSignal>) returns (loading: bool)
    ensures loading == (signals != [] && signals[|signals| - 1] == Loading)
  {
    var page := new BoatSearch();
    var i := 0;
    while i < |signals|
      invariant 0 <= i <= |signals|
      invariant page.isLoading == (i > 0 && signals[i - 1] == Loading)
    {
      match signals[i] {
        case Loading => page.HandleLoading();
        case DoneLoading => page.HandleDoneLoading();
      }
      i := i + 1;
    }
    loading := page.isLoading;
  }
}
