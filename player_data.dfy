/** The player-data hook: the search, retry and clear-error steps, each a fixed sequence
    of actions dispatched to the shared state.  The awaited request is one abstract
    outcome, and the steps run without interleaving. */
module PlayerDataHook {
  import opened Wrappers
  import opened MatchTypes
  import opened ApiClient
  import opened AppState

  /** The state a search leaves behind: the request's data or error message, loading
      finished, and the search remembered. */
  function SearchOutcome(search: LastSearch, outcome: FetchOutcome<PlayerData>): State {
    match ApiRequest(outcome)
    case Ok(d) => State(Some(d), false, None, Some(search))
    case Err(e) => State(None, false, Some(ErrorMessage(e)), Some(search))
  }

  /** The shared state behind the context, updated by dispatching actions. */
  class PlayerStore {
    var state: State

    constructor ()
      ensures state == InitialState
    {
      state := InitialState;
    }

    method Dispatch(a: Action)
      modifies this
      ensures state == Reduce(old(state), a)
    {
      state := Reduce(state, a);
    }

    /** `searchPlayer`: start loading, clear the error and the data, remember the search,
        then store the data or the error message, and stop loading. */
    method SearchPlayer(summonerName: string, tagLine: string, region: string,
                        outcome: FetchOutcome<PlayerData>)
      modifies this
      ensures state == SearchOutcome(LastSearch(summonerName, tagLine, region), outcome)
      ensures !state.loading && state.lastSearch == Some(LastSearch(summonerName, tagLine, region))
      ensures ApiRequest(outcome).Ok? ==>
        state.playerData == Some(ApiRequest(outcome).value) && state.error == None
      ensures ApiRequest(outcome).Err? ==>
        state.playerData == None && state.error == Some(ErrorMessage(ApiRequest(outcome).error))
    {
      Dispatch(SetLoading(true));
      Dispatch(SetError(None));
      Dispatch(ResetState);
      Dispatch(SetLastSearch(Some(LastSearch(summonerName, tagLine, region))));
      // while the request is in flight
      assert state == State(None, true, None, Some(LastSearch(summonerName, tagLine, region)));
      match ApiRequest(outcome) {
        case Ok(data) =>
          Dispatch(SetPlayerData(Some(data)));
        case Err(e) =>
          Dispatch(SetError(Some(ErrorMessage(e))));
      }
      Dispatch(SetLoading(false));
    }

    /** `retryLastSearch`: nothing without a previous search; otherwise that search again. */
    method RetryLastSearch(outcome: FetchOutcome<PlayerData>)
      modifies this
      ensures old(state.lastSearch).None? ==> state == old(state)
      ensures old(state.lastSearch).Some? ==> state == SearchOutcome(old(state.lastSearch).value, outcome)
    {
      match state.lastSearch {
        case None =>
        case Some(ls) =>
          SearchPlayer(ls.summonerName, ls.tagLine, ls.region, outcome);
      }
    }

    /** `clearError`: only the error is cleared. */
    method ClearError()
      modifies this
      ensures state == old(state).(error := None)
    {
      Dispatch(SetError(None));
    }
  }

  /** Retrying after a search repeats that very search: with the same outcome the state
      is the same as after the first search. */
  lemma RetryRepeatsSearch(search: LastSearch, outcome: FetchOutcome<PlayerData>)
    ensures SearchOutcome(search, outcome).lastSearch == Some(search)
    ensures SearchOutcome(SearchOutcome(search, outcome).lastSearch.value, outcome)
         == SearchOutcome(search, outcome)
  {
  }
}
