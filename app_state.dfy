/** The application's shared state and its reducer, the action creators, and the guard
    that the context is provided. */
module AppState {
  import opened Wrappers
  import opened MatchTypes

  /** The last search the user made. */
  datatype LastSearch = LastSearch(summonerName: string, tagLine: string, region: string)

  datatype State = State(
    playerData: Option<PlayerData>,
    loading: bool,
    error: Option<string>,
    lastSearch: Option<LastSearch>)

  /** The actions; `Other` stands for any action whose type the reducer does not list.
      The action creators are the constructors: each takes its payload unchanged, and
      `ResetState` has none. */
  datatype Action =
    | SetLoading(loading: bool)
    | SetError(error: Option<string>)
    | SetPlayerData(playerData: Option<PlayerData>)
    | SetLastSearch(lastSearch: Option<LastSearch>)
    | ResetState
    | Other(actionType: string)

  /** No data, not loading, no error, no previous search. */
  const InitialState := State(None, false, None, None)

  /** `appReducer`: each `Set*` action replaces its own field and no other; `ResetState`
      clears the data and the error and keeps the rest; any other action changes nothing. */
  function Reduce(s: State, a: Action): (r: State)
    ensures r.loading == if a.SetLoading? then a.loading else s.loading
    ensures r.error == if a.SetError? then a.error else if a.ResetState? then None else s.error
    ensures r.playerData == if a.SetPlayerData? then a.playerData
                            else if a.ResetState? then None else s.playerData
    ensures r.lastSearch == if a.SetLastSearch? then a.lastSearch else s.lastSearch
    ensures a.Other? ==> r == s
  {
    match a
    case SetLoading(b) => s.(loading := b)
    case SetError(e) => s.(error := e)
    case SetPlayerData(d) => s.(playerData := d)
    case SetLastSearch(l) => s.(lastSearch := l)
    case ResetState => s.(playerData := None, error := None)
    case Other(_) => s
  }

  /** Applying an action twice is the same as applying it once. */
  lemma ReduceIdempotent(s: State, a: Action)
    ensures Reduce(Reduce(s, a), a) == Reduce(s, a)
  {
  }

  /** The fields an action writes. */
  function Writes(a: Action): (fields: set<string>)
    ensures a.Other? <==> fields == {}
  {
    match a
    case SetLoading(_) => {"loading"}
    case SetError(_) => {"error"}
    case SetPlayerData(_) => {"playerData"}
    case SetLastSearch(_) => {"lastSearch"}
    case ResetState => {"playerData", "error"}
    case Other(_) => {}
  }

  /** Actions that write disjoint fields commute. */
  lemma DisjointActionsCommute(s: State, a: Action, b: Action)
    requires Writes(a) !! Writes(b)
    ensures Reduce(Reduce(s, a), b) == Reduce(Reduce(s, b), a)
  {
  }

  /** `useAppContext`: the context when it is provided, and an error otherwise. */
  function UseAppContext(context: Option<State>): (r: Result<State, string>)
    ensures context.Some? <==> r.Ok?
    ensures r.Ok? ==> r.value == context.value
    ensures r.Err? ==> r.error == "useAppContext must be used within an AppProvider"
  {
    match context
    case Some(c) => Ok(c)
    case None => Err("useAppContext must be used within an AppProvider")
  }
}
