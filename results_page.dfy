/** The results page: the names passed to the story, the choice between the
    duo story, the group matrix and the empty state, and "play again". */
module ResultsPage {
  import opened Common
  import opened Domain
  import MatchContext

  /** `playerNames`: the result's own `players` values when it has them,
      otherwise the names of the context's players. */
  function PlayerNames(results: Option<Report>, players: seq<Player>): (names: seq<Option<string>>)
    ensures results.Some? && results.value.players.Some? ==>
              |names| == |results.value.players.value|
              && forall i :: 0 <= i < |names| ==> names[i] == Some(results.value.players.value[i])
    ensures !(results.Some? && results.value.players.Some?) ==>
              |names| == |players| && forall i :: 0 <= i < |names| ==> names[i] == players[i].name
  {
    if results.Some? && results.value.players.Some? then
      seq(|results.value.players.value|, i requires 0 <= i < |results.value.players.value| => Some(results.value.players.value[i]))
    else
      seq(|players|, i requires 0 <= i < |players| => players[i].name)
  }

  /** `playerNames[i]`, undefined past the end. */
  function NameAt(names: seq<Option<string>>, i: nat): (r: Option<string>)
    ensures i < |names| ==> r == names[i]
    ensures i >= |names| ==> r.None?
  {
    if i < |names| then names[i] else None
  }

  /** What the page body shows. */
  datatype Body =
    | NoResults
    | StoryView(results: Report, nameA: Option<string>, nameB: Option<string>)
    | MatrixView(results: Report)

  /** The page body: the empty state without results, the matrix in group
      mode, the story with the first two names in every other mode. */
  function Page(mode: Option<MatchContext.Mode>, results: Option<Report>, players: seq<Player>): (b: Body)
    ensures results.None? <==> b.NoResults?
    ensures b.MatrixView? <==> results.Some? && mode == Some(MatchContext.GroupMode)
    ensures b.StoryView? ==> b.results == results.value
                             && b.nameA == NameAt(PlayerNames(results, players), 0)
                             && b.nameB == NameAt(PlayerNames(results, players), 1)
    ensures b.MatrixView? ==> b.results == results.value
  {
    if results.None? then NoResults
    else if mode == Some(MatchContext.GroupMode) then MatrixView(results.value)
    else
      var names := PlayerNames(results, players);
      StoryView(results.value, NameAt(names, 0), NameAt(names, 1))
  }

  /** What a page handler asks for, in order. */
  datatype Call = Dispatch(action: MatchContext.Action) | Navigate(path: string)

  /** `handlePlayAgain`: reset the match state, then go home. */
  function PlayAgain(): seq<Call> {
    [Dispatch(MatchContext.Reset), Navigate("/")]
  }

  /** After play again the match state is the module-load initial state
      whatever it was, so the results page then shows its empty state. */
  lemma PlayAgainClearsResults(stored: Option<string>, s: MatchContext.MatchState, players: seq<Player>)
    ensures |PlayAgain()| == 2 && PlayAgain()[0].Dispatch? && PlayAgain()[1] == Navigate("/")
    ensures var init := MatchContext.InitialState(stored);
            var t := MatchContext.Reduce(init, s, PlayAgain()[0].action).state;
            t == init && Page(t.mode, t.results, players) == NoResults
  {
  }
}
