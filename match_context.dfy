/** The app-wide match state of `MatchContext`: the initial state, the reducer
    over its actions, and the provider lookup. The session store that keeps
    the display name is an input (the value read when the module loads) and an
    output (the value `SET_USERNAME` writes). */
module MatchContext {
  import opened Common
  import opened Domain

  datatype Mode = SoloMode | DuoMode | GroupMode

  /** The `status` values the context uses. */
  datatype Phase = Idle | Connecting | Lobby | Uploading | Waiting | Analyzing | Counting | ResultsShown

  datatype MatchState = MatchState(
    mode: Option<Mode>,
    roomCode: Option<string>,
    isHost: bool,
    playerId: Option<string>,
    playerName: string,
    userName: string,
    players: seq<Player>,
    myPhoto: Option<string>,
    status: Phase,
    results: Option<Report>,
    error: Option<string>)

  /** `initialState`, evaluated once when the module loads; `stored` is what
      the session store held under `fm:username` at that time. */
  function InitialState(stored: Option<string>): (s: MatchState)
    ensures s.userName == OrElse(stored, "")
    ensures s.mode.None? && s.roomCode.None? && s.playerId.None? && !s.isHost
    ensures s.players == [] && s.myPhoto.None? && s.results.None? && s.error.None?
    ensures s.playerName == "" && s.status == Idle
  {
    MatchState(None, None, false, None, "", OrElse(stored, ""), [], None, Idle, None, None)
  }

  datatype Action =
    | SetMode(mode: Mode)
    | SetPlayerName(name: string)
    | SetUserName(name: string)
    | SetRoom(roomCode: Option<string>, isHost: bool, playerId: Option<string>)
    | SetStatus(status: Phase)
    | SetPhoto(photo: Option<string>)
    | UpdatePlayers(players: seq<Player>)
    | SetResults(results: Option<Report>)
    | SetError(error: Option<string>)
    | Reset
    | Unknown(kind: string)

  /** The new state and, for `SET_USERNAME`, the value written to the store. */
  datatype Step = Step(state: MatchState, stored: Option<string>)

  /** `reducer(state, action)`, where `init` is the module-load `initialState`. */
  function Reduce(init: MatchState, s: MatchState, a: Action): (r: Step)
    ensures a.Reset? ==> r.state == init
    ensures a.Unknown? ==> r.state == s
    ensures r.stored.Some? <==> a.SetUserName?
    ensures r.state.results != s.results ==> a.SetResults? || a.SetMode? || a.Reset?
  {
    match a
    case SetMode(m) => Step(init.(mode := Some(m)), None)
    case SetPlayerName(name) => Step(s.(playerName := name), None)
    case SetUserName(name) => Step(s.(userName := name), Some(name))
    case SetRoom(code, host, pid) =>
      Step(s.(roomCode := code, isHost := host, playerId := pid, status := Lobby), None)
    case SetStatus(st) => Step(s.(status := st, error := None), None)
    case SetPhoto(photo) => Step(s.(myPhoto := photo), None)
    case UpdatePlayers(ps) => Step(s.(players := ps), None)
    case SetResults(r) => Step(s.(results := r, status := ResultsShown), None)
    case SetError(e) => Step(s.(error := e, status := Idle), None)
    case Reset => Step(init, None)
    case Unknown(_) => Step(s, None)
  }

  /** `SET_MODE` and `RESET` forget the prior state entirely: two states give the
      same result, which is the initial state (with the mode for `SET_MODE`),
      so room, players, results and error are discarded. */
  lemma ModeAndResetForget(stored: Option<string>, s: MatchState, t: MatchState, m: Mode)
    ensures var init := InitialState(stored);
            Reduce(init, s, SetMode(m)) == Reduce(init, t, SetMode(m))
            && Reduce(init, s, Reset) == Reduce(init, t, Reset)
    ensures var r := Reduce(InitialState(stored), s, SetMode(m)).state;
            r.mode == Some(m) && r.roomCode.None? && r.players == [] && r.results.None?
            && r.error.None? && r.status == Idle
    ensures Reduce(InitialState(stored), s, Reset).state == InitialState(stored)
  {
  }

  /** After `RESET` the display name is the one read when the module loaded,
      even if `SET_USERNAME` stored another since. */
  lemma ResetRestoresLoadTimeName(stored: Option<string>, s: MatchState, name: string)
    ensures var init := InitialState(stored);
            var named := Reduce(init, s, SetUserName(name));
            named.stored == Some(name) && named.state.userName == name
            && Reduce(init, named.state, Reset).state.userName == OrElse(stored, "")
  {
  }

  /** `SET_PLAYER_NAME`, `SET_USERNAME`, `SET_PHOTO` and `UPDATE_PLAYERS` each
      change exactly one field; an unknown action changes nothing. */
  lemma SingleFieldActions(init: MatchState, s: MatchState, a: Action)
    ensures a.SetPlayerName? ==> var r := Reduce(init, s, a).state;
              r.playerName == a.name && r.(playerName := s.playerName) == s
    ensures a.SetUserName? ==> var r := Reduce(init, s, a).state;
              r.userName == a.name && r.(userName := s.userName) == s
    ensures a.SetPhoto? ==> var r := Reduce(init, s, a).state;
              r.myPhoto == a.photo && r.(myPhoto := s.myPhoto) == s
    ensures a.UpdatePlayers? ==> var r := Reduce(init, s, a).state;
              r.players == a.players && r.(players := s.players) == s
    ensures a.Unknown? ==> Reduce(init, s, a).state == s
  {
  }

  /** `SET_ROOM` moves to the lobby with the given room and identity; nothing
      else changes. */
  lemma SetRoomEntersLobby(init: MatchState, s: MatchState, code: Option<string>, host: bool, pid: Option<string>)
    ensures var r := Reduce(init, s, SetRoom(code, host, pid)).state;
            r.status == Lobby && r.roomCode == code && r.isHost == host && r.playerId == pid
            && r.(roomCode := s.roomCode, isHost := s.isHost, playerId := s.playerId, status := s.status) == s
  {
  }

  /** Status and error: `SET_STATUS` always clears the error, `SET_ERROR` always
      returns to idle, `SET_RESULTS` always shows results; the status changes
      only through those actions, `SET_ROOM`, `SET_MODE` and `RESET`; and only
      `SET_ERROR` can introduce a new error message (the initial state has
      none). */
  lemma StatusAndError(stored: Option<string>, s: MatchState, a: Action)
    ensures var r := Reduce(InitialState(stored), s, a).state;
            (a.SetStatus? ==> r.status == a.status && r.error.None?)
            && (a.SetError? ==> r.status == Idle && r.error == a.error)
            && (a.SetResults? ==> r.status == ResultsShown && r.results == a.results)
            && (r.status != s.status ==>
                  a.SetStatus? || a.SetError? || a.SetResults? || a.SetRoom? || a.SetMode? || a.Reset?)
            && (r.error.Some? && r.error != s.error ==> a.SetError?)
  {
  }

  /** Only `SET_USERNAME` writes to the store, and it writes the new name. */
  lemma OnlyUserNameIsStored(init: MatchState, s: MatchState, a: Action)
    ensures Reduce(init, s, a).stored.Some? <==> a.SetUserName?
    ensures a.SetUserName? ==> Reduce(init, s, a).stored == Some(Reduce(init, s, a).state.userName)
  {
  }

  /** `useMatch`: the context, or the error it throws outside a provider. */
  function UseMatch<T>(ctx: Option<T>): (r: Result<T, string>)
    ensures ctx.None? <==> r.Err?
    ensures ctx.None? ==> r == Err("useMatch must be inside MatchProvider")
    ensures ctx.Some? ==> r == Ok(ctx.value)
  {
    FromProvider(ctx, "useMatch must be inside MatchProvider")
  }
}
