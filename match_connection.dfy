/** The multiplayer room session of `useMatchConnection`: the session fields,
    the outbound `{type, data}` commands, the inbound frame dispatch, and the
    rule that a close event only counts when it comes from the channel that is
    still active.

    A WebSocket is modelled as an entry of a registry of every channel the
    session has opened: its ready state, whether its close handler is still
    attached, whether `connect` was given an `onReady` callback, and the
    envelopes sent on it. `active` plays the role of `wsRef.current`. The
    browser's events (open, message, error, close) are methods that name the
    channel they come from. */
module MatchConnection {
  import opened Common
  import opened Domain
  import Text

  /** `STATUS`. */
  datatype Status = Disconnected | Connecting | Connected | Error

  /** `{progress, step}` as stored by an `analyzing` frame. */
  datatype Analysis = Analysis(progress: Option<int>, step: Option<string>)

  /** What `setCountdown(data.seconds)` stores. A frame without `seconds`
      stores `undefined`, which the room page does not treat like `null`. */
  datatype CountdownValue = CountdownValue(seconds: Option<int>)

  /** The `seconds` field of a `countdown` frame: a whole number, an explicit
      `null`, or absent. */
  datatype Seconds = Whole(n: int) | NullSeconds | NoSeconds

  /** What `setCountdown(data.seconds)` stores: `null` (no countdown) for an
      explicit null, otherwise the number or `undefined`. */
  function CountdownOf(s: Seconds): (r: Option<CountdownValue>)
    ensures r.None? <==> s.NullSeconds?
    ensures s.Whole? ==> r == Some(CountdownValue(Some(s.n)))
    ensures s.NoSeconds? ==> r == Some(CountdownValue(None))
  {
    match s
    case Whole(n) => Some(CountdownValue(Some(n)))
    case NullSeconds => None
    case NoSeconds => Some(CountdownValue(None))
  }

  /** An inbound frame. `Malformed` is a frame `JSON.parse` rejects, or one
      whose handler dereferences a missing `data` object before any update;
      `Unknown` is any other `type`. Optional fields are those the handler
      reads without a guard, so an absent one is stored as `undefined`. */
  datatype Frame =
    | Malformed
    | RoomCreated(roomCode: Option<string>, playerId: Option<string>)
    | PlayerJoined(joinedId: Option<string>, roster: Option<seq<Player>>)
    | PlayerLeft(leftId: Option<string>)
    | ConsentRequired
    | ConsentGranted
    | PhotoReceived
    | AllPhotosIn
    | Analyzing(progress: Option<int>, step: Option<string>)
    | Countdown(seconds: Seconds)
    | Reveal(group: bool, payload: Option<Report>)
    | ServerError(message: Option<string>)
    | Unknown(kind: string)

  /** The session fields the hook exposes. */
  datatype SessionView = SessionView(
    status: Status,
    roomCode: Option<string>,
    playerId: Option<string>,
    isHost: bool,
    players: seq<Player>,
    error: Option<string>,
    consentRequired: bool,
    gameStarted: bool,
    photosReady: bool,
    analyzing: Option<Analysis>,
    countdown: Option<CountdownValue>,
    results: Option<Report>)

  const InitialView := SessionView(Disconnected, None, None, false, [], None,
                                   false, false, false, None, None, None)

  // ---------------------------------------------------------------- commands

  /** The commands the hook can send. */
  datatype Command =
    | CreateRoom(name: string, roomType: string)
    | JoinRoom(name: string, code: string)
    | GrantConsent
    | UploadPhoto(photo: string)
    | MarkReady
    | LeaveRoom

  /** A wire envelope: `type` and the `data` object's fields in order. */
  datatype Envelope = Envelope(kind: string, data: seq<(string, string)>)

  /** `{type, data}` for each command. */
  function Encode(c: Command): (e: Envelope)
    ensures e.kind != ""
  {
    match c
    case CreateRoom(name, roomType) => Envelope("create_room", [("name", name), ("room_type", roomType)])
    case JoinRoom(name, code) => Envelope("join_room", [("name", name), ("room_code", code)])
    case GrantConsent => Envelope("grant_consent", [])
    case UploadPhoto(photo) => Envelope("upload_photo", [("photo", photo)])
    case MarkReady => Envelope("ready", [])
    case LeaveRoom => Envelope("leave", [])
  }

  /** How a receiver reads an envelope back into a command. It accepts only
      envelopes the client produces: whatever it reads encodes back to the
      same envelope. */
  function Decode(e: Envelope): (r: Option<Command>)
    ensures r.Some? ==> Encode(r.value) == e
  {
    if e.kind == "create_room" && |e.data| == 2 && e.data[0].0 == "name" && e.data[1].0 == "room_type"
    then Some(CreateRoom(e.data[0].1, e.data[1].1))
    else if e.kind == "join_room" && |e.data| == 2 && e.data[0].0 == "name" && e.data[1].0 == "room_code"
    then Some(JoinRoom(e.data[0].1, e.data[1].1))
    else if e.kind == "grant_consent" && e.data == [] then Some(GrantConsent)
    else if e.kind == "upload_photo" && |e.data| == 1 && e.data[0].0 == "photo"
    then Some(UploadPhoto(e.data[0].1))
    else if e.kind == "ready" && e.data == [] then Some(MarkReady)
    else if e.kind == "leave" && e.data == [] then Some(LeaveRoom)
    else None
  }

  /** Every envelope carries its command's payload verbatim and a non-empty type. */
  lemma EncodeRoundTrip(c: Command)
    ensures Decode(Encode(c)) == Some(c)
    ensures Encode(c).kind != ""
  {
    match c
    case CreateRoom(_, _) =>
    case JoinRoom(_, _) =>
    case GrantConsent =>
    case UploadPhoto(_) =>
    case MarkReady =>
    case LeaveRoom =>
  }

  /** What `uploadPhoto` keeps of its argument: `s.split(',')[1]` when `s`
      has a comma, otherwise `s` itself. */
  function PhotoPayload(s: string): (r: string)
    ensures ',' !in r
    ensures ',' !in s ==> r == s
  {
    if ',' in s then Text.SecondField(s) else s
  }

  /** For a `data:` URL whose payload has no comma, the payload is exactly what
      is sent; a string without a comma is sent as it is. */
  lemma PhotoPayloadOfDataUrl(header: string, payload: string)
    requires ',' !in header && ',' !in payload
    ensures PhotoPayload(header + "," + payload) == payload
    ensures PhotoPayload(payload) == payload
  {
    Text.SplitAtFirstComma(header, payload);
  }

  /** The example the hook's own test uses. */
  lemma PhotoPayloadExample()
    ensures PhotoPayload("data:image/jpeg;base64,abc123") == "abc123"
  {
    var header, payload := "data:image/jpeg;base64", "abc123";
    assert header + "," + payload == "data:image/jpeg;base64,abc123";
    assert ',' !in header by {
      forall k | 0 <= k < |header| ensures header[k] != ',' {
      }
    }
    PhotoPayloadOfDataUrl(header, payload);
  }

  /** A payload that itself holds a comma is cut at that comma. */
  lemma PhotoPayloadCutsAtSecondComma(header: string, a: string, b: string)
    requires ',' !in header && ',' !in a
    ensures PhotoPayload(header + "," + a + "," + b) == a
  {
    assert header + "," + a + "," + b == header + "," + (a + "," + b);
    Text.SplitAtFirstComma(header, a + "," + b);
    Text.SplitAtFirstComma(a, b);
  }

  // ----------------------------------------------------------- frame dispatch

  /** `prev.filter(p => p.id !== id)`. */
  function RemovePlayer(ps: seq<Player>, id: Option<string>): (r: seq<Player>)
    ensures |r| <= |ps|
  {
    if ps == [] then []
    else (if Some(ps[0].id) != id then [ps[0]] else []) + RemovePlayer(ps[1..], id)
  }

  /** Exactly the players whose id differs are kept. */
  lemma {:induction false} RemovePlayerKeeps(ps: seq<Player>, id: Option<string>)
    ensures forall p :: p in RemovePlayer(ps, id) <==> p in ps && Some(p.id) != id
  {
    if ps != [] {
      RemovePlayerKeeps(ps[1..], id);
      assert ps == [ps[0]] + ps[1..];
    }
  }

  /** Removal on `a + b` with `a` non-empty starts with `a`'s first player. */
  lemma RemovePlayerAppendStep(a: seq<Player>, b: seq<Player>, id: Option<string>)
    requires a != []
    ensures RemovePlayer(a + b, id) == (if Some(a[0].id) != id then [a[0]] else []) + RemovePlayer(a[1..] + b, id)
  {
    assert (a + b)[0] == a[0] && (a + b)[1..] == a[1..] + b;
  }

  /** Removal works entry by entry, so the kept players stay in their order. */
  lemma {:induction false} RemovePlayerAppend(a: seq<Player>, b: seq<Player>, id: Option<string>)
    ensures RemovePlayer(a + b, id) == RemovePlayer(a, id) + RemovePlayer(b, id)
  {
    if a == [] {
      assert a + b == b;
    } else {
      var head := if Some(a[0].id) != id then [a[0]] else [];
      var rest := RemovePlayer(a[1..], id);
      RemovePlayerAppend(a[1..], b, id);
      calc {
        RemovePlayer(a + b, id);
        { RemovePlayerAppendStep(a, b, id); }
        head + RemovePlayer(a[1..] + b, id);
        head + (rest + RemovePlayer(b, id));
        (head + rest) + RemovePlayer(b, id);
      }
    }
  }

  /** A roster without that id is left exactly as it was. */
  lemma {:induction false} RemoveAbsentPlayer(ps: seq<Player>, id: Option<string>)
    requires forall p :: p in ps ==> Some(p.id) != id
    ensures RemovePlayer(ps, id) == ps
  {
    if ps != [] {
      RemoveAbsentPlayer(ps[1..], id);
    }
  }

  /** `handleMessage`: the new session fields after one inbound frame. */
  function OnFrame(v: SessionView, f: Frame): (r: SessionView)
    ensures r.results != v.results ==> f.Reveal?
    ensures r.players != v.players ==> f.PlayerJoined? || f.PlayerLeft?
    ensures r.consentRequired != v.consentRequired ==> f.ConsentRequired? && r.consentRequired
    ensures r.gameStarted != v.gameStarted ==> f.ConsentGranted? && r.gameStarted
    ensures r.photosReady != v.photosReady ==> f.AllPhotosIn? && r.photosReady
    ensures f.Malformed? || f.Unknown? || f.PhotoReceived? ==> r == v
  {
    match f
    case Malformed => v
    case RoomCreated(code, pid) =>
      v.(roomCode := code, playerId := pid, isHost := true, status := Connected)
    case PlayerJoined(pid, roster) =>
      v.(players := roster.GetOr([]),
         playerId := if Truthy(pid) && !Truthy(v.playerId) then pid else v.playerId,
         status := Connected)
    case PlayerLeft(pid) => v.(players := RemovePlayer(v.players, pid))
    case ConsentRequired => v.(consentRequired := true)
    case ConsentGranted => v.(gameStarted := true)
    case PhotoReceived => v
    case AllPhotosIn => v.(photosReady := true)
    case Analyzing(progress, step) => v.(analyzing := Some(Analysis(progress, step)))
    case Countdown(seconds) => v.(countdown := CountdownOf(seconds))
    case Reveal(_, payload) => v.(results := payload, countdown := None, analyzing := None)
    case ServerError(message) => v.(error := message)
    case Unknown(_) => v
  }

  /** Frames applied strictly in arrival order. */
  function Replay(v: SessionView, fs: seq<Frame>): SessionView
    decreases |fs|
  {
    if fs == [] then v else Replay(OnFrame(v, fs[0]), fs[1..])
  }

  /** A frame delivered twice has the effect of one delivery. */
  lemma OnFrameIdempotent(v: SessionView, f: Frame)
    ensures OnFrame(OnFrame(v, f), f) == OnFrame(v, f)
  {
    match f
    case PlayerLeft(pid) =>
      RemovePlayerKeeps(v.players, pid);
      RemoveAbsentPlayer(RemovePlayer(v.players, pid), pid);
    case _ =>
  }

  /** Of two `analyzing` or two `countdown` frames, the later one wins. */
  lemma LastWriteWins(v: SessionView, f: Frame, g: Frame)
    requires (f.Analyzing? && g.Analyzing?) || (f.Countdown? && g.Countdown?)
    ensures OnFrame(OnFrame(v, f), g) == OnFrame(v, g)
  {
  }

  /** Which frames may change which fields: only `room_created` and
      `player_joined` change the status (always to connected), only
      `room_created` makes this client the host, only a server `error` frame
      changes the error, and malformed or unknown frames change nothing. */
  lemma FrameFootprint(v: SessionView, f: Frame)
    ensures OnFrame(v, f).status != v.status ==>
              (f.RoomCreated? || f.PlayerJoined?) && OnFrame(v, f).status == Connected
    ensures OnFrame(v, f).isHost != v.isHost ==> f.RoomCreated? && OnFrame(v, f).isHost
    ensures OnFrame(v, f).error != v.error ==> f.ServerError?
    ensures OnFrame(v, f).roomCode != v.roomCode ==> f.RoomCreated?
    ensures f.ServerError? ==> OnFrame(v, f) == v.(error := f.message)
    ensures f.Malformed? || f.Unknown? || f.PhotoReceived? ==> OnFrame(v, f) == v
  {
  }

  /** A `countdown` frame whose `seconds` is `null` clears the countdown, as a
      reveal does; one without `seconds` stores an undefined count, which is
      not `null`. */
  lemma NullCountdownClears(v: SessionView)
    ensures OnFrame(v, Countdown(NullSeconds)).countdown.None?
    ensures OnFrame(v, Countdown(NoSeconds)).countdown == Some(CountdownValue(None))
    ensures OnFrame(OnFrame(v, Countdown(Whole(3))), Countdown(NullSeconds)) == OnFrame(v, Countdown(NullSeconds))
  {
  }

  /** `reveal` and `group_reveal` store the payload and clear both the
      analysis and the countdown at once. */
  lemma RevealClears(v: SessionView, group: bool, payload: Option<Report>)
    ensures OnFrame(v, Reveal(group, payload)).results == payload
    ensures OnFrame(v, Reveal(group, payload)).analyzing.None?
    ensures OnFrame(v, Reveal(group, payload)).countdown.None?
  {
  }

  /** Frames that touch neither the roster nor the identity. */
  predicate KeepsRoster(f: Frame) {
    !f.PlayerJoined? && !f.PlayerLeft?
  }

  lemma {:induction false} RosterUntouched(v: SessionView, fs: seq<Frame>)
    requires forall j :: 0 <= j < |fs| ==> KeepsRoster(fs[j])
    ensures Replay(v, fs).players == v.players
    decreases |fs|
  {
    if fs != [] {
      RosterUntouched(OnFrame(v, fs[0]), fs[1..]);
    }
  }

  /** The roster is the list of the most recent `player_joined` frame (or
      empty when it had none): nothing accumulates across joins. */
  lemma {:induction false} RosterIsLastJoin(v: SessionView, fs: seq<Frame>, i: nat)
    requires i < |fs| && fs[i].PlayerJoined?
    requires forall j :: i < j < |fs| ==> KeepsRoster(fs[j])
    ensures Replay(v, fs).players == fs[i].roster.GetOr([])
    decreases |fs|
  {
    if i == 0 {
      RosterUntouched(OnFrame(v, fs[0]), fs[1..]);
    } else {
      RosterIsLastJoin(OnFrame(v, fs[0]), fs[1..], i - 1);
    }
  }

  /** Once a truthy player id is held, no frame but `room_created` replaces it:
      a later `player_joined` never overwrites the identity. */
  lemma {:induction false} IdentityKept(v: SessionView, fs: seq<Frame>)
    requires Truthy(v.playerId)
    requires forall j :: 0 <= j < |fs| ==> !fs[j].RoomCreated?
    ensures Replay(v, fs).playerId == v.playerId
    decreases |fs|
  {
    if fs != [] {
      assert OnFrame(v, fs[0]).playerId == v.playerId;
      IdentityKept(OnFrame(v, fs[0]), fs[1..]);
    }
  }

  /** A client with no identity adopts the one a `player_joined` frame carries. */
  lemma JoinAdoptsIdentity(v: SessionView, pid: Option<string>, roster: Option<seq<Player>>)
    requires !Truthy(v.playerId) && Truthy(pid)
    ensures OnFrame(v, PlayerJoined(pid, roster)).playerId == pid
    ensures OnFrame(v, PlayerJoined(pid, roster)).status == Connected
  {
  }

  /** `player_left` removes exactly the entries with that id and keeps the
      others in order. */
  lemma PlayerLeftRemovesExactly(before: seq<Player>, after: seq<Player>, p: Player)
    requires forall q :: q in before ==> q.id != p.id
    requires forall q :: q in after ==> q.id != p.id
    ensures RemovePlayer(before + [p] + after, Some(p.id)) == before + after
  {
    var id := Some(p.id);
    assert [p][1..] == [];
    assert RemovePlayer([p], id) == [];
    RemovePlayerAppend(before + [p], after, id);
    RemovePlayerAppend(before, [p], id);
    RemoveAbsentPlayer(before, id);
    RemoveAbsentPlayer(after, id);
    assert before + [] == before;
  }

  /** Host flow: a `room_created` confirmation makes this client the
      connected host of that room. */
  lemma CreateRoomScenario()
    ensures var v := Replay(InitialView, [RoomCreated(Some("5678"), Some("p_1"))]);
            v.roomCode == Some("5678") && v.playerId == Some("p_1") && v.isHost && v.status == Connected
  {
  }

  /** Two progress updates and a reveal leave the result and no residual
      analysis or countdown. */
  lemma AnalyzeRevealScenario(v: SessionView, r: Report)
    requires r.percentage == Some(78)
    ensures var w := Replay(v, [Analyzing(Some(20), Some("Analyzing faces...")),
                                Analyzing(Some(100), Some("Done!")),
                                Reveal(false, Some(r))]);
            w.results == Some(r) && w.results.value.percentage == Some(78)
            && w.analyzing.None? && w.countdown.None?
  {
    var f0, f1, f2 := Analyzing(Some(20), Some("Analyzing faces...")), Analyzing(Some(100), Some("Done!")),
                      Reveal(false, Some(r));
    var fs := [f0, f1, f2];
    assert fs[1..] == [f1, f2] && [f1, f2][1..] == [f2] && [f2][1..] == [];
    var v1 := OnFrame(v, f0);
    var v2 := OnFrame(v1, f1);
    var v3 := OnFrame(v2, f2);
    assert Replay(v, fs) == Replay(v1, [f1, f2]) == Replay(v2, [f2]) == Replay(v3, []) == v3;
  }

  /** What `leave` leaves behind: everything reset except `error`. */
  function AfterLeave(v: SessionView): SessionView {
    SessionView(Disconnected, None, None, false, [], v.error, false, false, false, None, None, None)
  }

  /** From any state `leave` reaches the same state, up to the error message it
      keeps, and leaving twice is leaving once. */
  lemma LeaveForgetsAllButError(v: SessionView, w: SessionView)
    ensures v.error == w.error ==> AfterLeave(v) == AfterLeave(w)
    ensures AfterLeave(v) == InitialView.(error := v.error)
    ensures AfterLeave(AfterLeave(v)) == AfterLeave(v)
  {
  }

  // --------------------------------------------------------------- channels

  /** `WebSocket.readyState`. */
  datatype ReadyState = CONNECTING | OPEN | CLOSING | CLOSED

  /** One WebSocket the session created. */
  datatype Channel = Channel(state: ReadyState, closeArmed: bool, hasOnReady: bool, sent: seq<Envelope>)

  predicate Live(ch: Channel) {
    ch.state == CONNECTING || ch.state == OPEN
  }

  /** `ws.close()`: a live channel starts closing; a closing or closed one is
      left alone. */
  function CloseChannel(ch: Channel): (r: Channel)
    ensures !Live(r)
  {
    if Live(ch) then ch.(state := CLOSING) else ch
  }

  /** The channels after `send`: the envelope is appended to the active
      channel's log only when that channel is open. */
  function Transmit(chs: seq<Channel>, active: Option<nat>, e: Envelope): (r: seq<Channel>)
    ensures |r| == |chs|
    ensures active.Some? && active.value < |chs| && chs[active.value].state == OPEN ==>
              r == chs[active.value := chs[active.value].(sent := chs[active.value].sent + [e])]
    ensures !(active.Some? && active.value < |chs| && chs[active.value].state == OPEN) ==> r == chs
  {
    if active.Some? && active.value < |chs| && chs[active.value].state == OPEN
    then chs[active.value := chs[active.value].(sent := chs[active.value].sent + [e])]
    else chs
  }

  /** The registry's invariant: the active channel exists and still has its
      close handler, and it is the only channel that can be live. */
  predicate RegistryOk(chs: seq<Channel>, active: Option<nat>) {
    (active.Some? ==> active.value < |chs| && chs[active.value].closeArmed)
    && forall i :: 0 <= i < |chs| && Live(chs[i]) ==> active == Some(i)
  }

  /** At most one channel is live at any time. */
  lemma AtMostOneLive(chs: seq<Channel>, active: Option<nat>, i: nat, j: nat)
    requires RegistryOk(chs, active)
    requires i < |chs| && j < |chs| && Live(chs[i]) && Live(chs[j])
    ensures i == j
  {
  }

  class Session {
    var status: Status
    var roomCode: Option<string>
    var playerId: Option<string>
    var isHost: bool
    var players: seq<Player>
    var error: Option<string>
    var consentRequired: bool
    var gameStarted: bool
    var photosReady: bool
    var analyzing: Option<Analysis>
    var countdown: Option<CountdownValue>
    var results: Option<Report>
    /** Every channel `connect` created, indexed by creation order. */
    var channels: seq<Channel>
    /** `wsRef.current`. */
    var active: Option<nat>

    ghost predicate Valid()
      reads this
    {
      RegistryOk(channels, active)
    }

    function View(): SessionView
      reads this
    {
      SessionView(status, roomCode, playerId, isHost, players, error,
                  consentRequired, gameStarted, photosReady, analyzing, countdown, results)
    }

    predicate ActiveOpen()
      reads this
    {
      active.Some? && active.value < |channels| && channels[active.value].state == OPEN
    }

    constructor ()
      ensures Valid() && View() == InitialView
      ensures channels == [] && active == None
    {
      status := Disconnected;
      roomCode := None;
      playerId := None;
      isHost := false;
      players := [];
      error := None;
      consentRequired := false;
      gameStarted := false;
      photosReady := false;
      analyzing := None;
      countdown := None;
      results := None;
      channels := [];
      active := None;
    }

    /** `send`: the envelope goes out only on an open active channel;
        otherwise it is dropped. No session field changes either way. */
    method Send(c: Command)
      requires Valid()
      modifies this
      ensures Valid() && View() == old(View()) && active == old(active)
      ensures channels == Transmit(old(channels), old(active), Encode(c))
      ensures old(ActiveOpen()) ==> channels[active.value].sent == old(channels[active.value].sent) + [Encode(c)]
      ensures !old(ActiveOpen()) ==> channels == old(channels)
    {
      if active.Some? && active.value < |channels| && channels[active.value].state == OPEN {
        var a := active.value;
        channels := channels[a := channels[a].(sent := channels[a].sent + [Encode(c)])];
      }
    }

    /** `connect`: the previous channel is detached (no longer active, close
        handler removed) and closed before a new one is opened; the status is
        `connecting` and the error cleared. */
    method Connect(onReady: bool)
      requires Valid()
      modifies this
      ensures Valid()
      ensures View() == old(View()).(status := Connecting, error := None)
      ensures |channels| == |old(channels)| + 1 && active == Some(|old(channels)|)
      ensures channels[|old(channels)|] == Channel(CONNECTING, true, onReady, [])
      ensures old(active).Some? ==>
                channels[..|old(channels)|] ==
                old(channels)[old(active).value := CloseChannel(old(channels)[old(active).value]).(closeArmed := false)]
      ensures old(active).None? ==> channels[..|old(channels)|] == old(channels)
    {
      if active.Some? {
        var prev := active.value;
        active := None;
        channels := channels[prev := channels[prev].(closeArmed := false)];
        channels := channels[prev := CloseChannel(channels[prev])];
      }
      status := Connecting;
      error := None;
      channels := channels + [Channel(CONNECTING, true, onReady, [])];
      active := Some(|channels| - 1);
    }

    /** `onopen` of channel `id`. It is not guarded, but only a connecting
        channel can open, and that is always the active one. The result says
        whether `onReady` is called. */
    method ChannelOpened(id: nat) returns (callReady: bool)
      requires Valid()
      modifies this
      ensures Valid() && active == old(active)
      ensures old(id < |channels| && channels[id].state == CONNECTING) ==>
                old(active) == Some(id)
                && View() == old(View()).(status := Connected)
                && channels == old(channels)[id := old(channels)[id].(state := OPEN)]
                && callReady == old(channels)[id].hasOnReady
      ensures !old(id < |channels| && channels[id].state == CONNECTING) ==>
                View() == old(View()) && channels == old(channels) && !callReady
    {
      callReady := false;
      if id < |channels| && channels[id].state == CONNECTING {
        channels := channels[id := channels[id].(state := OPEN)];
        status := Connected;
        callReady := channels[id].hasOnReady;
      }
    }

    /** `onerror` of channel `id`: the connection has failed. Its handler is
        never detached, so even a superseded channel sets the status to
        `error` and the error message. */
    method ChannelFailed(id: nat)
      requires Valid()
      modifies this
      ensures Valid() && active == old(active)
      ensures id < |old(channels)| ==>
                View() == old(View()).(status := Error, error := Some("Connection error"))
                && channels == old(channels)[id := old(channels)[id].(state := CLOSED)]
      ensures id >= |old(channels)| ==> View() == old(View()) && channels == old(channels)
    {
      if id < |channels| {
        channels := channels[id := channels[id].(state := CLOSED)];
        status := Error;
        error := Some("Connection error");
      }
    }

    /** `onclose` of channel `id`. The status becomes `disconnected` only when
        the handler is still attached and `id` is still the active channel; a
        superseded channel's close leaves every session field as it was. */
    method ChannelClosed(id: nat)
      requires Valid()
      modifies this
      ensures Valid() && active == old(active)
      ensures old(active) != Some(id) ==> View() == old(View())
      ensures old(active) == Some(id) ==> View() == old(View()).(status := Disconnected)
      ensures id < |old(channels)| ==> channels == old(channels)[id := old(channels)[id].(state := CLOSED)]
      ensures id >= |old(channels)| ==> channels == old(channels)
    {
      if id < |channels| {
        var armed := channels[id].closeArmed;
        channels := channels[id := channels[id].(state := CLOSED)];
        if armed && active == Some(id) {
          status := Disconnected;
        }
      }
    }

    /** `onmessage` of channel `id`. Only an open channel delivers frames. */
    method ReceiveFrame(id: nat, f: Frame)
      requires Valid()
      modifies this
      ensures Valid() && channels == old(channels) && active == old(active)
      ensures old(id < |channels| && channels[id].state == OPEN) ==>
                old(active) == Some(id) && View() == OnFrame(old(View()), f)
      ensures !old(id < |channels| && channels[id].state == OPEN) ==> View() == old(View())
    {
      if id < |channels| && channels[id].state == OPEN {
        HandleMessage(f);
      }
    }

    /** `handleMessage`: the switch on the frame's type, taken here in three
        groups of cases. */
    method HandleMessage(f: Frame)
      modifies this
      ensures channels == old(channels) && active == old(active)
      ensures View() == OnFrame(old(View()), f)
    {
      if f.RoomCreated? || f.PlayerJoined? || f.PlayerLeft? {
        HandleRosterFrame(f);
      } else if f.Analyzing? || f.Countdown? || f.Reveal? {
        HandleProgressFrame(f);
      } else {
        HandleGameFrame(f);
      }
    }

    /** The frames about who is in the room. */
    method HandleRosterFrame(f: Frame)
      requires f.RoomCreated? || f.PlayerJoined? || f.PlayerLeft?
      modifies this
      ensures channels == old(channels) && active == old(active)
      ensures View() == OnFrame(old(View()), f)
    {
      match f {
        case RoomCreated(code, pid) =>
          roomCode := code;
          playerId := pid;
          isHost := true;
          status := Connected;
        case PlayerJoined(pid, roster) =>
          players := roster.GetOr([]);
          if Truthy(pid) && !Truthy(playerId) {
            playerId := pid;
          }
          status := Connected;
        case PlayerLeft(pid) =>
          players := RemovePlayer(players, pid);
      }
    }

    /** The frames that report the analysis, the countdown and the reveal. */
    method HandleProgressFrame(f: Frame)
      requires f.Analyzing? || f.Countdown? || f.Reveal?
      modifies this
      ensures channels == old(channels) && active == old(active)
      ensures View() == OnFrame(old(View()), f)
    {
      match f {
        case Analyzing(progress, step) =>
          analyzing := Some(Analysis(progress, step));
        case Countdown(seconds) =>
          countdown := CountdownOf(seconds);
        case Reveal(_, payload) =>
          results := payload;
          countdown := None;
          analyzing := None;
      }
    }

    /** The consent and photo flags, errors, and frames that change nothing. */
    method HandleGameFrame(f: Frame)
      requires !(f.RoomCreated? || f.PlayerJoined? || f.PlayerLeft?)
      requires !(f.Analyzing? || f.Countdown? || f.Reveal?)
      modifies this
      ensures channels == old(channels) && active == old(active)
      ensures View() == OnFrame(old(View()), f)
    {
      match f {
        case Malformed =>
        case ConsentRequired =>
          consentRequired := true;
        case ConsentGranted =>
          gameStarted := true;
        case PhotoReceived =>
        case AllPhotosIn =>
          photosReady := true;
        case ServerError(message) =>
          error := message;
        case Unknown(_) =>
      }
    }

    /** `createRoom(name, roomType = 'duo')`. */
    method CreateRoom(name: string, roomType: Option<string>)
      requires Valid()
      modifies this
      ensures Valid() && View() == old(View()) && active == old(active)
      ensures channels == Transmit(old(channels), old(active), Encode(Command.CreateRoom(name, roomType.GetOr("duo"))))
    {
      Send(Command.CreateRoom(name, roomType.GetOr("duo")));
    }

    /** `joinRoom(name, code)`. */
    method JoinRoom(name: string, code: string)
      requires Valid()
      modifies this
      ensures Valid() && View() == old(View()) && active == old(active)
      ensures channels == Transmit(old(channels), old(active), Encode(Command.JoinRoom(name, code)))
    {
      Send(Command.JoinRoom(name, code));
    }

    /** `grantConsent`: sends `grant_consent` and clears the consent request
        at once, without waiting for the server. */
    method GrantConsent()
      requires Valid()
      modifies this
      ensures Valid() && active == old(active)
      ensures View() == old(View()).(consentRequired := false)
      ensures channels == Transmit(old(channels), old(active), Encode(Command.GrantConsent))
    {
      Send(Command.GrantConsent);
      consentRequired := false;
    }

    /** `uploadPhoto`: sends the part of the image text `PhotoPayload` keeps. */
    method UploadPhoto(photo: string)
      requires Valid()
      modifies this
      ensures Valid() && View() == old(View()) && active == old(active)
      ensures channels == Transmit(old(channels), old(active), Encode(Command.UploadPhoto(PhotoPayload(photo))))
    {
      var raw := if ',' in photo then Text.SecondField(photo) else photo;
      Send(Command.UploadPhoto(raw));
    }

    /** `markReady`. */
    method MarkReady()
      requires Valid()
      modifies this
      ensures Valid() && View() == old(View()) && active == old(active)
      ensures channels == Transmit(old(channels), old(active), Encode(Command.MarkReady))
    {
      Send(Command.MarkReady);
    }

    /** The state resets `leave` performs. */
    method ResetFields()
      modifies this
      ensures channels == old(channels) && active == old(active)
      ensures View() == AfterLeave(old(View()))
    {
      ResetRoom();
      ResetGame();
    }

    /** The first half of the resets: the connection status and the room. */
    method ResetRoom()
      modifies this
      ensures channels == old(channels) && active == old(active)
      ensures View() == old(View()).(status := Disconnected, roomCode := None, playerId := None,
                                     isHost := false, players := [])
    {
      status, roomCode, playerId, isHost, players := Disconnected, None, None, false, [];
    }

    /** The second half: the game's flags and its progress. */
    method ResetGame()
      modifies this
      ensures channels == old(channels) && active == old(active)
      ensures View() == old(View()).(consentRequired := false, gameStarted := false, photosReady := false,
                                     analyzing := None, countdown := None, results := None)
    {
      consentRequired, gameStarted, photosReady := false, false, false;
      analyzing, countdown, results := None, None, None;
    }

    /** `leave`: tries to send `leave`, resets every session field except
        `error`, then closes and drops the active channel. Its close handler
        stays attached but no longer matches the active channel. */
    method Leave()
      requires Valid()
      modifies this
      ensures Valid() && active == None
      ensures View() == AfterLeave(old(View()))
      ensures old(active).None? ==> channels == old(channels)
      ensures old(active).Some? ==>
                var sent := Transmit(old(channels), old(active), Encode(Command.LeaveRoom));
                channels == sent[old(active).value := CloseChannel(sent[old(active).value])]
    {
      Send(Command.LeaveRoom);
      ResetFields();
      if active.Some? {
        channels := channels[active.value := CloseChannel(channels[active.value])];
        active := None;
      }
    }
  }
}
