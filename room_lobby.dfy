/** The room lobby: the room name and avatar colour derived from text, the
    join-code field, the player-count rules, the tip rotation, and the lobby
    mode the buttons move through. Creating or joining produces the session
    calls the buttons make. */
module RoomLobby {
  import opened Common
  import opened Text
  import MatchConnection

  const ADJECTIVES: seq<string> :=
    ["Cosmic", "Crystal", "Electric", "Golden", "Magnetic", "Stellar", "Vivid", "Radiant", "Prism", "Solar"]
  const NOUNS: seq<string> :=
    ["Lab", "Arena", "Studio", "Hub", "Vault", "Lounge", "Chamber", "Nexus", "Forge", "Realm"]

  /** The sum of the character codes. */
  function CodeSum(s: string): (n: nat)
    ensures s == [] ==> n == 0
    ensures |s| == 1 ==> n == s[0] as int
  {
    if s == [] then 0 else CodeSum(s[..|s| - 1]) + s[|s| - 1] as int
  }

  /** `getRoomName(code)`: empty for a missing or empty code; otherwise an
      adjective chosen by the last decimal digit of the code sum and a noun
      chosen by the digit before it. */
  function RoomName(code: Option<string>): (r: string)
    ensures !Truthy(code) ==> r == ""
    ensures Truthy(code) ==>
              r == ADJECTIVES[CodeSum(code.value) % 10] + " " + NOUNS[(CodeSum(code.value) / 10) % 10]
  {
    if !Truthy(code) then ""
    else
      var n := CodeSum(code.value);
      ADJECTIVES[n % |ADJECTIVES|] + " " + NOUNS[(n / |ADJECTIVES|) % |NOUNS|]
  }

  /** The sum over two pieces of a code is the sum of their sums. */
  lemma {:induction false} CodeSumAppend(a: string, b: string)
    ensures CodeSum(a + b) == CodeSum(a) + CodeSum(b)
    decreases |b|
  {
    if b == [] {
      assert a + b == a;
    } else {
      var b' := b[..|b| - 1];
      assert a + b == (a + b') + [b[|b| - 1]];
      assert ((a + b') + [b[|b| - 1]])[..|a + b'|] == a + b';
      CodeSumAppend(a, b');
    }
  }

  /** The name depends only on the multiset of characters: reordering the
      code keeps it, so "1234" and "4321" share a name. */
  lemma {:induction false} CodeSumSwap(a: string, x: char, y: char, b: string)
    ensures CodeSum(a + [x, y] + b) == CodeSum(a + [y, x] + b)
    decreases |b|
  {
    if b == [] {
      assert a + [x, y] + b == (a + [x]) + [y];
      assert a + [y, x] + b == (a + [y]) + [x];
      assert (a + [x]) + [y] == ((a + [x]) + [y])[..|a| + 1] + [y];
      assert ((a + [x]) + [y])[..|a| + 1] == a + [x];
      assert ((a + [y]) + [x])[..|a| + 1] == a + [y];
      assert (a + [x])[..|a|] == a && (a + [y])[..|a|] == a;
    } else {
      var b' := b[..|b| - 1];
      assert a + [x, y] + b == (a + [x, y] + b') + [b[|b| - 1]];
      assert a + [y, x] + b == (a + [y, x] + b') + [b[|b| - 1]];
      assert ((a + [x, y] + b') + [b[|b| - 1]])[..|a + [x, y] + b'|] == a + [x, y] + b';
      assert ((a + [y, x] + b') + [b[|b| - 1]])[..|a + [y, x] + b'|] == a + [y, x] + b';
      CodeSumSwap(a, x, y, b');
    }
  }

  const AVATAR_GRADIENTS: seq<string> := [
    "from-violet-500 to-pink-500", "from-cyan-400 to-blue-500", "from-amber-400 to-orange-500",
    "from-emerald-400 to-teal-500", "from-pink-400 to-rose-500", "from-purple-400 to-indigo-500"]

  const TWO_31: int := 0x8000_0000
  const TWO_32: int := 0x1_0000_0000

  /** `x | 0`: the signed 32-bit integer congruent to `x`. */
  function Wrap32(x: int): (r: int)
    ensures -TWO_31 <= r < TWO_31
    ensures (r - x) % TWO_32 == 0
  {
    (x + TWO_31) % TWO_32 - TWO_31
  }

  /** One step of the hash as written: `((a << 5) - a + code) | 0`, where the
      shift itself already wraps to 32 bits. */
  function HashStep(a: int, c: char): int {
    Wrap32(Wrap32(a * 32) - a + c as int)
  }

  /** The shift-and-subtract step is the 32-bit wrap of `31 * a + code`. */
  lemma HashStepIsTimes31(a: int, c: char)
    ensures HashStep(a, c) == Wrap32(31 * a + c as int)
  {
    var w := Wrap32(a * 32);
    var k := (w - a * 32) / TWO_32;
    assert w - a * 32 == k * TWO_32;
    var x := w - a + c as int;
    var y := 31 * a + c as int;
    assert x == y + k * TWO_32;
    WrapPeriodic(y, k);
  }

  /** Adding whole multiples of 2^32 does not change the wrapped value. */
  lemma WrapPeriodic(y: int, k: int)
    ensures Wrap32(y + k * TWO_32) == Wrap32(y)
  {
    var x := y + TWO_31;
    var q, r := x / TWO_32, x % TWO_32;
    assert x == q * TWO_32 + r && 0 <= r < TWO_32;
    assert x + k * TWO_32 == (q + k) * TWO_32 + r;
  }

  /** The hash of `name`: the fold from 0 over the characters. */
  function NameHash(name: string): (h: int)
    ensures -TWO_31 <= h < TWO_31
    ensures name == [] ==> h == 0
    ensures name != [] ==> h == Wrap32(31 * NameHash(name[..|name| - 1]) + name[|name| - 1] as int)
  {
    if name == [] then 0
    else
      var prev := NameHash(name[..|name| - 1]);
      HashStepIsTimes31(prev, name[|name| - 1]);
      HashStep(prev, name[|name| - 1])
  }

  function Abs(x: int): nat {
    if x < 0 then -x else x
  }

  /** `getAvatarGradient(name)`: the palette entry at `Math.abs(h) % 6`,
      always a valid index (even for the hash -2^31). */
  function AvatarGradientIndex(name: string): (i: nat)
    ensures i < |AVATAR_GRADIENTS|
    ensures i == Abs(NameHash(name)) % 6
  {
    Abs(NameHash(name)) % |AVATAR_GRADIENTS|
  }

  function AvatarGradient(name: string): (g: string)
    ensures g in AVATAR_GRADIENTS
  {
    AVATAR_GRADIENTS[AvatarGradientIndex(name)]
  }

  /** The empty name (the default argument) gets the first gradient. */
  lemma EmptyNameGradient()
    ensures AvatarGradient("") == "from-violet-500 to-pink-500"
  {
  }

  predicate IsAsciiAlnum(c: char) {
    ('0' <= c <= '9') || ('A' <= c <= 'Z') || ('a' <= c <= 'z')
  }

  /** `replace(/[^0-9A-Za-z]/g, '')`. */
  function KeepAlnum(s: string): (r: string)
    ensures |r| <= |s|
    ensures forall k :: 0 <= k < |r| ==> IsAsciiAlnum(r[k])
    ensures (forall k :: 0 <= k < |s| ==> IsAsciiAlnum(s[k])) ==> r == s
    ensures forall c {:trigger c in r} :: c in r <==> c in s && IsAsciiAlnum(c)
  {
    if s == [] then []
    else
      assert s == [s[0]] + s[1..];
      (if IsAsciiAlnum(s[0]) then [s[0]] else []) + KeepAlnum(s[1..])
  }

  /** One character is kept exactly when it is a letter or a digit. */
  lemma KeepAlnumSingle(c: char)
    ensures KeepAlnum([c]) == if IsAsciiAlnum(c) then [c] else []
  {
    assert [c][1..] == [];
  }

  /** The filter works character by character, so the kept characters stay
      in the order they were typed. */
  lemma {:induction false} KeepAlnumAppend(a: string, b: string)
    ensures KeepAlnum(a + b) == KeepAlnum(a) + KeepAlnum(b)
  {
    if a == [] {
      assert a + b == b;
    } else {
      assert (a + b)[0] == a[0];
      assert (a + b)[1..] == a[1..] + b;
      KeepAlnumAppend(a[1..], b);
    }
  }

  /** The join-code field: the input's four-character limit applies to what
      is typed, then everything but ASCII letters and digits is dropped and
      letters are uppercased. */
  function SanitizeJoinCode(typed: string): (code: string)
    ensures |code| <= 4
    ensures forall k :: 0 <= k < |code| ==>
              ('0' <= code[k] <= '9') || ('A' <= code[k] <= 'Z')
    ensures |typed| <= 4 && (forall k :: 0 <= k < |typed| ==> IsAsciiAlnum(typed[k])) ==>
              code == ToUpper(typed)
    ensures code == ToUpper(KeepAlnum(if |typed| <= 4 then typed else typed[..4]))
  {
    var capped := if |typed| <= 4 then typed else typed[..4];
    ToUpper(KeepAlnum(capped))
  }

  /** What reaches the field: exactly the upper-case forms of the letters and
      digits among the first four characters typed. */
  lemma SanitizeJoinCodeKeeps(typed: string)
    ensures forall c :: c in SanitizeJoinCode(typed) <==>
              exists k :: 0 <= k < |typed| && k < 4 && IsAsciiAlnum(typed[k]) && c == UpperChar(typed[k])
  {
    var capped := if |typed| <= 4 then typed else typed[..4];
    var kept := KeepAlnum(capped);
    ToUpperMembers(kept);
    forall c
      ensures c in SanitizeJoinCode(typed) <==>
                exists k :: 0 <= k < |typed| && k < 4 && IsAsciiAlnum(typed[k]) && c == UpperChar(typed[k])
    {
      if c in SanitizeJoinCode(typed) {
        var d :| d in kept && c == UpperChar(d);
        var k :| 0 <= k < |capped| && capped[k] == d;
        assert typed[k] == d;
      }
    }
  }

  /** A character occurs in the upper-cased string exactly when it is the
      upper-case form of one that occurs in the original. */
  lemma ToUpperMembers(s: string)
    ensures forall c :: c in ToUpper(s) <==> exists d :: d in s && c == UpperChar(d)
  {
    forall c | exists d :: d in s && c == UpperChar(d)
      ensures c in ToUpper(s)
    {
      var d :| d in s && c == UpperChar(d);
      var k :| 0 <= k < |s| && s[k] == d;
      assert ToUpper(s)[k] == c;
    }
  }

  /** The length limit applies to what is typed, before the filter: of
      `ab-12` only `ab-1` reaches the field, which becomes `AB1`. */
  lemma SanitizeExample()
    ensures SanitizeJoinCode("ab-12") == "AB1"
  {
    assert "ab-12"[..4] == ['a', 'b', '-', '1'];
    KeepExample('a', 'b', '-', '1');
    UpperExample();
  }

  /** Of `ab-1` the filter keeps `ab1`: a character that is not a letter or
      digit between kept ones drops out and the rest keep their order. */
  lemma KeepExample(a: char, b: char, d: char, o: char)
    requires IsAsciiAlnum(a) && IsAsciiAlnum(b) && !IsAsciiAlnum(d) && IsAsciiAlnum(o)
    ensures KeepAlnum([a, b, d, o]) == [a, b, o]
  {
    KeepAlnumSingle(o);
    assert [d, o] == [d] + [o];
    KeepAlnumCons(d, [o]);
    assert [b, d, o] == [b] + [d, o];
    KeepAlnumCons(b, [d, o]);
    assert [a, b, d, o] == [a] + [b, d, o];
    KeepAlnumCons(a, [b, d, o]);
  }

  /** Filtering a string that starts with `c`. */
  lemma KeepAlnumCons(c: char, t: string)
    ensures KeepAlnum([c] + t) == (if IsAsciiAlnum(c) then [c] else []) + KeepAlnum(t)
  {
    assert ([c] + t)[0] == c && ([c] + t)[1..] == t;
  }

  /** `ab1` upper-cased is `AB1`. */
  lemma UpperExample()
    ensures ToUpper(['a', 'b', '1']) == "AB1"
  {
    var up := ToUpper(['a', 'b', '1']);
    assert up[0] == 'A' && up[1] == 'B' && up[2] == '1';
  }

  /** Sanitizing a sanitized code leaves it as it is. */
  lemma SanitizeIdempotent(typed: string)
    ensures SanitizeJoinCode(SanitizeJoinCode(typed)) == SanitizeJoinCode(typed)
  {
    var c := SanitizeJoinCode(typed);
    assert forall k :: 0 <= k < |c| ==> IsAsciiAlnum(c[k]);
    assert KeepAlnum(c) == c;
    assert ToUpper(c) == c;
  }

  /** Joining needs a complete code: at least four characters, so exactly
      four once sanitized. */
  predicate CanJoin(code: string) {
    |code| >= 4
  }

  /** `minPlayers`: 3 in a group room, 2 in a duo room. */
  function MinPlayers(isGroup: bool): (n: nat)
    ensures n == (if isGroup then 3 else 2)
  {
    if isGroup then 3 else 2
  }

  /** `canStart`: enough players have joined. */
  predicate CanStart(playerCount: nat, isGroup: bool) {
    playerCount >= MinPlayers(isGroup)
  }

  /** The number of empty slots drawn: `max(0, minPlayers - players.length)`;
      there are none exactly when the host can start. */
  function EmptySlots(playerCount: nat, isGroup: bool): (n: nat)
    ensures n == 0 <==> CanStart(playerCount, isGroup)
    ensures playerCount + n >= MinPlayers(isGroup)
    ensures n > 0 ==> playerCount + n == MinPlayers(isGroup)
  {
    if playerCount >= MinPlayers(isGroup) then 0 else MinPlayers(isGroup) - playerCount
  }

  const TIP_COUNT: nat := 5

  /** `null | 'host' | 'choose' | 'join-input' | 'join'`. */
  datatype LobbyMode = Host | Choose | JoinInput | Join

  /** What a lobby button asks of the session: connect now, then send the
      command half a second later. */
  datatype LobbyCall = Connect | SendLater(cmd: MatchConnection.Command)

  class RoomLobby {
    var lobbyMode: Option<LobbyMode>
    var joinCode: string
    var tipIndex: nat

    predicate Valid()
      reads this
    {
      tipIndex < TIP_COUNT
    }

    constructor ()
      ensures Valid() && lobbyMode.None? && joinCode == "" && tipIndex == 0
    {
      lobbyMode := None;
      joinCode := "";
      tipIndex := 0;
    }

    /** The tip interval, which runs only while a room code is held: the
        index advances by one and wraps after the last tip. */
    method TipTick(roomCode: Option<string>)
      requires Valid()
      modifies this
      ensures Valid() && lobbyMode == old(lobbyMode) && joinCode == old(joinCode)
      ensures Truthy(roomCode) ==> tipIndex == (old(tipIndex) + 1) % TIP_COUNT
      ensures !Truthy(roomCode) ==> tipIndex == old(tipIndex)
    {
      if Truthy(roomCode) {
        tipIndex := (tipIndex + 1) % TIP_COUNT;
      }
    }

    /** Enter in the name field: with a non-blank name, move to `choose`. */
    method NameEntered(playerName: string)
      requires Valid()
      modifies this
      ensures Valid() && joinCode == old(joinCode) && tipIndex == old(tipIndex)
      ensures lobbyMode == (if Trim(playerName) != "" then Some(Choose) else old(lobbyMode))
    {
      if Trim(playerName) != "" {
        lobbyMode := Some(Choose);
      }
    }

    /** Create Room (disabled for a blank name): connect, then create a room
        of the page's type under the trimmed name. */
    method CreateClicked(playerName: string, isGroup: bool) returns (calls: seq<LobbyCall>)
      requires Valid()
      modifies this
      ensures Valid() && joinCode == old(joinCode) && tipIndex == old(tipIndex)
      ensures Trim(playerName) == "" ==> calls == [] && lobbyMode == old(lobbyMode)
      ensures Trim(playerName) != "" ==>
                lobbyMode == Some(Host)
                && calls == [Connect, SendLater(MatchConnection.Command.CreateRoom(
                                        Trim(playerName), if isGroup then "group" else "duo"))]
    {
      var name := Trim(playerName);
      if name == "" {
        return [];
      }
      calls := [Connect, SendLater(MatchConnection.Command.CreateRoom(name, if isGroup then "group" else "duo"))];
      lobbyMode := Some(Host);
    }

    /** Join Room (disabled for a blank name): show the code field. */
    method JoinChosen(playerName: string)
      requires Valid()
      modifies this
      ensures Valid() && joinCode == old(joinCode) && tipIndex == old(tipIndex)
      ensures lobbyMode == (if Trim(playerName) != "" then Some(JoinInput) else old(lobbyMode))
    {
      if Trim(playerName) != "" {
        lobbyMode := Some(JoinInput);
      }
    }

    /** The Back button of the join-code step: the lobby returns to its
        first screen and the typed code is kept. */
    method Back()
      requires Valid()
      modifies this
      ensures Valid() && lobbyMode.None?
      ensures joinCode == old(joinCode) && tipIndex == old(tipIndex)
    {
      lobbyMode := None;
    }

    /** Typing in the code field. */
    method CodeTyped(typed: string)
      requires Valid()
      modifies this
      ensures Valid() && lobbyMode == old(lobbyMode) && tipIndex == old(tipIndex)
      ensures joinCode == SanitizeJoinCode(typed)
    {
      joinCode := SanitizeJoinCode(typed);
    }

    /** Join (button or Enter, disabled for a short code): connect, then join
        with the trimmed name and the code. */
    method JoinSubmitted(playerName: string) returns (calls: seq<LobbyCall>)
      requires Valid()
      modifies this
      ensures Valid() && joinCode == old(joinCode) && tipIndex == old(tipIndex)
      ensures !CanJoin(joinCode) ==> calls == [] && lobbyMode == old(lobbyMode)
      ensures CanJoin(joinCode) ==>
                lobbyMode == Some(Join)
                && calls == [Connect, SendLater(MatchConnection.Command.JoinRoom(Trim(playerName), Trim(joinCode)))]
    {
      if !CanJoin(joinCode) {
        return [];
      }
      lobbyMode := Some(Join);
      var code := joinCode;
      var name := playerName;
      calls := [Connect, SendLater(MatchConnection.Command.JoinRoom(Trim(name), Trim(code)))];
    }
  }

  /** A sanitized code has no white space, so trimming it for the join
      command changes nothing. */
  lemma JoinCodeNeedsNoTrim(typed: string)
    ensures Trim(SanitizeJoinCode(typed)) == SanitizeJoinCode(typed)
  {
    var c := SanitizeJoinCode(typed);
    assert forall k :: 0 <= k < |c| ==> !IsJsSpace(c[k]);
    assert TrimStart(c) == c;
    assert TrimEnd(c) == c;
  }
}
