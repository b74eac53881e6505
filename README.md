# FamiliMatch client core in Dafny

FamiliMatch is a browser game. Players compare their faces, one pair at a
time (solo) or in a room of two to six players (duo or group). A server
scores the faces, and the client reveals the result step by step. This
project models the client's logic and proves properties about it:

- **The room session** (`useMatchConnection`). A class holds the twelve
  session fields and a registry of every channel it has opened.
  - The active channel is the only one that can be live, and only its close
    event can mark the session disconnected.
  - Outbound commands go out only on an open active channel.
  - Every inbound frame is specified by a pure transition function,
    `OnFrame`. Lemmas about `OnFrame` cover idempotence, last-write-wins, the
    frame footprint, roster replacement, identity adoption and reveal
    clearing.
  - `leave` resets every field except the error.
- **The app state.** The match reducer with its initial state, and the
  consent provider with its store.
- **The pure tables.** The chemistry tiers, the feature tables and the
  commentary selection.
- **The photo pipeline.** Photo validation and capture, and the solo
  client: MIME extraction, the byte copy, error messages, fusion slots,
  progress order and result defaults.
- **The page and component state machines.** The room page phases, the
  lobby (room name, avatar hash, join code, tips), the solo page run, the
  landing-page consent gate, onboarding, the group reveal (stable sort and
  counters), the results story and page, the feature breakdown, the scan
  animation, the countdown, the fusion reveal and the winner card.

Behaviour of the code worth noting, modelled as the code does it:

- `uploadPhoto` sends `split(',')[1]`, the text between the first and second
  comma. This is not everything after the first comma, although the hook's
  own test (tests/useMatchConnection.test.js:165) is titled "sends upload_photo with stripped base64"
  (`MatchConnection.PhotoPayloadCutsAtSecondComma`).
- `leave` keeps `error`.
- `consent_granted` sets `gameStarted`.
- Of a superseded channel's handlers, only `onclose` is guarded. A stale
  `onerror` still sets the status to error.
- A `countdown` frame without `seconds` stores an undefined count. The
  room page treats it as a countdown, because it tests `!== null`. The
  overlay then never completes, because `undefined <= 0` is false. See
  `Countdown.RunUndefined`. A frame whose `seconds` is `null` stores `null`,
  so the room page does not enter the countdown phase
  (`MatchConnection.NullCountdownClears`).
- The join-code field's `maxLength` of 4 limits what is typed, before
  non-alphanumerics are removed.

Servers, the WebSocket, the clock, storage and file conversion are not
modelled. What they would supply is passed in as a parameter: a frame, a
reply, an elapsed time, a stored value, a converted data URL.

## Model

| member | source | states |
|---|---|---|
| Common.OrElse | src/api/matchClient.js:119-120 | a present, non-empty string is kept; otherwise the default |
| Common.JsRem | src/utils/commentary.js:66 | JavaScript's truncating `%`: differs from the dividend by a multiple of `n`, lies in `[0, n)` for a non-negative dividend and in `(-n, 0]` for a negative one, and equals Euclidean `mod` when the dividend is non-negative |
| Common.FromProvider | src/state/MatchContext.jsx:89-93 | a context hook returns the provider's value, or fails with the given message exactly when there is no provider |
| Text.TrimStart | src/components/OnboardingScreen.jsx:17 | the suffix left after dropping leading white space, which does not start with white space |
| Text.TrimEnd | src/components/OnboardingScreen.jsx:17 | the prefix left after dropping trailing white space, which does not end with white space |
| Text.TrimEmptyIff | src/components/OnboardingScreen.jsx:77 | a string trims to nothing exactly when it is all white space; otherwise the trimmed string starts and ends with a visible character |
| Text.TrimIdempotent | src/components/RoomLobby.jsx:133 | trimming a trimmed string changes nothing |
| Text.ToLower | src/utils/commentary.js:36 | same length; each ASCII capital lowered and every other character kept |
| Text.ToUpper | src/components/RoomLobby.jsx:181 | same length; each ASCII lower-case letter raised and every other character kept |
| Text.FirstField | src/api/matchClient.js:14 | `split(',')[0]`: the text before the first comma, or the whole string |
| Text.IndexOf | src/api/matchClient.js:14 | for a character that occurs, the position of its first occurrence |
| Text.SecondField | src/hooks/useMatchConnection.js:161 | `split(',')[1]` contains no comma |
| Text.SplitAtFirstComma | src/api/matchClient.js:14 | `a,b` with no comma in `a` splits back into `a` and `b` |
| Domain.Filter | src/utils/commentary.js:68-69 | the filtered list has exactly the entries with that `match` flag, is no longer than the input, and every entry carries the flag |
| Domain.FilterAppend | src/components/ResultsStory.jsx:80 | filtering a concatenation gives the concatenation of the filters, so each entry with the flag is kept once, in its original order, and the match count adds up over parts of the list |
| Domain.FilterSingle | src/components/FeatureComparison.jsx:47 | a single entry is kept exactly when its flag is the wanted one, so the count of matches is the number of entries with `match` set |
| Domain.FirstWith | src/utils/commentary.js:71-72 | the index of the first entry with the flag, or none exactly when no entry has it |
| Domain.FilterHeadIsFirst | src/utils/commentary.js:68-72 | `matches[0]` is the first matching entry, and the filtered list is empty exactly when there is none |
| Domain.MatchesPartition | src/utils/commentary.js:68-69 | the matches and the mismatches together account for every comparison |
| Constants.FeatureTablesComplete | src/utils/constants.js:2-29 | there are eight distinct features, and each has a non-empty icon and short label |
| Constants.FirstTier | src/utils/constants.js:41-46 | the first tier whose minimum the score reaches, with every earlier tier out of reach; none when no tier is reached |
| Constants.FirstTierBands | src/utils/constants.js:32-46 | the row the scan stops at, for each band 85+, 70-84, 55-69, 40-54, 0-39 and below 0 |
| Constants.GetChemistryLabel | src/utils/constants.js:41-48 | label and colour for each band; a negative score gets Opposites Attract with `#95E1D3` |
| Constants.ChemistryMonotone | src/utils/constants.js:32-46 | a higher score never lands in a later tier |
| Constants.RoomTypeName | src/utils/constants.js:51-54 | room types are `duo` or `group`; `Duo` is exactly `duo` and `Group` exactly `group` |
| Constants.MaxPlayers | src/utils/constants.js:57-60 | duo holds 2 players and group holds 6 |
| MatchConnection.EncodeRoundTrip | src/hooks/useMatchConnection.js:146-168 | each command's `{type, data}` envelope decodes back to the same command and has a non-empty type |
| MatchConnection.Encode | src/hooks/useMatchConnection.js:146-168 | every command is sent with a non-empty message type |
| MatchConnection.Decode | src/hooks/useMatchConnection.js:146-168 | an envelope that decodes to a command is exactly that command's encoding |
| MatchConnection.PhotoPayload | src/hooks/useMatchConnection.js:159-164 | the part sent has no comma, and a string without a comma is sent whole |
| MatchConnection.PhotoPayloadOfDataUrl | src/hooks/useMatchConnection.js:159-164 | for a data URL whose payload has no comma, exactly the payload is sent; a string without a comma is sent whole |
| MatchConnection.PhotoPayloadExample | src/hooks/useMatchConnection.js:159-164 | `data:image/jpeg;base64,abc123` sends `abc123` |
| MatchConnection.PhotoPayloadCutsAtSecondComma | src/hooks/useMatchConnection.js:160-162 | a payload that contains a comma is cut at that comma |
| MatchConnection.RemovePlayerKeeps | src/hooks/useMatchConnection.js:67-69 | the filter keeps exactly the players whose id differs |
| MatchConnection.RemovePlayer | src/hooks/useMatchConnection.js:67-69 | removing a player never lengthens the list |
| MatchConnection.RemovePlayerAppend | src/hooks/useMatchConnection.js:68 | removal distributes over concatenation, so the kept players stay in order |
| MatchConnection.RemoveAbsentPlayer | src/hooks/useMatchConnection.js:68 | a roster without that id is unchanged |
| MatchConnection.PlayerLeftRemovesExactly | src/hooks/useMatchConnection.js:67-69 | `player_left` removes the leaving player and keeps the others in their order |
| MatchConnection.OnFrameIdempotent | src/hooks/useMatchConnection.js:41-108 | delivering the same frame twice has the effect of delivering it once |
| MatchConnection.CountdownOf | src/hooks/useMatchConnection.js:90-92 | the stored countdown is `null` exactly for an explicit `null` seconds; a whole number is stored as is and a missing field as an undefined count |
| MatchConnection.OnFrame | src/hooks/useMatchConnection.js:41-108 | results change only on a reveal; players only on a join or leave; the consent, started and photos-ready flags only on their own message and only to true; malformed, unknown and photo-received frames change nothing |
| MatchConnection.LastWriteWins | src/hooks/useMatchConnection.js:86-92 | of two `analyzing` frames, or two `countdown` frames, the later one wins |
| MatchConnection.FrameFootprint | src/hooks/useMatchConnection.js:41-108 | only `room_created`/`player_joined` change the status (to connected); only `room_created` changes the room or makes the client host; only a server `error` frame changes the error, and only that field; malformed, unknown and `photo_received` frames change nothing |
| MatchConnection.NullCountdownClears | src/hooks/useMatchConnection.js:90-92 | a countdown frame with `seconds: null` clears the countdown and undoes an earlier countdown frame; one without `seconds` stores an undefined count |
| MatchConnection.RevealClears | src/hooks/useMatchConnection.js:94-99 | `reveal`/`group_reveal` store the payload and clear both the analysis and the countdown |
| MatchConnection.RosterUntouched | src/hooks/useMatchConnection.js:41-108 | frames other than joins and leaves never touch the roster |
| MatchConnection.RosterIsLastJoin | src/hooks/useMatchConnection.js:59-60 | the roster is the list from the latest `player_joined` frame, or empty if that frame had none |
| MatchConnection.IdentityKept | src/hooks/useMatchConnection.js:59-65 | once a player id is held, only `room_created` replaces it |
| MatchConnection.JoinAdoptsIdentity | src/hooks/useMatchConnection.js:61-64 | a client without an id adopts the one `player_joined` carries, and is connected |
| MatchConnection.CreateRoomScenario | src/hooks/useMatchConnection.js:52-57 | `room_created` makes the client the connected host of that room, with that player id |
| MatchConnection.AnalyzeRevealScenario | src/hooks/useMatchConnection.js:86-99 | two progress frames and then a reveal leave the result, with no analysis and no countdown |
| MatchConnection.LeaveForgetsAllButError | src/hooks/useMatchConnection.js:170-182 | after `leave` the state is the initial one except the error, whatever came before, and leaving twice is leaving once |
| MatchConnection.CloseChannel | src/hooks/useMatchConnection.js:116 | a closed channel is no longer live |
| MatchConnection.Transmit | src/hooks/useMatchConnection.js:35-39 | the envelope is appended to the active channel's log only when that channel is open; otherwise nothing changes |
| MatchConnection.AtMostOneLive | src/hooks/useMatchConnection.js:110-143 | under the registry invariant, at most one channel is connecting or open |
| MatchConnection.Session.constructor | src/hooks/useMatchConnection.js:13-33 | initial fields, no channel |
| MatchConnection.Session.Send | src/hooks/useMatchConnection.js:35-39 | the log of an open active channel grows by the envelope; otherwise nothing is sent; no session field changes |
| MatchConnection.Session.Connect | src/hooks/useMatchConnection.js:110-143 | the previous channel is detached, disarmed and closed; a new connecting channel becomes active; status is connecting and error is cleared; the invariant holds |
| MatchConnection.Session.ChannelOpened | src/hooks/useMatchConnection.js:124-127 | only a connecting channel opens, and that is always the active one; the session becomes connected and `onReady` runs when one was given; any other open changes nothing |
| MatchConnection.Session.ChannelFailed | src/hooks/useMatchConnection.js:131-134 | an unguarded error sets status error and `Connection error`, even from a superseded channel |
| MatchConnection.Session.ChannelClosed | src/hooks/useMatchConnection.js:136-141 | only a close from the active channel marks the session disconnected; a stale close leaves every field as it was |
| MatchConnection.Session.ReceiveFrame | src/hooks/useMatchConnection.js:129 | an open channel's frame updates the fields as `OnFrame` says; a channel that is not open delivers nothing |
| MatchConnection.Session.HandleMessage | src/hooks/useMatchConnection.js:41-108 | the imperative switch produces exactly `OnFrame` of the previous fields |
| MatchConnection.Session.HandleRosterFrame | src/hooks/useMatchConnection.js:52-70 | the room-created, player-joined and player-left cases produce exactly `OnFrame` of the previous fields |
| MatchConnection.Session.HandleProgressFrame | src/hooks/useMatchConnection.js:86-100 | the analyzing, countdown and reveal cases produce exactly `OnFrame` of the previous fields |
| MatchConnection.Session.HandleGameFrame | src/hooks/useMatchConnection.js:41-108 | the consent, photo, error, unknown and unparsable cases produce exactly `OnFrame` of the previous fields |
| MatchConnection.Session.CreateRoom | src/hooks/useMatchConnection.js:146-148 | sends `create_room` with the name and the room type, `duo` by default |
| MatchConnection.Session.JoinRoom | src/hooks/useMatchConnection.js:150-152 | sends `join_room` with the name and the code |
| MatchConnection.Session.GrantConsent | src/hooks/useMatchConnection.js:154-157 | sends `grant_consent` and clears `consentRequired` at once |
| MatchConnection.Session.UploadPhoto | src/hooks/useMatchConnection.js:159-164 | sends `upload_photo` with the part `PhotoPayload` keeps |
| MatchConnection.Session.ResetFields | src/hooks/useMatchConnection.js:170-186 | leaving clears the room fields to their initial values as `AfterLeave` says and keeps the channels |
| MatchConnection.Session.ResetRoom | src/hooks/useMatchConnection.js:172-182 | the status is disconnected and the room code, player id, host flag and roster are cleared; nothing else changes |
| MatchConnection.Session.ResetGame | src/hooks/useMatchConnection.js:176-181 | results, analysis, countdown and the photos, consent and started flags are cleared; nothing else changes |
| MatchConnection.Session.MarkReady | src/hooks/useMatchConnection.js:166-168 | sends `ready` |
| MatchConnection.Session.Leave | src/hooks/useMatchConnection.js:170-187 | tries to send `leave`, resets every field except the error, and closes and drops the active channel |
| MatchContext.InitialState | src/state/MatchContext.jsx:5-17 | empty state with the display name read at load time, or `''` |
| MatchContext.ModeAndResetForget | src/state/MatchContext.jsx:21-22 | `SET_MODE` and `RESET` give the same result from any state, and discard room, players, results and error |
| MatchContext.ResetRestoresLoadTimeName | src/state/MatchContext.jsx:25-27 | `SET_USERNAME` stores the name; a later `RESET` restores the name read at load time |
| MatchContext.SingleFieldActions | src/state/MatchContext.jsx:23-49 | `SET_PLAYER_NAME`, `SET_USERNAME`, `SET_PHOTO` and `UPDATE_PLAYERS` each change one field; an unknown action changes nothing |
| MatchContext.SetRoomEntersLobby | src/state/MatchContext.jsx:28-35 | `SET_ROOM` sets room, host and id, enters the lobby, and changes nothing else |
| MatchContext.StatusAndError | src/state/MatchContext.jsx:36-45 | `SET_STATUS` clears the error, `SET_ERROR` returns to idle, and `SET_RESULTS` shows results; only listed actions move the status; only `SET_ERROR` introduces an error |
| MatchContext.OnlyUserNameIsStored | src/state/MatchContext.jsx:25-27 | only `SET_USERNAME` writes to the session store, and it writes the new name |
| MatchContext.UseMatch | src/state/MatchContext.jsx:89-93 | outside a provider the result is the error `useMatch must be inside MatchProvider`; inside, the context |
| MatchContext.Reduce | src/state/MatchContext.jsx:19-51 | a reset returns the initial state; an unknown action changes nothing; the name is stored exactly on a name change; the results change only on set-results, set-mode or reset |
| Commentary.TierTexts | src/utils/commentary.js:10-31 | every tier offers two sentences, and Complementary Pair is always present |
| Commentary.TierOptions | src/utils/commentary.js:65 | the tier's options, or the Complementary Pair options for a missing or unknown label |
| Commentary.TierComment | src/utils/commentary.js:62-66 | for a non-negative score, option `floor(p/10) mod 2` of the tier; for a negative score, option 0 when JavaScript's remainder of `floor(p/10)` by 2 is 0 and undefined otherwise, so every score from -9 to -1 gives undefined |
| Commentary.TierCommentAlternates | src/utils/commentary.js:66 | the pick alternates every ten points and repeats every twenty |
| Commentary.MatchComment | src/utils/commentary.js:34-40 | "You both share" exactly when both traits are present and equal ignoring case; then the full sentence is "You both share <lowered trait> <lowered label>" + the clearest-similarities ending, otherwise "Your <lowered label> structures" + the remarkably-similar ending |
| Commentary.ContrastComment | src/utils/commentary.js:43-51 | with both traits present, the sentence "Where A has a-trait feature, B has b-trait" + the fixed ending, with the names defaulting to `Person A` and `Person B` and the traits and feature lower-cased; otherwise exactly "Your <lowered label> couldn't be more different" + the different-approaches ending |
| Commentary.NameAt | src/utils/commentary.js:74-76 | a name only for a present, non-empty entry |
| Commentary.GenerateCommentary | src/utils/commentary.js:59-93 | none exactly for no results; the tier comment; the first match and the first mismatch; each comment present exactly when its feature is, and equal to `MatchComment` and `ContrastComment` of that feature with the first two players' names |
| Commentary.StrongestIsNotContrast | src/utils/commentary.js:68-72 | the strongest match is a match, the biggest contrast is not, so the two are never the same entry |
| Commentary.FullCommentary | src/utils/commentary.js:59-93 | a result with a non-negative score and comparisons holding a match at index `i` and a mismatch at index `j` gets every part of the commentary: a tier comment, a strongest match that is a match at or before `i`, a biggest contrast that is a mismatch at or before `j`, and both comments |
| Consent.LoadConsent | src/state/ConsentContext.jsx:7-15 | the saved record, or no consent with no timestamp |
| Consent.SaveConsent | src/state/ConsentContext.jsx:17-23 | a successful write reloads as the value written; a failed write leaves the store unchanged |
| Consent.ConsentProvider.constructor | src/state/ConsentContext.jsx:26 | the provider starts with the loaded value, in sync with the store |
| Consent.ConsentProvider.GrantConsent | src/state/ConsentContext.jsx:28-32 | consent with the current time, then saved; in sync when the write succeeds |
| Consent.ConsentProvider.RevokeConsent | src/state/ConsentContext.jsx:34-38 | no consent and no timestamp, then saved; in sync when the write succeeds |
| Consent.SavedConsentReloads | src/state/ConsentContext.jsx:7-23 | a saved value reloads unchanged, and saving it again changes nothing |
| Consent.UseConsent | src/state/ConsentContext.jsx:47-51 | outside a provider the result is the error `useConsent must be inside ConsentProvider` |
| PhotoCapture.Validate | src/hooks/usePhotoCapture.js:13-18 | the four outcomes in order (missing, bad type, over 10 MiB, accepted), and accepted exactly for an accepted type within the limit |
| PhotoCapture.SizeLimitIsInclusive | src/hooks/usePhotoCapture.js:4-16 | exactly 10 MiB passes, and one byte more fails |
| PhotoCapture.PhotoCapture.constructor | src/hooks/usePhotoCapture.js:8-11 | no photo, no error, not loading |
| PhotoCapture.PhotoCapture.BeginFile | src/hooks/usePhotoCapture.js:20-28 | a rejected file only sets the error; an accepted one clears it and starts loading |
| PhotoCapture.PhotoCapture.FinishFile | src/hooks/usePhotoCapture.js:29-38 | a conversion sets the photo and returns it; a failure sets `Failed to process image`; loading ends either way |
| PhotoCapture.PhotoCapture.HandleFile | src/hooks/usePhotoCapture.js:20-39 | the three outcomes of `handleFile`, end to end |
| PhotoCapture.PhotoCapture.HandleFiles | src/hooks/usePhotoCapture.js:41-50 | an event without files changes nothing; a rejected first file sets its error and keeps the photo and the loading flag; an accepted one that fails to convert keeps the photo, reports `Failed to process image` and stops loading; one that converts becomes the photo with no error |
| PhotoCapture.PhotoCapture.ClearPhoto | src/hooks/usePhotoCapture.js:56-60 | no photo, no error, and an emptied input when one is mounted |
| MatchClient.LazyUpToSemicolon | src/api/matchClient.js:15 | the lazy group: the text before the first `;`, with no `;` or line break in it; none when a line break comes first |
| MatchClient.MimeOf | src/api/matchClient.js:15 | non-empty; `image/jpeg` when nothing or an empty group is captured |
| MatchClient.MimeOfHeader | src/api/matchClient.js:14-15 | for a header `prefix:type;rest`, the type between the first `:` and the next `;` |
| MatchClient.MimeCaptureAfterPrefix | src/api/matchClient.js:15 | the regex's group is found after the first colon, whatever precedes it |
| MatchClient.LazyOfGroup | src/api/matchClient.js:15 | the lazy group stops at the first semicolon |
| MatchClient.MimeExamples | src/api/matchClient.js:15 | a PNG header gives `image/png`; an empty type gives `image/jpeg` |
| MatchClient.SplitDataUrl | src/api/matchClient.js:14 | the header is the text before the first comma (the whole text when there is none); the payload exists exactly when there is a comma, and is then the text between the first and second comma |
| MatchClient.CopyBytes | src/api/matchClient.js:16-20 | a fresh array of the decoded length; byte i is character i's code modulo 256 |
| MatchClient.ByteOfLatin1 | src/api/matchClient.js:19 | a character below 256 is copied as its own code |
| MatchClient.ErrorMessage | src/api/matchClient.js:34-41 | the server's `detail` if it has one; otherwise `<path> failed: <status>` |
| MatchClient.PostForm | src/api/matchClient.js:27-43 | the body of a successful reply; the error message for an error status; a failed request's own message |
| MatchClient.FusionSlots | src/api/matchClient.js:67-70 | every feature and nothing else gets a slot; slots alternate `PersonA`, `PersonB` by position |
| MatchClient.CreateMorph | src/api/matchClient.js:63-82 | the image only on success with a non-empty image; every failure gives none |
| MatchClient.OrEmptyObject | src/api/matchClient.js:117-118 | a truthy value is kept; otherwise `{}` |
| MatchClient.SoloResult | src/api/matchClient.js:108-121 | scoring fields pass through unchanged; the fusion image is set; calibration defaults to `{}` and names to `Person A`/`Person B` |
| MatchClient.CompareSolo | src/api/matchClient.js:92-122 | a failed request reports 20 and returns exactly its message as the error; otherwise reports 20, 60, 80, 100 in increasing order and returns the mapped result, with the morph image or none |
| RoomPage.RoomPage.constructor | src/pages/RoomPage.jsx:93-94 | phase `lobby`, no modal |
| RoomPage.RoomPage.ConsentEffect | src/pages/RoomPage.jsx:97-99 | the modal opens when consent is required and not given; it is never closed here |
| RoomPage.RoomPage.AnalyzingEffect | src/pages/RoomPage.jsx:101-103 | any analysis moves the phase to `analyzing` |
| RoomPage.RoomPage.CountdownEffect | src/pages/RoomPage.jsx:105-107 | any countdown other than null, including one without seconds, moves the phase to `countdown` |
| RoomPage.RoomPage.ResultsEffect | src/pages/RoomPage.jsx:109-114 | results are stored and the page goes to `/results`; without results, nothing happens |
| RoomPage.RoomPage.HandleRoomReady | src/pages/RoomPage.jsx:116-120 | without consent only the modal opens; with consent the grant is sent and the phase becomes `upload` |
| RoomPage.RoomPage.HandleConsented | src/pages/RoomPage.jsx:122-126 | closes the modal, sends the grant, and sets `upload` |
| RoomPage.RoomPage.HandlePhotoReady | src/pages/RoomPage.jsx:128-130 | a non-empty data URL is uploaded and the phase becomes `waiting`; anything else changes nothing |
| RoomPage.RoomPage.ReadyClicked | src/pages/RoomPage.jsx:238 | sends `ready` and sets `waiting` |
| RoomPage.RoomPage.HandleLeave | src/pages/RoomPage.jsx:132 | leaves the session, then goes to `/` |
| RoomPage.RoomPage.CountdownComplete | src/pages/RoomPage.jsx:281 | the phase becomes `done` |
| RoomLobby.CodeSum | src/components/RoomLobby.jsx:12 | the empty code sums to 0 and a one-character code to that character's code |
| RoomLobby.CodeSumAppend | src/components/RoomLobby.jsx:12 | the sum over a concatenation is the sum of the two sums |
| RoomLobby.RoomName | src/components/RoomLobby.jsx:10-14 | empty for a missing code; otherwise adjective `n mod 10` and noun `floor(n/10) mod 10`, always in range |
| RoomLobby.CodeSumSwap | src/components/RoomLobby.jsx:12 | the room name does not depend on the order of the characters |
| RoomLobby.Wrap32 | src/components/RoomLobby.jsx:27 | `x \| 0` is the signed 32-bit value congruent to x |
| RoomLobby.HashStepIsTimes31 | src/components/RoomLobby.jsx:27 | the shift-and-subtract step is the 32-bit wrap of `31*a + code` |
| RoomLobby.WrapPeriodic | src/components/RoomLobby.jsx:27 | adding multiples of 2^32 does not change the wrapped value |
| RoomLobby.NameHash | src/components/RoomLobby.jsx:27 | the hash is always a signed 32-bit value; 0 for the empty name, otherwise `31 * hash(prefix) + last code` wrapped to 32 bits |
| RoomLobby.AvatarGradientIndex | src/components/RoomLobby.jsx:26-29 | `abs(h) mod 6`, always a valid index, even for -2^31 |
| RoomLobby.AvatarGradient | src/components/RoomLobby.jsx:17-29 | always one of the six gradients |
| RoomLobby.EmptyNameGradient | src/components/RoomLobby.jsx:26-28 | the default empty name gets the first gradient |
| RoomLobby.KeepAlnum | src/components/RoomLobby.jsx:181 | a character is kept exactly when it occurs in the input and is an ASCII letter or digit; an all-alphanumeric string is unchanged |
| RoomLobby.KeepAlnumSingle | src/components/RoomLobby.jsx:181 | one character is kept exactly when it is an ASCII letter or digit |
| RoomLobby.KeepAlnumAppend | src/components/RoomLobby.jsx:181 | the filter distributes over concatenation, so it keeps the order of what it keeps |
| RoomLobby.SanitizeJoinCode | src/components/RoomLobby.jsx:181-190 | at most four characters, each a digit or an upper-case letter; exactly the upper-cased letters and digits of the first four typed characters, in order; input of at most four letters and digits comes back upper-cased and otherwise unchanged |
| RoomLobby.SanitizeJoinCodeKeeps | src/components/RoomLobby.jsx:181-190 | a character reaches the field exactly when it is the upper-case form of a letter or digit among the first four typed |
| RoomLobby.ToUpperMembers | src/components/RoomLobby.jsx:181 | a character occurs in the upper-cased string exactly when it is the upper-case form of one in the original |
| RoomLobby.SanitizeExample | src/components/RoomLobby.jsx:181-190 | typing `ab-12` gives the code `AB1` |
| RoomLobby.KeepExample | src/components/RoomLobby.jsx:181 | a non-alphanumeric character between kept ones drops out and the others keep their order |
| RoomLobby.UpperExample | src/components/RoomLobby.jsx:181 | `ab1` upper-cased is `AB1` |
| RoomLobby.KeepAlnumCons | src/components/RoomLobby.jsx:181 | the filter of a string starting with `c` keeps `c` exactly when it is a letter or digit, followed by the filter of the rest |
| RoomLobby.SanitizeIdempotent | src/components/RoomLobby.jsx:181 | sanitizing a sanitized code changes nothing |
| RoomLobby.MinPlayers | src/components/RoomLobby.jsx:77-78 | 3 for a group room, 2 for duo |
| RoomLobby.EmptySlots | src/components/RoomLobby.jsx:322 | `max(0, min - count)`: the slots fill the room up to its minimum, and there are none exactly when the host can start |
| RoomLobby.RoomLobby.constructor | src/components/RoomLobby.jsx:70-75 | no mode, empty code, first tip |
| RoomLobby.RoomLobby.TipTick | src/components/RoomLobby.jsx:83-87 | while a room code is held, the tip advances `(i+1) mod 5` and stays in range |
| RoomLobby.RoomLobby.NameEntered | src/components/RoomLobby.jsx:119 | Enter with a non-blank name goes to `choose` |
| RoomLobby.RoomLobby.CreateClicked | src/components/RoomLobby.jsx:129-135 | a blank name does nothing; otherwise connect, then create a `group`/`duo` room with the trimmed name, in host mode |
| RoomLobby.RoomLobby.JoinChosen | src/components/RoomLobby.jsx:140-142 | a non-blank name shows the code field |
| RoomLobby.RoomLobby.Back | src/components/RoomLobby.jsx:167-172 | the Back button returns the lobby to its first screen and keeps the typed code and the tip |
| RoomLobby.RoomLobby.CodeTyped | src/components/RoomLobby.jsx:181 | the field holds the sanitized code |
| RoomLobby.RoomLobby.JoinSubmitted | src/components/RoomLobby.jsx:182-202 | a code shorter than 4 does nothing; otherwise connect, then join with the trimmed name and code |
| RoomLobby.JoinCodeNeedsNoTrim | src/components/RoomLobby.jsx:185-200 | trimming a sanitized code changes nothing |
| SoloPage.Padding | src/pages/SoloPage.jsx:83-85 | no wait after 8 s; otherwise the run lasts exactly 8 s |
| SoloPage.FailureMessage | src/pages/SoloPage.jsx:90 | the error's message, or `Comparison failed` |
| SoloPage.SoloPage.constructor | src/pages/SoloPage.jsx:46-53 | onboarding shows exactly when no display name is known |
| SoloPage.SoloPage.SetPhotos | src/pages/SoloPage.jsx:190-191 | the two uploaders' photos are stored and nothing else on the page changes |
| SoloPage.SoloPage.OnboardingDone | src/pages/SoloPage.jsx:109-113 | completing onboarding hides it and changes nothing else on the page |
| SoloPage.SoloPage.StartComparison | src/pages/SoloPage.jsx:68-72 | starts exactly when both photos are present, then analyzes with no error and no results |
| SoloPage.SoloPage.HandleCompare | src/pages/SoloPage.jsx:55-61 | without consent only the modal opens; with consent the run starts |
| SoloPage.SoloPage.HandleConsented | src/pages/SoloPage.jsx:63-66 | closes the modal and starts the run |
| SoloPage.SoloPage.ReportProgress | src/pages/SoloPage.jsx:80-82 | stores the progress report |
| SoloPage.SoloPage.FinishComparison | src/pages/SoloPage.jsx:83-94 | success keeps the result after the padding; failure shows the message; analysis ends and progress clears either way |
| SoloPage.SoloPage.RunComparison | src/pages/SoloPage.jsx:68-95 | composed with the client: the client's result or its error message lands on the page |
| SoloPage.SoloPage.HandleReset | src/pages/SoloPage.jsx:97-104 | clears both photos, results and error, after which comparing is disabled |
| LandingPage.CardTable | src/pages/LandingPage.jsx:37-68 | three cards; solo opens `/solo`, duo and group open `/room`; the first card is solo |
| LandingPage.LandingPage.constructor | src/pages/LandingPage.jsx:90-91 | the page opens with the consent modal closed and no pending card |
| LandingPage.LandingPage.HandleSelect | src/pages/LandingPage.jsx:98-106 | without consent the card is pending and the modal opens; with consent, the mode is set and the card's route opened |
| LandingPage.LandingPage.HandleConsented | src/pages/LandingPage.jsx:108-114 | closes the modal and follows a pending card, if any |
| LandingPage.ConsentThenSelect | src/pages/LandingPage.jsx:98-114 | selecting then consenting ends where selecting with consent does |
| Onboarding.OnboardingScreen.constructor | src/components/OnboardingScreen.jsx:13 | the name field starts empty |
| Onboarding.OnboardingScreen.Type | src/components/OnboardingScreen.jsx:67 | the field keeps at most 30 characters |
| Onboarding.OnboardingScreen.Submit | src/components/OnboardingScreen.jsx:15-21 | a blank name does nothing; otherwise stores the trimmed name, then completes |
| Onboarding.OnboardingScreen.Skip | src/components/OnboardingScreen.jsx:94-97 | stores an empty name, then completes |
| Onboarding.SubmittedNameIsClean | src/components/OnboardingScreen.jsx:17-19 | a submitted name is non-blank, trimmed and stable under trimming |
| GroupMatrix.Insert | src/components/GroupMatrix.jsx:20-22 | insertion adds exactly one entry |
| GroupMatrix.SortPairs | src/components/GroupMatrix.jsx:20-22 | the ordering is a permutation of the pairs |
| GroupMatrix.InsertSorted | src/components/GroupMatrix.jsx:20-22 | insertion keeps a sorted list sorted |
| GroupMatrix.SortPairsSorted | src/components/GroupMatrix.jsx:20-22 | scores are nondecreasing, with a missing score counted as 0 |
| GroupMatrix.InsertWithKey | src/components/GroupMatrix.jsx:20-22 | an inserted entry precedes equal-score entries |
| GroupMatrix.SortPairsStable | src/components/GroupMatrix.jsx:20-22 | equal-score pairs keep their arrival order |
| GroupMatrix.SortPairsStableAll | src/components/GroupMatrix.jsx:20-22 | for every score, the pairs with that score appear in arrival order |
| GroupMatrix.Heading | src/components/GroupMatrix.jsx:46 | "Revealing results..." exactly while pairs are hidden |
| GroupMatrix.GroupMatrix.constructor | src/components/GroupMatrix.jsx:12-23 | sorted pairs, nothing shown, no winner celebration |
| GroupMatrix.GroupMatrix.RevealTick | src/components/GroupMatrix.jsx:26-33 | one more pair, never beyond the total |
| GroupMatrix.GroupMatrix.WinnerTick | src/components/GroupMatrix.jsx:36-41 | the celebration starts only when every one of a non-empty list is shown, and never stops |
| GroupMatrix.GroupMatrix.RevealAll | src/components/GroupMatrix.jsx:26-60 | after one tick per pair every pair is shown and the heading says so |
| GroupMatrix.Render | src/components/GroupMatrix.jsx:15-22 | nothing without a matrix; otherwise a permutation of its pairs, sorted by score and keeping the arrival order of equal scores |
| ResultsStory.StoryFacts | src/components/ResultsStory.jsx:76-82 | nothing without results; the score, or 0; matches counted out of the comparisons; names default to `Person A`/`Person B` |
| ResultsStory.MatchCountComplement | src/components/ResultsStory.jsx:80 | the comparisons that are not counted as matches are the mismatches |
| ResultsStory.Story.constructor | src/components/ResultsStory.jsx:73 | the first card |
| ResultsStory.Story.Next | src/components/ResultsStory.jsx:84 | `min(card+1, 4)`; it stays only on the last card |
| ResultsStory.Story.Walk | src/components/ResultsStory.jsx:84-85 | four presses reach the last card, which hides Continue |
| ResultsPage.PlayerNames | src/pages/ResultsPage.jsx:45-47 | the result's `players` values when present, otherwise the context players' names |
| ResultsPage.NameAt | src/pages/ResultsPage.jsx:108-109 | the name at i, undefined past the end |
| ResultsPage.Page | src/pages/ResultsPage.jsx:98-131 | the empty state exactly without results; the matrix exactly in group mode; otherwise the story with the first two names |
| ResultsPage.PlayAgainClearsResults | src/pages/ResultsPage.jsx:39-42 | reset, then home; the reset state is the initial one, so the page then shows its empty state |
| FeatureBreakdown.RowOf | src/components/FeatureComparison.jsx:13-39 | `=` exactly for a match and `≠` otherwise; icon `?` and label fallback to the key; a dash for a missing trait |
| FeatureBreakdown.Render | src/components/FeatureComparison.jsx:4-48 | nothing for a missing or empty list; one row per comparison, in order; "k of n features match" |
| FeatureBreakdown.EqualRowsAreMatches | src/components/FeatureComparison.jsx:35-47 | the `=` rows are as many as the summary's match count |
| FeatureBreakdown.KnownFeatureRows | src/components/FeatureComparison.jsx:14-15 | every listed feature shows its own icon and label |
| FeatureScan.PhaseOf | src/components/FeatureScanAnimation.jsx:23 | phase 1 below 60, phase 2 from 60 to 84, phase 3 from 85 |
| FeatureScan.Target | src/components/FeatureScanAnimation.jsx:31 | `min(floor(pct*8/60), 8)` |
| FeatureScan.RowStateOf | src/components/FeatureScanAnimation.jsx:74-75 | done iff i < count; scanning iff i == count |
| FeatureScan.TargetMonotone | src/components/FeatureScanAnimation.jsx:31 | a higher percentage never lowers the target |
| FeatureScan.FeatureScan.constructor | src/components/FeatureScanAnimation.jsx:20 | nothing discovered |
| FeatureScan.FeatureScan.Update | src/components/FeatureScanAnimation.jsx:26-36 | outside phase 1 all eight; in phase 1 raised to the target; never lowered |
| FeatureScan.ScanOverReports | src/components/FeatureScanAnimation.jsx:19-36 | over the client's reports the count goes 2, 8, 8, 8 |
| Countdown.GradientIndex | src/components/CountdownOverlay.jsx:27-28 | `clamp(count-1, 0, 2)`, always in range; undefined for an undefined count |
| Countdown.DisplayOf | src/components/CountdownOverlay.jsx:54-113 | the number exactly while positive; otherwise the reveal word |
| Countdown.CountdownOverlay.constructor | src/components/CountdownOverlay.jsx:19 | the count starts at `seconds` |
| Countdown.CountdownOverlay.Tick | src/components/CountdownOverlay.jsx:21-25 | completes at zero or below; otherwise drops by exactly one |
| Countdown.RunDown | src/components/CountdownOverlay.jsx:19-25 | counting down from any whole number of seconds ends at 0 with exactly one completion |
| Countdown.RunUndefined | src/components/CountdownOverlay.jsx:19-54 | an undefined count never completes and shows the reveal word |
| FusionReveal.DataSrc | src/components/FusionReveal.jsx:10-12 | a data URL is unchanged; anything else is prefixed as base64 JPEG |
| FusionReveal.DataSrcNormal | src/components/FusionReveal.jsx:10-12 | every `src` is a data URL; normalising is idempotent; the prefix strips back to the input |
| FusionReveal.Reveal.constructor | src/components/FusionReveal.jsx:6 | not revealed |
| FusionReveal.Reveal.Click | src/components/FusionReveal.jsx:24 | revealed, and never cleared |
| FusionReveal.Render | src/components/FusionReveal.jsx:8-43 | nothing without an image; the button before the reveal; the image with its `src` after |
| WinnerCard.Render | src/components/WinnerCard.jsx:5-13 | the score or 0, its chemistry tier, and a data-URL `src` exactly when there is an image |
| WinnerCard.WinnerExamples | src/components/WinnerCard.jsx:6-7 | 90 reads Feature Twins; a missing score reads 0, Opposites Attract |

## Left out

- The WebSocket itself and React scheduling: object creation, the asynchronous delivery of events, state batching, effect order and refs. Channels are a registry of values, and events are method calls that name a channel.
- Cleanup on unmount (src/hooks/useMatchConnection.js:189-197).
- The 500 ms delay before `create_room`/`join_room` is sent. The lobby returns "send later" calls; if the channel is not yet open at that time, the command is dropped (`Send`).
- Timers generally: intervals and timeouts are tick methods, and durations are not modelled. The solo padding returns the wait instead of sleeping.
- Animation, DOM work, the clipboard, portal transitions and purely presentational components and pages.
- `CountUp` and `CompatibilityScore` (floating-point easing and geometry).
- `photoUtils`: the file-to-data-URL conversion is an input that succeeds with a string or fails.
- `fetch`, `FormData`, `Blob`, `atob` and JSON parsing. Server replies are inputs.
- A failure of `atob` or of `dataUrlToBlob` inside `compareSolo` is not modelled.
- Analytics calls, and the random comparison counter on the landing page.
- Storage is the single entry each provider owns.
- A stored consent value that parses to something other than a consent record is treated as unreadable.
- The lobby's player-name field (`maxLength` 20) is page state; the lobby methods take the name as an input.
- Percentages are whole numbers; fractional scores are not modelled.
- `MatchConnection.CountdownOf`: a `seconds` that is a fraction (such as 2.5, which the overlay would count down to -0.5 before completing) or any other non-number value is not modelled; seconds are a whole number, `null` or absent.
- `FeatureScan.Target` is exact only for whole percentages.
- Case mapping is ASCII only; non-ASCII letters are left as they are.
- Character codes are those of `char`. UTF-16 surrogate pairs are not split, which affects `RoomLobby.CodeSum` and `RoomLobby.NameHash` for characters above U+FFFF.
- Inputs that make the code throw are not modelled: a `player_left` frame without `data`, a null `feature_comparisons`, a null `pairs`.
- Inherited object keys such as `constructor` in `TIER_COMMENTARY` and `FEATURE_SHORT_LABELS` are not modelled.
- A `detail` in an error body that is not a string is not modelled.
- Envelopes are field lists; the JSON text encoding is not modelled.
- The winner test `isWinner` (src/components/GroupMatrix.jsx:53-56) is a predicate for the view with no contract of its own; the gold highlighting is presentation.
