# Session controller of the two-player race game client

This project models the client-side session controller of a two-player race game (`src/App.js`).
The client keeps one session record: the status (`menu`, `lobby`, `waiting`, `game`), the room id,
both avatars, the player number, the current question, both chair positions, the distance and an
animation flag. It changes that record in three ways:

- one transition per inbound server message type (`ROOM_CREATED`, `ROOM_JOINED`,
  `PLAYER_JOINED`, `WAITING_FOR_PLAYER`, `PARTNER_AVATAR_SELECTED`, `GAME_STARTED`, `QUESTION`,
  `UPDATE`, and anything else);
- the 600 ms timer that turns the animation flag off after an `UPDATE`;
- the user actions `createRoom`, `joinRoom`, `selectAvatar` and the yes/no answer buttons. Each of
  these goes through `sendWS`, which puts a message on the socket only when the socket is OPEN.

`GAME_STARTED` comes in two payload shapes. The full shape is recognised by a truthy `yourAvatar`.
The short shape names `player1Avatar`/`player2Avatar` and is resolved by `yourPlayerNumber`.
Both are folded into one outcome. `chairToX` maps a chair index to a pixel offset on the
600-pixel track.

Files:

- `wrappers.dfy`: `Option`, for `null`/`undefined` fields.
- `js_semantics.dfy`: the JavaScript semantics the code relies on. A decoded field is a
  `JsValue`: nullish, a number, or anything else. The file also covers truthiness of optional
  strings, `??` (`Coalesce`), and `String.prototype.trim` over the ECMAScript whitespace and
  line-terminator code points.
- `protocol.dfy`: the inbound `Msg` and outbound `OutMsg` messages, and the `GAME_STARTED`
  normalization.
- `layout.dfy`: `chairToX`, over real numbers.
- `session_spec.dfy`: the session record `State`, the transition function `Step`, the timer
  callback and the actions as functions on `State`, the invariant `Inv`, and the lemmas.
- `session.dfy`: the class `Session`. Its fields are the session record. Its methods assign those
  fields one by one, as the handler and the actions do. Each method is proved to produce exactly
  the state the matching function of `session_spec.dfy` gives.

The outbox (`outbox: seq<OutMsg>`) stands for the socket: it holds every message that was sent.
The number of animation timers that have been scheduled but have not fired yet is kept as
`pendingClears`. The invariant `Inv` says two things:
- the animation flag is never on unless a clear is pending;
- every `JOIN_ROOM` sent carries a non-empty, already-trimmed id, and every `ANSWER` is "yes" or
  "no".

In these places the code is looser than its wire protocol suggests; the model follows the code:

- `UPDATE` and `QUESTION` are applied in every status. The code has no phase guard (`UpdateRule`,
  `QuestionRule`).
- The game status is not final. `PLAYER_JOINED`, `WAITING_FOR_PLAYER` and the room messages move
  a client out of `game` again (`GameIsNotTerminal`). The only status never re-entered is `menu`
  (`MenuOnlyBeforeStatusMessages`).
- `selectAvatar` does not refuse a second selection (`SelectAvatarTwice`). Only the disabled
  avatar buttons stop a second choice (`AvatarChosenAtMostOnce`).
- `chairToX` neither clamps nor rejects indices outside 0..81. Only a value that is not a number
  maps to 0.
- The answer buttons exist only in the game while a question is set. Outside that, nothing is
  sent and no error is raised.
- Several `UPDATE`s inside one animation window share one flag. The first timer to fire clears it
  (`AnimationClearedEarly`).

## Model

| member | source | states |
|---|---|---|
| `JsSemantics.Coalesce` | src/App.js:78-79 | `v ?? d` is never nullish; it is `d` exactly when `v` is null/undefined and `v` otherwise |
| `JsSemantics.TrimStart` | src/App.js:152-153 | the result is a suffix of the input, all that was dropped is whitespace, and it does not start with whitespace |
| `JsSemantics.TrimEnd` | src/App.js:152-153 | the result is a prefix of the input, all that was dropped is whitespace, and it does not end with whitespace |
| `JsSemantics.Trim` | src/App.js:152-153 | `trim()` gives the slice of the input between a leading and a trailing run of whitespace, with no whitespace at either of its ends |
| `JsSemantics.TrimEmptyIff` | src/App.js:152 | the trimmed room id is empty exactly when the input is all whitespace |
| `JsSemantics.TrimIdempotent` | src/App.js:153 | trimming an already trimmed id changes nothing |
| `JsSemantics.TrimPadded` | src/App.js:152-153 | `trim()` recovers any text with no whitespace at its ends from any whitespace padding around it |
| `Protocol.AvatarsBySlot` | src/App.js:82-91 | short shape: own avatar is `player1Avatar` when the player number is 1 and `player2Avatar` otherwise; the partner gets the other of the two |
| `Protocol.NormalizeGameStart` | src/App.js:71-97 | player number from the message; full shape (truthy `yourAvatar`) takes both avatars from the message and the positions from the message, or 40/41 when they are null/undefined; short shape gives self `player1Avatar` when the player number is 1 and `player2Avatar` otherwise, the partner the other one, and resets positions to 40/41; positions are never nullish |
| `Protocol.ShapeInvariance` | src/App.js:74-94 | a full payload without positions and the short payload naming the same avatars by slot normalize to the same outcome, with positions 40/41 |
| `Protocol.EmptyYourAvatarIsShort` | src/App.js:74 | an empty `yourAvatar` is falsy, so the payload is read as the short shape |
| `Layout.ChairToX` | src/App.js:167-172 | a value that is not a number maps to 0; a number maps to the offset `x` with `82 * x == 600 * index` |
| `Layout.ChairToXStrictlyIncreasing` | src/App.js:167-172 | the map is strictly increasing in the chair index |
| `Layout.ChairToXSpacing` | src/App.js:169-171 | chair 0 is at 0 and neighbouring chairs are 600/82 pixels apart |
| `Layout.ChairToXWithinTrack` | src/App.js:169-171 | every chair 0..81 starts inside the 600-pixel track; chair 81 is at 81 * 600 / 82 |
| `SessionSpec.Step` | src/App.js:38-122 | handling a message never sends, never touches the socket flag or the room-id input, keeps `Inv`; only the five status-setting messages change the status, and none sets it to `menu` |
| `SessionSpec.FireAll` | src/App.js:108-116 | under `Inv`, once every pending timer has fired the animation flag is off and nothing else has changed: the flag is never left on for good |
| `SessionSpec.StepWithCapturedAvatar` | src/App.js:58-65 | the handler as registered tests the avatar captured at registration on `WAITING_FOR_PLAYER` (`waiting` when that one is truthy, `lobby` otherwise, and no other field changes); with the current avatar captured it is exactly `Step` |
| `SessionSpec.TimerFired` | src/App.js:114-116 | the timer callback turns the animation flag off, consumes one pending timer, changes nothing else and keeps `Inv` |
| `SessionSpec.SendWS` | src/App.js:136-142 | the message is appended to the outbox when the socket is OPEN and dropped otherwise; nothing else changes; sending a well-formed message keeps `Inv` |
| `SessionSpec.CreateRoom` | src/App.js:147-149 | on an OPEN socket `CREATE_ROOM` is appended to the outbox; otherwise nothing changes at all; no other field changes in either case |
| `SessionSpec.EditRoomIdInput` | src/App.js:185 | the room-id input holds the typed text; nothing else changes |
| `SessionSpec.JoinRoom` | src/App.js:151-154 | nothing is sent when the trimmed input is empty; otherwise `JOIN_ROOM` with the trimmed id goes through `sendWS`; it keeps `Inv` |
| `SessionSpec.SelectAvatar` | src/App.js:159-166 | the avatar is set even when the send is dropped; on an OPEN socket `SUBMIT_AVATAR` with the current room id and that avatar is appended, otherwise nothing is sent; nothing else changes |
| `SessionSpec.ClickAvatarButton` | src/App.js:196-204 | a click on an enabled avatar button (lobby, no avatar yet) is exactly `selectAvatar` of that avatar: it sets the avatar, sends `SUBMIT_AVATAR` on an OPEN socket, changes nothing else, and disables the buttons |
| `SessionSpec.AnswerQuestion` | src/App.js:219-228 | a yes/no click appends one `ANSWER` carrying "yes" or "no" to the outbox on an OPEN socket and leaves the outbox as it was otherwise; nothing else changes |
| `SessionSpec.SetSocketOpen` | src/App.js:137 | the socket flag read by `sendWS` is set; nothing else changes |
| `SessionSpec.InitialSession` | src/App.js:4-15 | the client starts in `menu` at chairs 40/41, distance 1, not animating, no avatars, nothing sent, and `Inv` holds |
| `SessionSpec.RoomEntry` | src/App.js:40-56 | `ROOM_CREATED` and `ROOM_JOINED` set the room id and `lobby`, as player 1 and 2; `PLAYER_JOINED` sets `lobby` and nothing else |
| `SessionSpec.WaitingForPlayerRule` | src/App.js:58-65 | `WAITING_FOR_PLAYER` gives `waiting` exactly when an avatar is set and `lobby` otherwise, changing no other field |
| `SessionSpec.GameStartedRule` | src/App.js:71-97 | `GAME_STARTED` ends in `game` with the message's player number, avatars and positions per shape, and touches no other field |
| `SessionSpec.GameStartedShapeInvariance` | src/App.js:71-97 | a full payload without positions and the equivalent short payload lead to the same session state |
| `SessionSpec.UpdateRule` | src/App.js:107-118 | `UPDATE` sets both positions and the distance, turns the animation on and schedules one clear, in every status; nothing else changes |
| `SessionSpec.PartnerAvatarRule` | src/App.js:67-69 | `PARTNER_AVATAR_SELECTED` changes only the partner avatar |
| `SessionSpec.QuestionRule` | src/App.js:100-105 | `QUESTION` changes only the current question, in every status |
| `SessionSpec.UnknownRule` | src/App.js:120-121 | an unknown message type changes nothing |
| `SessionSpec.GameIsNotTerminal` | src/App.js:47-65 | from `game`, `PLAYER_JOINED` and `ROOM_JOINED` go back to `lobby`, and `WAITING_FOR_PLAYER` to `lobby` or `waiting` |
| `SessionSpec.AnimationClearedEarly` | src/App.js:107-118 | after two updates and one timer the flag is off although the second update's clear is still pending |
| `SessionSpec.SelectAvatarTwice` | src/App.js:159-166 | a second `selectAvatar` replaces the first avatar |
| `SessionSpec.AvatarChosenAtMostOnce` | src/App.js:196-204 | after a button click the buttons stay disabled under every message other than `GAME_STARTED` |
| `SessionSpec.ReplayNeverSends` | src/App.js:38-122 | any run of inbound messages sends nothing, leaves the socket flag and the input alone, and keeps `Inv` |
| `SessionSpec.MenuOnlyBeforeStatusMessages` | src/App.js:38-122 | after a run of messages the client is in `menu` exactly when it started there and no message of the run set the status |
| `SessionSpec.RegisteredHandlerNeverWaits` | src/App.js:58-65 | with the initial `null` avatar captured, `WAITING_FOR_PLAYER` always gives `lobby`, even after an avatar was chosen, where `Step` gives `waiting` |
| `SessionSpec.CreateRoomScenario` | src/App.js:40-65 | create room R1, wait (stay in `lobby`), pick the cat (`SUBMIT_AVATAR{R1, cat}` sent), wait again (`waiting`); the handler as registered would give `lobby` at that last step |
| `SessionSpec.ShortGameStartScenario` | src/App.js:80-97 | a short `GAME_STARTED` for player 2 gives self player 2's avatar and the partner player 1's, at chairs 40/41, in `game` |
| `SessionController.Session.constructor` | src/App.js:4-15 | a new session holds the initial state and satisfies the invariant |
| `SessionController.Session.HandleMessage` | src/App.js:38-122 | the field-by-field handler yields exactly `Step` of the old state, and keeps the invariant |
| `SessionController.Session.StartGame` | src/App.js:71-97 | the `GAME_STARTED` block, with its full and short shape branches, yields exactly `Step` of the old state |
| `SessionController.Session.AnimationTimerFired` | src/App.js:114-116 | the timer callback yields exactly `TimerFired` of the old state |
| `SessionController.Session.SetSocketOpen` | src/App.js:137 | the socket flag changes and nothing else |
| `SessionController.Session.SendWS` | src/App.js:136-142 | the outbox grows by the message exactly when the socket is OPEN |
| `SessionController.Session.CreateRoom` | src/App.js:147-149 | the state becomes `CreateRoom` of the old state |
| `SessionController.Session.EditRoomIdInput` | src/App.js:185 | the state becomes `EditRoomIdInput` of the old state |
| `SessionController.Session.JoinRoom` | src/App.js:151-154 | the state becomes `JoinRoom` of the old state, keeping the invariant |
| `SessionController.Session.SelectAvatar` | src/App.js:159-166 | the state becomes `SelectAvatar` of the old state, keeping the invariant |
| `SessionController.Session.ClickAvatarButton` | src/App.js:196-204 | an enabled avatar click selects the avatar and leaves the buttons disabled |
| `SessionController.Session.AnswerQuestion` | src/App.js:222-227 | the state becomes `AnswerQuestion` of the old state, keeping the invariant |

## Left out

- Socket construction and the connection lifecycle (`onopen`/`onclose` logging, `wsRef`) are not modelled. Socket readiness is one flag (`socketOpen`), read by `sendWS` and set by `SetSocketOpen`. The `!ws` test is folded into that flag.
- `JSON.parse` and `JSON.stringify` are not modelled: the model starts from a decoded `Msg` and stores an `OutMsg`. `console.*` logging is not modelled either.
- The two `alert`s are not modelled. One shows the created room id. The other says "Enter a Room ID" when `joinRoom` rejects its input. Both are user-visible output only and change no state.
- Real time is not modelled. Each `UPDATE` adds one pending clear; `AnimationTimerFired` consumes one. Timers are not told apart, and their interleaving with messages is whatever order the caller picks.
- React's closure over the first render is modelled only for the one read it affects, the `avatar` test on `WAITING_FOR_PLAYER` (see Findings). The `status` logged at line 36 is diagnostics only.
- React's batched setters are modelled as one atomic update per handler run. Every handler branch assigns independent fields, so nothing reads a value written earlier in the same run.
- Numbers are reals: there is no IEEE rounding of `600 / 82` in `chairToX`, and no `NaN` or `Infinity`.
- `roomId`, and the `id` and `text` of a question, are modelled as strings that are always present. A message missing one of them, which would store `undefined`, is not modelled.
- JSX rendering is not modelled. The exceptions are the conditions under which the avatar buttons are enabled and the answer buttons are shown.
- Strings are sequences of Unicode scalar values, while JavaScript strings are UTF-16 code units, so a lone surrogate cannot be represented. `trim()` gives the same result either way, because every whitespace code point it removes lies in the Basic Multilingual Plane.
- Avatar fields are optional strings. A truthy `yourAvatar` that is not a string (a number or an object) cannot be represented, so the full-shape test at line 74 is modelled for strings only.

## Findings

| source | as written | input that shows it | evidently intended | confidence | as-written member | corrected member |
|---|---|---|---|---|---|---|
| src/App.js:58-65 | the message handler is installed once, in an effect with no dependencies (line 131), so the `avatar` it tests is the first render's `null` | choose an avatar in the lobby, then receive `WAITING_FOR_PLAYER`: the client goes back to `lobby` | `waiting` once an avatar is set, as the comment at line 62 says, with `lobby` only so the avatar can still be picked | high (not executed) | `SessionSpec.RegisteredHandlerNeverWaits` | `SessionSpec.WaitingForPlayerRule` |
