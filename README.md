# BoardManager session engine

This project models the client-side session engine of a networked Shax board
game: the `BoardManager` object that keeps a mirror of the server's game
state, builds the five command messages (join, place, remove, move, quit),
routes each server response to its handler by the response's `action`
string, updates its fields in place, and emits one result event per response.
It also models the transport-error slot. When connected, that slot pushes
an artificial successful quit through the quit handler, game or no game. It then
clears the connection and game flags and emits a connection error.

Layout:

- `json.dfy`: modules `Wrappers` (an `Option` type) and `Json`. `Json` holds
  decoded JSON values and Qt's lenient accessors (`toBool`, `toInt`,
  `toString`, `toArray`, `toObject`, `obj[key]`, `value[i]`). A missing key
  or a value of the wrong kind reads as the accessor's default. It also holds
  the C++ conversions to `uint8_t` and `uint16_t`, written as reduction
  modulo 2^8 and 2^16.
- `game_state.dfy`: module `GameStates`. It holds the `GameState` enum, the
  server's names for its values, and the `setState` mapping.
- `protocol.dfy`: module `Protocol`. It holds the five actions, routing by
  action name, the outgoing command shapes with a decoder that reads them
  back, board points (`QPoint`), and the readers that turn a response's arrays into board adjacency
  and piece ids. Those readers are written both as loops and as the
  functions that specify them.
- `session.dfy`: module `Sessions`. The session fields are a value
  (`Session`). Each handler, the dispatcher and the error slot are pure step
  functions on it. The events are a datatype. Lemmas cover sequences of
  inputs (`Run`): piece-count bookkeeping, and the invariant that a game in
  progress (running or waiting) implies a live connection.
- `board_manager.dfy`: module `Backend` with class `BoardManager`. The class
  has the header's fields, with `totalPieces` as a two-slot array. `sent`
  logs the messages handed to the socket and `events` logs the emitted
  signals. The constructor, `Reconnect`, the five response handlers, the
  message slot and the error slot state their new state through
  `Snapshot()` and the step functions of `Sessions`. `SendMessage`,
  `OnConnected`, `SetState` and the five command methods each modify only
  the fields they name, and state their effect through `Encode` or
  `StateAfter`.

Inputs from outside the model are parameters:

- The settings store is a `map<string, string>`.
- An incoming message is an already decoded JSON object.
- A socket error is a `SocketError` value.
- Trace lemmas take the sequence of inputs (`Input`): connect, receive,
  fail, reconnect.

Facts about the code that the model keeps:

- The error slot synthesises the quit only when `status` (connected) is
  true. It does not check whether a game is running or waiting.
- The synthesised response sets the key `forfeit`, but the quit handler
  reads `flag[0]`. The quit event it produces therefore carries flag 0.
- Two of the three connection-error texts name the "websocket server"; the
  third names "the server".
- `reconnect` re-reads the mode and url only. It resets no session field.
- `running` and `waiting` are not exclusive. A successful join whose
  response says `waiting: true` leaves both true.

## Model

| member | source | states |
|---|---|---|
| Json.ToBool | src/backend/boardmanager.cpp:212 | toBool() reads true exactly for a JSON boolean true; missing or mistyped fields read false |
| Json.ToInt | src/backend/boardmanager.cpp:215 | toInt() yields a 32-bit int; a non-zero result is exactly the number stored; a whole number in range reads as itself |
| Json.ToStr | src/backend/boardmanager.cpp:213 | toString() reads a string as itself; a non-empty result is exactly the string stored, and anything else reads as "" |
| Json.Field | src/backend/boardmanager.cpp:223 | obj[key] reads a missing key as undefined, and any defined result is the value stored under that key |
| Json.At | src/backend/boardmanager.cpp:365 | value[i] reads undefined for a non-array; any defined result is the array's entry at an index in range |
| Json.ToArray | src/backend/boardmanager.cpp:223 | toArray() reads an array as its items; a non-empty result is exactly the array stored, and anything else reads as no items |
| Json.ToObject | src/backend/boardmanager.cpp:228 | toObject() reads an object as its fields; a non-empty result is exactly the object stored, and anything else reads as the empty object |
| Json.ToU8 | src/backend/boardmanager.h:32 | storing an int in a uint8_t keeps its residue modulo 2^8 and leaves values in range unchanged |
| Json.ToU16 | src/backend/boardmanager.h:33 | storing an int in a uint16_t keeps its residue modulo 2^16 and leaves values in range unchanged |
| GameStates.Parse | src/backend/boardmanager.cpp:194-207 | a string parses to a state exactly when it is that state's name; other strings parse to nothing |
| GameStates.StateAfter | src/backend/boardmanager.cpp:194-207 | setState selects the state a known name denotes and keeps the current state for any other string |
| GameStates.ParseName | src/backend/boardmanager.h:13-19 | the five state names are distinct and each parses back to its own state |
| Backend.BoardManager.SetState | src/backend/boardmanager.cpp:194-207 | the in-place setState changes only gameState, to StateAfter of the old state and the string |
| Protocol.Route | src/backend/boardmanager.cpp:76-93 | a response is routed to action a exactly when its "action" entry is the string naming a; missing, non-string or unknown actions route nowhere |
| Protocol.GameTypeCode | src/backend/boardmanager.cpp:136-144 | game_type is 0 for Online, 1 for Local, 2 for CPU, and absent for every other mode (both directions) |
| Protocol.Encode | src/backend/boardmanager.cpp:133-189 | each command message has exactly "action" plus that command's own keys, names its action, and decodes back to the same command |
| Protocol.PointsOf | src/backend/boardmanager.cpp:227-234 | the neighbour list has one point per array entry, in order, each read with toInt() on x and y |
| Protocol.ReadPoints | src/backend/boardmanager.cpp:227-234 | the neighbour loop builds exactly PointsOf of the array |
| Protocol.AdjacencyKeys | src/backend/boardmanager.cpp:220-240 | the adjacency hash has a key for a point exactly when some entry names that point |
| Protocol.AdjacencyLastWins | src/backend/boardmanager.cpp:237-239 | a point maps to the neighbour list of the last entry naming it (QHash insert replaces) |
| Protocol.ReadAdjacency | src/backend/boardmanager.cpp:223-240 | the node loop builds exactly AdjacencyOf of the entries |
| Protocol.PieceIdsOf | src/backend/boardmanager.cpp:275-278 | the active-piece list has one id per array entry, in order, each toInt() stored as uint16_t |
| Protocol.ReadPieceIds | src/backend/boardmanager.cpp:308-311 | the active-piece loop builds exactly PieceIdsOf of the array |
| Sessions.Initial | src/backend/boardmanager.h:29-42 | a fresh session is not running, not waiting, not connected, turn 0, counts {0, 0}, type, seat and winner 0, state STOPPED |
| Backend.BoardManager.constructor | src/backend/boardmanager.cpp:8-16 | the constructed object's fields are Initial(settings): mode and url from the settings with defaults "Remote" and "ws://localhost:8765"; both logs empty |
| Sessions.Reconfigure | src/backend/boardmanager.cpp:46-48 | reconnect sets mode and url from the settings and leaves every session field as it was |
| Backend.BoardManager.Reconnect | src/backend/boardmanager.cpp:46-52 | the in-place reconnect changes only mode and url, as Reconfigure says |
| Backend.BoardManager.SendMessage | src/backend/boardmanager.cpp:37-44 | a message is handed to the socket only while status is true; otherwise nothing is sent |
| Backend.BoardManager.OnConnected | src/backend/boardmanager.cpp:66-69 | connecting sets status and emits exactly one connected event |
| Backend.BoardManager.StartGame | src/backend/boardmanager.cpp:130-148 | sends, when connected, the join message whose game_type follows the mode |
| Backend.BoardManager.PlacePiece | src/backend/boardmanager.cpp:150-159 | sends, when connected, the place message carrying x and y |
| Backend.BoardManager.RemovePiece | src/backend/boardmanager.cpp:161-169 | sends, when connected, the remove message carrying piece_ID |
| Backend.BoardManager.MovePiece | src/backend/boardmanager.cpp:171-181 | sends, when connected, the move message carrying piece_ID, new_x and new_y |
| Backend.BoardManager.QuitGame | src/backend/boardmanager.cpp:183-190 | sends, when connected, the quit message with only its action |
| Sessions.JoinStep | src/backend/boardmanager.cpp:240-253 | a successful join sets running and zeroes both counts; a failed one changes neither; either way state, waiting, seat and turn follow the message and status, type, winner, mode and url stay |
| Backend.BoardManager.StartGameResponseHandler | src/backend/boardmanager.cpp:209-260 | the in-place join handler leaves the fields as JoinStep says, emits one StartGameResponded event with the adjacency read from the message, and sends nothing |
| Sessions.PlaceStep | src/backend/boardmanager.cpp:281-290 | a successful placement adds one (mod 2^16) to the count of the seat whose turn it was and leaves the other count; a failed one changes no count; state and turn follow the message; nothing else changes |
| Backend.BoardManager.PlacePieceResponseHandler | src/backend/boardmanager.cpp:262-296 | the in-place place handler leaves the fields as PlaceStep says and emits one PlacePieceResponded event |
| Sessions.RemoveStep | src/backend/boardmanager.cpp:314-323 | a successful removal takes one (mod 2^16, so 0 becomes 65535) from the count of the other seat and leaves the acting seat's count; state and turn follow the message; nothing else changes |
| Backend.BoardManager.RemovePieceResponseHandler | src/backend/boardmanager.cpp:298-328 | the in-place remove handler leaves the fields as RemoveStep says and emits one RemovePieceResponded event |
| Sessions.MoveStep | src/backend/boardmanager.cpp:349-353 | a move never changes either count; state and turn follow the message; nothing else changes |
| Backend.BoardManager.MovePieceResponseHandler | src/backend/boardmanager.cpp:330-358 | the in-place move handler leaves the fields as MoveStep says and emits one MovePieceResponded event |
| Sessions.QuitStep | src/backend/boardmanager.cpp:367-371 | a successful quit clears running and waiting and records the winner; a failed quit changes nothing; no other field changes |
| Sessions.QuitEvent | src/backend/boardmanager.cpp:373 | the quit event carries the waiting flag as it stands after the update |
| Backend.BoardManager.QuitGameResponseHandler | src/backend/boardmanager.cpp:360-378 | the in-place quit handler leaves the fields as QuitStep says and emits QuitEvent |
| Sessions.Dispatch | src/backend/boardmanager.cpp:71-94 | an unrouted response changes nothing; no response changes status, mode or url |
| Sessions.Emitted | src/backend/boardmanager.cpp:82-93 | a routed response emits exactly one event and an unrouted one emits none |
| Backend.BoardManager.OnTextMessageReceived | src/backend/boardmanager.cpp:71-94 | the slot calls exactly the handler the action names, so its new fields and events are Dispatch and Emitted of the message |
| Sessions.SyntheticQuitReads | src/backend/boardmanager.cpp:100-106 | the quit handler reads the artificial response as a successful quit with winner 0 and flag 0, ending the game with waiting false |
| Sessions.ErrorStep | src/backend/boardmanager.cpp:96-111 | after a transport error, status, running and waiting are all false whatever the kind; the winner becomes 0 exactly when the session was connected; nothing else changes |
| Sessions.ErrorIsSyntheticQuit | src/backend/boardmanager.cpp:100-111 | the error step is the quit handler's step on the artificial response (when connected) followed by clearing the three flags |
| Sessions.ErrorEvents | src/backend/boardmanager.cpp:100-123 | when connected, the artificial quit event comes first; always, last, the connection error whose text is chosen by kind |
| Backend.BoardManager.Error | src/backend/boardmanager.cpp:96-126 | the in-place error slot pushes the artificial quit through the real quit handler when connected, then leaves the fields as ErrorStep says and emits ErrorEvents |
| Sessions.Step | src/backend/boardmanager.cpp:66-126 | one input keeps the counts at two slots and the turn a valid seat; status becomes true only on connect and false only on a transport error |
| Sessions.PlaceTally | src/backend/boardmanager.cpp:281-283 | a successful placement changes only the count of the seat whose turn it is, by one modulo 2^16 (65535 becomes 0) |
| Sessions.RemoveTally | src/backend/boardmanager.cpp:314-316 | a successful removal changes only the count of the seat that did not act, by minus one modulo 2^16 (0 becomes 65535) |
| Sessions.QuietTally | src/backend/boardmanager.cpp:71-126 | every input other than a successful join, place or remove leaves both counts unchanged |
| Sessions.StepTally | src/backend/boardmanager.cpp:281-316 | one input that starts no game moves a seat's count by its placements minus its removals, modulo 2^16 |
| Sessions.RunTally | src/backend/boardmanager.cpp:281-316 | over any trace that starts no new game, each count ends at its start plus the placements by that seat minus the removals from it, modulo 2^16 |
| Sessions.CountsExact | src/backend/boardmanager.cpp:281-316 | over a trace that starts no new game, whenever start + placements − removals lies in 0..65535 the count equals it exactly (no wrap-around) |
| Sessions.GameMeansConnected | src/backend/boardmanager.cpp:66-111 | assuming messages arrive only while status is true: if running or waiting implies status at the start, it does so after every trace |
| Sessions.ErrorEndsGame | src/backend/boardmanager.cpp:96-123 | from a fresh session, and assuming messages arrive only while status is true: a transport error while a game is running or waiting emits exactly the artificial successful quit and then the connection error, and leaves the session disconnected, not running and not waiting |

## Left out

- Opening and closing the socket, and the signal/slot wiring, are left out. They are transport I/O. `Reconnect` models only the re-read of mode and url.
- Turning JSON text into objects and back (`loadJson`, `dumpJson`) is left out. Messages are modelled as already decoded objects; text that does not parse would arrive as an empty object, which routes nowhere.
- `qDebug` logging is left out. It is file I/O.
- The GUI files and the graphics items (`gamepiece`, `node`) are not part of this model.
- The settings store is a map parameter. Its persistence is not part of this model.
- `firstToJare`, `currentJare`, `playerTokens`, `MAX_PIECES`, `MIN_PIECES`, `MARGIN_OF_ERROR` and `ID_SHIFT` are not modelled. The core never reads or writes them, so no operation depends on them.
- JSON numbers are whole numbers only. A fractional value in a field read with `toInt()` is not represented.
- Qt's `QJsonObject::operator[]` on a non-const object inserts a null entry for a missing key. The model reads the field without that insertion; the object is not used afterwards, so no result depends on it.
- The order of events relative to field updates inside one handler is not modelled. The place, remove and move handlers emit before they update state and turn, and the join handler emits after. The model gives the state after the whole call and the events of the whole call.
- `try`/`catch` around each handler is not modelled. Qt's accessors never throw, so the catch branch is unreachable.
- Backend.BoardManager.PlacePieceResponseHandler: requires a successful placement to arrive while `currentTurn` is 0 or 1. The code indexes `totalPieces[currentTurn]` without a check, so a server that names another seat makes the code write out of bounds. The trace lemmas take this as the `Seated` assumption on every message that sets the turn.
- Backend.BoardManager.OnTextMessageReceived: requires the same of a successful place_piece response (`PlaceSafe`), since it calls the place handler.
- Sessions.GameMeansConnected: assumes every message arrives while `status` is true (`DeliveredConnected`). The error slot clears `status` without closing the socket, so a message handled after a non-fatal socket error could set `running` or `waiting` while `status` is false.
- Sessions.ErrorEndsGame: assumes the same delivery; without it, an error in such a session emits no artificial quit.
