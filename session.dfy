/**
 * The session mirror the client keeps of server-side game state, as a value,
 * and what each response, each transport event and each sequence of them does
 * to it. The BoardManager class updates its fields in place exactly as these
 * functions say.
 */
module Sessions {
  import opened Wrappers
  import opened Json
  import opened GameStates
  import opened Protocol

  /** TOTAL_PLAYERS: the number of seats, and of slots in the piece counts. */
  const TotalPlayers: nat := 2

  /** The session fields of a BoardManager. */
  datatype Session = Session(
    running: bool,
    waiting: bool,
    status: bool,             // connected to the server
    currentTurn: u8,
    totalPieces: seq<u16>,
    gameType: u8,
    playerNum: u8,
    winner: u8,
    gameState: GameState,
    mode: string,
    url: string)

  predicate WellFormed(s: Session) {
    |s.totalPieces| == TotalPlayers
  }

  /** The signals a BoardManager emits, with their payloads. */
  datatype Event =
    | Connected
    | ConnectionError(message: string)
    | StartGameResponded(success: bool, error: string, waiting: bool, nextState: string,
                         nextPlayer: u8, adjacentPieces: Adjacency)
    | PlacePieceResponded(success: bool, error: string, pieceId: u16, x: u8, y: u8,
                          nextState: string, nextPlayer: u8, activePieces: seq<u16>)
    | RemovePieceResponded(success: bool, error: string, pieceId: u16,
                           nextState: string, nextPlayer: u8, activePieces: seq<u16>)
    | MovePieceResponded(success: bool, error: string, pieceId: u16, x: u8, y: u8,
                         nextState: string, nextPlayer: u8, activePieces: seq<u16>)
    | QuitGameResponded(success: bool, message: string, winner: u8, flag: u8, waiting: bool)

  // ------------------------------------------------------- configuration

  const DefaultMode := "Remote"
  const DefaultUrl := "ws://localhost:8765"

  /** A setting's value, or its default when it was never stored. */
  function Setting(settings: map<string, string>, key: string, default: string): string {
    if key in settings then settings[key] else default
  }

  /** A freshly constructed session: nothing connected, nothing running, counts zero. */
  function Initial(settings: map<string, string>): (s: Session)
    ensures WellFormed(s)
    ensures !s.running && !s.waiting && !s.status
    ensures s.currentTurn == 0 && s.totalPieces == [0, 0]
    ensures s.gameType == 0 && s.playerNum == 0 && s.winner == 0
    ensures s.gameState == Stopped
    ensures s.mode == Setting(settings, "mode", DefaultMode) && s.url == Setting(settings, "url", DefaultUrl)
  {
    Session(false, false, false, 0, [0, 0], 0, 0, 0, Stopped,
            Setting(settings, "mode", DefaultMode), Setting(settings, "url", DefaultUrl))
  }

  /** reconnect: re-reads the mode and the url; the session fields stay as they are. */
  function Reconfigure(s: Session, settings: map<string, string>): (r: Session)
    ensures r.mode == Setting(settings, "mode", DefaultMode) && r.url == Setting(settings, "url", DefaultUrl)
    ensures r.(mode := s.mode, url := s.url) == s
  {
    s.(mode := Setting(settings, "mode", DefaultMode), url := Setting(settings, "url", DefaultUrl))
  }

  // ------------------------------------------------- reading a response

  function Success(data: Json): bool {
    ToBool(Field(data, "success"))
  }

  function ErrorOf(data: Json): string {
    ToStr(Field(data, "error"))
  }

  function NextState(data: Json): string {
    ToStr(Field(data, "next_state"))
  }

  /** "next_player" as read (an int) and as stored in a uint8_t. */
  function NextPlayer(data: Json): int {
    ToInt(Field(data, "next_player"))
  }

  function NextSeat(data: Json): u8 {
    ToU8(NextPlayer(data))
  }

  function ActivePieces(data: Json): seq<u16> {
    PieceIdsOf(ToArray(Field(data, "active_pieces")))
  }

  /** The seat whose piece a removal takes: the one that did not just act. */
  function Opponent(turn: u8): nat {
    (turn + 1) % 2
  }

  // ------------------------------------------------------- the handlers

  /**
   * join_game: a success starts a game with both counts zero; success or not,
   * the state, the waiting flag, this client's seat and the turn follow the message.
   */
  function JoinStep(s: Session, data: Json): (r: Session)
    requires WellFormed(s)
    ensures WellFormed(r)
    ensures Success(data) ==> r.running && r.totalPieces == [0, 0]
    ensures !Success(data) ==> r.running == s.running && r.totalPieces == s.totalPieces
    ensures r.gameState == StateAfter(s.gameState, NextState(data))
    ensures r.waiting == ToBool(Field(data, "waiting"))
    ensures r.playerNum == ToU8(ToInt(Field(data, "player_num"))) && r.currentTurn == NextSeat(data)
    ensures r.status == s.status && r.gameType == s.gameType && r.winner == s.winner
    ensures r.mode == s.mode && r.url == s.url
  {
    var started := if Success(data) then s.(running := true, totalPieces := [0, 0]) else s;
    started.(gameState := StateAfter(s.gameState, NextState(data)),
             waiting := ToBool(Field(data, "waiting")),
             playerNum := ToU8(ToInt(Field(data, "player_num"))),
             currentTurn := NextSeat(data))
  }

  function JoinEvent(data: Json): Event {
    StartGameResponded(Success(data), ErrorOf(data), ToBool(Field(data, "waiting")), NextState(data),
                       NextSeat(data), AdjacencyOf(ToArray(Field(data, "adjacent_pieces"))))
  }

  /**
   * place_piece: a success adds one (as uint16_t) to the count of the seat
   * whose turn it was and leaves the other count alone; then the state and the
   * turn follow the message.
   */
  function PlaceStep(s: Session, data: Json): (r: Session)
    requires WellFormed(s) && (Success(data) ==> s.currentTurn < TotalPlayers)
    ensures WellFormed(r)
    ensures Success(data) ==>
              r.totalPieces[s.currentTurn] == ToU16(s.totalPieces[s.currentTurn] as int + 1) &&
              r.totalPieces[1 - s.currentTurn] == s.totalPieces[1 - s.currentTurn]
    ensures !Success(data) ==> r.totalPieces == s.totalPieces
    ensures r.gameState == StateAfter(s.gameState, NextState(data)) && r.currentTurn == NextSeat(data)
    ensures r.(totalPieces := s.totalPieces, gameState := s.gameState, currentTurn := s.currentTurn) == s
  {
    var counts := if Success(data)
                  then s.totalPieces[s.currentTurn := ToU16(s.totalPieces[s.currentTurn] as int + 1)]
                  else s.totalPieces;
    s.(totalPieces := counts,
       gameState := StateAfter(s.gameState, NextState(data)),
       currentTurn := NextSeat(data))
  }

  function PlaceEvent(data: Json): Event {
    PlacePieceResponded(Success(data), ErrorOf(data), ToU16(ToInt(Field(data, "new_piece_ID"))),
                        ToU8(ToInt(Field(data, "new_x"))), ToU8(ToInt(Field(data, "new_y"))),
                        NextState(data), NextSeat(data), ActivePieces(data))
  }

  /**
   * remove_piece: a success takes one (as uint16_t, so 0 becomes 65535) from
   * the count of the seat that did not just act and leaves the acting seat's
   * count alone; then the state and the turn follow the message.
   */
  function RemoveStep(s: Session, data: Json): (r: Session)
    requires WellFormed(s)
    ensures WellFormed(r)
    ensures Success(data) ==>
              r.totalPieces[Opponent(s.currentTurn)] == ToU16(s.totalPieces[Opponent(s.currentTurn)] as int - 1) &&
              r.totalPieces[s.currentTurn % 2] == s.totalPieces[s.currentTurn % 2]
    ensures !Success(data) ==> r.totalPieces == s.totalPieces
    ensures r.gameState == StateAfter(s.gameState, NextState(data)) && r.currentTurn == NextSeat(data)
    ensures r.(totalPieces := s.totalPieces, gameState := s.gameState, currentTurn := s.currentTurn) == s
  {
    var victim := Opponent(s.currentTurn);
    var counts := if Success(data)
                  then s.totalPieces[victim := ToU16(s.totalPieces[victim] as int - 1)]
                  else s.totalPieces;
    s.(totalPieces := counts,
       gameState := StateAfter(s.gameState, NextState(data)),
       currentTurn := NextSeat(data))
  }

  function RemoveEvent(data: Json): Event {
    RemovePieceResponded(Success(data), ErrorOf(data), ToU16(ToInt(Field(data, "removed_piece"))),
                         NextState(data), NextSeat(data), ActivePieces(data))
  }

  /** move_piece: the counts never change; the state and the turn follow the message. */
  function MoveStep(s: Session, data: Json): (r: Session)
    ensures r.totalPieces == s.totalPieces
    ensures r.gameState == StateAfter(s.gameState, NextState(data)) && r.currentTurn == NextSeat(data)
    ensures r.(gameState := s.gameState, currentTurn := s.currentTurn) == s
  {
    s.(gameState := StateAfter(s.gameState, NextState(data)), currentTurn := NextSeat(data))
  }

  function MoveEvent(data: Json): Event {
    MovePieceResponded(Success(data), ErrorOf(data), ToU16(ToInt(Field(data, "moved_piece"))),
                       ToU8(ToInt(Field(data, "new_x"))), ToU8(ToInt(Field(data, "new_y"))),
                       NextState(data), NextSeat(data), ActivePieces(data))
  }

  /** The winner a quit response names, stored in a uint8_t. */
  function WinnerOf(data: Json): u8 {
    ToU8(ToInt(Field(data, "winner")))
  }

  /** The first element of the "flag" array, stored in a uint8_t (0 when there is none). */
  function FlagOf(data: Json): u8 {
    ToU8(ToInt(At(Field(data, "flag"), 0)))
  }

  /**
   * quit_game: a success ends the game (not running, not waiting) and records
   * the winner; a failure changes nothing.
   */
  function QuitStep(s: Session, data: Json): (r: Session)
    ensures Success(data) ==> !r.running && !r.waiting && r.winner == WinnerOf(data)
    ensures !Success(data) ==> r == s
    ensures r.(running := s.running, waiting := s.waiting, winner := s.winner) == s
  {
    if Success(data) then s.(running := false, waiting := false, winner := WinnerOf(data)) else s
  }

  /** The quit event carries the waiting flag as it stands after the update. */
  function QuitEvent(s: Session, data: Json): (e: Event)
    ensures e.QuitGameResponded? && e.waiting == (s.waiting && !Success(data))
  {
    QuitGameResponded(Success(data), ErrorOf(data), WinnerOf(data), FlagOf(data), QuitStep(s, data).waiting)
  }

  // ----------------------------------------------------- the dispatcher

  /** The one index the handlers cannot guard: a successful placement indexes by the turn. */
  predicate PlaceSafe(s: Session, data: Json) {
    Route(data) == Some(PlacePiece) && Success(data) ==> s.currentTurn < TotalPlayers
  }

  /** onTextMessageReceived on an already decoded message. */
  function Dispatch(s: Session, data: Json): (r: Session)
    requires WellFormed(s) && PlaceSafe(s, data)
    ensures WellFormed(r)
    ensures Route(data).None? ==> r == s
    ensures r.status == s.status && r.mode == s.mode && r.url == s.url
  {
    match Route(data)
    case Some(JoinGame) => JoinStep(s, data)
    case Some(PlacePiece) => PlaceStep(s, data)
    case Some(RemovePiece) => RemoveStep(s, data)
    case Some(MovePiece) => MoveStep(s, data)
    case Some(QuitGame) => QuitStep(s, data)
    case None => s
  }

  /** A routed message emits its handler's one event; any other emits nothing. */
  function Emitted(s: Session, data: Json): (evs: seq<Event>)
    ensures Route(data).None? ==> evs == []
    ensures Route(data).Some? ==> |evs| == 1
  {
    match Route(data)
    case Some(JoinGame) => [JoinEvent(data)]
    case Some(PlacePiece) => [PlaceEvent(data)]
    case Some(RemovePiece) => [RemoveEvent(data)]
    case Some(MovePiece) => [MoveEvent(data)]
    case Some(QuitGame) => [QuitEvent(s, data)]
    case None => []
  }

  // ------------------------------------------------ transport failures

  /** The socket error kinds the client tells apart. */
  datatype SocketError = RemoteHostClosed | ConnectionRefused | OtherSocketError(code: int)

  const LostConnectionText := "Lost the connection to the websocket server. Check your connection and try again."
  const RefusedText := "Couldn't connect to the websocket server."
  const OtherErrorText := "An error occured with the connection to the server."

  /** The text of the connection error for each kind of socket error. */
  function ConnectionErrorText(e: SocketError): string {
    match e
    case RemoteHostClosed => LostConnectionText
    case ConnectionRefused => RefusedText
    case OtherSocketError(_) => OtherErrorText
  }

  /** The artificial response that ends the current game on a transport error. */
  const SyntheticQuit: Json :=
    map["success" := JBool(true), "error" := JStr(""), "winner" := JNum(0), "forfeit" := JBool(true)]

  /** How the quit handler reads the artificial response: a successful quit with winner 0 and flag 0. */
  lemma SyntheticQuitReads(s: Session)
    ensures Success(SyntheticQuit) && WinnerOf(SyntheticQuit) == 0 && FlagOf(SyntheticQuit) == 0
    ensures QuitStep(s, SyntheticQuit) == s.(running := false, waiting := false, winner := 0)
    ensures QuitEvent(s, SyntheticQuit) == QuitGameResponded(true, "", 0, 0, false)
  {
    assert Field(SyntheticQuit, "success") == JBool(true);
    assert Field(SyntheticQuit, "error") == JStr("");
    assert Field(SyntheticQuit, "winner") == JNum(0);
    assert "flag" !in SyntheticQuit;
  }

  /**
   * error: when connected, the game first ends as the artificial quit ends it
   * (SyntheticQuitReads); afterwards the session is disconnected, not running
   * and not waiting.
   */
  function ErrorStep(s: Session, e: SocketError): (r: Session)
    ensures !r.status && !r.running && !r.waiting
    ensures r.winner == (if s.status then 0 else s.winner)
    ensures r.(status := s.status, running := s.running, waiting := s.waiting, winner := s.winner) == s
  {
    var ended := if s.status then s.(running := false, waiting := false, winner := 0) else s;
    ended.(status := false, running := false, waiting := false)
  }

  /** ErrorStep is the quit handler run on the artificial response, followed by the disconnect. */
  lemma ErrorIsSyntheticQuit(s: Session, e: SocketError)
    ensures ErrorStep(s, e)
            == (if s.status then QuitStep(s, SyntheticQuit) else s).(status := false, running := false, waiting := false)
  {
    SyntheticQuitReads(s);
  }

  /**
   * The events of error: when connected, first exactly the quit event of the
   * artificial response (successful, winner 0, flag 0, waiting false); always,
   * last, the connection error for the kind.
   */
  function ErrorEvents(s: Session, e: SocketError): (evs: seq<Event>)
    ensures s.status ==> evs == [QuitGameResponded(true, "", 0, 0, false), ConnectionError(ConnectionErrorText(e))]
    ensures !s.status ==> evs == [ConnectionError(ConnectionErrorText(e))]
  {
    (if s.status then [QuitGameResponded(true, "", 0, 0, false)] else []) + [ConnectionError(ConnectionErrorText(e))]
  }

  // -------------------------------------------------------------- traces

  /** What can happen to a session: the socket connects, a message arrives, the socket fails, or reconnect. */
  datatype Input =
    | Connect
    | Receive(data: Json)
    | Fail(error: SocketError)
    | Reconnect(settings: map<string, string>)

  /** A message that sets the turn sets it to a valid seat. */
  predicate Seated(i: Input) {
    i.Receive? && Route(i.data).Some? && Route(i.data) != Some(QuitGame) ==> NextSeat(i.data) < TotalPlayers
  }

  predicate SeatedTrace(inputs: seq<Input>) {
    forall k :: 0 <= k < |inputs| ==> Seated(inputs[k])
  }

  /** The sessions in which every index the handlers use is in range. */
  predicate Steady(s: Session) {
    WellFormed(s) && s.currentTurn < TotalPlayers
  }

  /** One input, applied the way the BoardManager slot for it applies it. */
  function Step(s: Session, i: Input): (r: Session)
    requires Steady(s) && Seated(i)
    ensures Steady(r)
    ensures r.status == (i.Connect? || (s.status && !i.Fail?))
  {
    match i
    case Connect => s.(status := true)
    case Receive(data) => Dispatch(s, data)
    case Fail(e) => ErrorStep(s, e)
    case Reconnect(settings) => Reconfigure(s, settings)
  }

  /** A sequence of inputs, applied in order. */
  function Run(s: Session, inputs: seq<Input>): (r: Session)
    requires Steady(s) && SeatedTrace(inputs)
    ensures Steady(r)
    decreases |inputs|
  {
    if inputs == [] then s
    else
      assert Seated(inputs[0]);
      Run(Step(s, inputs[0]), inputs[1..])
  }

  /** Whether an input is a successful join_game response, the one event that resets the counts. */
  predicate StartsGame(i: Input) {
    i.Receive? && Route(i.data) == Some(JoinGame) && Success(i.data)
  }

  /** 1 when the input is a successful placement made on `seat`'s turn, else 0. */
  function PlacedNow(s: Session, i: Input, seat: nat): nat {
    if i.Receive? && Route(i.data) == Some(PlacePiece) && Success(i.data) && s.currentTurn == seat then 1 else 0
  }

  /** 1 when the input is a successful removal of one of `seat`'s pieces, else 0. */
  function RemovedNow(s: Session, i: Input, seat: nat): nat {
    if i.Receive? && Route(i.data) == Some(RemovePiece) && Success(i.data) && Opponent(s.currentTurn) == seat then 1 else 0
  }

  /** How many successful placements the trace makes while it is `seat`'s turn. */
  function PlacedBy(s: Session, inputs: seq<Input>, seat: nat): nat
    requires Steady(s) && SeatedTrace(inputs)
    decreases |inputs|
  {
    if inputs == [] then 0
    else
      assert Seated(inputs[0]);
      PlacedNow(s, inputs[0], seat) + PlacedBy(Step(s, inputs[0]), inputs[1..], seat)
  }

  /** How many successful removals the trace makes from `seat`'s pieces. */
  function RemovedFrom(s: Session, inputs: seq<Input>, seat: nat): nat
    requires Steady(s) && SeatedTrace(inputs)
    decreases |inputs|
  {
    if inputs == [] then 0
    else
      assert Seated(inputs[0]);
      RemovedNow(s, inputs[0], seat) + RemovedFrom(Step(s, inputs[0]), inputs[1..], seat)
  }

  /** Reducing modulo 2^16 before a further addition does not change the result. */
  lemma ModAddition(a: int, b: int)
    ensures ToU16(ToU16(a) + b) == ToU16(a + b)
  {
    var q := a / 0x1_0000;
    assert a == q * 0x1_0000 + ToU16(a);
    assert ToU16(a) + b == (a + b) - q * 0x1_0000;
  }

  /** Two tallies in a row are one tally of the sums. */
  lemma TallyCompose(start: int, mid: int, total: int, placed: nat, removed: nat, placedRest: nat, removedRest: nat)
    requires mid == ToU16(start + placed - removed)
    requires total == ToU16(mid + placedRest - removedRest)
    ensures total == ToU16(start + (placed + placedRest) - (removed + removedRest))
  {
    ModAddition(start + placed - removed, placedRest as int - removedRest);
  }

  /** A successful placement adds one to the count of the seat whose turn it is, and only to it. */
  lemma PlaceTally(s: Session, data: Json, seat: nat)
    requires Steady(s) && Route(data) == Some(PlacePiece) && Success(data) && seat < TotalPlayers
    ensures Dispatch(s, data).totalPieces[seat]
            == if s.currentTurn == seat then ToU16(s.totalPieces[seat] as int + 1) else s.totalPieces[seat]
  {
    assert Dispatch(s, data) == PlaceStep(s, data);
    if s.currentTurn != seat {
      assert seat == 1 - s.currentTurn;
    }
  }

  /** A successful removal takes one from the count of the seat that did not act, and only from it. */
  lemma RemoveTally(s: Session, data: Json, seat: nat)
    requires Steady(s) && Route(data) == Some(RemovePiece) && Success(data) && seat < TotalPlayers
    ensures Dispatch(s, data).totalPieces[seat]
            == if Opponent(s.currentTurn) == seat then ToU16(s.totalPieces[seat] as int - 1) else s.totalPieces[seat]
  {
    assert Dispatch(s, data) == RemoveStep(s, data);
    if Opponent(s.currentTurn) != seat {
      assert seat == s.currentTurn % 2;
    }
  }

  /** Every other input that starts no game leaves both counts as they are. */
  lemma QuietTally(s: Session, i: Input)
    requires Steady(s) && Seated(i) && !StartsGame(i)
    requires i.Receive? && Success(i.data) ==> Route(i.data) != Some(PlacePiece) && Route(i.data) != Some(RemovePiece)
    ensures Step(s, i).totalPieces == s.totalPieces
  {
    match i
    case Receive(data) =>
      assert Route(data) == Some(JoinGame) ==> !Success(data);
    case Connect =>
    case Fail(e) =>
    case Reconnect(settings) =>
  }

  /** One input that starts no game moves a count by its placements minus its removals. */
  lemma StepTally(s: Session, i: Input, seat: nat)
    requires Steady(s) && Seated(i) && seat < TotalPlayers && !StartsGame(i)
    ensures Step(s, i).totalPieces[seat] == ToU16(s.totalPieces[seat] + PlacedNow(s, i, seat) - RemovedNow(s, i, seat))
  {
    if i.Receive? && Route(i.data) == Some(PlacePiece) && Success(i.data) {
      PlaceTally(s, i.data, seat);
    } else if i.Receive? && Route(i.data) == Some(RemovePiece) && Success(i.data) {
      RemoveTally(s, i.data, seat);
    } else {
      QuietTally(s, i);
    }
  }

  /** A non-empty trace is its first input followed by the rest. */
  lemma RunUnfold(s: Session, inputs: seq<Input>, seat: nat)
    requires Steady(s) && SeatedTrace(inputs) && inputs != []
    ensures Seated(inputs[0]) && SeatedTrace(inputs[1..])
    ensures Run(s, inputs) == Run(Step(s, inputs[0]), inputs[1..])
    ensures PlacedBy(s, inputs, seat) == PlacedNow(s, inputs[0], seat) + PlacedBy(Step(s, inputs[0]), inputs[1..], seat)
    ensures RemovedFrom(s, inputs, seat) == RemovedNow(s, inputs[0], seat) + RemovedFrom(Step(s, inputs[0]), inputs[1..], seat)
  {
    assert Seated(inputs[0]);
    assert forall k :: 0 <= k < |inputs[1..]| ==> inputs[1..][k] == inputs[k + 1];
  }

  /** A trace that starts no game neither begins with one nor starts one later. */
  lemma NoNewGameTail(inputs: seq<Input>)
    requires inputs != [] && forall k :: 0 <= k < |inputs| ==> !StartsGame(inputs[k])
    ensures !StartsGame(inputs[0]) && forall k :: 0 <= k < |inputs[1..]| ==> !StartsGame(inputs[1..][k])
  {
    forall k | 0 <= k < |inputs[1..]| ensures !StartsGame(inputs[1..][k]) {
      assert inputs[1..][k] == inputs[k + 1];
    }
  }

  /**
   * Over any trace that starts no new game, each count ends at its start plus
   * the placements by that seat minus the removals from it, modulo 2^16.
   */
  lemma {:induction false} RunTally(s: Session, inputs: seq<Input>, seat: nat)
    requires Steady(s) && SeatedTrace(inputs) && seat < TotalPlayers
    requires forall k :: 0 <= k < |inputs| ==> !StartsGame(inputs[k])
    ensures Run(s, inputs).totalPieces[seat]
            == ToU16(s.totalPieces[seat] + PlacedBy(s, inputs, seat) - RemovedFrom(s, inputs, seat))
    decreases |inputs|
  {
    if inputs != [] {
      var i, rest := inputs[0], inputs[1..];
      RunUnfold(s, inputs, seat);
      NoNewGameTail(inputs);
      var t := Step(s, i);
      RunTally(t, rest, seat);
      StepTally(s, i, seat);
      TallyCompose(s.totalPieces[seat], t.totalPieces[seat], Run(t, rest).totalPieces[seat],
                   PlacedNow(s, i, seat), RemovedNow(s, i, seat), PlacedBy(t, rest, seat), RemovedFrom(t, rest, seat));
    } else {
      assert PlacedBy(s, inputs, seat) == 0 && RemovedFrom(s, inputs, seat) == 0;
    }
  }

  /**
   * Over a trace that starts no new game, whenever a seat's start plus its
   * placements minus its removals lies in 0..65535, its count equals that
   * total exactly: no wrap-around has taken place.
   */
  lemma CountsExact(s: Session, inputs: seq<Input>, seat: nat)
    requires Steady(s) && SeatedTrace(inputs) && seat < TotalPlayers
    requires forall k :: 0 <= k < |inputs| ==> !StartsGame(inputs[k])
    requires RemovedFrom(s, inputs, seat) <= s.totalPieces[seat] + PlacedBy(s, inputs, seat) < 0x1_0000
    ensures Run(s, inputs).totalPieces[seat]
            == s.totalPieces[seat] + PlacedBy(s, inputs, seat) - RemovedFrom(s, inputs, seat)
  {
    RunTally(s, inputs, seat);
  }

  /** Every message arrives while the socket is connected. */
  predicate DeliveredConnected(s: Session, inputs: seq<Input>)
    requires Steady(s) && SeatedTrace(inputs)
    decreases |inputs|
  {
    inputs == [] ||
    ((inputs[0].Receive? ==> s.status) &&
     assert Seated(inputs[0]);
     assert SeatedTrace(inputs[1..]);
     DeliveredConnected(Step(s, inputs[0]), inputs[1..]))
  }

  /**
   * A game in progress (running, or queued waiting for an opponent) implies a
   * live connection, when messages arrive only while connected.
   */
  lemma {:induction false} GameMeansConnected(s: Session, inputs: seq<Input>)
    requires Steady(s) && SeatedTrace(inputs) && DeliveredConnected(s, inputs)
    requires s.running || s.waiting ==> s.status
    ensures Run(s, inputs).running || Run(s, inputs).waiting ==> Run(s, inputs).status
    decreases |inputs|
  {
    if inputs != [] {
      assert Seated(inputs[0]);
      assert SeatedTrace(inputs[1..]);
      GameMeansConnected(Step(s, inputs[0]), inputs[1..]);
    }
  }

  /**
   * From a fresh session, with messages delivered only while connected: a
   * transport error while a game is running or waiting emits exactly one
   * successful quit with waiting false before the connection error, and
   * leaves the session disconnected, not running and not waiting.
   */
  lemma ErrorEndsGame(settings: map<string, string>, inputs: seq<Input>, e: SocketError)
    requires SeatedTrace(inputs) && DeliveredConnected(Initial(settings), inputs)
    requires Run(Initial(settings), inputs).running || Run(Initial(settings), inputs).waiting
    ensures ErrorEvents(Run(Initial(settings), inputs), e)
            == [QuitGameResponded(true, "", 0, 0, false), ConnectionError(ConnectionErrorText(e))]
    ensures var r := ErrorStep(Run(Initial(settings), inputs), e); !r.status && !r.running && !r.waiting
  {
    GameMeansConnected(Initial(settings), inputs);
  }
}
