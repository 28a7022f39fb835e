/**
 * BoardManager: the client's single-owner session engine. Its fields mirror
 * the server's game state; command methods hand messages to the socket, and
 * the socket's slots (connected, message received, error) update the fields
 * in place and emit events. The constructor, Reconnect, the response handlers
 * and the message and error slots state their new state through the session functions of
 * module Sessions; SendMessage, OnConnected, SetState and the command methods
 * modify only the fields they name and state their effect through Encode or
 * StateAfter.
 */
module Backend {
  import opened Wrappers
  import opened Json
  import opened GameStates
  import opened Protocol
  import opened Sessions

  class BoardManager {
    var running: bool
    var waiting: bool
    var status: bool
    var currentTurn: u8
    const totalPieces: array<u16>
    var gameType: u8
    var playerNum: u8
    var winner: u8
    var gameState: GameState
    var mode: string
    var url: string

    /** The messages handed to the socket, oldest first. */
    var sent: seq<Json>
    /** The events emitted, oldest first. */
    var events: seq<Event>

    ghost predicate Valid()
      reads this
    {
      totalPieces.Length == TotalPlayers
    }

    /** The session fields as one value. */
    ghost function Snapshot(): Session
      requires Valid()
      reads this, totalPieces
    {
      Session(running, waiting, status, currentTurn, [totalPieces[0], totalPieces[1]], gameType, playerNum, winner,
              gameState, mode, url)
    }

    /** A new manager: defaults from the header, mode and url from the settings. */
    constructor (settings: map<string, string>)
      ensures Valid() && fresh(totalPieces)
      ensures Snapshot() == Initial(settings)
      ensures sent == [] && events == []
    {
      running, waiting, status := false, false, false;
      currentTurn := 0;
      totalPieces := new u16[TotalPlayers](_ => 0);
      gameType, playerNum, winner := 0, 0, 0;
      gameState := Stopped;
      mode := Setting(settings, "mode", DefaultMode);
      url := Setting(settings, "url", DefaultUrl);
      sent, events := [], [];
      new;
    }

    /** Hands a message to the socket only while connected; nothing else changes. */
    method SendMessage(msg: Json)
      modifies this`sent
      ensures sent == if status then old(sent) + [msg] else old(sent)
    {
      if status {
        sent := sent + [msg];
      }
    }

    /** Re-reads the mode and the url; the session fields stay as they are. */
    method Reconnect(settings: map<string, string>)
      requires Valid()
      modifies this`mode, this`url
      ensures Valid()
      ensures Snapshot() == Reconfigure(old(Snapshot()), settings)
    {
      mode := Setting(settings, "mode", DefaultMode);
      url := Setting(settings, "url", DefaultUrl);
    }

    method OnConnected()
      modifies this`status, this`events
      ensures status
      ensures events == old(events) + [Connected]
    {
      status := true;
      events := events + [Connected];
    }

    // ------------------------------------------------------------ commands

    method StartGame()
      modifies this`sent
      ensures sent == if status then old(sent) + [Encode(JoinRequest(GameTypeCode(mode)))] else old(sent)
    {
      var data: Json := map["action" := JStr("join_game")];
      if mode == "Online" {
        data := data["game_type" := JNum(0)];
      } else if mode == "Local" {
        data := data["game_type" := JNum(1)];
      } else if mode == "CPU" {
        data := data["game_type" := JNum(2)];
      }
      assert data == Encode(JoinRequest(GameTypeCode(mode)));
      SendMessage(data);
    }

    method PlacePiece(x: u8, y: u8)
      modifies this`sent
      ensures sent == if status then old(sent) + [Encode(PlaceRequest(x, y))] else old(sent)
    {
      var data: Json := map["action" := JStr("place_piece")];
      data := data["x" := JNum(x)];
      data := data["y" := JNum(y)];
      SendMessage(data);
    }

    method RemovePiece(pieceId: u16)
      modifies this`sent
      ensures sent == if status then old(sent) + [Encode(RemoveRequest(pieceId))] else old(sent)
    {
      var data: Json := map["action" := JStr("remove_piece")];
      data := data["piece_ID" := JNum(pieceId)];
      SendMessage(data);
    }

    method MovePiece(pieceId: u16, x: u8, y: u8)
      modifies this`sent
      ensures sent == if status then old(sent) + [Encode(MoveRequest(pieceId, x, y))] else old(sent)
    {
      var data: Json := map["action" := JStr("move_piece")];
      data := data["piece_ID" := JNum(pieceId)];
      data := data["new_x" := JNum(x)];
      data := data["new_y" := JNum(y)];
      SendMessage(data);
    }

    method QuitGame()
      modifies this`sent
      ensures sent == if status then old(sent) + [Encode(QuitRequest)] else old(sent)
    {
      var data: Json := map["action" := JStr("quit_game")];
      SendMessage(data);
    }

    // ----------------------------------------------------------- responses

    method SetState(s: string)
      modifies this`gameState
      ensures gameState == StateAfter(old(gameState), s)
    {
      if s == "STOPPED" {
        gameState := Stopped;
      } else if s == "FIRST_REMOVAL" {
        gameState := FirstRemoval;
      } else if s == "REMOVAL" {
        gameState := Removal;
      } else if s == "PLACEMENT" {
        gameState := Placement;
      } else if s == "MOVEMENT" {
        gameState := Movement;
      }
    }

    method StartGameResponseHandler(data: Json)
      requires Valid()
      modifies this, totalPieces
      ensures Valid()
      ensures Snapshot() == JoinStep(old(Snapshot()), data)
      ensures events == old(events) + [JoinEvent(data)]
      ensures sent == old(sent)
    {
      var success := Success(data);
      var error := ErrorOf(data);
      var isWaiting := ToBool(Field(data, "waiting"));
      var num := ToInt(Field(data, "player_num"));
      var nextState := NextState(data);
      var nextPlayer := NextPlayer(data);
      var adjacentPieces := ReadAdjacency(ToArray(Field(data, "adjacent_pieces")));

      if success {
        running := true;
        totalPieces[0], totalPieces[1] := 0, 0;
      }
      SetState(nextState);
      waiting := isWaiting;
      playerNum := ToU8(num);
      currentTurn := ToU8(nextPlayer);
      events := events + [StartGameResponded(success, error, isWaiting, nextState, ToU8(nextPlayer), adjacentPieces)];
    }

    method PlacePieceResponseHandler(data: Json)
      requires Valid() && (Success(data) ==> currentTurn < TotalPlayers)
      modifies this, totalPieces
      ensures Valid()
      ensures Snapshot() == PlaceStep(old(Snapshot()), data)
      ensures events == old(events) + [PlaceEvent(data)]
      ensures sent == old(sent)
    {
      var success := Success(data);
      var error := ErrorOf(data);
      var nextPlayer := NextPlayer(data);
      var nextState := NextState(data);
      var newId := ToU16(ToInt(Field(data, "new_piece_ID")));
      var x := ToU8(ToInt(Field(data, "new_x")));
      var y := ToU8(ToInt(Field(data, "new_y")));
      var activePieces := ReadPieceIds(ToArray(Field(data, "active_pieces")));

      if success {
        totalPieces[currentTurn] := ToU16(totalPieces[currentTurn] as int + 1);
      }
      events := events + [PlacePieceResponded(success, error, newId, x, y, nextState, ToU8(nextPlayer), activePieces)];
      SetState(nextState);
      currentTurn := ToU8(nextPlayer);
    }

    method RemovePieceResponseHandler(data: Json)
      requires Valid()
      modifies this, totalPieces
      ensures Valid()
      ensures Snapshot() == RemoveStep(old(Snapshot()), data)
      ensures events == old(events) + [RemoveEvent(data)]
      ensures sent == old(sent)
    {
      var success := Success(data);
      var error := ErrorOf(data);
      var nextPlayer := NextPlayer(data);
      var nextState := NextState(data);
      var removedPiece := ToU16(ToInt(Field(data, "removed_piece")));
      var activePieces := ReadPieceIds(ToArray(Field(data, "active_pieces")));

      if success {
        var victim := (currentTurn + 1) % 2;
        totalPieces[victim] := ToU16(totalPieces[victim] as int - 1);
      }
      events := events + [RemovePieceResponded(success, error, removedPiece, nextState, ToU8(nextPlayer), activePieces)];
      SetState(nextState);
      currentTurn := ToU8(nextPlayer);
    }

    method MovePieceResponseHandler(data: Json)
      requires Valid()
      modifies this
      ensures Valid()
      ensures Snapshot() == MoveStep(old(Snapshot()), data)
      ensures events == old(events) + [MoveEvent(data)]
      ensures sent == old(sent)
    {
      var success := Success(data);
      var error := ErrorOf(data);
      var nextPlayer := NextPlayer(data);
      var nextState := NextState(data);
      var movedPiece := ToU16(ToInt(Field(data, "moved_piece")));
      var x := ToU8(ToInt(Field(data, "new_x")));
      var y := ToU8(ToInt(Field(data, "new_y")));
      var activePieces := ReadPieceIds(ToArray(Field(data, "active_pieces")));

      events := events + [MovePieceResponded(success, error, movedPiece, x, y, nextState, ToU8(nextPlayer), activePieces)];
      SetState(nextState);
      currentTurn := ToU8(nextPlayer);
    }

    method QuitGameResponseHandler(data: Json)
      requires Valid()
      modifies this
      ensures Valid()
      ensures Snapshot() == QuitStep(old(Snapshot()), data)
      ensures events == old(events) + [QuitEvent(old(Snapshot()), data)]
      ensures sent == old(sent)
    {
      var success := Success(data);
      var error := ErrorOf(data);
      var winnerSeat := ToU8(ToInt(Field(data, "winner")));
      var flag := ToU8(ToInt(At(Field(data, "flag"), 0)));

      if success {
        running := false;
        waiting := false;
        winner := winnerSeat;
      }
      events := events + [QuitGameResponded(success, error, winnerSeat, flag, waiting)];
    }

    // ------------------------------------------------------- socket slots

    /** Routes a decoded message to the handler its action names; any other action is dropped. */
    method OnTextMessageReceived(data: Json)
      requires Valid() && PlaceSafe(Snapshot(), data)
      modifies this, totalPieces
      ensures Valid()
      ensures Snapshot() == Dispatch(old(Snapshot()), data)
      ensures events == old(events) + Emitted(old(Snapshot()), data)
      ensures sent == old(sent)
    {
      var action := "";
      if "action" in data && data["action"].JStr? {
        action := data["action"].s;
      }

      if action == "join_game" {
        StartGameResponseHandler(data);
      } else if action == "place_piece" {
        PlacePieceResponseHandler(data);
      } else if action == "remove_piece" {
        RemovePieceResponseHandler(data);
      } else if action == "move_piece" {
        MovePieceResponseHandler(data);
      } else if action == "quit_game" {
        QuitGameResponseHandler(data);
      }
    }

    /**
     * A transport error: while connected, an artificial successful quit ends
     * the game first; then the connection, the game and the queue are all
     * cleared and the connection error for the kind is emitted.
     */
    method Error(error: SocketError)
      requires Valid()
      modifies this
      ensures Valid()
      ensures Snapshot() == ErrorStep(old(Snapshot()), error)
      ensures events == old(events) + ErrorEvents(old(Snapshot()), error)
      ensures sent == old(sent)
    {
      ghost var before, logged := Snapshot(), events;
      if status {
        var data: Json := map["success" := JBool(true), "error" := JStr(""), "winner" := JNum(0), "forfeit" := JBool(true)];
        assert data == SyntheticQuit;
        SyntheticQuitReads(before);
        QuitGameResponseHandler(data);
        assert Snapshot() == before.(running := false, waiting := false, winner := 0);
        assert events == logged + [QuitGameResponded(true, "", 0, 0, false)];
      }

      status := false;
      running := false;
      waiting := false;

      var message: string;
      if error == RemoteHostClosed {
        message := LostConnectionText;
      } else if error == ConnectionRefused {
        message := RefusedText;
      } else {
        message := OtherErrorText;
      }
      events := events + [ConnectionError(message)];
    }
  }
}
