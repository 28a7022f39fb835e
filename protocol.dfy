/**
 * The message shapes the client exchanges with the game server: the five
 * outgoing commands, routing of an incoming response by its action name, and
 * the readers that turn a response's arrays into board adjacency and piece ids.
 */
module Protocol {
  import opened Wrappers
  import opened Json

  /** The five actions; a response carries the action of the command it answers. */
  datatype Action = JoinGame | PlacePiece | RemovePiece | MovePiece | QuitGame

  function ActionName(a: Action): string {
    match a
    case JoinGame => "join_game"
    case PlacePiece => "place_piece"
    case RemovePiece => "remove_piece"
    case MovePiece => "move_piece"
    case QuitGame => "quit_game"
  }

  /** The action a message names: its "action" entry when that is a string, "" otherwise. */
  function ActionOf(data: Json): (s: string)
    ensures s != "" ==> Field(data, "action") == JStr(s)
    ensures Field(data, "action").JStr? ==> s == Field(data, "action").s
  {
    if "action" in data && data["action"].JStr? then data["action"].s else ""
  }

  /** The handler a response goes to: exactly the action its string "action" entry names. */
  function Route(data: Json): (r: Option<Action>)
    ensures forall a :: r == Some(a) <==> Field(data, "action") == JStr(ActionName(a))
  {
    var s := ActionOf(data);
    if s == "join_game" then Some(JoinGame)
    else if s == "place_piece" then Some(PlacePiece)
    else if s == "remove_piece" then Some(RemovePiece)
    else if s == "move_piece" then Some(MovePiece)
    else if s == "quit_game" then Some(QuitGame)
    else None
  }

  // ---------------------------------------------------------------- commands

  /** The "game_type" code for a matchmaking mode; other modes send none. */
  function GameTypeCode(mode: string): (r: Option<u8>)
    ensures r == Some(0) <==> mode == "Online"
    ensures r == Some(1) <==> mode == "Local"
    ensures r == Some(2) <==> mode == "CPU"
    ensures r.None? <==> mode != "Online" && mode != "Local" && mode != "CPU"
  {
    if mode == "Online" then Some(0)
    else if mode == "Local" then Some(1)
    else if mode == "CPU" then Some(2)
    else None
  }

  /** An outgoing command with its arguments. */
  datatype Command =
    | JoinRequest(gameType: Option<u8>)
    | PlaceRequest(x: u8, y: u8)
    | RemoveRequest(pieceId: u16)
    | MoveRequest(pieceId: u16, newX: u8, newY: u8)
    | QuitRequest

  function CommandAction(c: Command): Action {
    match c
    case JoinRequest(_) => JoinGame
    case PlaceRequest(_, _) => PlacePiece
    case RemoveRequest(_) => RemovePiece
    case MoveRequest(_, _, _) => MovePiece
    case QuitRequest => QuitGame
  }

  /** The keys a command carries besides "action". */
  function CommandFields(c: Command): set<string> {
    match c
    case JoinRequest(t) => if t.Some? then {"game_type"} else {}
    case PlaceRequest(_, _) => {"x", "y"}
    case RemoveRequest(_) => {"piece_ID"}
    case MoveRequest(_, _, _) => {"piece_ID", "new_x", "new_y"}
    case QuitRequest => {}
  }

  /**
   * The flat message a command is sent as: exactly "action" and the command's
   * own keys, from which the command can be read back unchanged.
   */
  function Encode(c: Command): (m: Json)
    ensures m.Keys == {"action"} + CommandFields(c)
    ensures Field(m, "action") == JStr(ActionName(CommandAction(c)))
    ensures Decode(m) == Some(c)
  {
    var m := map["action" := JStr(ActionName(CommandAction(c)))];
    match c
    case JoinRequest(t) => if t.Some? then m["game_type" := JNum(t.value)] else m
    case PlaceRequest(x, y) => m["x" := JNum(x)]["y" := JNum(y)]
    case RemoveRequest(id) => m["piece_ID" := JNum(id)]
    case MoveRequest(id, x, y) => m["piece_ID" := JNum(id)]["new_x" := JNum(x)]["new_y" := JNum(y)]
    case QuitRequest => m
  }

  predicate IsByte(v: JVal) {
    v.JNum? && 0 <= v.n < 0x100
  }

  predicate IsWord(v: JVal) {
    v.JNum? && 0 <= v.n < 0x1_0000
  }

  /** How a receiver reads a command message: only the exact shapes above are commands. */
  function Decode(m: Json): Option<Command> {
    var a := Route(m);
    if a == Some(JoinGame) && m.Keys == {"action"} then
      Some(JoinRequest(None))
    else if a == Some(JoinGame) && m.Keys == {"action", "game_type"} && IsByte(m["game_type"]) then
      Some(JoinRequest(Some(m["game_type"].n)))
    else if a == Some(PlacePiece) && m.Keys == {"action", "x", "y"} && IsByte(m["x"]) && IsByte(m["y"]) then
      Some(PlaceRequest(m["x"].n, m["y"].n))
    else if a == Some(RemovePiece) && m.Keys == {"action", "piece_ID"} && IsWord(m["piece_ID"]) then
      Some(RemoveRequest(m["piece_ID"].n))
    else if a == Some(MovePiece) && m.Keys == {"action", "piece_ID", "new_x", "new_y"}
         && IsWord(m["piece_ID"]) && IsByte(m["new_x"]) && IsByte(m["new_y"]) then
      Some(MoveRequest(m["piece_ID"].n, m["new_x"].n, m["new_y"].n))
    else if a == Some(QuitGame) && m.Keys == {"action"} then
      Some(QuitRequest)
    else
      None
  }

  // ----------------------------------------------------------------- readers

  /** A board coordinate (QPoint). */
  datatype Point = Point(x: int, y: int)

  /** The point an object {"x": .., "y": ..} names, each coordinate read with toInt(). */
  function PointOf(v: JVal): Point {
    var obj := ToObject(v);
    Point(ToInt(Field(obj, "x")), ToInt(Field(obj, "y")))
  }

  /** A list of {"x", "y"} objects as points, in order. */
  function PointsOf(items: seq<JVal>): (pts: seq<Point>)
    ensures |pts| == |items|
    ensures forall i :: 0 <= i < |items| ==> pts[i] == PointOf(items[i])
  {
    if items == [] then []
    else PointsOf(items[..|items| - 1]) + [PointOf(items[|items| - 1])]
  }

  /** The neighbour points listed by one adjacency entry. */
  function Neighbors(node: JVal): seq<Point> {
    PointsOf(ToArray(Field(ToObject(node), "neighbors")))
  }

  method ReadPoints(items: seq<JVal>) returns (pts: seq<Point>)
    ensures pts == PointsOf(items)
  {
    pts := [];
    for i := 0 to |items|
      invariant pts == PointsOf(items[..i])
    {
      assert items[..i + 1][..i] == items[..i];
      pts := pts + [PointOf(items[i])];
    }
    assert items[..|items|] == items;
  }

  /** Board adjacency: each point mapped to the points next to it. */
  type Adjacency = map<Point, seq<Point>>

  /** Entry i is the last one naming its point. */
  predicate LastFor(nodes: seq<JVal>, i: int)
    requires 0 <= i < |nodes|
  {
    forall j :: i < j < |nodes| ==> PointOf(nodes[j]) != PointOf(nodes[i])
  }

  /**
   * The adjacency built by inserting every entry in order; inserting a point
   * that is already present replaces its neighbour list.
   */
  function AdjacencyOf(nodes: seq<JVal>): Adjacency {
    if nodes == [] then map[]
    else
      var n := nodes[|nodes| - 1];
      AdjacencyOf(nodes[..|nodes| - 1])[PointOf(n) := Neighbors(n)]
  }

  /** The keys of the adjacency are exactly the points the entries name. */
  lemma {:induction false} AdjacencyKeys(nodes: seq<JVal>)
    ensures forall p :: p in AdjacencyOf(nodes) <==> exists i :: 0 <= i < |nodes| && PointOf(nodes[i]) == p
  {
    if nodes != [] {
      var k := |nodes| - 1;
      var init := nodes[..k];
      AdjacencyKeys(init);
      assert AdjacencyOf(nodes) == AdjacencyOf(init)[PointOf(nodes[k]) := Neighbors(nodes[k])];
      forall p | p in AdjacencyOf(nodes)
        ensures exists i :: 0 <= i < |nodes| && PointOf(nodes[i]) == p
      {
        if p != PointOf(nodes[k]) {
          var i :| 0 <= i < k && PointOf(init[i]) == p;
          assert PointOf(nodes[i]) == p;
        }
      }
      forall p | exists i :: 0 <= i < |nodes| && PointOf(nodes[i]) == p
        ensures p in AdjacencyOf(nodes)
      {
        var i :| 0 <= i < |nodes| && PointOf(nodes[i]) == p;
        if i < k {
          assert PointOf(init[i]) == p;
        }
      }
    }
  }

  /** Each point maps to the neighbour list of the last entry that names it. */
  lemma {:induction false} AdjacencyLastWins(nodes: seq<JVal>, i: int)
    requires 0 <= i < |nodes| && LastFor(nodes, i)
    ensures PointOf(nodes[i]) in AdjacencyOf(nodes)
    ensures AdjacencyOf(nodes)[PointOf(nodes[i])] == Neighbors(nodes[i])
  {
    var k := |nodes| - 1;
    var init := nodes[..k];
    assert AdjacencyOf(nodes) == AdjacencyOf(init)[PointOf(nodes[k]) := Neighbors(nodes[k])];
    if i < k {
      assert init[i] == nodes[i];
      assert LastFor(init, i);
      AdjacencyLastWins(init, i);
    }
  }

  method ReadAdjacency(nodes: seq<JVal>) returns (adj: Adjacency)
    ensures adj == AdjacencyOf(nodes)
  {
    adj := map[];
    for i := 0 to |nodes|
      invariant adj == AdjacencyOf(nodes[..i])
    {
      var obj := ToObject(nodes[i]);
      var neighborPoints := ReadPoints(ToArray(Field(obj, "neighbors")));
      assert nodes[..i + 1][..i] == nodes[..i];
      adj := adj[Point(ToInt(Field(obj, "x")), ToInt(Field(obj, "y"))) := neighborPoints];
    }
    assert nodes[..|nodes|] == nodes;
  }

  /** A list of piece ids, each read with toInt() and stored as uint16_t, in order. */
  function PieceIdsOf(items: seq<JVal>): (ids: seq<u16>)
    ensures |ids| == |items|
    ensures forall i :: 0 <= i < |items| ==> ids[i] == ToU16(ToInt(items[i]))
  {
    if items == [] then []
    else PieceIdsOf(items[..|items| - 1]) + [ToU16(ToInt(items[|items| - 1]))]
  }

  method ReadPieceIds(items: seq<JVal>) returns (ids: seq<u16>)
    ensures ids == PieceIdsOf(items)
  {
    ids := [];
    for i := 0 to |items|
      invariant ids == PieceIdsOf(items[..i])
    {
      assert items[..i + 1][..i] == items[..i];
      ids := ids + [ToU16(ToInt(items[i]))];
    }
    assert items[..|items|] == items;
  }
}
