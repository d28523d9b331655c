/** The records the game, the physics engine and the assistant share:
    pieces, the striker, pockets, the board, players, shots and the game state. */
module GameTypes {
  import opened Geometry

  datatype Option<T> = None | Some(value: T)

  /** 'white' | 'black' | 'red'; a player's colour is White or Black. */
  datatype Color = White | Black | Red

  /** The shape the engine moves: a centre, a velocity, a radius and the
      flag that says the body is being simulated. */
  datatype Body = Body(position: Vec, velocity: Vec, radius: real, isActive: bool)

  /** A carrom piece; the piece id "piece_<i>" is kept as its index i. */
  datatype Piece = Piece(id: nat, color: Color, body: Body, isPocketed: bool)

  datatype Pocket = Pocket(position: Vec, radius: real)

  datatype Circle = Circle(center: Vec, radius: real)

  datatype Board = Board(
    width: real,
    height: real,
    pockets: seq<Pocket>,
    centerCircle: Circle,
    outerBoundary: Circle)

  datatype Player = Player(id: string, name: string, score: int, color: Color, isAI: bool)

  /** The outcome recorded on a shot; pieces are named by their ids. */
  datatype Outcome = Outcome(
    piecesHit: seq<nat>,
    piecesPocketed: seq<nat>,
    strikerPocketed: bool,
    points: int,
    foul: bool)

  const NoOutcome := Outcome([], [], false, 0, false)

  datatype Shot = Shot(playerId: string, strikerPosition: Vec, angle: real, power: real, outcome: Outcome)

  datatype Status = Waiting | Playing | Paused | Finished

  /** The game state the orchestrator keeps and the assistant reads. */
  datatype GameState = GameState(
    status: Status,
    currentPlayer: string,
    players: seq<Player>,
    pieces: seq<Piece>,
    striker: Body,
    board: Board,
    shots: seq<Shot>,
    turn: int,
    winner: Option<string>)

  datatype Difficulty = Easy | Medium | Hard | Expert

  /** 'beginner' | 'intermediate' | 'advanced' | 'expert'; the last is `Master`
      here, so that it does not clash with the difficulty label. */
  datatype AssistanceLevel = Beginner | Intermediate | Advanced | Master

  /** What a shot aims to do; the source keeps it as a description string
      ("Pocket <colour> piece", "Pocket the Queen", "Strategic positioning",
      "Defensive play"). */
  datatype Category = PocketOwn(color: Color) | PocketQueen | Positioning | Defensive

  datatype Alternative = Alternative(angle: real, power: real, successProbability: real, description: Category)

  datatype Analysis = Analysis(
    angle: real,
    power: real,
    targetPiece: Option<nat>,
    trajectory: seq<Vec>,
    difficulty: Difficulty,
    successProbability: real,
    alternativeShots: seq<Alternative>)
}
