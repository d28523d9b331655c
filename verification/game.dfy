/** The game orchestrator: the initial layout, pause and resume, shot
    admission, the per-frame physics step, and turn completion with scoring,
    end-of-game detection, the round-robin turn switch and the striker reset. */
module CarromGame {
  import opened Geometry
  import opened GameTypes
  import opened PhysicsEngine

  /** 'practice' | 'single-player' | 'multiplayer'. */
  datatype GameMode = Practice | SinglePlayer | Multiplayer

  /** The frame length the game hands to the engine (about 60 frames a second). */
  const FrameStep: real := 16.67

  const BoardCentre := Vec(300.0, 300.0)
  const StrikerHome := Vec(300.0, 500.0)
  const StrikerRadius: real := 15.0
  const PieceRadius: real := 12.0

  // ----- the initial layout -----

  /** A 600 by 600 board with a corner pocket of radius 35 set 50 in from
      each corner, and a circular boundary 20 inside the board's half-width. */
  function CreateBoard(): (b: Board)
    ensures |b.pockets| == 4
    ensures b.outerBoundary.center == BoardCentre && b.outerBoundary.radius == 280.0
    ensures forall k :: 0 <= k < 4 ==>
      && b.pockets[k].radius == 35.0
      && Abs(b.pockets[k].position.x - BoardCentre.x) == 250.0
      && Abs(b.pockets[k].position.y - BoardCentre.y) == 250.0
  {
    var boardSize := 600.0;
    var pocketRadius := 35.0;
    var pocketOffset := 50.0;
    Board(
      boardSize, boardSize,
      [Pocket(Vec(pocketOffset, pocketOffset), pocketRadius),
       Pocket(Vec(boardSize - pocketOffset, pocketOffset), pocketRadius),
       Pocket(Vec(boardSize - pocketOffset, boardSize - pocketOffset), pocketRadius),
       Pocket(Vec(pocketOffset, boardSize - pocketOffset), pocketRadius)],
      Circle(Vec(boardSize / 2.0, boardSize / 2.0), 60.0),
      Circle(Vec(boardSize / 2.0, boardSize / 2.0), boardSize / 2.0 - 20.0))
  }

  lemma AbsAtMost(d: real, bound: real)
    requires 0.0 <= bound && d * d <= bound * bound
    ensures Abs(d) <= bound
  {
    RootAtMost(Abs(d), d * d, bound);
  }

  lemma AbsSquare(d: real)
    ensures Abs(d) * Abs(d) == d * d
  {
  }

  /** A point within the boundary radius of the centre is farther than a
      pocket's radius from a point 250 off the centre on both axes. */
  lemma FarFromCorner(q: Vec, p: Vec)
    requires Abs(p.x - BoardCentre.x) == 250.0 && Abs(p.y - BoardCentre.y) == 250.0
    requires DistSq(q, BoardCentre) <= 280.0 * 280.0
    ensures DistSq(q, p) > 35.0 * 35.0
  {
    var dx := q.x - p.x;
    var dy := q.y - p.y;
    if DistSq(q, p) <= 35.0 * 35.0 {
      var sx := dx * dx;
      var sy := dy * dy;
      assert DistSq(q, p) == sx + sy;
      MulNonNegative(Abs(dx), Abs(dx));
      MulNonNegative(Abs(dy), Abs(dy));
      AbsSquare(dx);
      AbsSquare(dy);
      AbsAtMost(dx, 35.0);
      AbsAtMost(dy, 35.0);
      var cx := Abs(q.x - BoardCentre.x);
      var cy := Abs(q.y - BoardCentre.y);
      assert 215.0 <= cx && 215.0 <= cy;
      SquareMonotone(215.0, cx);
      SquareMonotone(215.0, cy);
      AbsSquare(q.x - BoardCentre.x);
      AbsSquare(q.y - BoardCentre.y);
      assert false;
    }
  }

  /** On the standard board no point within the boundary radius of the
      centre lies within a pocket's radius of that pocket: each pocket's
      disc sits wholly outside the boundary disc. */
  lemma PocketsOutOfReach(q: Vec, k: nat)
    requires k < 4
    requires DistSq(q, BoardCentre) <= 280.0 * 280.0
    ensures DistSq(q, CreateBoard().pockets[k].position) > 35.0 * 35.0
  {
    FarFromCorner(q, CreateBoard().pockets[k].position);
  }

  /** Hence on the standard board a body of non-negative radius that the
      boundary rule has just placed is never captured by any pocket, nor
      counted as a striker in a pocket. */
  lemma PlacedBodyNeverCaptured(e: Engine, m: MathLib, b: Body, k: nat)
    requires Sound(m) && k < 4
    requires 0.0 <= b.radius <= 280.0
    ensures var board := CreateBoard();
      var placed := CheckBoardCollisions(e, m, b, board);
      && !IsInPocket(m, placed.position, b.radius, board.pockets[k])
      && !StrikerInPocket(m, placed.position, board.pockets)
  {
    var board := CreateBoard();
    var placed := CheckBoardCollisions(e, m, b, board);
    BoundaryKeepsInside(e, m, b, board);
    assert DistSq(placed.position, BoardCentre) <= (280.0 - b.radius) * (280.0 - b.radius);
    SquareMonotone(280.0 - b.radius, 280.0);
    forall j | 0 <= j < 4
      ensures DistSq(placed.position, board.pockets[j].position) > 35.0 * 35.0
    {
      PocketsOutOfReach(placed.position, j);
    }
    IsInPocketIff(m, placed.position, b.radius, board.pockets[k]);
    var reach := board.pockets[k].radius - b.radius * CaptureMargin;
    if 0.0 <= reach {
      SquareMonotone(reach, 35.0);
    }
    StrikerInPocketIff(m, placed.position, board.pockets);
  }

  /** The offsets of the 21 pieces from the board centre: the queen in the
      middle, then the rings around it. */
  const PieceOffsets: seq<Vec> := [
    Vec(0.0, 0.0),
    Vec(-25.0, 0.0), Vec(25.0, 0.0),
    Vec(0.0, -25.0), Vec(0.0, 25.0),
    Vec(-18.0, -18.0), Vec(18.0, -18.0),
    Vec(-18.0, 18.0), Vec(18.0, 18.0),
    Vec(-35.0, -12.0), Vec(35.0, -12.0),
    Vec(-35.0, 12.0), Vec(35.0, 12.0),
    Vec(-12.0, -35.0), Vec(12.0, -35.0),
    Vec(-12.0, 35.0), Vec(12.0, 35.0),
    Vec(-28.0, -28.0), Vec(28.0, 28.0),
    Vec(-28.0, 28.0), Vec(28.0, -28.0)]

  /** Index 0 is the queen; odd indices are white, even ones black. */
  function PieceColor(index: nat): Color {
    if index == 0 then Red else if index % 2 == 1 then White else Black
  }

  function InitialPieces(): (ps: seq<Piece>)
    ensures |ps| == |PieceOffsets|
  {
    seq(|PieceOffsets|, k requires 0 <= k < |PieceOffsets| =>
      Piece(k, PieceColor(k), Body(Add(BoardCentre, PieceOffsets[k]), Zero, PieceRadius, false), false))
  }

  /** The opening layout: 21 resting, unpocketed pieces of radius 12 with
      distinct ids, the queen at the centre and the others alternating white
      and black; pieces 1 and 5 overlap from the start. */
  lemma InitialLayoutFacts()
    ensures var ps := InitialPieces();
      && |ps| == 21
      && ps[0].color == Red && ps[0].body.position == BoardCentre
      && (forall k :: 1 <= k < 21 ==> ps[k].color == (if k % 2 == 1 then White else Black))
      && (forall k :: 0 <= k < 21 ==>
            && ps[k].id == k && !ps[k].isPocketed && !ps[k].body.isActive
            && ps[k].body.velocity == Zero && ps[k].body.radius == 12.0)
      && DistSq(ps[1].body.position, ps[5].body.position) < (12.0 + 12.0) * (12.0 + 12.0)
  {
  }

  /** createPieces: the layout pushed piece by piece. */
  method CreatePieces() returns (pieces: seq<Piece>)
    ensures pieces == InitialPieces()
  {
    pieces := [];
    var index := 0;
    while index < |PieceOffsets|
      invariant 0 <= index <= |PieceOffsets|
      invariant pieces == InitialPieces()[..index]
    {
      var color;
      if index == 0 {
        color := Red;
      } else if index % 2 == 1 {
        color := White;
      } else {
        color := Black;
      }
      var pos := PieceOffsets[index];
      pieces := pieces + [Piece(index, color, Body(Vec(BoardCentre.x + pos.x, BoardCentre.y + pos.y), Zero, PieceRadius, false), false)];
      index := index + 1;
    }
  }

  const InitialStriker := Body(StrikerHome, Zero, StrikerRadius, false)

  /** A human white player, and a black AI opponent in single-player mode only. */
  function CreatePlayers(mode: GameMode): (ps: seq<Player>)
    ensures 1 <= |ps| <= 2 && (|ps| == 2 <==> mode == SinglePlayer)
    ensures ps[0].color == White && !ps[0].isAI
    ensures |ps| == 2 ==> ps[1].color == Black && ps[1].isAI && ps[1].id != ps[0].id
    ensures forall k :: 0 <= k < |ps| ==> ps[k].score == 0
  {
    var human := Player("player1", "Player 1", 0, White, false);
    if mode == SinglePlayer then [human, Player("ai", "AI Assistant", 0, Black, true)] else [human]
  }

  function InitialState(mode: GameMode): GameState {
    var players := CreatePlayers(mode);
    GameState(Waiting, players[0].id, players, InitialPieces(), InitialStriker, CreateBoard(), [], 1, None)
  }

  // ----- counting pieces -----

  /** How many of the pieces satisfy `keep`. */
  function CountWhere(ps: seq<Piece>, keep: Piece -> bool): nat
    decreases |ps|
  {
    if |ps| == 0 then 0
    else CountWhere(ps[..|ps| - 1], keep) + (if keep(ps[|ps| - 1]) then 1 else 0)
  }

  lemma {:induction false} CountZeroIff(ps: seq<Piece>, keep: Piece -> bool)
    ensures CountWhere(ps, keep) == 0 <==> forall k :: 0 <= k < |ps| ==> !keep(ps[k])
    decreases |ps|
  {
    if |ps| > 0 {
      var init := ps[..|ps| - 1];
      CountZeroIff(init, keep);
      assert forall k :: 0 <= k < |init| ==> init[k] == ps[k];
    }
  }

  /** The game is over once every white or every black piece is pocketed. */
  predicate GameOver(ps: seq<Piece>) {
    || CountWhere(ps, (p: Piece) => !p.isPocketed && p.color == White) == 0
    || CountWhere(ps, (p: Piece) => !p.isPocketed && p.color == Black) == 0
  }

  lemma GameOverIff(ps: seq<Piece>)
    ensures GameOver(ps) <==>
      || (forall k :: 0 <= k < |ps| && ps[k].color == White ==> ps[k].isPocketed)
      || (forall k :: 0 <= k < |ps| && ps[k].color == Black ==> ps[k].isPocketed)
  {
    CountZeroIff(ps, (p: Piece) => !p.isPocketed && p.color == White);
    CountZeroIff(ps, (p: Piece) => !p.isPocketed && p.color == Black);
  }

  /** A fresh game is waiting, on turn 1, with the first player to move,
      every score zero, and is not over. */
  lemma InitialStateFacts(mode: GameMode)
    ensures var st := InitialState(mode);
      && st.status == Waiting && st.turn == 1 && st.shots == [] && st.winner == None
      && st.currentPlayer == st.players[0].id
      && NonNegativeScores(st.players)
      && !st.striker.isActive && st.striker.position == StrikerHome
      && !GameOver(st.pieces)
  {
    var ps := InitialPieces();
    GameOverIff(ps);
    assert ps[1].color == White && !ps[1].isPocketed;
    assert ps[2].color == Black && !ps[2].isPocketed;
  }

  // ----- scoring -----

  /** findIndex on the player ids: the first match, or -1. */
  function IndexOf(players: seq<Player>, id: string): (r: int)
    ensures -1 <= r < |players|
    ensures r == -1 <==> forall j :: 0 <= j < |players| ==> players[j].id != id
    ensures 0 <= r ==> players[r].id == id && forall j :: 0 <= j < r ==> players[j].id != id
  {
    if |players| == 0 then -1
    else if players[0].id == id then 0
    else
      var i := IndexOf(players[1..], id);
      if i < 0 then -1 else i + 1
  }

  /** The first player with the id gets the points, clamped at zero. */
  function ApplyPoints(players: seq<Player>, id: string, points: int): seq<Player> {
    var i := IndexOf(players, id);
    if i < 0 then players
    else
      var score := players[i].score + points;
      players[i := players[i].(score := if score < 0 then 0 else score)]
  }

  ghost predicate NonNegativeScores(players: seq<Player>) {
    forall k :: 0 <= k < |players| ==> players[k].score >= 0
  }

  /** Scoring changes only the first player with the id, whose score becomes
      the old score plus the points or zero, whichever is larger; and it
      keeps every score non-negative. */
  lemma ApplyPointsFacts(players: seq<Player>, id: string, points: int)
    ensures var r := ApplyPoints(players, id, points);
      var i := IndexOf(players, id);
      && |r| == |players|
      && (forall k :: 0 <= k < |players| && k != i ==> r[k] == players[k])
      && (0 <= i ==>
            && r[i].id == players[i].id && r[i].name == players[i].name
            && r[i].color == players[i].color && r[i].isAI == players[i].isAI
            && 0 <= r[i].score && players[i].score + points <= r[i].score
            && (r[i].score == 0 || r[i].score == players[i].score + points))
      && (NonNegativeScores(players) ==> NonNegativeScores(r))
  {
  }

  // ----- the outcome of a turn -----

  predicate StrikerInPocket(m: MathLib, position: Vec, pockets: seq<Pocket>) {
    exists k :: 0 <= k < |pockets| && Distance(m, position, pockets[k].position) <= pockets[k].radius
  }

  lemma StrikerInPocketIff(m: MathLib, position: Vec, pockets: seq<Pocket>)
    requires Sound(m)
    ensures StrikerInPocket(m, position, pockets) <==>
      exists k :: 0 <= k < |pockets| && 0.0 <= pockets[k].radius
                  && DistSq(position, pockets[k].position) <= pockets[k].radius * pockets[k].radius
  {
    forall k | 0 <= k < |pockets|
      ensures Distance(m, position, pockets[k].position) <= pockets[k].radius <==>
              0.0 <= pockets[k].radius && DistSq(position, pockets[k].position) <= pockets[k].radius * pockets[k].radius
    {
      var d := DistSq(position, pockets[k].position);
      NormSqNonNegative(Sub(position, pockets[k].position));
      SqrtOf(m, d);
      RootAtMost(m.sqrt(d), d, pockets[k].radius);
    }
  }

  /** The ids of the pocketed pieces, in piece order. */
  function PocketedIds(ps: seq<Piece>): seq<nat>
    decreases |ps|
  {
    if |ps| == 0 then []
    else PocketedIds(ps[..|ps| - 1]) + (if ps[|ps| - 1].isPocketed then [ps[|ps| - 1].id] else [])
  }

  /** Three points for a pocketed queen, one for any other pocketed piece. */
  function PocketPoints(ps: seq<Piece>): int
    decreases |ps|
  {
    if |ps| == 0 then 0
    else
      var p := ps[|ps| - 1];
      PocketPoints(ps[..|ps| - 1]) + (if p.isPocketed then (if p.color == Red then 3 else 1) else 0)
  }

  function TurnOutcome(m: MathLib, ps: seq<Piece>, striker: Body, pockets: seq<Pocket>): Outcome {
    var strikerPocketed := !striker.isActive && StrikerInPocket(m, striker.position, pockets);
    Outcome([], PocketedIds(ps), strikerPocketed, if strikerPocketed then -1 else PocketPoints(ps), strikerPocketed)
  }

  lemma {:induction false} PocketedIdsFacts(ps: seq<Piece>)
    ensures |PocketedIds(ps)| == CountWhere(ps, (p: Piece) => p.isPocketed)
    ensures forall id :: id in PocketedIds(ps) <==> exists k :: 0 <= k < |ps| && ps[k].isPocketed && ps[k].id == id
    ensures PocketPoints(ps) == CountWhere(ps, (p: Piece) => p.isPocketed && p.color != Red)
                                + 3 * CountWhere(ps, (p: Piece) => p.isPocketed && p.color == Red)
    decreases |ps|
  {
    if |ps| > 0 {
      var init := ps[..|ps| - 1];
      PocketedIdsFacts(init);
      assert forall k :: 0 <= k < |init| ==> init[k] == ps[k];
      forall id | id in PocketedIds(ps)
        ensures exists k :: 0 <= k < |ps| && ps[k].isPocketed && ps[k].id == id
      {
        if id !in PocketedIds(init) {
          assert ps[|ps| - 1].isPocketed && ps[|ps| - 1].id == id;
        }
      }
      forall id | exists k :: 0 <= k < |ps| && ps[k].isPocketed && ps[k].id == id
        ensures id in PocketedIds(ps)
      {
        var k :| 0 <= k < |ps| && ps[k].isPocketed && ps[k].id == id;
        if k < |init| {
          assert init[k].isPocketed && init[k].id == id;
        }
      }
    }
  }

  /** The turn's outcome lists exactly the pocketed pieces and, unless the
      resting striker lies in a pocket, scores one point per pocketed piece
      and three per pocketed queen; a resting striker in a pocket is a foul
      that scores -1. */
  lemma TurnOutcomeFacts(m: MathLib, ps: seq<Piece>, striker: Body, pockets: seq<Pocket>)
    ensures var o := TurnOutcome(m, ps, striker, pockets);
      && o.piecesHit == []
      && (forall id :: id in o.piecesPocketed <==> exists k :: 0 <= k < |ps| && ps[k].isPocketed && ps[k].id == id)
      && |o.piecesPocketed| == CountWhere(ps, (p: Piece) => p.isPocketed)
      && o.foul == o.strikerPocketed
      && (o.foul <==> !striker.isActive && StrikerInPocket(m, striker.position, pockets))
      && (o.foul ==> o.points == -1)
      && (!o.foul ==> o.points == CountWhere(ps, (p: Piece) => p.isPocketed && p.color != Red)
                                  + 3 * CountWhere(ps, (p: Piece) => p.isPocketed && p.color == Red))
  {
    PocketedIdsFacts(ps);
  }

  /** A striker the pockets capture during a tick is a foul when the turn completes. */
  lemma CapturedStrikerIsFoul(m: MathLib, s: Body, ps: seq<Piece>, pockets: seq<Pocket>)
    requires Sound(m) && 0.0 <= s.radius
    requires s.isActive && !CaptureStriker(m, s, pockets).isActive
    ensures TurnOutcome(m, ps, CaptureStriker(m, s, pockets), pockets).foul
  {
    CaptureStrikerFacts(m, s, pockets);
    var k :| 0 <= k < |pockets| && IsInPocket(m, s.position, s.radius, pockets[k]);
    assert Distance(m, s.position, pockets[k].position) <= pockets[k].radius;
  }

  // ----- turns and the winner -----

  /** The player after the current one, wrapping around; an unknown current
      player is followed by the first. */
  function NextPlayer(players: seq<Player>, current: string): string
    requires |players| > 0
  {
    players[(IndexOf(players, current) + 1) % |players|].id
  }

  /** `NextPlayer` applied `j` times. */
  function Advance(players: seq<Player>, current: string, j: nat): string
    requires |players| > 0
  {
    if j == 0 then current else NextPlayer(players, Advance(players, current, j - 1))
  }

  ghost predicate DistinctIds(players: seq<Player>) {
    forall i, j :: 0 <= i < j < |players| ==> players[i].id != players[j].id
  }

  /** With distinct ids, turns go round the players in list order: after j
      switches from player k it is player (k + j) mod n's turn, so after n
      switches it is player k's turn again. */
  lemma {:induction false} RoundRobin(players: seq<Player>, k: nat, j: nat)
    requires DistinctIds(players) && k < |players|
    ensures Advance(players, players[k].id, j) == players[(k + j) % |players|].id
  {
    var n := |players|;
    if j == 0 {
      ModUnique(k, 0, k, n);
    } else {
      RoundRobin(players, k, j - 1);
      var a: nat := k + j - 1;
      var i := a % n;
      assert Advance(players, players[k].id, j - 1) == players[i].id;
      NextOfIndex(players, i);
      assert (i + 1) % n == (k + j) % n by {
        ModSuccessor(a, n);
      }
    }
  }

  /** The successor depends only on the players' ids, so scoring does not change it. */
  lemma SameIdsSameNext(a: seq<Player>, b: seq<Player>, current: string)
    requires 0 < |a| == |b| && forall k :: 0 <= k < |a| ==> a[k].id == b[k].id
    ensures NextPlayer(a, current) == NextPlayer(b, current)
  {
  }

  lemma NextOfIndex(players: seq<Player>, i: nat)
    requires DistinctIds(players) && i < |players|
    ensures NextPlayer(players, players[i].id) == players[(i + 1) % |players|].id
  {
    IndexOfDistinct(players, i);
  }

  lemma IndexOfDistinct(players: seq<Player>, i: nat)
    requires DistinctIds(players) && i < |players|
    ensures IndexOf(players, players[i].id) == i
  {
  }

  lemma ModSuccessor(a: nat, n: nat)
    requires 0 < n
    ensures (a % n + 1) % n == (a + 1) % n
  {
    var q := a / n;
    var r := a % n;
    assert a == q * n + r;
    if r + 1 == n {
      ModUnique(n, 1, 0, n);
      ModUnique(a + 1, q + 1, 0, n);
    } else {
      ModUnique(r + 1, 0, r + 1, n);
      ModUnique(a + 1, q, r + 1, n);
    }
  }

  /** Euclidean division has one quotient and one remainder. */
  lemma ModUnique(x: int, q: int, r: int, n: int)
    requires 0 < n && 0 <= r < n && x == q * n + r
    ensures x % n == r && x / n == q
  {
    var q0 := x / n;
    var r0 := x % n;
    assert x == q0 * n + r0;
    if q0 > q {
      assert (q0 - q) * n == r - r0;
      MulAtLeast(q0 - q, n);
    } else if q0 < q {
      assert (q - q0) * n == r0 - r;
      MulAtLeast(q - q0, n);
    }
  }

  lemma MulAtLeast(a: int, n: int)
    requires 1 <= a && 0 < n
    ensures a * n >= n
  {
    assert a * n == (a - 1) * n + n;
    assert (a - 1) * n >= 0;
  }

  /** The first two players decide the winner: the strictly higher score
      wins, and a tie, or fewer than two players, leaves the winner as it was. */
  function WinnerOf(players: seq<Player>, winner: Option<string>): (r: Option<string>)
    ensures |players| < 2 ==> r == winner
    ensures 2 <= |players| ==>
      && (players[0].score > players[1].score ==> r == Some(players[0].id))
      && (players[1].score > players[0].score ==> r == Some(players[1].id))
      && (players[0].score == players[1].score ==> r == winner)
  {
    if |players| < 2 then winner
    else if players[0].score > players[1].score then Some(players[0].id)
    else if players[1].score > players[0].score then Some(players[1].id)
    else winner
  }

  // ----- the game state machine -----

  /** pauseGame: playing and paused swap; waiting and finished stay. */
  function TogglePause(s: Status): Status {
    match s
    case Playing => Paused
    case Paused => Playing
    case _ => s
  }

  lemma TogglePauseFacts(s: Status)
    ensures TogglePause(TogglePause(s)) == s
    ensures TogglePause(s) != s <==> s == Playing || s == Paused
    ensures TogglePause(s) == Playing <==> s == Paused
  {
  }

  /** makeShot: only a playing game with a resting striker takes the shot. */
  function Shoot(m: MathLib, st: GameState, angle: real, power: real): GameState {
    if st.status != Playing || st.striker.isActive then st
    else
      st.(striker := st.striker.(velocity := Polar(m, angle, power), isActive := true),
          shots := st.shots + [Shot(st.currentPlayer, st.striker.position, angle, power, NoOutcome)])
  }

  lemma ShootFacts(m: MathLib, st: GameState, angle: real, power: real)
    ensures var r := Shoot(m, st, angle, power);
      && (st.status != Playing || st.striker.isActive ==> r == st)
      && (st.status == Playing && !st.striker.isActive ==>
            && |r.shots| == |st.shots| + 1 && r.shots[..|st.shots|] == st.shots
            && r.shots[|st.shots|] == Shot(st.currentPlayer, st.striker.position, angle, power, NoOutcome)
            && r.striker.isActive && r.striker.position == st.striker.position
            && r.striker.velocity == Polar(m, angle, power)
            && r.pieces == st.pieces && r.players == st.players && r.status == st.status
            && r.currentPlayer == st.currentPlayer && r.turn == st.turn)
  {
  }

  function ResetBody(b: Body): Body {
    b.(position := StrikerHome, velocity := Zero, isActive := false)
  }

  function SwitchedTurn(st: GameState): GameState
    requires |st.players| > 0
  {
    st.(currentPlayer := NextPlayer(st.players, st.currentPlayer), turn := st.turn + 1)
  }

  predicate AllStopped(st: GameState) {
    !st.striker.isActive && forall k :: 0 <= k < |st.pieces| ==> !st.pieces[k].body.isActive || st.pieces[k].isPocketed
  }

  /** completeTurn as a function of the state. */
  function Completed(m: MathLib, st: GameState): GameState
    requires |st.players| > 0
  {
    if |st.shots| == 0 then st
    else Conclude(st, TurnOutcome(m, st.pieces, st.striker, st.board.pockets))
  }

  /** The part of completeTurn after the outcome is known: record it on the
      last shot, score it, then end the game or reset the striker and
      perhaps pass the turn. */
  function Conclude(st: GameState, outcome: Outcome): GameState
    requires |st.players| > 0 && |st.shots| > 0
  {
    var last := |st.shots| - 1;
    var scored := st.(shots := st.shots[last := st.shots[last].(outcome := outcome)],
                      players := ApplyPoints(st.players, st.currentPlayer, outcome.points));
    if GameOver(scored.pieces) then
      scored.(status := Finished, winner := WinnerOf(scored.players, scored.winner))
    else
      var switched := if |outcome.piecesPocketed| == 0 || outcome.foul then SwitchedTurn(scored) else scored;
      switched.(striker := ResetBody(switched.striker))
  }

  /** checkTurnCompletion as a function of the state. */
  function Checked(m: MathLib, st: GameState): GameState
    requires |st.players| > 0
  {
    if AllStopped(st) && |st.shots| > 0 then Completed(m, st) else st
  }

  /** One frame: the physics tick, then the completion check. */
  function Frame(e: Engine, m: MathLib, st: GameState): GameState
    requires |st.players| > 0
  {
    var ticked := Tick(e, m, st.striker, st.pieces, st.board, FrameStep);
    Checked(m, st.(striker := ticked.0, pieces := ticked.1))
  }

  /** Completing a turn records the outcome on the last shot and scores it
      for the current player, and leaves the pieces and the board alone. */
  lemma ConcludeRecords(st: GameState, o: Outcome)
    requires |st.players| > 0 && |st.shots| > 0
    ensures var r := Conclude(st, o);
      var last := |st.shots| - 1;
      && |r.shots| == |st.shots| && r.shots[..last] == st.shots[..last]
      && r.shots[last] == st.shots[last].(outcome := o)
      && r.players == ApplyPoints(st.players, st.currentPlayer, o.points)
      && r.pieces == st.pieces && r.board == st.board
  {
    var last := |st.shots| - 1;
    var shots := st.shots[last := st.shots[last].(outcome := o)];
    assert shots[..last] == st.shots[..last];
  }

  /** Then, when no white or black piece is left, the game finishes and the
      winner is decided on the new scores; the striker and the turn stay. */
  lemma ConcludeFinishes(st: GameState, o: Outcome)
    requires |st.players| > 0 && |st.shots| > 0 && GameOver(st.pieces)
    ensures var r := Conclude(st, o);
      && r.status == Finished
      && r.striker == st.striker && r.currentPlayer == st.currentPlayer && r.turn == st.turn
      && r.winner == WinnerOf(r.players, st.winner)
  {
  }

  /** Otherwise the status and winner stay, the striker returns home at
      rest, and the turn passes on exactly when nothing is pocketed or the
      shot was a foul. */
  lemma ConcludeContinues(st: GameState, o: Outcome)
    requires |st.players| > 0 && |st.shots| > 0 && !GameOver(st.pieces)
    ensures var r := Conclude(st, o);
      && r.status == st.status && r.winner == st.winner
      && r.striker.position == StrikerHome && r.striker.velocity == Zero && !r.striker.isActive
      && (|o.piecesPocketed| == 0 || o.foul ==>
            r.currentPlayer == NextPlayer(st.players, st.currentPlayer) && r.turn == st.turn + 1)
      && (|o.piecesPocketed| > 0 && !o.foul ==>
            r.currentPlayer == st.currentPlayer && r.turn == st.turn)
  {
    var last := |st.shots| - 1;
    var scored := st.(shots := st.shots[last := st.shots[last].(outcome := o)],
                      players := ApplyPoints(st.players, st.currentPlayer, o.points));
    ApplyPointsFacts(st.players, st.currentPlayer, o.points);
    SameIdsSameNext(scored.players, st.players, st.currentPlayer);
  }

  /** Completion does not stop: once everything rests and a shot exists,
      a completed turn that does not end the game leaves everything at rest
      with the same shots, so the next frame completes the turn again, and
      it records the same pocketed pieces again. */
  lemma CompletionRepeats(m: MathLib, st: GameState)
    requires |st.players| > 0 && |st.shots| > 0
    requires AllStopped(st) && !GameOver(st.pieces)
    ensures var r := Completed(m, st);
      && |r.players| > 0 && AllStopped(r) && |r.shots| == |st.shots|
      && Checked(m, r) == Completed(m, r)
      && TurnOutcome(m, r.pieces, r.striker, r.board.pockets).piecesPocketed
         == TurnOutcome(m, st.pieces, st.striker, st.board.pockets).piecesPocketed
  {
    ConcludeRecords(st, TurnOutcome(m, st.pieces, st.striker, st.board.pockets));
    ConcludeContinues(st, TurnOutcome(m, st.pieces, st.striker, st.board.pockets));
    ApplyPointsFacts(st.players, st.currentPlayer, TurnOutcome(m, st.pieces, st.striker, st.board.pockets).points);
  }

  /** No score ever goes below zero: shots, frames and completed turns all
      keep every score non-negative. */
  lemma ScoresStayNonNegative(e: Engine, m: MathLib, st: GameState, angle: real, power: real)
    requires |st.players| > 0 && NonNegativeScores(st.players)
    ensures NonNegativeScores(Shoot(m, st, angle, power).players)
    ensures NonNegativeScores(Completed(m, st).players)
    ensures NonNegativeScores(Frame(e, m, st).players)
  {
    if |st.shots| > 0 {
      ApplyPointsFacts(st.players, st.currentPlayer, TurnOutcome(m, st.pieces, st.striker, st.board.pockets).points);
    }
    var ticked := Tick(e, m, st.striker, st.pieces, st.board, FrameStep);
    var moved := st.(striker := ticked.0, pieces := ticked.1);
    if |moved.shots| > 0 {
      ApplyPointsFacts(moved.players, moved.currentPlayer, TurnOutcome(m, moved.pieces, moved.striker, moved.board.pockets).points);
    }
  }

  /** Across a frame a pocketed piece stays pocketed, and a resting
      pocketed piece is not touched. */
  lemma FrameKeepsPocketed(e: Engine, m: MathLib, st: GameState)
    requires Sound(m) && |st.players| > 0
    ensures var r := Frame(e, m, st);
      && |r.pieces| == |st.pieces|
      && forall k :: 0 <= k < |st.pieces| && st.pieces[k].isPocketed ==>
           && r.pieces[k].isPocketed
           && (!st.pieces[k].body.isActive ==> r.pieces[k] == st.pieces[k])
  {
    TickKeepsPocketedPieces(e, m, st.striker, st.pieces, st.board, FrameStep);
  }

  // ----- the game object -----

  /** carrom-game.ts CarromGame: the game state, updated in place. The
      striker and the piece array are the objects the engine mutates. */
  class Game {
    var status: Status
    var currentPlayer: string
    var players: seq<Player>
    const pieces: array<Piece>
    const striker: Striker
    const board: Board
    var shots: seq<Shot>
    var turn: int
    var winner: Option<string>
    const engine: Engine
    const math: MathLib

    ghost function State(): GameState
      reads this, pieces, striker
    {
      GameState(status, currentPlayer, players, pieces[..], striker.AsBody(), board, shots, turn, winner)
    }

    predicate Valid()
      reads this
    {
      |players| > 0
    }

    /** initializeGame, with the engine configured from the settings. */
    constructor (mode: GameMode, engine: Engine, math: MathLib)
      ensures Valid() && State() == InitialState(mode)
      ensures this.engine == engine && this.math == math
      ensures fresh(pieces) && fresh(striker)
    {
      var layout := CreatePieces();
      var players := CreatePlayers(mode);
      this.board := CreateBoard();
      this.pieces := new Piece[|layout|](k requires 0 <= k < |layout| => layout[k]);
      this.striker := new Striker(InitialStriker);
      this.players := players;
      this.status := Waiting;
      this.currentPlayer := players[0].id;
      this.shots := [];
      this.turn := 1;
      this.winner := None;
      this.engine := engine;
      this.math := math;
      new;
      assert pieces[..] == layout;
    }

    /** startGame (the animation loop it starts is not modelled). */
    method StartGame()
      modifies this
      ensures Valid() == old(Valid())
      ensures State() == old(State()).(status := Playing)
    {
      status := Playing;
    }

    /** pauseGame. */
    method PauseGame()
      modifies this
      ensures Valid() == old(Valid())
      ensures State() == old(State()).(status := TogglePause(old(status)))
    {
      if status == Playing {
        status := Paused;
      } else if status == Paused {
        status := Playing;
      }
    }

    /** makeShot. */
    method MakeShot(angle: real, power: real)
      modifies this, striker
      ensures Valid() == old(Valid())
      ensures State() == Shoot(math, old(State()), angle, power)
    {
      if status != Playing || striker.isActive {
        return;
      }
      var angleRad := angle * PI / 180.0;
      var velocity := Vec(math.cos(angleRad) * power, math.sin(angleRad) * power);
      striker.velocity := velocity;
      striker.isActive := true;
      shots := shots + [Shot(currentPlayer, striker.position, angle, power, NoOutcome)];
    }

    /** One frame of the game loop: updatePhysics, then checkTurnCompletion. */
    method Update()
      requires Valid()
      modifies this, pieces, striker
      ensures Valid()
      ensures State() == Frame(engine, math, old(State()))
    {
      UpdatePhysics();
      CheckTurnCompletion();
    }

    /** updatePhysics. */
    method UpdatePhysics()
      modifies pieces, striker
      ensures State() == old(State()).(striker := Tick(engine, math, old(striker.AsBody()), old(pieces[..]), board, FrameStep).0,
                                       pieces := Tick(engine, math, old(striker.AsBody()), old(pieces[..]), board, FrameStep).1)
    {
      PhysicsEngine.UpdatePhysics(engine, math, pieces, striker, board, FrameStep);
    }

    /** checkTurnCompletion. */
    method CheckTurnCompletion()
      requires Valid()
      modifies this, striker
      ensures Valid()
      ensures State() == Checked(math, old(State()))
    {
      var allStopped := !striker.isActive && forall k :: 0 <= k < pieces.Length ==> !pieces[k].body.isActive || pieces[k].isPocketed;
      assert allStopped == AllStopped(State());
      if allStopped && |shots| > 0 {
        CompleteTurn();
      }
    }

    /** completeTurn (the AI trigger at its end is not modelled). */
    method CompleteTurn()
      requires Valid()
      modifies this, striker
      ensures Valid()
      ensures State() == Completed(math, old(State()))
    {
      if |shots| == 0 {
        return;
      }
      var outcome := CalculateTurnOutcome();
      var last := |shots| - 1;
      shots := shots[last := shots[last].(outcome := outcome)];
      UpdateScores(outcome);
      if GameOver(pieces[..]) {
        EndGame();
        return;
      }
      if |outcome.piecesPocketed| == 0 || outcome.foul {
        SwitchTurn();
      }
      ResetStriker();
    }

    /** calculateTurnOutcome: reads the state and changes nothing. */
    method CalculateTurnOutcome() returns (outcome: Outcome)
      ensures outcome == TurnOutcome(math, pieces[..], striker.AsBody(), board.pockets)
    {
      var piecesPocketed: seq<nat> := [];
      var points := 0;
      var i := 0;
      while i < pieces.Length
        invariant 0 <= i <= pieces.Length
        invariant piecesPocketed == PocketedIds(pieces[..i])
        invariant points == PocketPoints(pieces[..i])
      {
        var piece := pieces[i];
        assert pieces[..i + 1][..i] == pieces[..i];
        if piece.isPocketed {
          piecesPocketed := piecesPocketed + [piece.id];
          if piece.color == Red {
            points := points + 3;
          } else {
            points := points + 1;
          }
        }
        i := i + 1;
      }
      assert pieces[..i] == pieces[..];
      var strikerPocketed := !striker.isActive && StrikerInPocket(math, striker.position, board.pockets);
      var foul := false;
      if strikerPocketed {
        foul := true;
        points := -1;
      }
      outcome := Outcome([], piecesPocketed, strikerPocketed, points, foul);
    }

    /** updateScores. */
    method UpdateScores(outcome: Outcome)
      modifies this
      ensures Valid() == old(Valid())
      ensures State() == old(State()).(players := ApplyPoints(old(players), currentPlayer, outcome.points))
    {
      var i := IndexOf(players, currentPlayer);
      if i >= 0 {
        var score := players[i].score + outcome.points;
        if score < 0 {
          score := 0;
        }
        players := players[i := players[i].(score := score)];
      }
    }

    /** endGame (stopping the loop is not modelled). */
    method EndGame()
      modifies this
      ensures Valid() == old(Valid())
      ensures State() == old(State()).(status := Finished, winner := WinnerOf(old(players), old(winner)))
    {
      status := Finished;
      if |players| >= 2 {
        var player1 := players[0];
        var player2 := players[1];
        if player1.score > player2.score {
          winner := Some(player1.id);
        } else if player2.score > player1.score {
          winner := Some(player2.id);
        }
      }
    }

    /** switchTurn. */
    method SwitchTurn()
      requires Valid()
      modifies this
      ensures Valid()
      ensures State() == SwitchedTurn(old(State()))
    {
      var currentIndex := IndexOf(players, currentPlayer);
      var nextIndex := (currentIndex + 1) % |players|;
      currentPlayer := players[nextIndex].id;
      turn := turn + 1;
    }

    /** resetStriker. */
    method ResetStriker()
      modifies striker
      ensures State() == old(State()).(striker := ResetBody(old(striker.AsBody())))
    {
      striker.position := StrikerHome;
      striker.velocity := Zero;
      striker.isActive := false;
    }
  }
}
