/** The shot assistant: candidate generators for pocketing, positioning and
    defensive shots, their category scores, the ranking, the analysis handed
    to the player, and the perturbed auto-play move. Math.random draws are
    explicit `rolls` in [0, 1), consumed in the order the source draws them. */
module AIAssistant {
  import opened Geometry
  import opened GameTypes
  import opened PhysicsEngine

  /** A generated shot before it is given a category. */
  datatype Candidate = Candidate(angle: real, power: real, successProbability: real)

  /** A categorised candidate with its ranking score. */
  datatype RankedShot = RankedShot(
    angle: real,
    power: real,
    successProbability: real,
    description: Category,
    targetPiece: Option<nat>,
    score: real)

  // ----- list helpers (Array.prototype.filter and slice) -----

  function Filter<T(!new)>(s: seq<T>, keep: T -> bool): (r: seq<T>)
    ensures |r| <= |s|
    ensures forall x :: x in r <==> x in s && keep(x)
  {
    if |s| == 0 then []
    else
      assert s == [s[0]] + s[1..];
      (if keep(s[0]) then [s[0]] else []) + Filter(s[1..], keep)
  }

  /** slice(0, n): the longest prefix of at most n elements. */
  function Take<T>(s: seq<T>, n: nat): (r: seq<T>)
    ensures |r| <= n && r <= s
    ensures |r| < n ==> r == s
    ensures n <= |s| ==> |r| == n
  {
    if |s| <= n then s else s[..n]
  }

  /** Every random draw lies in [0, 1). */
  predicate Rolls(rolls: seq<real>) {
    forall k :: 0 <= k < |rolls| ==> 0.0 <= rolls[k] < 1.0
  }

  // ----- pocketing shots -----

  /** The shot aimed straight at `target` for one pocket: power grows with the
      striker-to-target distance, and the probability falls with that
      distance, the target-to-pocket distance and the angle between the aim
      and the target-to-pocket direction. */
  function PocketingCandidate(m: MathLib, striker: Vec, target: Vec, pocket: Pocket): (c: Candidate)
    ensures 250.0 <= c.power <= 900.0
    ensures c.successProbability <= 0.95
    ensures c.angle == HeadingDegrees(m, striker, target)
  {
    var pocketAngle := m.atan2(pocket.position.y - target.y, pocket.position.x - target.x);
    var dx := target.x - striker.x;
    var dy := target.y - striker.y;
    var requiredAngle := m.atan2(dy, dx);
    var distance := m.sqrt(dx * dx + dy * dy);
    var power := Min(Max(distance * 0.4, 250.0), 900.0);
    var distanceToPocket := m.sqrt((target.x - pocket.position.x) * (target.x - pocket.position.x)
                                   + (target.y - pocket.position.y) * (target.y - pocket.position.y));
    var probability := Max(0.1, 1.0 - distance / 500.0 - distanceToPocket / 400.0)
                       * Max(0.3, 1.0 - Abs(requiredAngle - pocketAngle) / PI);
    Candidate(requiredAngle * 180.0 / PI, power, Min(0.95, probability))
  }

  function PocketingCandidates(m: MathLib, striker: Vec, target: Vec, pockets: seq<Pocket>): (r: seq<Candidate>)
    ensures |r| == |pockets|
  {
    seq(|pockets|, k requires 0 <= k < |pockets| => PocketingCandidate(m, striker, target, pockets[k]))
  }

  predicate Viable(c: Candidate) {
    c.successProbability > 0.2
  }

  function PocketingShots(m: MathLib, striker: Vec, target: Vec, pockets: seq<Pocket>): seq<Candidate> {
    Take(Filter(PocketingCandidates(m, striker, target, pockets), Viable), 2)
  }

  /** At most two pocketing shots, each aimed at the target with power in
      [250, 900] and probability in (0.2, 0.95], and the first viable ones in
      pocket order. */
  lemma PocketingShotsFacts(m: MathLib, striker: Vec, target: Vec, pockets: seq<Pocket>)
    ensures var r := PocketingShots(m, striker, target, pockets);
      var all := PocketingCandidates(m, striker, target, pockets);
      && |r| <= 2
      && r <= Filter(all, Viable)
      && (forall c :: c in r ==>
            && c in all
            && c.angle == HeadingDegrees(m, striker, target)
            && 250.0 <= c.power <= 900.0
            && 0.2 < c.successProbability <= 0.95)
      && (|r| < 2 ==> forall c :: c in all && Viable(c) ==> c in r)
  {
    var all := PocketingCandidates(m, striker, target, pockets);
    var r := PocketingShots(m, striker, target, pockets);
    forall c | c in r
      ensures c in all && 250.0 <= c.power <= 900.0 && 0.2 < c.successProbability <= 0.95
      ensures c.angle == HeadingDegrees(m, striker, target)
    {
      assert c in Filter(all, Viable) by {
        var i :| 0 <= i < |r| && r[i] == c;
        assert Filter(all, Viable)[i] == c;
      }
      var k :| 0 <= k < |all| && all[k] == c;
    }
  }

  /** ai-assistant.ts calculatePocketingShots. */
  method CalculatePocketingShots(m: MathLib, striker: Vec, target: Vec, pockets: seq<Pocket>)
    returns (shots: seq<Candidate>)
    ensures shots == PocketingShots(m, striker, target, pockets)
  {
    var all: seq<Candidate> := [];
    var k := 0;
    while k < |pockets|
      invariant 0 <= k <= |pockets|
      invariant all == PocketingCandidates(m, striker, target, pockets)[..k]
    {
      all := all + [PocketingCandidate(m, striker, target, pockets[k])];
      k := k + 1;
    }
    assert all == PocketingCandidates(m, striker, target, pockets);
    shots := Take(Filter(all, Viable), 2);
  }

  // ----- positioning shots -----

  /** The arithmetic mean of the piece positions. */
  function SumPositions(pieces: seq<Piece>): Vec
    decreases |pieces|
  {
    if |pieces| == 0 then Zero
    else Add(SumPositions(pieces[..|pieces| - 1]), pieces[|pieces| - 1].body.position)
  }

  function FindClusterCenter(pieces: seq<Piece>): (c: Vec)
    requires |pieces| > 0
    ensures c.x * (|pieces| as real) == SumPositions(pieces).x
    ensures c.y * (|pieces| as real) == SumPositions(pieces).y
  {
    var n := |pieces| as real;
    var total := SumPositions(pieces);
    Vec(total.x / n, total.y / n)
  }

  ghost predicate InBox(p: Vec, lo: Vec, hi: Vec) {
    lo.x <= p.x <= hi.x && lo.y <= p.y <= hi.y
  }

  /** k added to itself n times. */
  function Times(k: real, n: nat): real {
    if n == 0 then 0.0 else Times(k, n - 1) + k
  }

  lemma {:induction false} TimesIsProduct(k: real, n: nat)
    ensures Times(k, n) == k * (n as real)
  {
    if n > 0 {
      TimesIsProduct(k, n - 1);
      assert k * (n as real) == k * ((n - 1) as real) + k;
    }
  }

  lemma {:induction false} SumInBox(pieces: seq<Piece>, lo: Vec, hi: Vec)
    requires forall k :: 0 <= k < |pieces| ==> InBox(pieces[k].body.position, lo, hi)
    ensures var s := SumPositions(pieces);
      && Times(lo.x, |pieces|) <= s.x <= Times(hi.x, |pieces|)
      && Times(lo.y, |pieces|) <= s.y <= Times(hi.y, |pieces|)
    decreases |pieces|
  {
    if |pieces| > 0 {
      var init := pieces[..|pieces| - 1];
      assert forall k :: 0 <= k < |init| ==> init[k] == pieces[k];
      SumInBox(init, lo, hi);
    }
  }

  /** The cluster centre lies in every axis-aligned box holding all the pieces. */
  lemma ClusterCenterInBox(pieces: seq<Piece>, lo: Vec, hi: Vec)
    requires |pieces| > 0
    requires forall k :: 0 <= k < |pieces| ==> InBox(pieces[k].body.position, lo, hi)
    ensures InBox(FindClusterCenter(pieces), lo, hi)
  {
    var n := |pieces| as real;
    var c := FindClusterCenter(pieces);
    var total := SumPositions(pieces);
    assert c.x * n == total.x && c.y * n == total.y;
    SumInBox(pieces, lo, hi);
    MeanOfTimes(lo.x, c.x, hi.x, |pieces|, total.x);
    MeanOfTimes(lo.y, c.y, hi.y, |pieces|, total.y);
  }

  /** A mean of n values lies between the bounds whose n-fold sums bound the total. */
  lemma MeanOfTimes(lo: real, v: real, hi: real, n: nat, total: real)
    requires 0 < n && v * (n as real) == total && Times(lo, n) <= total <= Times(hi, n)
    ensures lo <= v <= hi
  {
    TimesIsProduct(lo, n);
    TimesIsProduct(hi, n);
    MeanBetween(lo, v, hi, n as real, total);
  }

  lemma MeanBetween(lo: real, v: real, hi: real, n: real, total: real)
    requires 0.0 < n && v * n == total && lo * n <= total <= hi * n
    ensures lo <= v <= hi
  {
    if v < lo {
      MulPositive(lo - v, n);
    }
    if hi < v {
      MulPositive(v - hi, n);
    }
  }

  /** The compass sweep tried after the cluster shot. */
  const PositioningAngles: seq<real> := [0.0, 45.0, 90.0, 135.0, 180.0, 225.0, 270.0, 315.0]

  /** Two draws per sweep angle: one for the power, one for the probability. */
  const PositioningRolls: nat := 16

  function ClusterShot(m: MathLib, striker: Vec, playerPieces: seq<Piece>): Candidate
    requires |playerPieces| > 0
  {
    Candidate(HeadingDegrees(m, striker, FindClusterCenter(playerPieces)), 400.0, 0.7)
  }

  function SweepShots(rolls: seq<real>): (r: seq<Candidate>)
    requires |rolls| == PositioningRolls
    ensures |r| == |PositioningAngles|
  {
    seq(|PositioningAngles|, k requires 0 <= k < |PositioningAngles| =>
      Candidate(PositioningAngles[k], 300.0 + rolls[2 * k] * 200.0, 0.6 + rolls[2 * k + 1] * 0.2))
  }

  function PositioningShots(m: MathLib, striker: Vec, playerPieces: seq<Piece>, rolls: seq<real>): (r: seq<Candidate>)
    requires |rolls| == PositioningRolls
    ensures |r| == 3
  {
    var cluster := if |playerPieces| > 1 then [ClusterShot(m, striker, playerPieces)] else [];
    Take(cluster + SweepShots(rolls), 3)
  }

  /** Always three positioning shots: the cluster shot first when the player
      has more than one piece, then the sweep angles 0, 45, ... in order, each
      with power in [300, 500) and probability in [0.6, 0.8). */
  lemma PositioningShotsFacts(m: MathLib, striker: Vec, playerPieces: seq<Piece>, rolls: seq<real>)
    requires |rolls| == PositioningRolls && Rolls(rolls)
    ensures var r := PositioningShots(m, striker, playerPieces, rolls);
      var first := if |playerPieces| > 1 then 1 else 0;
      && |r| == 3
      && (|playerPieces| > 1 ==> r[0] == ClusterShot(m, striker, playerPieces))
      && (forall k :: first <= k < 3 ==>
            && r[k].angle == 45.0 * ((k - first) as real)
            && 300.0 <= r[k].power < 500.0
            && 0.6 <= r[k].successProbability < 0.8)
  {
    var first := if |playerPieces| > 1 then 1 else 0;
    var cluster := if |playerPieces| > 1 then [ClusterShot(m, striker, playerPieces)] else [];
    var sweep := SweepShots(rolls);
    var r := PositioningShots(m, striker, playerPieces, rolls);
    assert r == (cluster + sweep)[..3];
    forall k | first <= k < 3
      ensures r[k].angle == 45.0 * ((k - first) as real)
      ensures 300.0 <= r[k].power < 500.0 && 0.6 <= r[k].successProbability < 0.8
    {
      var j := k - first;
      assert r[k] == sweep[j];
      assert 0.0 <= rolls[2 * j] < 1.0 && 0.0 <= rolls[2 * j + 1] < 1.0;
    }
  }

  /** ai-assistant.ts calculatePositioningShots; its unused opponent and
      board arguments are dropped. */
  method CalculatePositioningShots(m: MathLib, striker: Vec, playerPieces: seq<Piece>, rolls: seq<real>)
    returns (shots: seq<Candidate>)
    requires |rolls| == PositioningRolls
    ensures shots == PositioningShots(m, striker, playerPieces, rolls)
  {
    var all: seq<Candidate> := [];
    if |playerPieces| > 1 {
      var clusterCenter := FindClusterCenter(playerPieces);
      var angle := m.atan2(clusterCenter.y - striker.y, clusterCenter.x - striker.x);
      all := all + [Candidate(angle * 180.0 / PI, 400.0, 0.7)];
    }
    ghost var cluster := all;
    var k := 0;
    while k < |PositioningAngles|
      invariant 0 <= k <= |PositioningAngles|
      invariant all == cluster + SweepShots(rolls)[..k]
    {
      all := all + [Candidate(PositioningAngles[k], 300.0 + rolls[2 * k] * 200.0, 0.6 + rolls[2 * k + 1] * 0.2)];
      k := k + 1;
    }
    assert SweepShots(rolls)[..k] == SweepShots(rolls);
    shots := Take(all, 3);
  }

  // ----- defensive shots -----

  predicate NearPocket(m: MathLib, piece: Piece, pocket: Pocket) {
    Distance(m, piece.body.position, pocket.position) < 100.0
  }

  function DefensiveShot(m: MathLib, striker: Vec, piece: Piece): Candidate {
    Candidate(HeadingDegrees(m, striker, piece.body.position), 350.0, 0.5)
  }

  /** One shot at `piece` for every pocket it lies near, in pocket order. */
  function DefensiveFor(m: MathLib, striker: Vec, piece: Piece, pockets: seq<Pocket>): seq<Candidate>
    decreases |pockets|
  {
    if |pockets| == 0 then []
    else
      DefensiveFor(m, striker, piece, pockets[..|pockets| - 1])
      + (if NearPocket(m, piece, pockets[|pockets| - 1]) then [DefensiveShot(m, striker, piece)] else [])
  }

  /** The defensive shots for every opponent piece, in piece order. */
  function DefensiveAll(m: MathLib, striker: Vec, pieces: seq<Piece>, pockets: seq<Pocket>): seq<Candidate>
    decreases |pieces|
  {
    if |pieces| == 0 then []
    else DefensiveAll(m, striker, pieces[..|pieces| - 1], pockets) + DefensiveFor(m, striker, pieces[|pieces| - 1], pockets)
  }

  function DefensiveShots(m: MathLib, striker: Vec, pieces: seq<Piece>, pockets: seq<Pocket>): seq<Candidate> {
    Take(DefensiveAll(m, striker, pieces, pockets), 2)
  }

  lemma {:induction false} DefensiveForFacts(m: MathLib, striker: Vec, piece: Piece, pockets: seq<Pocket>)
    ensures forall c :: c in DefensiveFor(m, striker, piece, pockets) ==> c == DefensiveShot(m, striker, piece)
    ensures |DefensiveFor(m, striker, piece, pockets)| == 0 <==>
      forall k :: 0 <= k < |pockets| ==> !NearPocket(m, piece, pockets[k])
    decreases |pockets|
  {
    if |pockets| > 0 {
      var init := pockets[..|pockets| - 1];
      DefensiveForFacts(m, striker, piece, init);
      assert forall k :: 0 <= k < |init| ==> init[k] == pockets[k];
    }
  }

  /** A defensive shot aims at an opponent piece lying within 100 of some
      pocket, with power 350 and probability 0.5; there is none exactly when
      no opponent piece lies that near a pocket. */
  lemma {:induction false} DefensiveAllFacts(m: MathLib, striker: Vec, pieces: seq<Piece>, pockets: seq<Pocket>)
    ensures forall c :: c in DefensiveAll(m, striker, pieces, pockets) ==>
      exists i, k :: 0 <= i < |pieces| && 0 <= k < |pockets| && NearPocket(m, pieces[i], pockets[k])
                     && c == DefensiveShot(m, striker, pieces[i])
    ensures |DefensiveAll(m, striker, pieces, pockets)| == 0 <==>
      forall i, k :: 0 <= i < |pieces| && 0 <= k < |pockets| ==> !NearPocket(m, pieces[i], pockets[k])
    decreases |pieces|
  {
    if |pieces| > 0 {
      var init := pieces[..|pieces| - 1];
      var last := pieces[|pieces| - 1];
      DefensiveAllFacts(m, striker, init, pockets);
      DefensiveForFacts(m, striker, last, pockets);
      assert forall i :: 0 <= i < |init| ==> init[i] == pieces[i];
      forall c | c in DefensiveFor(m, striker, last, pockets)
        ensures exists i, k :: 0 <= i < |pieces| && 0 <= k < |pockets| && NearPocket(m, pieces[i], pockets[k])
                               && c == DefensiveShot(m, striker, pieces[i])
      {
        var k :| 0 <= k < |pockets| && NearPocket(m, last, pockets[k]);
        assert NearPocket(m, pieces[|pieces| - 1], pockets[k]);
      }
    }
  }

  /** At most two defensive shots, each with power 350 and probability 0.5
      aimed at an opponent piece near a pocket. */
  lemma DefensiveShotsFacts(m: MathLib, striker: Vec, pieces: seq<Piece>, pockets: seq<Pocket>)
    ensures var r := DefensiveShots(m, striker, pieces, pockets);
      && |r| <= 2
      && (forall c :: c in r ==>
            && c.power == 350.0 && c.successProbability == 0.5
            && exists i, k :: 0 <= i < |pieces| && 0 <= k < |pockets| && NearPocket(m, pieces[i], pockets[k])
                              && c.angle == HeadingDegrees(m, striker, pieces[i].body.position))
      && (|r| == 0 <==> forall i, k :: 0 <= i < |pieces| && 0 <= k < |pockets| ==> !NearPocket(m, pieces[i], pockets[k]))
  {
    var all := DefensiveAll(m, striker, pieces, pockets);
    DefensiveAllFacts(m, striker, pieces, pockets);
    forall c | c in DefensiveShots(m, striker, pieces, pockets)
      ensures c in all
    {
      var r := DefensiveShots(m, striker, pieces, pockets);
      var j :| 0 <= j < |r| && r[j] == c;
      assert all[j] == c;
    }
  }

  /** ai-assistant.ts calculateDefensiveShots. */
  method CalculateDefensiveShots(m: MathLib, striker: Vec, opponentPieces: seq<Piece>, pockets: seq<Pocket>)
    returns (shots: seq<Candidate>)
    ensures shots == DefensiveShots(m, striker, opponentPieces, pockets)
  {
    var all: seq<Candidate> := [];
    var i := 0;
    while i < |opponentPieces|
      invariant 0 <= i <= |opponentPieces|
      invariant all == DefensiveAll(m, striker, opponentPieces[..i], pockets)
    {
      var near := DefensiveShotsAt(m, striker, opponentPieces[i], pockets);
      all := all + near;
      assert opponentPieces[..i + 1][..i] == opponentPieces[..i];
      i := i + 1;
    }
    assert opponentPieces[..i] == opponentPieces;
    shots := Take(all, 2);
  }

  /** The inner pocket loop of calculateDefensiveShots for one opponent piece. */
  method DefensiveShotsAt(m: MathLib, striker: Vec, piece: Piece, pockets: seq<Pocket>)
    returns (shots: seq<Candidate>)
    ensures shots == DefensiveFor(m, striker, piece, pockets)
  {
    shots := [];
    var k := 0;
    while k < |pockets|
      invariant 0 <= k <= |pockets|
      invariant shots == DefensiveFor(m, striker, piece, pockets[..k])
    {
      assert pockets[..k + 1][..k] == pockets[..k];
      if Distance(m, piece.body.position, pockets[k].position) < 100.0 {
        var angle := m.atan2(piece.body.position.y - striker.y, piece.body.position.x - striker.x);
        shots := shots + [Candidate(angle * 180.0 / PI, 350.0, 0.5)];
      }
      k := k + 1;
    }
    assert pockets[..k] == pockets;
  }

  // ----- scoring and ranking -----

  /** The category's weight on the probability, plus its priority offset. */
  function Score(category: Category, p: real): real {
    match category
    case PocketOwn(_) => p * 100.0 + 50.0
    case PocketQueen => p * 80.0 + 40.0
    case Positioning => p * 60.0 + 20.0
    case Defensive => p * 40.0 + 10.0
  }

  function RankAll(cs: seq<Candidate>, category: Category, target: Option<nat>): (r: seq<RankedShot>)
    ensures |r| == |cs|
  {
    seq(|cs|, k requires 0 <= k < |cs| =>
      RankedShot(cs[k].angle, cs[k].power, cs[k].successProbability, category, target, Score(category, cs[k].successProbability)))
  }

  /** The pocketing shots at every own piece, in piece order. */
  function OwnShots(m: MathLib, striker: Vec, own: seq<Piece>, pockets: seq<Pocket>): seq<RankedShot>
    decreases |own|
  {
    if |own| == 0 then []
    else
      var piece := own[|own| - 1];
      OwnShots(m, striker, own[..|own| - 1], pockets)
      + RankAll(PocketingShots(m, striker, piece.body.position, pockets), PocketOwn(piece.color), Some(piece.id))
  }

  function QueenShots(m: MathLib, striker: Vec, queen: Option<Piece>, pockets: seq<Pocket>): seq<RankedShot> {
    match queen
    case None => []
    case Some(q) => RankAll(PocketingShots(m, striker, q.body.position, pockets), PocketQueen, Some(q.id))
  }

  /** Every categorised candidate, in the order the source pushes them. */
  function AllShots(m: MathLib, striker: Vec, own: seq<Piece>, opponents: seq<Piece>, queen: Option<Piece>,
                    board: Board, rolls: seq<real>): (r: seq<RankedShot>)
    requires |rolls| == PositioningRolls
    ensures |r| >= 3
  {
    OwnShots(m, striker, own, board.pockets)
    + QueenShots(m, striker, queen, board.pockets)
    + RankAll(PositioningShots(m, striker, own, rolls), Positioning, None)
    + (if |opponents| > 0 then RankAll(DefensiveShots(m, striker, opponents, board.pockets), Defensive, None) else [])
  }

  ghost predicate SortedByScore(s: seq<RankedShot>) {
    forall i, j :: 0 <= i < j < |s| ==> s[i].score >= s[j].score
  }

  /** Inserts after every element scoring at least as much, so ties keep their order. */
  function Insert(x: RankedShot, s: seq<RankedShot>): (r: seq<RankedShot>)
    ensures multiset(r) == multiset(s) + multiset{x}
    ensures |r| == |s| + 1
  {
    if |s| == 0 then [x]
    else if s[0].score >= x.score then
      assert s == [s[0]] + s[1..];
      [s[0]] + Insert(x, s[1..])
    else [x] + s
  }

  /** The descending, stable sort by score. */
  function SortByScore(s: seq<RankedShot>): (r: seq<RankedShot>)
    ensures multiset(r) == multiset(s)
    ensures |r| == |s|
    decreases |s|
  {
    if |s| == 0 then []
    else
      assert s == s[..|s| - 1] + [s[|s| - 1]];
      Insert(s[|s| - 1], SortByScore(s[..|s| - 1]))
  }

  lemma {:induction false} InsertSorted(x: RankedShot, s: seq<RankedShot>)
    requires SortedByScore(s)
    ensures SortedByScore(Insert(x, s))
    decreases |s|
  {
    if |s| > 0 && s[0].score >= x.score {
      var rest := Insert(x, s[1..]);
      InsertSorted(x, s[1..]);
      forall y | y in rest
        ensures s[0].score >= y.score
      {
        assert y in multiset(rest);
        if y != x {
          assert y in multiset(s[1..]);
        }
      }
    }
  }

  lemma {:induction false} SortByScoreSorted(s: seq<RankedShot>)
    ensures SortedByScore(SortByScore(s))
    decreases |s|
  {
    if |s| > 0 {
      SortByScoreSorted(s[..|s| - 1]);
      InsertSorted(s[|s| - 1], SortByScore(s[..|s| - 1]));
    }
  }

  function BestShots(m: MathLib, striker: Vec, own: seq<Piece>, opponents: seq<Piece>, queen: Option<Piece>,
                     board: Board, rolls: seq<real>): (r: seq<RankedShot>)
    requires |rolls| == PositioningRolls
    ensures 3 <= |r| <= 5
  {
    Take(SortByScore(AllShots(m, striker, own, opponents, queen, board, rolls)), 5)
  }

  /** Between three and five shots, in non-increasing score order, drawn from
      the candidates, and no candidate left out scores above a kept one. */
  lemma BestShotsFacts(m: MathLib, striker: Vec, own: seq<Piece>, opponents: seq<Piece>, queen: Option<Piece>,
                       board: Board, rolls: seq<real>)
    requires |rolls| == PositioningRolls
    ensures var all := AllShots(m, striker, own, opponents, queen, board, rolls);
      var best := BestShots(m, striker, own, opponents, queen, board, rolls);
      && SortedByScore(best)
      && (forall b :: b in best ==> b in all)
      && (forall x :: x in all ==> x in best || forall b :: b in best ==> b.score >= x.score)
  {
    TopFive(AllShots(m, striker, own, opponents, queen, board, rolls));
  }

  /** The first five of the sorted candidates are sorted, drawn from the
      candidates, and score at least as much as every candidate left out. */
  lemma TopFive(all: seq<RankedShot>)
    ensures var best := Take(SortByScore(all), 5);
      && SortedByScore(best)
      && (forall b :: b in best ==> b in all)
      && (forall x :: x in all ==> x in best || forall b :: b in best ==> b.score >= x.score)
  {
    var sorted := SortByScore(all);
    SortByScoreSorted(all);
    SortedPrefix(sorted, 5);
    SameElements(all, sorted);
  }

  /** A prefix of a list sorted by score is sorted, is drawn from the list, and
      scores at least as much as every element it leaves out. */
  lemma SortedPrefix(sorted: seq<RankedShot>, n: nat)
    requires SortedByScore(sorted)
    ensures var best := Take(sorted, n);
      && SortedByScore(best)
      && (forall b :: b in best ==> b in sorted)
      && (forall x :: x in sorted ==> x in best || forall b :: b in best ==> b.score >= x.score)
  {
    var best := Take(sorted, n);
    forall x | x in sorted
      ensures x in best || forall b :: b in best ==> b.score >= x.score
    {
      var k :| 0 <= k < |sorted| && sorted[k] == x;
      if k < |best| {
        assert best[k] == x;
      } else {
        forall b | b in best
          ensures b.score >= x.score
        {
          var i :| 0 <= i < |best| && best[i] == b;
          assert sorted[i] == b;
        }
      }
    }
  }

  /** Lists that are permutations of each other have the same elements. */
  lemma SameElements(a: seq<RankedShot>, b: seq<RankedShot>)
    requires multiset(a) == multiset(b)
    ensures forall x :: x in a <==> x in b
  {
    forall x
      ensures x in a <==> x in b
    {
      assert x in a <==> x in multiset(a);
      assert x in b <==> x in multiset(b);
    }
  }


  /** The score band of each category among the generated shots: an own-piece
      pocketing shot scores above 70, a queen shot above 56, a positioning
      shot in [56, 68), and a defensive shot exactly 30. */
  ghost predicate InBand(x: RankedShot) {
    && (x.description.PocketOwn? ==> x.score > 70.0)
    && (x.description == PocketQueen ==> x.score > 56.0)
    && (x.description == Positioning ==> 56.0 <= x.score < 68.0)
    && (x.description == Defensive ==> x.score == 30.0)
  }

  /** Ranking pocketing shots under a pocketing category keeps them in band. */
  lemma PocketingInBand(m: MathLib, striker: Vec, target: Vec, pockets: seq<Pocket>, category: Category, id: Option<nat>)
    requires category.PocketOwn? || category == PocketQueen
    ensures forall x :: x in RankAll(PocketingShots(m, striker, target, pockets), category, id) ==>
      x.description == category && InBand(x)
  {
    var cs := PocketingShots(m, striker, target, pockets);
    var r := RankAll(cs, category, id);
    PocketingShotsFacts(m, striker, target, pockets);
    forall x | x in r
      ensures x.description == category && InBand(x)
    {
      var k :| 0 <= k < |r| && r[k] == x;
      assert cs[k] in cs;
    }
  }

  lemma {:induction false} OwnShotsInBand(m: MathLib, striker: Vec, own: seq<Piece>, pockets: seq<Pocket>)
    ensures forall x :: x in OwnShots(m, striker, own, pockets) ==> x.description.PocketOwn? && InBand(x)
    decreases |own|
  {
    if |own| > 0 {
      var piece := own[|own| - 1];
      OwnShotsInBand(m, striker, own[..|own| - 1], pockets);
      PocketingInBand(m, striker, piece.body.position, pockets, PocketOwn(piece.color), Some(piece.id));
    }
  }

  lemma PositioningInBand(m: MathLib, striker: Vec, own: seq<Piece>, rolls: seq<real>)
    requires |rolls| == PositioningRolls && Rolls(rolls)
    ensures forall x :: x in RankAll(PositioningShots(m, striker, own, rolls), Positioning, None) ==>
      x.description == Positioning && InBand(x)
  {
    var cs := PositioningShots(m, striker, own, rolls);
    var r := RankAll(cs, Positioning, None);
    PositioningShotsFacts(m, striker, own, rolls);
    forall x | x in r
      ensures x.description == Positioning && InBand(x)
    {
      var k :| 0 <= k < |r| && r[k] == x;
      if |own| > 1 && k == 0 {
        assert cs[0].successProbability == 0.7;
      } else {
        assert 0.6 <= cs[k].successProbability < 0.8;
      }
    }
  }

  lemma DefensiveInBand(m: MathLib, striker: Vec, opponents: seq<Piece>, pockets: seq<Pocket>)
    ensures forall x :: x in RankAll(DefensiveShots(m, striker, opponents, pockets), Defensive, None) ==>
      x.description == Defensive && InBand(x)
  {
    var cs := DefensiveShots(m, striker, opponents, pockets);
    var r := RankAll(cs, Defensive, None);
    DefensiveShotsFacts(m, striker, opponents, pockets);
    forall x | x in r
      ensures x.description == Defensive && InBand(x)
    {
      var k :| 0 <= k < |r| && r[k] == x;
      assert cs[k] in cs;
    }
  }

  /** Among the generated shots, every own-piece pocketing shot outranks every
      positioning shot, every positioning shot outranks every defensive shot,
      and every queen shot outranks every defensive shot. (A queen shot can
      score as little as just above 56 and so can trail a positioning shot.) */
  lemma CategoryOrder(m: MathLib, striker: Vec, own: seq<Piece>, opponents: seq<Piece>, queen: Option<Piece>,
                      board: Board, rolls: seq<real>)
    requires |rolls| == PositioningRolls && Rolls(rolls)
    ensures var all := AllShots(m, striker, own, opponents, queen, board, rolls);
      forall a, b :: a in all && b in all && a.description.PocketOwn? && b.description == Positioning ==>
        a.score > b.score
    ensures var all := AllShots(m, striker, own, opponents, queen, board, rolls);
      forall a, b :: a in all && b in all && a.description == Positioning && b.description == Defensive ==>
        a.score > b.score
    ensures var all := AllShots(m, striker, own, opponents, queen, board, rolls);
      forall a, b :: a in all && b in all && a.description == PocketQueen && b.description == Defensive ==>
        a.score > b.score
  {
    var all := AllShots(m, striker, own, opponents, queen, board, rolls);
    OwnShotsInBand(m, striker, own, board.pockets);
    if queen.Some? {
      PocketingInBand(m, striker, queen.value.body.position, board.pockets, PocketQueen, Some(queen.value.id));
    }
    PositioningInBand(m, striker, own, rolls);
    DefensiveInBand(m, striker, opponents, board.pockets);
    assert forall x :: x in all ==> InBand(x);
  }

  /** ai-assistant.ts calculateBestShots. */
  method CalculateBestShots(m: MathLib, striker: Vec, playerPieces: seq<Piece>, opponentPieces: seq<Piece>,
                            queen: Option<Piece>, board: Board, rolls: seq<real>)
    returns (best: seq<RankedShot>)
    requires |rolls| == PositioningRolls
    ensures best == BestShots(m, striker, playerPieces, opponentPieces, queen, board, rolls)
  {
    var shots: seq<RankedShot> := [];
    var i := 0;
    while i < |playerPieces|
      invariant 0 <= i <= |playerPieces|
      invariant shots == OwnShots(m, striker, playerPieces[..i], board.pockets)
    {
      var piece := playerPieces[i];
      var pocketShots := CalculatePocketingShots(m, striker, piece.body.position, board.pockets);
      shots := shots + RankAll(pocketShots, PocketOwn(piece.color), Some(piece.id));
      assert playerPieces[..i + 1][..i] == playerPieces[..i];
      assert OwnShots(m, striker, playerPieces[..i + 1], board.pockets)
          == OwnShots(m, striker, playerPieces[..i], board.pockets)
             + RankAll(PocketingShots(m, striker, piece.body.position, board.pockets), PocketOwn(piece.color), Some(piece.id));
      i := i + 1;
    }
    assert playerPieces[..i] == playerPieces;
    ghost var own := shots;
    if queen.Some? {
      var queenShots := CalculatePocketingShots(m, striker, queen.value.body.position, board.pockets);
      shots := shots + RankAll(queenShots, PocketQueen, Some(queen.value.id));
    }
    assert shots == own + QueenShots(m, striker, queen, board.pockets);
    ghost var pocketing := shots;
    var positioningShots := CalculatePositioningShots(m, striker, playerPieces, rolls);
    shots := shots + RankAll(positioningShots, Positioning, None);
    ghost var ranked := shots;
    if |opponentPieces| > 0 {
      var defensiveShots := CalculateDefensiveShots(m, striker, opponentPieces, board.pockets);
      shots := shots + RankAll(defensiveShots, Defensive, None);
    }
    assert shots == AllShots(m, striker, playerPieces, opponentPieces, queen, board, rolls);
    best := Take(SortByScore(shots), 5);
  }

  // ----- the analysis -----

  /** The label for a success probability. */
  function ShotDifficulty(p: real): (d: Difficulty)
    ensures d == Easy <==> p > 0.8
    ensures d == Medium <==> 0.6 < p <= 0.8
    ensures d == Hard <==> 0.4 < p <= 0.6
    ensures d == Expert <==> p <= 0.4
  {
    if p > 0.8 then Easy
    else if p > 0.6 then Medium
    else if p > 0.4 then Hard
    else Expert
  }

  function DifficultyRank(d: Difficulty): nat {
    match d
    case Easy => 0
    case Medium => 1
    case Hard => 2
    case Expert => 3
  }

  /** A more likely shot is never labelled harder. */
  lemma DifficultyMonotone(p: real, q: real)
    requires p <= q
    ensures DifficultyRank(ShotDifficulty(q)) <= DifficultyRank(ShotDifficulty(p))
  {
  }

  /** The analysis given when no player has the current id: aim at 0 degrees
      with power 400, no path, medium difficulty, even odds, no alternatives. */
  function DefaultAnalysis(): Analysis {
    Analysis(0.0, 400.0, None, [], Medium, 0.5, [])
  }

  /** Array.prototype.find on the player list. */
  function FindPlayer(players: seq<Player>, id: string): (r: Option<Player>)
    ensures r.None? <==> forall k :: 0 <= k < |players| ==> players[k].id != id
    ensures r.Some? ==> r.value in players && r.value.id == id
  {
    if |players| == 0 then None
    else if players[0].id == id then Some(players[0])
    else FindPlayer(players[1..], id)
  }

  function FirstQueen(pieces: seq<Piece>): (r: Option<Piece>)
    ensures r.None? <==> forall k :: 0 <= k < |pieces| ==> pieces[k].color != Red || pieces[k].isPocketed
    ensures r.Some? ==> r.value in pieces && r.value.color == Red && !r.value.isPocketed
  {
    if |pieces| == 0 then None
    else if pieces[0].color == Red && !pieces[0].isPocketed then Some(pieces[0])
    else FirstQueen(pieces[1..])
  }

  /** `find` returns the first player with the id. */
  lemma {:induction false} FindPlayerIsFirst(players: seq<Player>, id: string)
    ensures var r := FindPlayer(players, id);
      r.Some? ==> exists k :: 0 <= k < |players| && players[k] == r.value
                              && forall j :: 0 <= j < k ==> players[j].id != id
    decreases |players|
  {
    if |players| > 0 && players[0].id != id {
      FindPlayerIsFirst(players[1..], id);
      var r := FindPlayer(players, id);
      if r.Some? {
        var k :| 0 <= k < |players[1..]| && players[1..][k] == r.value
                 && forall j :: 0 <= j < k ==> players[1..][j].id != id;
        assert players[k + 1] == r.value;
        assert forall j :: 0 <= j < k + 1 ==> players[j].id != id by {
          forall j | 0 <= j < k + 1 ensures players[j].id != id {
            if j > 0 { assert players[j] == players[1..][j - 1]; }
          }
        }
      }
    }
  }

  /** `find` returns the first unpocketed red piece. */
  lemma {:induction false} FirstQueenIsFirst(pieces: seq<Piece>)
    ensures var r := FirstQueen(pieces);
      r.Some? ==> exists k :: 0 <= k < |pieces| && pieces[k] == r.value
                              && forall j :: 0 <= j < k ==> pieces[j].color != Red || pieces[j].isPocketed
    decreases |pieces|
  {
    if |pieces| > 0 && !(pieces[0].color == Red && !pieces[0].isPocketed) {
      FirstQueenIsFirst(pieces[1..]);
      var r := FirstQueen(pieces);
      if r.Some? {
        var k :| 0 <= k < |pieces[1..]| && pieces[1..][k] == r.value
                 && forall j :: 0 <= j < k ==> pieces[1..][j].color != Red || pieces[1..][j].isPocketed;
        assert pieces[k + 1] == r.value;
        assert forall j :: 0 <= j < k + 1 ==> pieces[j].color != Red || pieces[j].isPocketed by {
          forall j | 0 <= j < k + 1 ensures pieces[j].color != Red || pieces[j].isPocketed {
            if j > 0 { assert pieces[j] == pieces[1..][j - 1]; }
          }
        }
      }
    }
  }

  function OwnPieces(pieces: seq<Piece>, color: Color): seq<Piece> {
    Filter(pieces, (p: Piece) => p.color == color && !p.isPocketed)
  }

  function OpponentPieces(pieces: seq<Piece>, color: Color): seq<Piece> {
    Filter(pieces, (p: Piece) => p.color != color && p.color != Red && !p.isPocketed)
  }

  function ToAlternative(s: RankedShot): Alternative {
    Alternative(s.angle, s.power, s.successProbability, s.description)
  }

  function ShotsFor(m: MathLib, state: GameState, player: Player, rolls: seq<real>): (r: seq<RankedShot>)
    requires |rolls| == PositioningRolls
    ensures 3 <= |r| <= 5
  {
    BestShots(m, state.striker.position, OwnPieces(state.pieces, player.color),
              OpponentPieces(state.pieces, player.color), FirstQueen(state.pieces), state.board, rolls)
  }

  function AllShotsFor(m: MathLib, state: GameState, player: Player, rolls: seq<real>): seq<RankedShot>
    requires |rolls| == PositioningRolls
  {
    AllShots(m, state.striker.position, OwnPieces(state.pieces, player.color),
             OpponentPieces(state.pieces, player.color), FirstQueen(state.pieces), state.board, rolls)
  }

  /** What analyzeGameState returns. */
  function Analyze(m: MathLib, state: GameState, rolls: seq<real>): Analysis
    requires |rolls| == PositioningRolls
  {
    match FindPlayer(state.players, state.currentPlayer)
    case None => DefaultAnalysis()
    case Some(player) =>
      var options := ShotsFor(m, state, player, rolls);
      var best := options[0];
      var velocity := Polar(m, best.angle, best.power);
      var alternatives := Take(options, 4)[1..];
      Analysis(
        best.angle, best.power, best.targetPiece,
        Trajectory(DefaultEngine, m, Body(state.striker.position, velocity, PredictorRadius, true), state.board, PredictorSteps),
        ShotDifficulty(best.successProbability), best.successProbability,
        seq(|alternatives|, k requires 0 <= k < |alternatives| => ToAlternative(alternatives[k])))
  }

  /** The first of the best shots scores at least as much as every candidate. */
  lemma FirstIsBest(m: MathLib, striker: Vec, own: seq<Piece>, opponents: seq<Piece>, queen: Option<Piece>,
                    board: Board, rolls: seq<real>)
    requires |rolls| == PositioningRolls
    ensures var best := BestShots(m, striker, own, opponents, queen, board, rolls);
      forall x :: x in AllShots(m, striker, own, opponents, queen, board, rolls) ==> best[0].score >= x.score
  {
    var all := AllShots(m, striker, own, opponents, queen, board, rolls);
    var best := BestShots(m, striker, own, opponents, queen, board, rolls);
    BestShotsFacts(m, striker, own, opponents, queen, board, rolls);
    forall x | x in all
      ensures best[0].score >= x.score
    {
      if x !in best {
        assert best[0] in best;
      } else {
        var k :| 0 <= k < |best| && best[k] == x;
        if k > 0 {
          assert best[0].score >= best[k].score;
        }
      }
    }
  }

  /** The recommended shot is the first ranked one, labelled by its
      probability, with its path predicted from the striker. */
  lemma AnalyzeRecommends(m: MathLib, state: GameState, rolls: seq<real>, player: Player)
    requires |rolls| == PositioningRolls
    requires FindPlayer(state.players, state.currentPlayer) == Some(player)
    ensures var a := Analyze(m, state, rolls);
      var best := ShotsFor(m, state, player, rolls)[0];
      && a.angle == best.angle && a.power == best.power
      && a.targetPiece == best.targetPiece
      && a.successProbability == best.successProbability
      && a.difficulty == ShotDifficulty(a.successProbability)
      && 1 <= |a.trajectory| <= PredictorSteps && a.trajectory[0] == state.striker.position
  {
    var best := ShotsFor(m, state, player, rolls)[0];
    TrajectoryShape(DefaultEngine, m, Body(state.striker.position, Polar(m, best.angle, best.power), PredictorRadius, true),
                    state.board, PredictorSteps);
  }

  /** The alternatives are the second to fourth ranked shots. */
  lemma AnalyzeAlternatives(m: MathLib, state: GameState, rolls: seq<real>, player: Player)
    requires |rolls| == PositioningRolls
    requires FindPlayer(state.players, state.currentPlayer) == Some(player)
    ensures var a := Analyze(m, state, rolls);
      var options := ShotsFor(m, state, player, rolls);
      && 2 <= |a.alternativeShots| <= 3
      && forall k :: 0 <= k < |a.alternativeShots| ==> a.alternativeShots[k] == ToAlternative(options[k + 1])
  {
  }

  /** With no matching current player the analysis is the default one;
      otherwise it recommends the top-scoring candidate, labels it by its
      probability, predicts its path from the striker, and offers the next
      two or three ranked candidates as alternatives. */
  lemma AnalyzeFacts(m: MathLib, state: GameState, rolls: seq<real>)
    requires |rolls| == PositioningRolls
    ensures var a := Analyze(m, state, rolls);
      var found := FindPlayer(state.players, state.currentPlayer);
      && (found.None? ==> a == DefaultAnalysis())
      && (found.Some? ==>
            var options := ShotsFor(m, state, found.value, rolls);
            && 2 <= |a.alternativeShots| <= 3
            && a.angle == options[0].angle && a.power == options[0].power
            && a.targetPiece == options[0].targetPiece
            && a.successProbability == options[0].successProbability
            && a.difficulty == ShotDifficulty(a.successProbability)
            && (forall x :: x in AllShotsFor(m, state, found.value, rolls) ==> options[0].score >= x.score)
            && (forall k :: 0 <= k < |a.alternativeShots| ==> a.alternativeShots[k] == ToAlternative(options[k + 1]))
            && 1 <= |a.trajectory| <= PredictorSteps && a.trajectory[0] == state.striker.position)
  {
    var found := FindPlayer(state.players, state.currentPlayer);
    if found.Some? {
      var player := found.value;
      FirstIsBest(m, state.striker.position, OwnPieces(state.pieces, player.color),
                  OpponentPieces(state.pieces, player.color), FirstQueen(state.pieces), state.board, rolls);
      AnalyzeRecommends(m, state, rolls, player);
      AnalyzeAlternatives(m, state, rolls, player);
    }
  }

  /** ai-assistant.ts analyzeGameState. */
  method AnalyzeGameState(m: MathLib, state: GameState, rolls: seq<real>) returns (a: Analysis)
    requires |rolls| == PositioningRolls
    ensures a == Analyze(m, state, rolls)
  {
    var currentPlayerData := FindPlayer(state.players, state.currentPlayer);
    if currentPlayerData.None? {
      return DefaultAnalysis();
    }
    var playerColor := currentPlayerData.value.color;
    var playerPieces := OwnPieces(state.pieces, playerColor);
    var opponentPieces := OpponentPieces(state.pieces, playerColor);
    var queen := FirstQueen(state.pieces);
    var shotOptions := CalculateBestShots(m, state.striker.position, playerPieces, opponentPieces, queen, state.board, rolls);
    var bestShot := shotOptions[0];
    var trajectory := CalculateTrajectory(DefaultEngine, m, state.striker.position,
                                          Polar(m, bestShot.angle, bestShot.power), state.board, PredictorSteps);
    var alternatives := Take(shotOptions, 4)[1..];
    a := Analysis(bestShot.angle, bestShot.power, bestShot.targetPiece, trajectory,
                  ShotDifficulty(bestShot.successProbability), bestShot.successProbability,
                  seq(|alternatives|, k requires 0 <= k < |alternatives| => ToAlternative(alternatives[k])));
  }

  // ----- auto-play -----

  /** The angle and power spread allowed at each assistance level. */
  function Variation(level: AssistanceLevel): (real, real) {
    match level
    case Beginner => (10.0, 50.0)
    case Intermediate => (5.0, 25.0)
    case Advanced => (2.0, 10.0)
    case Master => (0.5, 5.0)
  }

  function Jitter(value: real, roll: real, spread: real): real {
    value + (roll - 0.5) * spread
  }

  function Clamp(lo: real, hi: real, x: real): real {
    Max(lo, Min(hi, x))
  }

  function AutoPlayMove(level: AssistanceLevel, angle: real, power: real, angleRoll: real, powerRoll: real): (r: (real, real))
    ensures 0.0 <= r.0 <= 360.0 && 100.0 <= r.1 <= 1000.0
  {
    var v := Variation(level);
    (Clamp(0.0, 360.0, Jitter(angle, angleRoll, v.0)), Clamp(100.0, 1000.0, Jitter(power, powerRoll, v.1)))
  }

  lemma JitterBound(value: real, roll: real, spread: real)
    requires 0.0 <= roll < 1.0 && 0.0 <= spread
    ensures Abs(Jitter(value, roll, spread) - value) <= spread / 2.0
  {
    if roll >= 0.5 {
      MulNonNegative(roll - 0.5, spread);
      assert (roll - 0.5) * spread <= 0.5 * spread by {
        MulNonNegative(1.0 - roll, spread);
      }
    } else {
      MulNonNegative(0.5 - roll, spread);
      assert (0.5 - roll) * spread <= 0.5 * spread by {
        MulNonNegative(roll, spread);
      }
    }
  }

  /** Before clamping, the move differs from the recommendation by at most
      half the level's spread; clamping a recommendation already in range
      keeps it within that bound; and an in-range perturbed value is not
      clamped at all. */
  lemma AutoPlayPerturbation(level: AssistanceLevel, angle: real, power: real, angleRoll: real, powerRoll: real)
    requires 0.0 <= angleRoll < 1.0 && 0.0 <= powerRoll < 1.0
    ensures var v := Variation(level);
      var r := AutoPlayMove(level, angle, power, angleRoll, powerRoll);
      var ja := Jitter(angle, angleRoll, v.0);
      var jp := Jitter(power, powerRoll, v.1);
      && Abs(ja - angle) <= v.0 / 2.0 && Abs(jp - power) <= v.1 / 2.0
      && (0.0 <= angle <= 360.0 ==> Abs(r.0 - angle) <= v.0 / 2.0)
      && (100.0 <= power <= 1000.0 ==> Abs(r.1 - power) <= v.1 / 2.0)
      && (0.0 <= ja <= 360.0 ==> r.0 == ja)
      && (100.0 <= jp <= 1000.0 ==> r.1 == jp)
  {
    var v := Variation(level);
    JitterBound(angle, angleRoll, v.0);
    JitterBound(power, powerRoll, v.1);
  }

  /** ai-assistant.ts generateAutoPlayMove; the two draws come after the
      sixteen the analysis makes. */
  method GenerateAutoPlayMove(m: MathLib, level: AssistanceLevel, state: GameState, rolls: seq<real>,
                              angleRoll: real, powerRoll: real)
    returns (angle: real, power: real)
    requires |rolls| == PositioningRolls
    ensures 0.0 <= angle <= 360.0 && 100.0 <= power <= 1000.0
    ensures (angle, power) == AutoPlayMove(level, Analyze(m, state, rolls).angle, Analyze(m, state, rolls).power, angleRoll, powerRoll)
  {
    var analysis := AnalyzeGameState(m, state, rolls);
    var move := AutoPlayMove(level, analysis.angle, analysis.power, angleRoll, powerRoll);
    angle, power := move.0, move.1;
  }
}
