# Carrom: physics engine, shot assistant and game orchestrator

A Dafny model of the core of a browser carrom game. The model has three parts.

- **The physics engine** (`physics.dfy`, module `PhysicsEngine`). One tick of the engine:
  - friction and Euler integration of every moving body;
  - clamping onto the circular boundary, with the velocity reflected and scaled by restitution;
  - equal-mass collisions, first the striker against each piece, then every pair of pieces;
  - capture by the four pockets.

  The engine also has a trajectory predictor, and a routine that aims straight at a target.
- **The shot assistant** (`planner.dfy`, module `AIAssistant`). It works in these steps:
  - generate candidate shots in four categories: pocketing own pieces, pocketing the queen, positioning, and defence;
  - score each category with its own weight and offset;
  - sort by score and keep the best five;
  - build an analysis from the best shot: its predicted path, its difficulty label, and up to three alternatives;
  - derive the auto-play move: the recommendation perturbed by the assistance level, then clamped.
- **The game orchestrator** (`game.dfy`, module `CarromGame`). It covers:
  - the initial board, the 21-piece layout and the players;
  - the state machine: waiting, playing, paused and finished;
  - shot admission and the per-frame physics step;
  - turn completion: the outcome and its points, the end-of-game test with the winner, the round-robin turn switch, and the striker reset.

Shared records are in `types.dfy` (module `GameTypes`). Plane vectors are in `geometry.dfy` (module `Geometry`).

The source keeps some state in objects that it updates in place. The model keeps that form:

- The striker is a `class Striker`, and the pieces are an `array<Piece>`. The engine's methods modify them.
- The game is a `class Game` with the same fields. Each method's postcondition ties the new state, `State()`, to a pure function of the old one, for example `State() == Frame(engine, math, old(State()))`.
- The loops of the source (`forEach`, `for`, `push`) are methods with loop invariants. Each is proved equal to a specification function, and the properties are proved as lemmas about those functions.

Some inputs come from outside the model. They become parameters:

- **`MathLib`** stands for `Math.sqrt`, `Math.atan2`, `Math.cos` and `Math.sin`. The lemmas assume only `Sound(m)`: the root of a non-negative number is non-negative and squares back to it, and cos² + sin² = 1.
- **`Math.random()`** becomes an explicit list of draws (`rolls`), consumed in the order the source draws them.

Arithmetic is on `real`.

Observations about the code, each backed by a lemma:

- **Pockets are out of reach of the boundary rule.** The standard board's boundary rule leaves every centre it handles within 280 of the middle. Each pocket's capture disc, of radius at most 35, lies wholly outside that disc. So a body that has just passed through the boundary rule is never captured, and is never counted as a pocketed striker (`PocketsOutOfReach`, `PlacedBodyNeverCaptured`). Within a tick, only the collision pass, which runs after the boundary rule, can move a centre into a pocket.
- **The head-on split.** With restitution e, equal radii and a resting target, a striker moving at v keeps v(1 − e)/2 and the target gets v(1 + e)/2. Momentum is kept (`HeadOnTransfer`).
- **Queen shots are not always preferred.** Among the generated shots, own-piece pocketing shots score above 70, positioning shots in [56, 68), and defensive shots exactly 30. So each of these categories outranks the next. A queen shot scores 80p + 40 for a probability p above 0.2, which can be as low as just above 56. A queen shot can therefore rank below a positioning shot, though never below a defensive one (`CategoryOrder`).
- **Turn outcomes re-count earlier pieces.** The turn outcome counts every piece pocketed so far, not only this turn's pieces.
- **Turn completion repeats.** A completed turn that does not end the game leaves everything at rest and the shot list non-empty. So the next completion check completes the turn again, with the same pocketed pieces, and scores them again (`CompletionRepeats`).
- **The opening layout overlaps.** Pieces 1 and 5 overlap (`InitialLayoutFacts`).

## Model

| member | source | states |
|---|---|---|
| `PhysicsEngine.Striker.constructor` | src/types/game.ts:23-29 | a striker record holds exactly the given body |
| `PhysicsEngine.Striker.Assign` | src/lib/physics-engine.ts:17-18 | storing a computed body keeps the radius and leaves the striker equal to that body |
| `PhysicsEngine.MovingIff` | src/lib/physics-engine.ts:194-196 | a velocity counts as moving exactly when its squared length exceeds 0.1² |
| `PhysicsEngine.FrictionNeverSpeedsUp` | src/lib/physics-engine.ts:42-50 | with friction in [0, 1], integration never increases the squared speed and keeps radius and activity |
| `PhysicsEngine.ReflectionKeepsSpeed` | src/lib/physics-engine.ts:71-73 | reflecting about a unit normal preserves the squared speed |
| `PhysicsEngine.BoundaryKeepsInside` | src/lib/physics-engine.ts:52-75 | after the boundary rule the centre is within boundary radius minus body radius of the centre; a body that does not reach past the boundary is unchanged; a hit multiplies the squared speed by restitution² and, for a body no larger than the boundary, leaves the centre exactly on that circle |
| `PhysicsEngine.BoundaryHit` | src/lib/physics-engine.ts:61-74 | the hit case: squared speed times restitution², and the clamped position on or inside the reach circle |
| `PhysicsEngine.BoundaryVelocity` | src/lib/physics-engine.ts:63-73 | reflecting about the normalised displacement and scaling by k multiplies squared speed by k², also when the displacement is zero |
| `PhysicsEngine.BoundaryPosition` | src/lib/physics-engine.ts:63-68 | clamping along the normalised displacement lands within `reach`, and exactly at `reach` when it is non-negative |
| `Geometry.DirectionIsUnit` | src/lib/physics-engine.ts:113-114 | dividing a displacement by its own positive length gives a unit normal |
| `PhysicsEngine.DetectCollisionIff` | src/lib/physics-engine.ts:106-127 | a collision occurs exactly when the squared centre distance is below the squared radius sum; its penetration is then the radius sum minus the centre distance, in (0, radius sum]; the normal is unit unless the centres coincide; otherwise the result is the empty collision |
| `PhysicsEngine.ResolveCollision` | src/lib/physics-engine.ts:129-164 | radii kept; both bodies move apart by the penetration along the normal, and their position sum is kept; a separating pair keeps its velocities and activity; otherwise the velocity sum (momentum) is kept and both bodies become active |
| `PhysicsEngine.SplitApart` | src/lib/physics-engine.ts:131-137 | moving each body half the penetration widens the separation by the whole penetration and keeps the sum of positions |
| `PhysicsEngine.ImpulseObeysRestitution` | src/lib/physics-engine.ts:140-159 | with a unit normal, an approaching pair leaves with its normal relative velocity multiplied by −restitution |
| `PhysicsEngine.HeadOnTransfer` | src/lib/physics-engine.ts:147-163 | a head-on hit of a moving body on a resting one leaves velocities v(1−e)/2 and v(1+e)/2, and wakes the resting body |
| `PhysicsEngine.IsInPocketIff` | src/lib/physics-engine.ts:186-192 | capture holds exactly when pocket radius − 0.3·body radius is non-negative and bounds the centre distance (compared squared) |
| `PhysicsEngine.StepPieces` | src/lib/physics-engine.ts:25-33 | integration maps every piece, keeping the number of pieces |
| `PhysicsEngine.StrikerPieceStep` | src/lib/physics-engine.ts:80-87 | one striker-versus-piece step keeps the roster (ids, colours, radii, pocketed flags, pocketed pieces untouched) and the striker radius |
| `PhysicsEngine.PairStep` | src/lib/physics-engine.ts:93-101 | one piece-pair step keeps the roster |
| `PhysicsEngine.CapturePieces` | src/lib/physics-engine.ts:176-182 | capture maps every piece, keeping the number of pieces |
| `PhysicsEngine.StepStrikerFacts` | src/lib/physics-engine.ts:15-22 | an inactive striker is untouched; an active slow one stops in place; an active moving one stays active, ends within the boundary, and with friction and restitution in [0, 1] is no faster |
| `PhysicsEngine.MovingBodySlows` | src/lib/physics-engine.ts:16-18 | integration then the boundary rule keeps radius and activity, ends inside the boundary, and does not speed up for coefficients in [0, 1] |
| `PhysicsEngine.StepPieceFacts` | src/lib/physics-engine.ts:25-33 | the piece rule keeps identity, colour, radius and pocketed flag; it leaves an inactive piece as it is, stops an active pocketed or slow one in place, and keeps a moving one inside and no faster |
| `PhysicsEngine.SameRosterTransitive` | src/lib/physics-engine.ts:77-104 | keeping the roster composes across steps |
| `PhysicsEngine.StrikerSweepKeepsRoster` | src/lib/physics-engine.ts:79-88 | the striker loop keeps the roster and the striker radius |
| `PhysicsEngine.PairSweepKeepsRoster` | src/lib/physics-engine.ts:91-103 | the pair loops keep the roster |
| `PhysicsEngine.CollisionPassKeepsRoster` | src/lib/physics-engine.ts:77-104 | the collision pass keeps the roster and the striker radius, and leaves an inactive striker untouched |
| `PhysicsEngine.CapturePieceFacts` | src/lib/physics-engine.ts:166-184 | capture never moves a piece; a piece ends pocketed exactly when it was already pocketed or some pocket holds it; a newly pocketed piece is stopped and inactive; otherwise the piece is unchanged |
| `PhysicsEngine.CaptureStrikerFacts` | src/lib/physics-engine.ts:167-173 | capture never moves the striker; it stays active exactly when it was active and no pocket holds it, in which case it is unchanged; a captured striker is stopped |
| `PhysicsEngine.TickKeepsPocketedPieces` | src/lib/physics-engine.ts:14-40 | across a tick pieces keep id, colour and radius; pocketing is one-way; a resting pocketed piece is left exactly as it was; pocketed pieces stay at rest |
| `PhysicsEngine.UpdatePhysics` | src/lib/physics-engine.ts:14-40 | the in-place tick leaves the striker and the array equal to `Tick` of the old bodies |
| `PhysicsEngine.CheckCollisions` | src/lib/physics-engine.ts:77-104 | the in-place collision pass equals `CollisionPass` of the old bodies |
| `PhysicsEngine.SweepStriker` | src/lib/physics-engine.ts:79-88 | the striker loop equals `StrikerSweep` from piece 0 |
| `PhysicsEngine.SweepPairs` | src/lib/physics-engine.ts:91-103 | the nested pair loops equal `PairSweep` from the pair (0, 1) |
| `PhysicsEngine.SweepPairsOf` | src/lib/physics-engine.ts:92-102 | the inner loop for piece i leaves the sweep's remaining work equal to its value before the loop |
| `PhysicsEngine.CollideStrikerWith` | src/lib/physics-engine.ts:81-86 | one striker-loop iteration equals `StrikerPieceStep` |
| `PhysicsEngine.CollidePair` | src/lib/physics-engine.ts:93-100 | one pair-loop iteration equals `PairStep` |
| `PhysicsEngine.CheckPocketCollisions` | src/lib/physics-engine.ts:166-184 | the in-place capture equals `CaptureStriker` and `CapturePieces` of the old bodies |
| `PhysicsEngine.TrajectoryShape` | src/lib/physics-engine.ts:199-229 | a prediction has at most `steps` points and, for positive `steps`, starts at the start position; it is empty otherwise |
| `PhysicsEngine.TrajectoryInside` | src/lib/physics-engine.ts:217-226 | every predicted point after the first lies within boundary radius minus body radius of the board centre |
| `PhysicsEngine.ConsInside` | src/lib/physics-engine.ts:218 | prepending a point to an inside trajectory whose first point is inside keeps it inside |
| `PhysicsEngine.CalculateTrajectory` | src/lib/physics-engine.ts:199-229 | the loop with its early exit returns exactly `Trajectory` of a radius-15 active probe |
| `PhysicsEngine.CalculateOptimalShot` | src/lib/physics-engine.ts:232-256 | power is 0.3 times the striker-to-target distance clamped to [200, 800]; angle is the striker-to-target heading in degrees; the path is the prediction of that shot, with 1 to 100 points starting at the striker |
| `AIAssistant.Filter` | src/lib/ai-assistant.ts:23-24 | filtering keeps exactly the elements that satisfy the test, and no more elements than it was given |
| `AIAssistant.Take` | src/lib/ai-assistant.ts:188 | `slice(0, n)` is a prefix of at most n elements, the whole list when shorter, exactly n otherwise |
| `AIAssistant.PocketingCandidate` | src/lib/ai-assistant.ts:153-185 | power in [250, 900], probability at most 0.95, and the angle is the striker-to-target heading |
| `AIAssistant.PocketingCandidates` | src/lib/ai-assistant.ts:153-186 | one candidate per pocket |
| `AIAssistant.PocketingShotsFacts` | src/lib/ai-assistant.ts:141-189 | at most two shots, a prefix of the viable candidates; each aims at the target with power in [250, 900] and probability in (0.2, 0.95]; when fewer than two are kept, every viable candidate is kept |
| `AIAssistant.CalculatePocketingShots` | src/lib/ai-assistant.ts:141-189 | the push loop then filter and slice returns exactly `PocketingShots` |
| `AIAssistant.FindClusterCenter` | src/lib/ai-assistant.ts:277-285 | the centre times the piece count is the coordinate sum |
| `AIAssistant.TimesIsProduct` | src/lib/ai-assistant.ts:278-279 | adding k to itself n times is k·n |
| `AIAssistant.SumInBox` | src/lib/ai-assistant.ts:278-279 | the sum of n positions within a box lies between n times its corners |
| `AIAssistant.ClusterCenterInBox` | src/lib/ai-assistant.ts:277-285 | the cluster centre lies in every axis-aligned box that holds all the pieces |
| `AIAssistant.MeanOfTimes` | src/lib/ai-assistant.ts:281-283 | a mean lies between bounds whose n-fold sums bound the total |
| `AIAssistant.SweepShots` | src/lib/ai-assistant.ts:223-231 | one candidate per compass angle |
| `AIAssistant.PositioningShots` | src/lib/ai-assistant.ts:233 | exactly three positioning candidates |
| `AIAssistant.PositioningShotsFacts` | src/lib/ai-assistant.ts:191-234 | three shots: the cluster shot first when the player has more than one piece, then the sweep angles 0, 45, … in order, each with power in [300, 500) and probability in [0.6, 0.8) |
| `AIAssistant.CalculatePositioningShots` | src/lib/ai-assistant.ts:191-234 | the conditional push, the compass loop and the slice return exactly `PositioningShots` |
| `AIAssistant.DefensiveForFacts` | src/lib/ai-assistant.ts:253-271 | every shot for one piece aims at it, and there is none exactly when the piece is near no pocket |
| `AIAssistant.DefensiveAllFacts` | src/lib/ai-assistant.ts:252-272 | each defensive shot aims at an opponent piece within 100 of some pocket, and there is none exactly when no such piece exists |
| `AIAssistant.DefensiveShotsFacts` | src/lib/ai-assistant.ts:236-275 | at most two shots, each with power 350 and probability 0.5, aimed at an opponent piece near a pocket; none exactly when no opponent piece is near a pocket |
| `AIAssistant.CalculateDefensiveShots` | src/lib/ai-assistant.ts:236-275 | the nested loops and the slice return exactly `DefensiveShots` |
| `AIAssistant.DefensiveShotsAt` | src/lib/ai-assistant.ts:253-271 | the inner loop over the pockets for one opponent piece pushes exactly the shots `DefensiveFor` gives: one at power 350 and probability 0.5, aimed at the piece, per pocket closer than 100 |
| `AIAssistant.RankAll` | src/lib/ai-assistant.ts:92-98 | categorising keeps one ranked shot per candidate |
| `AIAssistant.AllShots` | src/lib/ai-assistant.ts:89-135 | there are always at least three candidates, because positioning always adds three |
| `AIAssistant.Insert` | src/lib/ai-assistant.ts:138 | insertion adds exactly the element (as a multiset) |
| `AIAssistant.SortByScore` | src/lib/ai-assistant.ts:138 | sorting is a permutation |
| `AIAssistant.InsertSorted` | src/lib/ai-assistant.ts:138 | inserting into a list sorted by score keeps it sorted |
| `AIAssistant.SortByScoreSorted` | src/lib/ai-assistant.ts:138 | the result is in non-increasing score order |
| `AIAssistant.BestShots` | src/lib/ai-assistant.ts:138 | the plan has three to five shots |
| `AIAssistant.TopFive` | src/lib/ai-assistant.ts:138 | the first five of the sorted list are sorted, are drawn from the input, and score at least as much as every candidate left out |
| `AIAssistant.SortedPrefix` | src/lib/ai-assistant.ts:138 | `slice(0, 5)` of a score-sorted list: the prefix is sorted, drawn from the list, and outscores or ties every element left out |
| `AIAssistant.FirstIsBest` | src/lib/ai-assistant.ts:138 | the first shot of the plan scores at least as much as every generated candidate |
| `AIAssistant.BestShotsFacts` | src/lib/ai-assistant.ts:66-139 | the plan is sorted, drawn from the candidates, and nothing left out outscores a kept shot |
| `AIAssistant.PocketingInBand` | src/lib/ai-assistant.ts:97-110 | a pocketing shot ranked as an own-piece shot scores above 70, and as a queen shot above 56 |
| `AIAssistant.OwnShotsInBand` | src/lib/ai-assistant.ts:90-100 | every own-piece shot is in the own-piece category and scores above 70 |
| `AIAssistant.PositioningInBand` | src/lib/ai-assistant.ts:116-123 | every positioning shot scores in [56, 68): 62 for the cluster shot, 60p + 20 for p in [0.6, 0.8) otherwise |
| `AIAssistant.DefensiveInBand` | src/lib/ai-assistant.ts:126-135 | every defensive shot scores exactly 30 |
| `AIAssistant.CategoryOrder` | src/lib/ai-assistant.ts:89-135 | among the generated shots, every own-piece pocketing shot outscores every positioning shot, every positioning shot outscores every defensive shot, and every queen shot outscores every defensive shot |
| `AIAssistant.CalculateBestShots` | src/lib/ai-assistant.ts:66-139 | the push loops, the sort and the slice return exactly `BestShots` |
| `AIAssistant.ShotDifficulty` | src/lib/ai-assistant.ts:287-300 | the label is easy exactly above 0.8, medium exactly in (0.6, 0.8], hard exactly in (0.4, 0.6], and expert exactly at or below 0.4 |
| `AIAssistant.DifficultyMonotone` | src/lib/ai-assistant.ts:296-299 | a more likely shot is never labelled harder |
| `AIAssistant.FindPlayer` | src/lib/ai-assistant.ts:16 | `find`: absent exactly when no player has the id; otherwise a player of the list with that id |
| `AIAssistant.FindPlayerIsFirst` | src/lib/ai-assistant.ts:16 | the player found is the first in the list with that id: no earlier player has it |
| `AIAssistant.FirstQueen` | src/lib/ai-assistant.ts:25 | `find`: absent exactly when every red piece is pocketed; otherwise an unpocketed red piece of the list |
| `AIAssistant.FirstQueenIsFirst` | src/lib/ai-assistant.ts:25 | the queen found is the first unpocketed red piece in the list: every earlier piece is pocketed or not red |
| `AIAssistant.ShotsFor` | src/lib/ai-assistant.ts:28 | the player's plan has three to five shots |
| `AIAssistant.AnalyzeFacts` | src/lib/ai-assistant.ts:14-64 | with no current player, the default analysis; otherwise it recommends the first ranked shot, which outscores every candidate; the difficulty is the label of its probability; the path has 1 to 100 points from the striker; there are two or three alternatives, in ranked order |
| `AIAssistant.AnalyzeRecommends` | src/lib/ai-assistant.ts:28-61 | for a known current player, the recommendation is the first ranked shot's angle, power, target and probability; the difficulty is the label of that probability; the predicted path has 1 to 100 points and starts at the striker |
| `AIAssistant.AnalyzeAlternatives` | src/lib/ai-assistant.ts:46-51 | for a known current player, there are two or three alternatives, and the k-th is the (k+1)-th ranked shot |
| `AIAssistant.AnalyzeGameState` | src/lib/ai-assistant.ts:14-64 | the method returns exactly `Analyze` |
| `AIAssistant.AutoPlayMove` | src/lib/ai-assistant.ts:345-348 | the move's angle is in [0, 360] and its power in [100, 1000] |
| `AIAssistant.JitterBound` | src/lib/ai-assistant.ts:342-343 | a draw in [0, 1) shifts a value by at most half the spread |
| `AIAssistant.AutoPlayPerturbation` | src/lib/ai-assistant.ts:316-349 | the perturbation is within half the level's spread; clamping keeps an in-range recommendation within that bound; an in-range perturbed value is not clamped |
| `AIAssistant.GenerateAutoPlayMove` | src/lib/ai-assistant.ts:316-349 | the move is in range and equals the perturbed, clamped recommendation of the analysis |
| `CarromGame.CreateBoard` | src/lib/carrom-game.ts:46-69 | four pockets of radius 35, each 250 from the centre on both axes; boundary centred at (300, 300) with radius 280 |
| `CarromGame.PocketsOutOfReach` | src/lib/carrom-game.ts:58-67 | no point within the boundary radius of the centre is within 35 of any pocket |
| `CarromGame.FarFromCorner` | src/lib/carrom-game.ts:62-67 | a point within 280 of the centre is more than 35 from a point 250 off the centre on both axes |
| `CarromGame.PlacedBodyNeverCaptured` | src/lib/physics-engine.ts:52-75 | on the standard board a body placed by the boundary rule is never captured by a pocket and never counted as a pocketed striker |
| `CarromGame.InitialPieces` | src/lib/carrom-game.ts:71-113 | the layout has one piece per offset |
| `CarromGame.InitialLayoutFacts` | src/lib/carrom-game.ts:71-113 | 21 resting, unpocketed pieces of radius 12 with ids 0–20; the queen at the centre; the others alternate white and black; pieces 1 and 5 overlap |
| `CarromGame.CreatePieces` | src/lib/carrom-game.ts:71-113 | the push loop builds exactly the layout |
| `CarromGame.CreatePlayers` | src/lib/carrom-game.ts:125-147 | a human white player first; a second, black AI player with a distinct id exactly in single-player mode; all scores zero |
| `CarromGame.CountZeroIff` | src/lib/carrom-game.ts:366-371 | a count is zero exactly when no piece satisfies the test |
| `CarromGame.GameOverIff` | src/lib/carrom-game.ts:365-372 | the game is over exactly when every white or every black piece is pocketed |
| `CarromGame.InitialStateFacts` | src/lib/carrom-game.ts:24-44 | a fresh game is waiting, on turn 1, with no shots or winner; the first player moves; scores are zero; the striker rests at home; the game is not over |
| `CarromGame.IndexOf` | src/lib/carrom-game.ts:393 | `findIndex`: −1 exactly when no player has the id; otherwise the first index with that id |
| `CarromGame.ApplyPointsFacts` | src/lib/carrom-game.ts:353-363 | only the first player with the id changes; the new score is the old score plus the points, or 0 if that is negative; scores stay non-negative |
| `CarromGame.StrikerInPocketIff` | src/lib/carrom-game.ts:343-351 | the striker is in a pocket exactly when some pocket's non-negative radius bounds the centre distance (compared squared) |
| `CarromGame.PocketedIdsFacts` | src/lib/carrom-game.ts:313-325 | the listed ids are exactly those of the pocketed pieces, one per pocketed piece; the points are one per pocketed white or black piece plus three per pocketed queen |
| `CarromGame.TurnOutcomeFacts` | src/lib/carrom-game.ts:307-341 | no pieces hit; pocketed ids as above; a foul exactly when the striker rests in a pocket; a foul scores −1; otherwise the points are the piece count above |
| `CarromGame.CapturedStrikerIsFoul` | src/lib/carrom-game.ts:328-332 | a striker that the pockets capture during a tick makes the completed turn a foul |
| `CarromGame.RoundRobin` | src/lib/carrom-game.ts:392-397 | with distinct ids, j turn switches from player k hand the turn to player (k + j) mod n |
| `CarromGame.SameIdsSameNext` | src/lib/carrom-game.ts:393-395 | the next player depends only on the players' ids, so scoring does not change it |
| `CarromGame.NextOfIndex` | src/lib/carrom-game.ts:393-395 | with distinct ids, the player after player i is player (i + 1) mod n |
| `CarromGame.IndexOfDistinct` | src/lib/carrom-game.ts:393 | with distinct ids, the index of player i's id is i |
| `CarromGame.ModSuccessor` | src/lib/carrom-game.ts:394 | taking the remainder before adding one does not change the next index |
| `CarromGame.WinnerOf` | src/lib/carrom-game.ts:374-390 | with two or more players the strictly higher of the first two scores wins, and a tie keeps the previous winner; with fewer than two the winner is unchanged |
| `CarromGame.TogglePauseFacts` | src/lib/carrom-game.ts:157-166 | pausing twice restores the status; only playing and paused change; it resumes exactly from paused |
| `CarromGame.ShootFacts` | src/lib/carrom-game.ts:169-202 | a shot is refused unless the game is playing and the striker rests; an admitted shot appends one record with no outcome, and launches the striker from where it is with the polar velocity; pieces, players, status and turn are unchanged |
| `CarromGame.ConcludeRecords` | src/lib/carrom-game.ts:278-282 | completion records the outcome on the last shot only, scores it for the current player, and leaves pieces and board alone |
| `CarromGame.ConcludeFinishes` | src/lib/carrom-game.ts:284-288 | when white or black is cleared, the game finishes with the winner decided on the new scores; striker, current player and turn are unchanged |
| `CarromGame.ConcludeContinues` | src/lib/carrom-game.ts:290-296 | otherwise status and winner stay; the striker returns home at rest; the turn passes to the next player exactly when nothing was pocketed or there was a foul |
| `CarromGame.CompletionRepeats` | src/lib/carrom-game.ts:263-305 | after a completed turn that does not end the game, everything still rests and the shots are kept, so the next completion check completes the turn again, with the same pocketed pieces |
| `CarromGame.ScoresStayNonNegative` | src/lib/carrom-game.ts:353-363 | shots, completed turns and whole frames all keep every score non-negative |
| `CarromGame.FrameKeepsPocketed` | src/lib/carrom-game.ts:229-271 | across a frame the piece count is kept, a pocketed piece stays pocketed, and a resting pocketed piece is untouched |
| `CarromGame.Game.constructor` | src/lib/carrom-game.ts:13-44 | a new game is in the initial state of its mode, with the given engine and maths |
| `CarromGame.Game.StartGame` | src/lib/carrom-game.ts:150-154 | the status becomes playing and nothing else changes |
| `CarromGame.Game.PauseGame` | src/lib/carrom-game.ts:157-166 | the status is toggled by `TogglePause` and nothing else changes |
| `CarromGame.Game.MakeShot` | src/lib/carrom-game.ts:169-202 | the new state is `Shoot` of the old one |
| `CarromGame.Game.Update` | src/lib/carrom-game.ts:232-239 | one frame: the new state is `Frame` of the old one |
| `CarromGame.Game.UpdatePhysics` | src/lib/carrom-game.ts:251-261 | the striker and pieces become the engine's `Tick` of a 16.67 ms frame, and nothing else changes |
| `CarromGame.Game.CheckTurnCompletion` | src/lib/carrom-game.ts:263-271 | the new state is `Checked` of the old one: completed when the striker and every unpocketed piece rest and a shot exists, unchanged otherwise |
| `CarromGame.Game.CompleteTurn` | src/lib/carrom-game.ts:273-305 | the new state is `Completed` of the old one |
| `CarromGame.Game.CalculateTurnOutcome` | src/lib/carrom-game.ts:307-341 | the loop returns exactly `TurnOutcome` and changes nothing |
| `CarromGame.Game.UpdateScores` | src/lib/carrom-game.ts:353-363 | only the players change, to `ApplyPoints` of the outcome's points |
| `CarromGame.Game.EndGame` | src/lib/carrom-game.ts:374-390 | the game finishes and the winner becomes `WinnerOf` the scores |
| `CarromGame.Game.SwitchTurn` | src/lib/carrom-game.ts:392-397 | the next player in list order moves, and the turn counter grows by one |
| `CarromGame.Game.ResetStriker` | src/lib/carrom-game.ts:399-403 | the striker returns to (300, 500) at rest and nothing else changes |
| `PhysicsEngine.GetVelocityMagnitude` | src/lib/physics-engine.ts:194-196 | the speed, as the root of the squared velocity; its meaning is stated by `MovingIff` |
| `PhysicsEngine.UpdateObject` | src/lib/physics-engine.ts:42-50 | friction, then one Euler step; its properties are stated by `FrictionNeverSpeedsUp` |
| `PhysicsEngine.CheckBoardCollisions` | src/lib/physics-engine.ts:52-75 | the boundary rule; its properties are stated by `BoundaryKeepsInside` and `BoundaryHit` |
| `PhysicsEngine.DetectCollision` | src/lib/physics-engine.ts:106-127 | the overlap test with contact normal and penetration; its properties are stated by `DetectCollisionIff` |
| `PhysicsEngine.IsInPocket` | src/lib/physics-engine.ts:186-192 | the capture test; its meaning is stated by `IsInPocketIff` |
| `PhysicsEngine.Tick` | src/lib/physics-engine.ts:14-40 | one engine tick on values; its properties are stated by `TickKeepsPocketedPieces`, and `UpdatePhysics` is proved equal to it |
| `PhysicsEngine.Trajectory` | src/lib/physics-engine.ts:199-229 | the predicted positions; their properties are stated by `TrajectoryShape` and `TrajectoryInside` |
| `AIAssistant.Score` | src/lib/ai-assistant.ts:89-135 | the category weights 100, 80, 60, 40 on the probability plus offsets 50, 40, 20, 10; the resulting order is stated by `CategoryOrder` |
| `AIAssistant.DefaultAnalysis` | src/lib/ai-assistant.ts:302-313 | the analysis used when the current player is unknown, as `AnalyzeFacts` states |
| `AIAssistant.Analyze` | src/lib/ai-assistant.ts:14-64 | the analysis on values; its properties are stated by `AnalyzeFacts`, and `AnalyzeGameState` is proved equal to it |
| `CarromGame.InitialState` | src/lib/carrom-game.ts:24-44 | the opening state; its properties are stated by `InitialStateFacts` |
| `CarromGame.GameOver` | src/lib/carrom-game.ts:365-372 | the end-of-game test; its meaning is stated by `GameOverIff` |
| `CarromGame.ApplyPoints` | src/lib/carrom-game.ts:353-363 | scoring on values; its properties are stated by `ApplyPointsFacts` |
| `CarromGame.StrikerInPocket` | src/lib/carrom-game.ts:343-351 | the striker-in-pocket test; its meaning is stated by `StrikerInPocketIff` |
| `CarromGame.TurnOutcome` | src/lib/carrom-game.ts:307-341 | the outcome on values; its properties are stated by `TurnOutcomeFacts` |
| `CarromGame.NextPlayer` | src/lib/carrom-game.ts:392-395 | the next player's id; its properties are stated by `RoundRobin` and `NextOfIndex` |
| `CarromGame.TogglePause` | src/lib/carrom-game.ts:157-166 | the pause toggle; its properties are stated by `TogglePauseFacts` |
| `CarromGame.Shoot` | src/lib/carrom-game.ts:169-202 | shot admission on values; its properties are stated by `ShootFacts` |
| `CarromGame.Completed` | src/lib/carrom-game.ts:273-305 | `completeTurn` on values: no change without a shot, otherwise `Conclude` with the computed outcome |
| `CarromGame.Conclude` | src/lib/carrom-game.ts:278-296 | the part of `completeTurn` after the outcome is known; its properties are stated by `ConcludeRecords`, `ConcludeFinishes` and `ConcludeContinues` |
| `CarromGame.Checked` | src/lib/carrom-game.ts:263-271 | `checkTurnCompletion` on values; its repetition is stated by `CompletionRepeats` |
| `CarromGame.Frame` | src/lib/carrom-game.ts:232-235 | one frame on values: the physics tick, then the completion check; its properties are stated by `FrameKeepsPocketed` and `ScoresStayNonNegative` |

## Left out

- The animation loop itself is not modelled: `requestAnimationFrame`, `cancelAnimationFrame`, `startGameLoop` and `stopGameLoop`. One call of `Game.Update` is one frame of it, and a frame is not scheduled again once the game stops playing.
- AI auto-play is not modelled:
  - `makeAIMove`, with its one-to-three-second `setTimeout`;
  - the AI trigger at the end of `completeTurn`;
  - `getAIAnalysis` and `updateAISettings`.

  The move they would make is `GenerateAutoPlayMove`.
- The state-update callback `notifyStateUpdate`, the getters, `updateSettings`, `destroy`, and the settings' `updateSettings` and `getSettings` on the assistant are not modelled. They copy or publish state and compute nothing.
- Ids that embed `Date.now()` are not modelled: the game id, the shot ids and the shot timestamps. A piece id `piece_<i>` is kept as its index `i`. Pocket ids and the striker id are dropped.
- The game state's `queen` field is not modelled. No core code ever reads or changes it.
- `piecesHit` is always empty in the source, and the model keeps it empty.
- Floating point is not modelled. Arithmetic is exact real arithmetic, so IEEE rounding, overflow and `NaN` are absent.
- The source divides by zero when two colliding centres coincide, and so gets a `NaN` normal. The boundary rule divides only when a body reaches past the boundary, which at the exact centre needs a radius above the boundary radius, so no body of the game hits that case. The model uses the zero normal instead, and the lemmas state what follows from it.
- `Math.sqrt`, `Math.atan2`, `Math.cos` and `Math.sin` are parameters (`MathLib`). Only the root and the Pythagorean identity are assumed, so no property depends on the values of atan2.
- `Math.random()` becomes explicit draws. The one-to-three-second delay draw belongs to `makeAIMove`, which is left out.
- Unused arguments are dropped from signatures. These are:
  - the `pieces` argument of `calculateTrajectory`;
  - the opponent and board arguments of `calculatePositioningShots`;
  - the striker-position, piece and board arguments of `calculateShotDifficulty`.
- The engine's friction and restitution come from the game settings. The other settings are not modelled: gravity, AI difficulty, assistance display options and colours. The core never reads them.
- AIAssistant.SortByScore: stability of `Array.prototype.sort` is built into the insertion order but is not stated as a separate lemma. Its contracts state a permutation, and `SortByScoreSorted` states the order.
- CarromGame.InitialLayoutFacts: does not state that every opening piece lies inside the 60-radius centre circle. The overlap of pieces 1 and 5 is stated instead.
- AIAssistant.AnalyzeFacts: does not prove that the analysis's trajectory stays inside the boundary; `PhysicsEngine.TrajectoryInside` states that for every prediction, under `Sound`.
- The React pages and components are not part of this model: `src/app/*` and `src/components/*`.
