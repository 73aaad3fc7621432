# Pawn structure and king shelter evaluation

This project models the pawn evaluator of Fairy-Stockfish, a chess-variant
engine (`src/pawns.cpp`), and proves properties of the model. The evaluator
has four parts:

- `evaluate<Us>` walks one side's pawn list. For each pawn it derives the
  pawn's flags: opposed, stoppers, lever, lever push, doubled, neighbours,
  phalanx, support, backward and passed. It scores the pawn as connected,
  isolated, backward and/or doubled. It then subtracts a weak-lever penalty,
  doubles the result when the side has no pieces besides pawns, and charges
  half an `Isolated` for each shogi pawn without a neighbour. Along the way
  it records the passed pawns, the pawn attacks and the attack span in the
  side's hash-table entry.
- `Pawns::probe` is a direct-mapped cache. It reuses the slot for the pawn
  key when the slot already holds that key and no shogi pawn is on the
  board. Otherwise it re-evaluates both sides into the slot.
- `Entry::evaluate_shelter<Us>` scans the three files around the clamped
  king file. Each file adds the shelter value of our nearest pawn and
  subtracts the storm value of theirs. The result replaces the running best
  shelter only when its midgame value is strictly larger.
- `Entry::do_king_safety<Us>` records the king square and castling rights.
  It finds the capped distance from the king to the nearest own pawn. It
  returns the best shelter over the king square and the castling squares
  still available, with 16 × that distance taken off the endgame half.

Files:

- `types.dfy` holds colours, squares, per-colour pairs, two-phase scores and
  C++ truncating division.
- `board.dfy` holds square sets (bitboards) over the engine's fixed 12 × 10
  grid, plus the `Position` snapshot the pawn code reads.
- `structure.dfy` holds the constant tables and the per-pawn flags. It also
  defines the per-side score, which `evaluate<Us>` is proved against, and
  the lemmas about that score.
- `shelter.dfy` holds the shelter and storm tables, the per-file terms,
  `minPawnDist`, the king-safety score and their lemmas.
- `pawns.dfy` holds the imperative code: the `Entry` class, the `Evaluate`
  method and its loops, `Probe` over an array of entries, `EvaluateShelter`
  and `DoKingSafety`. Each method is proved against the functions above.

Four definitions are written behind an idle recursive counter:
`Flags` (through `FlagsAfter`), `FlagScore` (through `ScoreOfFlagsAfter`),
`WeakLevers` (through `WeakLeversAfter`) and `FileShelter` (through
`FileTermAfter`). This keeps the set algebra and the table lookups out of
the proofs about sums and loops. The counter is a proof device, not part of
the evaluator. For each one, a lemma states that it equals the plain
definition: `FlagsIsFlagsOf`, `FlagScoreIsScoreOfFlags`,
`WeakLeversIsWeakLeversOf` and `FileShelterIsFileTerm`.

Some of the code's behaviour is easy to misread, and the model follows the
code:

- A side without pawns gets `minPawnDist` 0, not 8 (line 252).
- `ourRank` and `theirRank` are read from `frontmost_sq(Them, b)`, which is
  the pawn of the file nearest to our own side (lines 222, 225).
- A file with no enemy pawn in front of the king still subtracts the
  `UnblockedStorm[d][RANK_1]` entry (line 233). Lemma `EmptyFileStillStorms`
  states this.

## Model

| member | source | states |
|---|---|---|
| PawnStructure.Connected | src/pawns.cpp:42 | The connected bonus is between 0 and 86, and it is positive exactly on relative ranks 2 to 7. |
| KingShelter.ShelterStrength | src/pawns.cpp:46-51 | Every shelter entry lies in [-166, 93], and the slots outside the four defined rows and seven ranks are 0. |
| KingShelter.UnblockedStorm | src/pawns.cpp:57-62 | Every storm entry lies in [-285, 162], and the undefined slots are 0. |
| Pawns.Evaluate | src/pawns.cpp:67-177 | Returns the side score `SideScore`. The entry's `passedPawns[us]` becomes the passed pawns, `pawnAttacksSpan[us]` the union of the attack spans, `pawnAttacks[us]` the attacks of the own pawns and `kingSquares[us]` none. The other colour's fields, the key, the scores and the castling rights are unchanged. |
| Pawns.EvaluateSide | src/pawns.cpp:78-176 | The score, passed set and span the whole of `evaluate<us>` computes equal `SideScore`, `PassedPawnsOf` and `AttackSpanOf` over the piece list. |
| Pawns.ScanPawns | src/pawns.cpp:89-148 | After the pawn loop over a list, the score is the in-order sum of the per-pawn scores, the passed set is what the loop marks, and the span is the accumulated attack spans. |
| Pawns.AddPawnScore | src/pawns.cpp:130-147 | One loop step adds the score that the pawn's flags give it: connected, isolated or backward, tried in that order, then doubled. |
| Pawns.SubtractIsolatedShogi | src/pawns.cpp:160-174 | The shogi-pawn loop subtracts half an `Isolated` once for each shogi pawn with no own shogi pawn on an adjacent file. |
| PawnStructure.FlagsOf | src/pawns.cpp:99-123 | Phalanx and support are neighbours, lever and lever push are stoppers, neighbours are own pawns and stoppers are enemy pawns. |
| PawnStructure.ConnectedBonus | src/pawns.cpp:133-136 | `v >= 0`. An unopposed pawn gets at least 17 per supporter. With many pawns on relative rank 4 or beyond, `v` is at least 50 per supporter or phalanx pawn, halved when opposed. |
| PawnStructure.ConnectedScorePhases | src/pawns.cpp:137 | `make_score(v, v*(r-2)/4)` has midgame part `v`. Its endgame part has the sign of `r - 2` and does not exceed `v` up to the seventh rank. |
| PawnStructure.DoubledPenalty | src/pawns.cpp:146-147 | The doubled penalty applies exactly when the pawn is doubled and unsupported. |
| PawnStructure.PassedPawnsOf | src/pawns.cpp:127-128 | `passedPawns[us]` holds only own pawns, each with its forward square on the grid. |
| PawnStructure.PassedAmongMembers | src/pawns.cpp:127-128 | A square is marked by the loop exactly when it is in the list, its flags say passed, and its forward square is on the grid. |
| PawnStructure.PassedAmongPieceList | src/pawns.cpp:90-128 | Marking a whole piece list gives exactly `PassedPawnsOf`. |
| PawnStructure.AttackSpanOfCovers | src/pawns.cpp:96 | A square is in the accumulated span exactly when it is in the attack span of some pawn of the list. |
| PawnStructure.WeakLeverSquares | src/pawns.cpp:150-154 | A pawn is a weak lever exactly when it is an own pawn, is neither passed nor defended, and has enemy pawns on both forward diagonals. |
| PawnStructure.IsolatedShogiCount | src/pawns.cpp:165-174 | At most one penalty per shogi pawn. |
| PawnStructure.IsolatedShogiCountDistinct | src/pawns.cpp:166-174 | Over a list without repetitions, the count is the number of distinct listed shogi pawns with no own shogi pawn on an adjacent file. |
| PawnStructure.IsolatedShogiCountPieceList | src/pawns.cpp:160-174 | Over the side's shogi-pawn list, the count is exactly the number of its shogi pawns with no own shogi pawn on an adjacent file. |
| PawnStructure.SideScore | src/pawns.cpp:78-176 | Definition of what `evaluate<us>` returns: the pawn part, doubled when the side has only pawns, minus half an `Isolated` per isolated shogi pawn. `Pawns.EvaluateSide` and `Pawns.Evaluate` are proved to return it; `SideScoreSamePawns` and `NoPiecesDoublesPawnPartOnly` state its properties. |
| PawnStructure.ScoreOfFlags | src/pawns.cpp:130-147 | Definition of one pawn's score from its flags: connected bonus, else isolated penalty, else backward penalty, then the doubled penalty. `ClassificationExclusive`, `SupportedPawnNotPenalised` and `OnlyConnectedPawnsGain` state its properties. |
| PawnStructure.IsBackward | src/pawns.cpp:111-113 | Definition of the backward flag. `BackwardPawnFacts` and `PassedNeverBackwardPenalised` state its properties. |
| PawnStructure.IsPassed | src/pawns.cpp:119-123 | Definition of the passed flag, alternatives (a), (b) and (c). `PassedConditions`, `IsPassedMonotone` and `NoEnemyPawnsPassed` state its properties. |
| PawnStructure.PawnPart | src/pawns.cpp:89-154 | Definition of the score before the doubling: the loop's sum minus `WeakLever` per weak lever. `PawnPartSamePawns` states its property. |
| PawnStructure.ManyPawns | src/pawns.cpp:135 | Definition of the many-pawns test: more pawns than a quarter of the board's squares, with C++ truncation. `ConnectedBonus` and `ManyPawnsSamePawns` state its use and property. |
| PawnStructureProperties.ClassificationExclusive | src/pawns.cpp:131-145 | Exactly one branch applies, under its own condition: connected iff support or phalanx, isolated iff no neighbours, backward iff backward with neighbours and not connected. |
| PawnStructureProperties.SupportedPawnNotPenalised | src/pawns.cpp:131-147 | A supported pawn scores exactly its connected bonus and is never charged the doubled penalty. Its midgame value is non-negative. |
| PawnStructureProperties.OnlyConnectedPawnsGain | src/pawns.cpp:131-147 | A pawn that is not connected scores at most zero in both phases. |
| PawnStructureProperties.ConnectedBonusPhases | src/pawns.cpp:131-137 | For a connected pawn, the midgame part is the bonus `v >= 0`. The endgame part has the sign of `r - 2` and is at most the midgame part up to the seventh rank. |
| PawnStructureProperties.BackwardPawnFacts | src/pawns.cpp:111-113 | A backward pawn has its forward square on the grid and at least one stopper, and no own pawn on an adjacent file is behind it. |
| PawnStructureProperties.PassedConditions | src/pawns.cpp:115-123 | With no stoppers, or only levers, the pawn is passed. Otherwise, a passed pawn not covered by the lever-push rule has exactly one stopper, directly in front, is on relative rank 5 or beyond, and is supported. |
| PawnStructureProperties.PassedNeverBackwardPenalised | src/pawns.cpp:111-144 | A passed pawn is never charged the backward penalty. |
| PawnStructureProperties.RemovalShrinksStoppers | src/pawns.cpp:100-106 | Removing one enemy pawn removes it from stoppers, levers and lever pushes, and leaves neighbours and support unchanged. |
| PawnStructureProperties.PassedMonotone | src/pawns.cpp:119-123 | Removing one enemy pawn never takes away a pawn's passed flag. |
| PawnStructureProperties.IsPassedMonotone | src/pawns.cpp:119-123 | Each of the three passed alternatives survives the removal of one enemy pawn. |
| PawnStructureProperties.FlagsSamePawns | src/pawns.cpp:99-123 | The flags depend only on the pawns, the board size and the rule flags. |
| PawnStructureProperties.PawnScoreSamePawns | src/pawns.cpp:130-147 | A pawn's score depends only on the pawn structure. |
| PawnStructureProperties.PawnsSumSamePawns | src/pawns.cpp:89-148 | Over one list of squares, the loop's sum depends only on the pawn structure. |
| PawnStructureProperties.PawnsSumRemove | src/pawns.cpp:89-148 | Moving one pawn from the middle of the list to its end leaves the sum unchanged. |
| PawnStructureProperties.PawnsSumPermutation | src/pawns.cpp:89-148 | The loop's sum is the same over any two lists holding the same squares with the same multiplicities, so it does not depend on the piece-list order. |
| PawnStructureProperties.ManyPawnsSamePawns | src/pawns.cpp:135 | The many-pawns test depends only on the pawns and the board. |
| PawnStructureProperties.WeakLeversSamePawns | src/pawns.cpp:150-153 | The weak levers depend only on the pawn structure. |
| PawnStructureProperties.PawnPartSamePawns | src/pawns.cpp:89-154 | The score before the doubling depends only on the pawn structure, whatever order the piece lists give the pawns in. |
| PawnStructureProperties.NoPiecesDoublesPawnPartOnly | src/pawns.cpp:156-174 | Losing the last non-pawn piece adds exactly one more copy of the pawn part. The shogi penalties are not doubled. |
| PawnStructureProperties.FinalScoreDoubling | src/pawns.cpp:157-173 | The doubling adds one copy of the pawn part and leaves the shogi term alone. |
| PawnStructureProperties.ShogiCountSameShogiPawns | src/pawns.cpp:166-174 | Over one list, the shogi penalty count depends only on the shogi pawns. |
| PawnStructureProperties.IsolatedShogiCountSameShogiPawns | src/pawns.cpp:160-174 | The shogi penalty count depends only on the set of shogi pawns, not on the order of their piece list. |
| PawnStructureProperties.SideScoreSamePawns | src/pawns.cpp:78-176 | Two positions with the same pawns, shogi pawns, board and rule flags, and the same answer to "only pawns left", score the side alike, whatever the piece-list order. |
| PawnStructureProperties.NoEnemyPawnsPassed | src/pawns.cpp:119 | With no enemy pawns, every pawn is passed by alternative (a). |
| PawnStructureProperties.PassedPawnsNotColourSymmetric | src/pawns.cpp:127-128 | On an 8 × 8 board, a lone White pawn on its last rank is in `passedPawns[WHITE]`, but the mirrored Black pawn is not in `passedPawns[BLACK]`. |
| Board.PawnAttacksInSpan | src/pawns.cpp:100-102 | The squares a pawn attacks, now or after one push, lie in its passed-pawn span, so levers and lever pushes are stoppers. |
| Board.PawnDoubleAttacksMonotone | src/pawns.cpp:83 | Fewer enemy pawns double-attack fewer squares. |
| Pawns.Probe | src/pawns.cpp:188-201 | The returned slot is `table[key % length]`, and its key is the pawn key. On a hit without shogi pawns, the slot is unchanged. Otherwise, both scores, passed sets, attacks and spans are those of `evaluate<White>` and `evaluate<Black>`, the king squares are cleared, and the castling rights are kept. |
| Pawns.Entry.EvaluateShelter | src/pawns.cpp:207-238 | The shelter becomes the king square's bonus exactly when that bonus is strictly better in the midgame. Its midgame value never decreases. |
| Pawns.ScanShelter | src/pawns.cpp:212-234 | Starting from (5, 5), the loop over the three files adds the terms of the clamped window. |
| Pawns.AddFileTerm | src/pawns.cpp:221-233 | One file adds its shelter term and subtracts its storm term. |
| KingShelter.ShelterCenter | src/pawns.cpp:218 | The clamped centre lies in [FILE_B, max_file - 1]. It equals the king file when that file is inside, and the nearer bound otherwise. |
| KingShelter.EdgeDistance | src/pawns.cpp:227 | `d` is the distance to the nearer edge, capped at FILE_D, so 0 <= d <= 3. |
| KingShelter.NearestRank | src/pawns.cpp:222-225 | The rank read for a file lies in [RANK_1, max_rank]. |
| KingShelterProperties.NearestRankFromIsNearest | src/pawns.cpp:222-225 | The search from rank `r` finds the least relative rank of a pawn on the file at or above `r`, and RANK_1 when there is none. |
| KingShelterProperties.NearestRankIsNearest | src/pawns.cpp:222-225 | `ourRank` and `theirRank` are the least relative rank of a pawn on the file, and RANK_1 for an empty file. |
| KingShelter.ShelterTerm | src/pawns.cpp:228 | The shelter term has no endgame part. Its midgame part, doubled when captures go to hand and the rank is at most RANK_2, lies in [-332, 186]. |
| KingShelter.StormTerm | src/pawns.cpp:230-233 | The storm term has an endgame part exactly for a blocked pawn on RANK_3, and then it is (82, 82). It is zero on any other locked file. |
| KingShelter.FileTerm | src/pawns.cpp:221-233 | A file moves the bonus by -494..471 in the midgame and by -82..0 in the endgame. |
| KingShelter.ShelterPawnsSplit | src/pawns.cpp:212-214 | Intersecting all pawns outside the king's back ranks with one side's pieces gives that side's scanned pawns. |
| KingShelter.ShelterBonus | src/pawns.cpp:216-234 | Definition of the bonus for one king square: (5, 5) plus the terms of the three files around the clamped king file. `ShelterBonusBounds` and `Pawns.ScanShelter` state its properties. |
| KingShelter.KeepBetter | src/pawns.cpp:236-237 | The kept shelter is one of the two inputs, its midgame value is the larger one, and ties keep the old shelter. |
| KingShelterProperties.ShelterWindowOnBoard | src/pawns.cpp:218-227 | The scanned files lie in [FILE_A, max_file], and each reads one of the four defined table rows. |
| KingShelterProperties.LockedFileCost | src/pawns.cpp:230-231 | A locked file costs (82, 82) when their pawn is on RANK_3, and nothing otherwise. |
| KingShelterProperties.EmptyFileStillStorms | src/pawns.cpp:224-233 | A file without an enemy pawn is charged the RANK_1 storm entry. |
| KingShelterProperties.ShelterSumBounds | src/pawns.cpp:219-234 | The sum over n files lies in [-494n, 471n] in the midgame and in [-82n, 0] in the endgame. |
| KingShelterProperties.ShelterBonusBounds | src/pawns.cpp:216-234 | The bonus midgame lies in [-1477, 1418], far above `-VALUE_INFINITE`, and the bonus endgame lies in [-241, 5]. |
| KingShelterProperties.KeepBetterMonotone | src/pawns.cpp:236-237 | Repeated shelter updates never decrease the midgame value. |
| Pawns.Entry.DoKingSafety | src/pawns.cpp:244-277 | Stores the king square and castling rights for us, leaves every other field alone, and returns `KingSafety`. |
| Pawns.MinPawnDist | src/pawns.cpp:251-258 | The pop_lsb loop computes `MinPawnDistance`. |
| KingShelter.MinPawnDistance | src/pawns.cpp:251-258 | `minPawnDist` lies in [0, 8]. It is 0 without pawns and 1 when a pawn is next to the king. |
| KingShelter.ClampedMinFrom | src/pawns.cpp:257-258 | The capped search from distance `d` returns a value between `d` and 8. |
| KingShelterProperties.ClampedMinFromIsMin | src/pawns.cpp:257-258 | The search finds the least pawn distance, capped at 8. |
| KingShelterProperties.ClampedMinUnique | src/pawns.cpp:252-258 | The capped minimum is unique, so the loop and the search agree. |
| KingShelterProperties.MinPawnDistanceIsNearest | src/pawns.cpp:251-258 | With pawns, `minPawnDist` is the capped distance to the nearest pawn, and at least 1. The king-adjacent shortcut agrees with the search. |
| KingShelter.BestShelter | src/pawns.cpp:260-274 | Definition of the best shelter over the king square and the castling squares still held, starting from `-VALUE_INFINITE`. `BestShelterIsBestCandidate` states its property. |
| KingShelter.KingSafety | src/pawns.cpp:276 | Definition of `do_king_safety`'s result. `KingSafetyPhases` and `Pawns.Entry.DoKingSafety` state its properties. |
| KingShelterProperties.BestShelterIsBestCandidate | src/pawns.cpp:260-274 | The best shelter is the bonus of the king square or of a castling square still held. Its midgame is at least every candidate's. The king square's bonus is kept unless a castling square is strictly better. |
| KingShelterProperties.KingSafetyPhases | src/pawns.cpp:276 | King safety keeps the best shelter's midgame value and lowers its endgame value by exactly 16 × `minPawnDist`. |

## Left out

- Score packing: a `Score` is an unbounded (mg, eg) pair. The engine's packing of both halves into one integer, and any overflow in it, are not modelled.
- Bitboards are sets of squares on the fixed 12 × 10 grid of the large-board build. The bitboard code (`passed_pawn_span`, `forward_file_bb`, `pawn_attacks_bb`, `pawn_double_attacks_bb`, `shift`, `distance` and the rest) is not part of this model. Each one is defined by the set it stands for.
- `PseudoAttacks[Us][KING]` is taken to be the standard king step: the squares at distance 1. Variant kings with other moves are not modelled.
- The per-thread pawn table is an array of entries indexed by the pawn key modulo its length. Thread ownership and the engine's own slot indexing are not modelled.
- The debug `assert`s at lines 92 and 168 become `Position.Valid()`. It requires the piece lists to hold exactly the side's pawns and shogi pawns, each once and on the board. Where the king stands and which castling files exist are not part of it. `DoKingSafety` requires instead that our king is on the board and that each castling file we still hold a right for is on it.
- `captures_to_hand()`, `must_capture()`, the castling files, the piece counts and the pawn key are inputs of the `Position` snapshot. The rules behind them are outside this model.
- `pop_lsb` order: `MinPawnDist` takes the pawns in an arbitrary order. Its result is proved independent of that order.
- `clamp(file_of(ksq), FILE_B, max_file - 1)` has its bounds in order only when a board has at least three files, so `EvaluateShelter` and `DoKingSafety` require `2 <= maxFile`.
- The bool-times-score products of lines 141, 144, 228 and 231 are written as conditionals with the same values.
- `Evaluate` writes its four entry fields once, after the pawn loop, instead of resetting them before the loop and updating them inside it. Nothing reads them in between except line 153, which the model computes from the same values, so the final entry is the same.
- `pawn_key()` itself, meaning how the key is hashed from the position, is not part of this model.
- Colour symmetry: the model does not prove that mirroring a position swaps the two sides' results. It does not hold for `passedPawns` in general: `is_ok(s + Up)` tests the 12 × 10 grid, not the board, so on a shorter board a pawn on its last rank is recorded as passed for White and not for Black. `PassedPawnsNotColourSymmetric` exhibits such a pair. Whether the scores themselves are symmetric is not stated.
