/** Pawn classification and scoring for one side: the constant tables, the
    per-pawn flags and the two-phase score they add up to. These functions are
    the specification the imperative `Pawns.Evaluate` is proved against. */
module PawnStructure {
  import opened Types
  import opened Board

  // Pawn penalties
  const Backward := Score(9, 24)
  const Doubled := Score(11, 56)
  const Isolated := Score(5, 15)
  const WeakLever := Score(0, 56)
  const WeakUnopposed := Score(13, 27)

  /** The connected-pawn bonus by relative rank; the table has seven entries and
      the rest of its RANK_NB slots are zero. */
  function Connected(r: int): (v: int)
    requires 0 <= r < GridRanks
    ensures 0 <= v <= 86
    ensures 1 <= r <= 6 <==> v > 0
  {
    if r < 7 then [0, 7, 8, 12, 29, 48, 86][r] else 0
  }

  function Max(a: int, b: int): int {
    if a < b then b else a
  }

  /** What the evaluator derives about one pawn before scoring it. */
  datatype PawnFlags = PawnFlags(
    opposed: bool,               // an enemy pawn in front on the same file
    stoppers: set<Square>,       // enemy pawns in the passed-pawn span
    lever: set<Square>,          // enemy pawns this pawn attacks
    leverPush: set<Square>,      // enemy pawns it would attack one step further
    doubled: set<Square>,        // an own pawn directly behind
    neighbours: set<Square>,     // own pawns on the adjacent files
    phalanx: set<Square>,        // neighbours on the same rank
    support: set<Square>,        // neighbours one rank behind
    backward: bool,
    passed: bool)

  /** `stoppers`: the enemy pawns in the passed-pawn span of s. */
  function Stoppers(pos: Position, us: Color, s: Square): set<Square> {
    pos.pawns.Get(us.Opponent()) * PassedPawnSpan(us, s)
  }

  /** `lever`: the enemy pawns the pawn on s attacks. */
  function Lever(pos: Position, us: Color, s: Square): set<Square> {
    pos.pawns.Get(us.Opponent()) * PawnAttacks(us, s)
  }

  /** `leverPush`: the enemy pawns the pawn would attack after one push; none
      when s is on the last rank of the board. */
  function LeverPush(pos: Position, us: Color, s: Square): set<Square> {
    if RelativeRank(us.Opponent(), s, pos.maxRank) > 0
    then pos.pawns.Get(us.Opponent()) * PawnAttacks(us, Forward(us, s))
    else {}
  }

  /** `neighbours`: the own pawns on the adjacent files. */
  function Neighbours(pos: Position, us: Color, s: Square): set<Square> {
    pos.pawns.Get(us) * AdjacentFilesBB(s)
  }

  /** `support`: the neighbours one rank behind; none on the first rank. */
  function Support(pos: Position, us: Color, s: Square): set<Square> {
    if RelativeRank(us, s, pos.maxRank) > 0 then Neighbours(pos, us, s) * RankBB(Behind(us, s).rank) else {}
  }

  /** `backward`: no neighbour is behind the pawn, and its push square is either
      occupied by an enemy pawn or attacked by one after the push. */
  predicate IsBackward(pos: Position, us: Color, s: Square) {
    var up := Forward(us, s);
    && Neighbours(pos, us, s) * ForwardRanksBB(us.Opponent(), s) == {}
    && IsOk(up)
    && Stoppers(pos, us, s) * (LeverPush(pos, us, s) + {up}) != {}
  }

  /** `passed`: the three alternatives (a), (b) and (c) of the source. */
  predicate IsPassed(pos: Position, us: Color, s: Square) {
    var theirPawns := pos.pawns.Get(us.Opponent());
    var stoppers := Stoppers(pos, us, s);
    var leverPush := LeverPush(pos, us, s);
    var up := Forward(us, s);
    || stoppers == Lever(pos, us, s)
    || (stoppers == leverPush && |Neighbours(pos, us, s) * RankBB(s.rank)| >= |leverPush|)
    || (&& IsOk(up) && stoppers == {up} && RelativeRank(us, s, pos.maxRank) >= 4
        && ShiftBB(us, Support(pos, us, s)) - (theirPawns + PawnDoubleAttacksBB(us.Opponent(), theirPawns)) != {})
  }

  /** The flags of the `us` pawn on s, computed as the pawn loop computes them. */
  function FlagsOf(pos: Position, us: Color, s: Square): (f: PawnFlags)
    ensures f.phalanx <= f.neighbours && f.support <= f.neighbours
    ensures f.lever <= f.stoppers && f.leverPush <= f.stoppers
    ensures f.neighbours <= pos.pawns.Get(us) && f.stoppers <= pos.pawns.Get(us.Opponent())
  {
    PawnAttacksInSpan(us, s);
    var neighbours := Neighbours(pos, us, s);
    PawnFlags(
      pos.pawns.Get(us.Opponent()) * ForwardFileBB(us, s) != {},
      Stoppers(pos, us, s),
      Lever(pos, us, s),
      LeverPush(pos, us, s),
      if RelativeRank(us, s, pos.maxRank) > 0 then pos.pawns.Get(us) * {Behind(us, s)} else {},
      neighbours,
      neighbours * RankBB(s.rank),
      Support(pos, us, s),
      IsBackward(pos, us, s),
      IsPassed(pos, us, s))
  }

  /** `FlagsOf` reached after n idle recursive steps.
      It is a proof-performance device, not part of the evaluator: the verifier
      unfolds a recursive function only a bounded number of times, so a
      definition reached through enough idle steps stays folded until a proof
      asks for it with the lemma below. */
  function FlagsAfter(pos: Position, us: Color, s: Square, n: nat): (f: PawnFlags)
    ensures f.phalanx <= f.neighbours && f.support <= f.neighbours
    ensures f.lever <= f.stoppers && f.leverPush <= f.stoppers
    ensures f.neighbours <= pos.pawns.Get(us) && f.stoppers <= pos.pawns.Get(us.Opponent())
    decreases n
  {
    if n == 0 then FlagsOf(pos, us, s) else FlagsAfter(pos, us, s, n - 1)
  }

  /** The flags of the `us` pawn on s. They equal `FlagsOf` (lemma
      `FlagsIsFlagsOf`); defining them through `FlagsAfter` keeps the set
      algebra of the flags out of every proof that only needs the relations
      stated here. */
  function Flags(pos: Position, us: Color, s: Square): (f: PawnFlags)
    ensures f.phalanx <= f.neighbours && f.support <= f.neighbours
    ensures f.lever <= f.stoppers && f.leverPush <= f.stoppers
    ensures f.neighbours <= pos.pawns.Get(us) && f.stoppers <= pos.pawns.Get(us.Opponent())
  {
    FlagsAfter(pos, us, s, |pos.pawns.Get(us)| + 8)
  }

  lemma {:induction false} FlagsAfterIsFlagsOf(pos: Position, us: Color, s: Square, n: nat)
    ensures FlagsAfter(pos, us, s, n) == FlagsOf(pos, us, s)
    decreases n
  {
    if n > 0 {
      FlagsAfterIsFlagsOf(pos, us, s, n - 1);
    }
  }

  /** The flags the scoring reads are the flags the pawn loop computes. */
  lemma FlagsIsFlagsOf(pos: Position, us: Color, s: Square)
    ensures Flags(pos, us, s) == FlagsOf(pos, us, s)
  {
    FlagsAfterIsFlagsOf(pos, us, s, |pos.pawns.Get(us)| + 8);
  }

  /** Which scoring branch a pawn takes, tested in the source's order. */
  datatype Classification = ConnectedPawn | IsolatedPawn | BackwardPawn | OtherPawn

  function Classify(f: PawnFlags): Classification {
    if f.support + f.phalanx != {} then ConnectedPawn
    else if f.neighbours == {} then IsolatedPawn
    else if f.backward then BackwardPawn
    else OtherPawn
  }

  /** More than a quarter of the board holds `us` pawns. */
  predicate ManyPawns(pos: Position, us: Color) {
    pos.PawnCount(us) > TDiv(pos.BoardSquareCount(), 4)
  }

  /** The connected bonus `v` of a supported or phalanx pawn on relative rank r. */
  function ConnectedBonus(r: int, f: PawnFlags, manyPawns: bool, capturesToHand: bool): (v: int)
    requires 0 <= r < GridRanks
    ensures 0 <= v
    ensures !f.opposed ==> v >= 17 * |f.support|
    ensures r >= 3 && manyPawns ==> v >= |f.support + f.phalanx| * 50 / (if f.opposed then 2 else 1)
  {
    var base := if f.phalanx != {} then Connected(r) * 3 else Connected(r) * 2;
    var boosted := if r == 1 && capturesToHand then base * 3 else base;
    var v := (if f.opposed then TDiv(boosted, 2) else boosted) + 17 * |f.support|;
    if r >= 3 && manyPawns then
      var m := Max(v, |f.support + f.phalanx| * 50);
      if f.opposed then TDiv(m, 2) else m
    else v
  }

  /** `make_score(v, v * (r - 2) / 4)`. */
  function ConnectedScore(v: int, r: int): Score {
    Score(v, TDiv(v * (r - 2), 4))
  }

  /** The endgame half of a connected bonus has the sign of (r - 2) and, on the
      ranks up to the seventh, never exceeds the midgame half. */
  lemma ConnectedScorePhases(v: int, r: int)
    requires 0 <= v
    ensures ConnectedScore(v, r).mg == v
    ensures 2 <= r ==> 0 <= ConnectedScore(v, r).eg
    ensures r <= 2 ==> ConnectedScore(v, r).eg <= 0
    ensures r <= 6 ==> ConnectedScore(v, r).eg <= v
  {
    var x := v * (r - 2);
    if 2 <= r {
      assert 0 <= x;
    } else {
      assert x <= 0 by { assert v * (2 - r) >= 0; }
    }
    if r <= 6 {
      assert x <= 4 * v by { assert v * (6 - r) >= 0; }
    }
  }

  /** The penalty for a doubled pawn, which a supported pawn never pays. */
  function DoubledPenalty(f: PawnFlags): (d: Score)
    ensures d != ScoreZero <==> f.doubled != {} && f.support == {}
  {
    if f.doubled != {} && f.support == {} then Doubled else ScoreZero
  }

  /** The score of a pawn with flags f on relative rank r, given the side-wide
      inputs the scoring reads. */
  function ScoreOfFlags(f: PawnFlags, r: int, manyPawns: bool, capturesToHand: bool, mustCapture: bool): Score
    requires 0 <= r < GridRanks
  {
    var unopposed := if f.opposed then ScoreZero else WeakUnopposed;
    var classTerm :=
      match Classify(f)
      case ConnectedPawn => ConnectedScore(ConnectedBonus(r, f, manyPawns, capturesToHand), r)
      case IsolatedPawn => ScoreZero.Sub((if mustCapture then Isolated.Mul(3) else Isolated).Add(unopposed))
      case BackwardPawn => ScoreZero.Sub(Backward.Add(unopposed))
      case OtherPawn => ScoreZero;
    classTerm.Sub(DoubledPenalty(f))
  }

  /** `ScoreOfFlags`, reached after n idle recursive steps.
      It is a proof-performance device, not part of the evaluator: the verifier
      unfolds a recursive function only a bounded number of times, so a
      definition reached through enough idle steps stays folded until a proof
      asks for it with the lemma below. */
  function ScoreOfFlagsAfter(f: PawnFlags, r: int, manyPawns: bool, capturesToHand: bool, mustCapture: bool, n: nat): Score
    requires 0 <= r < GridRanks
    decreases n
  {
    if n == 0 then ScoreOfFlags(f, r, manyPawns, capturesToHand, mustCapture)
    else ScoreOfFlagsAfter(f, r, manyPawns, capturesToHand, mustCapture, n - 1)
  }

  /** The score of a pawn with flags f on relative rank r. It equals
      `ScoreOfFlags` (lemma `FlagScoreIsScoreOfFlags`); defining it through
      `ScoreOfFlagsAfter` lets the proofs about sums of pawn scores treat each
      score as one value instead of expanding the scoring rules for every
      pawn they mention. */
  function FlagScore(f: PawnFlags, r: int, manyPawns: bool, capturesToHand: bool, mustCapture: bool): Score
    requires 0 <= r < GridRanks
  {
    ScoreOfFlagsAfter(f, r, manyPawns, capturesToHand, mustCapture, r + 8)
  }

  lemma {:induction false} ScoreOfFlagsAfterIsScoreOfFlags(f: PawnFlags, r: int, manyPawns: bool, capturesToHand: bool, mustCapture: bool, n: nat)
    requires 0 <= r < GridRanks
    ensures ScoreOfFlagsAfter(f, r, manyPawns, capturesToHand, mustCapture, n) == ScoreOfFlags(f, r, manyPawns, capturesToHand, mustCapture)
    decreases n
  {
    if n > 0 {
      ScoreOfFlagsAfterIsScoreOfFlags(f, r, manyPawns, capturesToHand, mustCapture, n - 1);
    }
  }

  /** The score the sums add for a pawn is the score its flags give it. */
  lemma FlagScoreIsScoreOfFlags(f: PawnFlags, r: int, manyPawns: bool, capturesToHand: bool, mustCapture: bool)
    requires 0 <= r < GridRanks
    ensures FlagScore(f, r, manyPawns, capturesToHand, mustCapture) == ScoreOfFlags(f, r, manyPawns, capturesToHand, mustCapture)
  {
    ScoreOfFlagsAfterIsScoreOfFlags(f, r, manyPawns, capturesToHand, mustCapture, r + 8);
  }

  /** The contribution of the `us` pawn on s to its side's score. */
  function PawnScore(pos: Position, us: Color, s: Square): Score
    requires pos.Fits() && pos.OnBoard(s)
  {
    FlagScore(Flags(pos, us, s), RelativeRank(us, s, pos.maxRank), ManyPawns(pos, us), pos.capturesToHand, pos.mustCapture)
  }

  /** The per-pawn scores of the pawns of ps, added in list order. */
  function PawnsSum(pos: Position, us: Color, ps: seq<Square>): Score
    requires pos.Fits() && forall q :: q in ps ==> pos.OnBoard(q)
  {
    if ps == [] then ScoreZero
    else PawnsSum(pos, us, ps[..|ps| - 1]).Add(PawnScore(pos, us, ps[|ps| - 1]))
  }

  /** `passedPawns[us]` after the pawn loop: the passed pawns whose forward square is on the grid. */
  function PassedPawnsOf(pos: Position, us: Color): (p: set<Square>)
    ensures p <= pos.pawns.Get(us)
    ensures forall s :: s in p ==> IsOk(Forward(us, s))
  {
    set s | s in pos.pawns.Get(us) && Flags(pos, us, s).passed && IsOk(Forward(us, s))
  }

  /** The pawns of ps the pawn loop marks as passed, marked in list order. */
  function PassedAmong(pos: Position, us: Color, ps: seq<Square>): set<Square> {
    if ps == [] then {}
    else
      var s := ps[|ps| - 1];
      var p := PassedAmong(pos, us, ps[..|ps| - 1]);
      if Flags(pos, us, s).passed && IsOk(Forward(us, s)) then p + {s} else p
  }

  /** A square is marked by the loop over ps exactly when it is in ps, its flags
      say passed and its forward square is on the grid. */
  lemma {:induction false} PassedAmongMembers(pos: Position, us: Color, ps: seq<Square>)
    ensures forall s :: s in PassedAmong(pos, us, ps) <==> s in ps && Flags(pos, us, s).passed && IsOk(Forward(us, s))
  {
    if ps != [] {
      PassedAmongMembers(pos, us, ps[..|ps| - 1]);
      assert forall q :: q in ps <==> q in ps[..|ps| - 1] || q == ps[|ps| - 1];
    }
  }

  /** Marking the pawns of a piece list one by one yields the passed pawns of the side. */
  lemma PassedAmongPieceList(pos: Position, us: Color, ps: seq<Square>)
    requires IsPieceList(ps, pos.pawns.Get(us))
    ensures PassedAmong(pos, us, ps) == PassedPawnsOf(pos, us)
  {
    PassedAmongMembers(pos, us, ps);
  }

  /** `pawnAttacksSpan[us]` after the pawn loop over ps. */
  function AttackSpanOf(us: Color, ps: seq<Square>): set<Square> {
    if ps == [] then {}
    else AttackSpanOf(us, ps[..|ps| - 1]) + PawnAttackSpan(us, ps[|ps| - 1])
  }

  /** The span accumulated over ps is the union of the attack spans of its pawns. */
  lemma {:induction false} AttackSpanOfCovers(us: Color, ps: seq<Square>)
    ensures forall q :: q in AttackSpanOf(us, ps) <==> exists i :: 0 <= i < |ps| && q in PawnAttackSpan(us, ps[i])
  {
    if ps != [] {
      AttackSpanOfCovers(us, ps[..|ps| - 1]);
      assert forall i :: 0 <= i < |ps| - 1 ==> ps[..|ps| - 1][i] == ps[i];
    }
  }

  /** The own pawns attacked twice by enemy pawns that are neither defended by an
      own pawn nor passed: each costs `WeakLever`. */
  function WeakLeversOf(pos: Position, us: Color): set<Square> {
    var ourPawns := pos.pawns.Get(us);
    var them := us.Opponent();
    ourPawns * PawnDoubleAttacksBB(them, pos.pawns.Get(them)) - (PawnAttacksBB(us, ourPawns) + PassedPawnsOf(pos, us))
  }

  /** `WeakLeversOf` reached after n idle recursive steps.
      It is a proof-performance device, not part of the evaluator: the verifier
      unfolds a recursive function only a bounded number of times, so a
      definition reached through enough idle steps stays folded until a proof
      asks for it with the lemma below. */
  function WeakLeversAfter(pos: Position, us: Color, n: nat): set<Square>
    decreases n
  {
    if n == 0 then WeakLeversOf(pos, us) else WeakLeversAfter(pos, us, n - 1)
  }

  /** The weak levers the score counts. They equal `WeakLeversOf` (lemma
      `WeakLeversIsWeakLeversOf`); defining them through `WeakLeversAfter` keeps
      the attack sets out of the proofs about the whole side score. */
  function WeakLevers(pos: Position, us: Color): set<Square> {
    WeakLeversAfter(pos, us, |pos.pawns.Get(us)| + 8)
  }

  lemma {:induction false} WeakLeversAfterIsWeakLeversOf(pos: Position, us: Color, n: nat)
    ensures WeakLeversAfter(pos, us, n) == WeakLeversOf(pos, us)
    decreases n
  {
    if n > 0 {
      WeakLeversAfterIsWeakLeversOf(pos, us, n - 1);
    }
  }

  lemma WeakLeversIsWeakLeversOf(pos: Position, us: Color)
    ensures WeakLevers(pos, us) == WeakLeversOf(pos, us)
  {
    WeakLeversAfterIsWeakLeversOf(pos, us, |pos.pawns.Get(us)| + 8);
  }

  /** A weak lever is an own pawn, neither passed nor defended by an own pawn,
      with enemy pawns on both diagonals in front of it. */
  lemma WeakLeverSquares(pos: Position, us: Color)
    ensures forall s :: s in WeakLevers(pos, us) <==>
      && s in pos.pawns.Get(us)
      && s !in PassedPawnsOf(pos, us)
      && s !in PawnAttacksBB(us, pos.pawns.Get(us))
      && IsOk(s)
      && Square(s.file - 1, s.rank + Up(us)) in pos.pawns.Get(us.Opponent())
      && Square(s.file + 1, s.rank + Up(us)) in pos.pawns.Get(us.Opponent())
  {
    WeakLeversIsWeakLeversOf(pos, us);
    assert Up(us.Opponent()) == -Up(us);
  }

  /** The score of the `us` pawns before the no-pieces doubling. */
  function PawnPart(pos: Position, us: Color): Score
    requires pos.Valid()
  {
    PawnsSum(pos, us, pos.pawnList.Get(us)).Sub(WeakLever.Mul(|WeakLevers(pos, us)|))
  }

  /** The shogi pawn on s has no own shogi pawn on an adjacent file. */
  predicate IsIsolatedShogi(pos: Position, us: Color, s: Square) {
    pos.shogiPawns.Get(us) * AdjacentFilesBB(s) == {}
  }

  /** The shogi pawns of us that the shogi-pawn loop penalises. */
  function IsolatedShogiPawns(pos: Position, us: Color): set<Square> {
    set s | s in pos.shogiPawns.Get(us) && IsIsolatedShogi(pos, us, s)
  }

  /** The number of shogi pawns in ps without an own shogi pawn on an adjacent
      file, counted in list order as the shogi-pawn loop counts them. */
  function IsolatedShogiCount(pos: Position, us: Color, ps: seq<Square>): (n: nat)
    ensures n <= |ps|
  {
    if ps == [] then 0
    else IsolatedShogiCount(pos, us, ps[..|ps| - 1]) + (if IsIsolatedShogi(pos, us, ps[|ps| - 1]) then 1 else 0)
  }

  /** The isolated shogi pawns of a list, grown by one square. */
  lemma IsolatedAmongSnoc(pos: Position, us: Color, init: seq<Square>, last: Square)
    ensures (set s | s in init + [last] && IsIsolatedShogi(pos, us, s))
         == (set s | s in init && IsIsolatedShogi(pos, us, s)) + (if IsIsolatedShogi(pos, us, last) then {last} else {})
  {
  }

  /** Over a list without repetitions the count is the number of isolated
      shogi pawns the list holds. */
  lemma {:induction false} IsolatedShogiCountDistinct(pos: Position, us: Color, ps: seq<Square>)
    requires forall i, j :: 0 <= i < j < |ps| ==> ps[i] != ps[j]
    ensures IsolatedShogiCount(pos, us, ps) == |set s | s in ps && IsIsolatedShogi(pos, us, s)|
  {
    if ps != [] {
      var init, last := ps[..|ps| - 1], ps[|ps| - 1];
      IsolatedShogiCountDistinct(pos, us, init);
      assert last !in init by {
        forall k | 0 <= k < |init| ensures init[k] != last {
          assert init[k] == ps[k];
        }
      }
      assert ps == init + [last];
      IsolatedAmongSnoc(pos, us, init, last);
    }
  }

  /** Over a piece list of the shogi pawns, the loop counts exactly the
      isolated shogi pawns. */
  lemma IsolatedShogiCountPieceList(pos: Position, us: Color, ps: seq<Square>)
    requires IsPieceList(ps, pos.shogiPawns.Get(us))
    ensures IsolatedShogiCount(pos, us, ps) == |IsolatedShogiPawns(pos, us)|
  {
    IsolatedShogiCountDistinct(pos, us, ps);
    assert (set s | s in ps && IsIsolatedShogi(pos, us, s)) == IsolatedShogiPawns(pos, us);
  }

  /** The final step of `evaluate<us>`: a side without pieces besides its pawns
      counts its pawn part twice, then each isolated shogi pawn costs half an
      `Isolated`. */
  function FinalScore(pawnPart: Score, noPieces: bool, isolatedShogi: nat): Score {
    var scaled := if noPieces then pawnPart.Mul(2) else pawnPart;
    scaled.Sub(Isolated.Div(2).Mul(isolatedShogi))
  }

  /** What `evaluate<us>` returns. */
  function SideScore(pos: Position, us: Color): Score
    requires pos.Valid()
  {
    FinalScore(PawnPart(pos, us), pos.pieceCount.Get(us) == pos.PawnCount(us),
               IsolatedShogiCount(pos, us, pos.shogiPawnList.Get(us)))
  }
}

/** Properties of the pawn classification and scoring. */
module PawnStructureProperties {
  import opened Types
  import opened Board
  import opened PawnStructure

  /** The scoring branches are tried in the order connected, isolated, backward,
      and each is taken exactly under its own condition: a pawn is scored as
      isolated exactly when it has no own pawn on an adjacent file, because
      phalanx and support pawns are neighbours. */
  lemma ClassificationExclusive(pos: Position, us: Color, s: Square)
    ensures var f := Flags(pos, us, s);
      && (Classify(f) == ConnectedPawn <==> f.support + f.phalanx != {})
      && (Classify(f) == IsolatedPawn <==> f.neighbours == {})
      && (Classify(f) == BackwardPawn <==> f.backward && f.neighbours != {} && f.support + f.phalanx == {})
  {
  }

  /** A supported pawn earns exactly its connected bonus: no penalty applies to
      it, the doubled one included, and its midgame value is non-negative. */
  lemma SupportedPawnNotPenalised(pos: Position, us: Color, s: Square)
    requires pos.Fits() && pos.OnBoard(s)
    requires Flags(pos, us, s).support != {}
    ensures var r := RelativeRank(us, s, pos.maxRank);
      && PawnScore(pos, us, s) == ConnectedScore(ConnectedBonus(r, Flags(pos, us, s), ManyPawns(pos, us), pos.capturesToHand), r)
      && PawnScore(pos, us, s).mg >= 0
  {
    FlagScoreIsScoreOfFlags(Flags(pos, us, s), RelativeRank(us, s, pos.maxRank), ManyPawns(pos, us), pos.capturesToHand, pos.mustCapture);
  }

  /** Only the connected branch adds to the score; every other pawn costs
      something or nothing in both phases. */
  lemma OnlyConnectedPawnsGain(pos: Position, us: Color, s: Square)
    requires pos.Fits() && pos.OnBoard(s)
    requires Classify(Flags(pos, us, s)) != ConnectedPawn
    ensures PawnScore(pos, us, s).mg <= 0 && PawnScore(pos, us, s).eg <= 0
  {
    FlagScoreIsScoreOfFlags(Flags(pos, us, s), RelativeRank(us, s, pos.maxRank), ManyPawns(pos, us), pos.capturesToHand, pos.mustCapture);
  }

  /** A connected pawn's endgame value has the sign of (r - 2) and never exceeds
      its midgame value on the seven ranks that carry a bonus. */
  lemma ConnectedBonusPhases(pos: Position, us: Color, s: Square)
    requires pos.Fits() && pos.OnBoard(s)
    requires Classify(Flags(pos, us, s)) == ConnectedPawn
    ensures var f := Flags(pos, us, s);
      var r := RelativeRank(us, s, pos.maxRank);
      var c := PawnScore(pos, us, s).Add(DoubledPenalty(f));
      && c.mg == ConnectedBonus(r, f, ManyPawns(pos, us), pos.capturesToHand) >= 0
      && (r >= 2 ==> c.eg >= 0)
      && (r <= 2 ==> c.eg <= 0)
      && (r <= 6 ==> c.eg <= c.mg)
  {
    FlagScoreIsScoreOfFlags(Flags(pos, us, s), RelativeRank(us, s, pos.maxRank), ManyPawns(pos, us), pos.capturesToHand, pos.mustCapture);
    var r := RelativeRank(us, s, pos.maxRank);
    ConnectedScorePhases(ConnectedBonus(r, Flags(pos, us, s), ManyPawns(pos, us), pos.capturesToHand), r);
  }

  /** A backward pawn can be pushed on the grid, something stops it, and no own
      pawn on an adjacent file stands behind it. */
  lemma BackwardPawnFacts(pos: Position, us: Color, s: Square)
    requires pos.Valid() && pos.OnBoard(s)
    requires Flags(pos, us, s).backward
    ensures IsOk(Forward(us, s))
    ensures Flags(pos, us, s).stoppers != {}
    ensures forall q :: q in pos.pawns.Get(us) && OnAdjacentFile(q, s) ==>
      RelativeRank(us, q, pos.maxRank) >= RelativeRank(us, s, pos.maxRank)
  {
    FlagsIsFlagsOf(pos, us, s);
    var them := us.Opponent();
    var neighbours := Neighbours(pos, us, s);
    assert neighbours * ForwardRanksBB(them, s) == {};
    forall q | q in pos.pawns.Get(us) && OnAdjacentFile(q, s)
      ensures RelativeRank(us, q, pos.maxRank) >= RelativeRank(us, s, pos.maxRank)
    {
      assert pos.OnBoard(q);
      assert q in neighbours;
      assert q !in neighbours * ForwardRanksBB(them, s);
      assert !IsAhead(them, q, s);
    }
  }

  /** The passed-pawn test read as the source's comment words it: with no
      stoppers, or only levers as stoppers, a pawn is passed; otherwise, unless
      its stoppers are all lever-push pawns, it is passed only through the
      single-front-stopper rule, which needs a supported pawn on the fifth
      relative rank or beyond blocked by exactly one enemy pawn. */
  lemma PassedConditions(pos: Position, us: Color, s: Square)
    ensures var f := Flags(pos, us, s);
      && (f.stoppers == {} ==> f.passed)
      && (f.stoppers <= f.lever ==> f.passed)
      && (f.passed && !(f.stoppers <= f.lever) && !(f.stoppers <= f.leverPush) ==>
            && f.stoppers == {Forward(us, s)}
            && RelativeRank(us, s, pos.maxRank) >= 4
            && f.support != {})
  {
    FlagsIsFlagsOf(pos, us, s);
    var f := Flags(pos, us, s);
    if f.passed && !(f.stoppers <= f.lever) && !(f.stoppers <= f.leverPush) {
      assert f.stoppers != f.lever && f.stoppers != f.leverPush;
      assert ShiftBB(us, f.support) != {};
    }
  }

  /** A passed pawn is never charged the backward penalty: either nothing in
      front of it is hit by its push, or it is connected. */
  lemma PassedNeverBackwardPenalised(pos: Position, us: Color, s: Square)
    requires Flags(pos, us, s).passed
    ensures Classify(Flags(pos, us, s)) != BackwardPawn
  {
    FlagsIsFlagsOf(pos, us, s);
    var f := Flags(pos, us, s);
    var up := Forward(us, s);
    if f.stoppers == f.lever {
      assert f.lever * (f.leverPush + {up}) == {} by {
        forall q | q in f.lever ensures q !in f.leverPush && q != up {
          assert q in PawnAttacks(us, s);
        }
      }
      assert !f.backward;
    } else if f.stoppers == f.leverPush && |f.phalanx| >= |f.leverPush| {
      if f.leverPush == {} {
        assert !f.backward;
      } else {
        assert f.phalanx != {};
      }
    } else {
      assert ShiftBB(us, f.support) != {};
      assert f.support != {};
    }
  }

  /** Removing the enemy pawn p removes it from the stoppers, levers and lever
      pushes of every pawn and changes nothing else the passed test reads. */
  lemma RemovalShrinksStoppers(pos: Position, pos': Position, us: Color, s: Square, p: Square)
    requires pos'.maxRank == pos.maxRank
    requires pos'.pawns.Get(us) == pos.pawns.Get(us)
    requires pos'.pawns.Get(us.Opponent()) == pos.pawns.Get(us.Opponent()) - {p}
    ensures Stoppers(pos', us, s) == Stoppers(pos, us, s) - {p}
    ensures Lever(pos', us, s) == Lever(pos, us, s) - {p}
    ensures LeverPush(pos', us, s) == LeverPush(pos, us, s) - {p}
    ensures Neighbours(pos', us, s) == Neighbours(pos, us, s)
    ensures Support(pos', us, s) == Support(pos, us, s)
  {
  }

  /** Removing one enemy pawn never takes the passed flag away from a pawn. */
  lemma PassedMonotone(pos: Position, pos': Position, us: Color, s: Square, p: Square)
    requires pos'.maxRank == pos.maxRank
    requires pos'.pawns.Get(us) == pos.pawns.Get(us)
    requires pos'.pawns.Get(us.Opponent()) == pos.pawns.Get(us.Opponent()) - {p}
    requires Flags(pos, us, s).passed
    ensures Flags(pos', us, s).passed
  {
    FlagsIsFlagsOf(pos, us, s);
    FlagsIsFlagsOf(pos', us, s);
    IsPassedMonotone(pos, pos', us, s, p);
  }

  /** The passed test itself, alternative by alternative, survives the removal
      of one enemy pawn. */
  lemma IsPassedMonotone(pos: Position, pos': Position, us: Color, s: Square, p: Square)
    requires pos'.maxRank == pos.maxRank
    requires pos'.pawns.Get(us) == pos.pawns.Get(us)
    requires pos'.pawns.Get(us.Opponent()) == pos.pawns.Get(us.Opponent()) - {p}
    requires IsPassed(pos, us, s)
    ensures IsPassed(pos', us, s)
  {
    RemovalShrinksStoppers(pos, pos', us, s, p);
    var stoppers, lever, leverPush := Stoppers(pos, us, s), Lever(pos, us, s), LeverPush(pos, us, s);
    var phalanx := Neighbours(pos, us, s) * RankBB(s.rank);
    if stoppers == lever {
      assert Stoppers(pos', us, s) == Lever(pos', us, s);
    } else if stoppers == leverPush && |phalanx| >= |leverPush| {
      assert LeverPush(pos', us, s) <= leverPush;
      assert |LeverPush(pos', us, s)| <= |leverPush|;
      assert Stoppers(pos', us, s) == LeverPush(pos', us, s);
    } else if p == Forward(us, s) {
      assert Stoppers(pos', us, s) == {};
      PawnAttacksInSpan(us, s);
      assert Lever(pos', us, s) == {};
    } else {
      var them := us.Opponent();
      var theirs, theirs' := pos.pawns.Get(them), pos'.pawns.Get(them);
      var shifted := ShiftBB(us, Support(pos, us, s));
      PawnDoubleAttacksMonotone(them, theirs', theirs);
      assert shifted - (theirs + PawnDoubleAttacksBB(them, theirs))
          <= shifted - (theirs' + PawnDoubleAttacksBB(them, theirs'));
    }
  }

  /** Two positions with the same pawns of both colours, on the same board and
      under the same rule flags; their piece lists may list the pawns in
      different orders. */
  predicate SamePawnStructure(pos: Position, pos': Position) {
    && pos'.maxFile == pos.maxFile && pos'.maxRank == pos.maxRank
    && pos'.pawns == pos.pawns
    && pos'.capturesToHand == pos.capturesToHand && pos'.mustCapture == pos.mustCapture
  }

  /** Appending one pawn to the list adds its score. */
  lemma PawnsSumSnoc(pos: Position, us: Color, ps: seq<Square>, y: Square)
    requires pos.Fits() && pos.OnBoard(y) && forall q :: q in ps ==> pos.OnBoard(q)
    ensures PawnsSum(pos, us, ps + [y]) == PawnsSum(pos, us, ps).Add(PawnScore(pos, us, y))
  {
    assert (ps + [y])[..|ps|] == ps;
  }

  /** Taking the pawn x out of the middle of a list and adding its score at the
      end leaves the sum unchanged. */
  lemma {:induction false} PawnsSumRemove(pos: Position, us: Color, a: seq<Square>, x: Square, b: seq<Square>)
    requires pos.Fits() && pos.OnBoard(x)
    requires forall q :: q in a + b ==> pos.OnBoard(q)
    ensures PawnsSum(pos, us, a + [x] + b) == PawnsSum(pos, us, a + b).Add(PawnScore(pos, us, x))
    decreases |b|
  {
    if b == [] {
      assert a + [x] + b == a + [x] && a + b == a;
      PawnsSumSnoc(pos, us, a, x);
    } else {
      var b', y := b[..|b| - 1], b[|b| - 1];
      var with, without := a + [x] + b', a + b';
      assert a + [x] + b == with + [y] && a + b == without + [y];
      PawnsSumRemove(pos, us, a, x, b');
      PawnsSumSnoc(pos, us, with, y);
      PawnsSumSnoc(pos, us, without, y);
      AddLater(PawnsSum(pos, us, with), PawnsSum(pos, us, without), PawnScore(pos, us, x), PawnScore(pos, us, y));
    }
  }

  lemma AddLater(s: Score, s': Score, p: Score, q: Score)
    requires s == s'.Add(p)
    ensures s.Add(q) == s'.Add(q).Add(p)
  {
  }

  /** The pawn loop's sum does not depend on the order of the piece list. */
  lemma {:induction false} PawnsSumPermutation(pos: Position, us: Color, ps: seq<Square>, qs: seq<Square>)
    requires pos.Fits() && (forall q :: q in ps ==> pos.OnBoard(q)) && (forall q :: q in qs ==> pos.OnBoard(q))
    requires multiset(ps) == multiset(qs)
    ensures PawnsSum(pos, us, ps) == PawnsSum(pos, us, qs)
    decreases |ps|
  {
    if ps != [] {
      var init, x := ps[..|ps| - 1], ps[|ps| - 1];
      var a, b := TakeOut(ps, qs);
      PawnsSumRemove(pos, us, a, x, b);
      PawnsSumPermutation(pos, us, init, a + b);
    }
  }

  /** Where the last pawn of ps sits in a rearrangement qs, and what is left. */
  lemma TakeOut(ps: seq<Square>, qs: seq<Square>) returns (a: seq<Square>, b: seq<Square>)
    requires ps != [] && multiset(ps) == multiset(qs)
    ensures qs == a + [ps[|ps| - 1]] + b
    ensures multiset(ps[..|ps| - 1]) == multiset(a + b)
    ensures forall q :: q in a + b ==> q in qs
    ensures forall q :: q in ps[..|ps| - 1] ==> q in ps
  {
    var init, x := ps[..|ps| - 1], ps[|ps| - 1];
    assert ps == init + [x];
    assert multiset(ps) == multiset(init) + multiset{x};
    assert x in multiset(qs);
    var j :| 0 <= j < |qs| && qs[j] == x;
    a, b := qs[..j], qs[j + 1..];
    assert qs == a + [x] + b;
    assert multiset(qs) == multiset(a) + multiset{x} + multiset(b);
    assert multiset(a + b) == multiset(a) + multiset(b);
    MultisetCancel(multiset(init), multiset(a + b), x);
  }

  lemma MultisetCancel(m: multiset<Square>, m': multiset<Square>, x: Square)
    requires m + multiset{x} == m' + multiset{x}
    ensures m == m'
  {
    forall y ensures m[y] == m'[y] {
      assert (m + multiset{x})[y] == (m' + multiset{x})[y];
    }
  }

  lemma {:induction false} PawnsSumSamePawns(pos: Position, pos': Position, us: Color, ps: seq<Square>)
    requires pos.Valid() && pos'.Valid() && SamePawnStructure(pos, pos')
    requires forall i :: 0 <= i < |ps| ==> pos.OnBoard(ps[i]) && pos'.OnBoard(ps[i])
    ensures PawnsSum(pos', us, ps) == PawnsSum(pos, us, ps)
  {
    if ps != [] {
      PawnsSumSamePawns(pos, pos', us, ps[..|ps| - 1]);
      PawnScoreSamePawns(pos, pos', us, ps[|ps| - 1]);
    }
  }

  lemma FlagsSamePawns(pos: Position, pos': Position, us: Color, s: Square)
    requires SamePawnStructure(pos, pos')
    ensures Flags(pos', us, s) == Flags(pos, us, s)
  {
    FlagsIsFlagsOf(pos, us, s);
    FlagsIsFlagsOf(pos', us, s);
    assert Stoppers(pos', us, s) == Stoppers(pos, us, s);
    assert Lever(pos', us, s) == Lever(pos, us, s);
    assert LeverPush(pos', us, s) == LeverPush(pos, us, s);
    assert Neighbours(pos', us, s) == Neighbours(pos, us, s);
    assert Support(pos', us, s) == Support(pos, us, s);
    assert IsBackward(pos', us, s) == IsBackward(pos, us, s);
    assert IsPassed(pos', us, s) == IsPassed(pos, us, s);
  }

  lemma PawnScoreSamePawns(pos: Position, pos': Position, us: Color, s: Square)
    requires pos.Valid() && pos'.Valid() && SamePawnStructure(pos, pos') && pos.OnBoard(s)
    ensures PawnScore(pos', us, s) == PawnScore(pos, us, s)
  {
    FlagsSamePawns(pos, pos', us, s);
    ManyPawnsSamePawns(pos, pos', us);
  }

  lemma ManyPawnsSamePawns(pos: Position, pos': Position, us: Color)
    requires SamePawnStructure(pos, pos')
    ensures ManyPawns(pos', us) == ManyPawns(pos, us)
  {
    assert pos'.BoardBB() == pos.BoardBB();
  }

  /** The pawn part of the score is a function of the pawn structure alone,
      whatever order the piece lists give the pawns in. */
  lemma PawnPartSamePawns(pos: Position, pos': Position, us: Color)
    requires pos.Valid() && pos'.Valid() && SamePawnStructure(pos, pos')
    ensures PawnPart(pos', us) == PawnPart(pos, us)
  {
    var l, l' := pos.pawnList.Get(us), pos'.pawnList.Get(us);
    PieceListsSameMultiset(l, l', pos.pawns.Get(us));
    PawnsSumSamePawns(pos, pos', us, l);
    PawnsSumPermutation(pos', us, l, l');
    WeakLeversSamePawns(pos, pos', us);
  }

  lemma WeakLeversSamePawns(pos: Position, pos': Position, us: Color)
    requires SamePawnStructure(pos, pos')
    ensures WeakLevers(pos', us) == WeakLevers(pos, us)
  {
    WeakLeversIsWeakLeversOf(pos, us);
    WeakLeversIsWeakLeversOf(pos', us);
    assert PassedPawnsOf(pos', us) == PassedPawnsOf(pos, us) by {
      forall s ensures Flags(pos', us, s) == Flags(pos, us, s) {
        FlagsSamePawns(pos, pos', us, s);
      }
    }
  }

  /** The no-pieces doubling covers the pawn part only: removing the side's
      pieces adds one more copy of the pawn part and leaves the shogi-pawn
      penalties as they were. */
  lemma NoPiecesDoublesPawnPartOnly(pos: Position, pos': Position, us: Color)
    requires pos.Valid() && pos'.Valid() && SamePawnStructure(pos, pos')
    requires pos'.shogiPawns == pos.shogiPawns
    requires pos.pieceCount.Get(us) != pos.PawnCount(us)
    requires pos'.pieceCount.Get(us) == pos'.PawnCount(us)
    ensures SideScore(pos', us) == SideScore(pos, us).Add(PawnPart(pos, us))
  {
    PawnPartSamePawns(pos, pos', us);
    IsolatedShogiCountSameShogiPawns(pos, pos', us);
    var part, n := PawnPart(pos, us), IsolatedShogiCount(pos, us, pos.shogiPawnList.Get(us));
    FinalScoreDoubling(part, n);
  }

  /** The shogi penalty count depends only on the set of shogi pawns, not on
      the order their piece list gives them in. */
  lemma IsolatedShogiCountSameShogiPawns(pos: Position, pos': Position, us: Color)
    requires pos.Valid() && pos'.Valid() && pos'.shogiPawns == pos.shogiPawns
    ensures IsolatedShogiCount(pos', us, pos'.shogiPawnList.Get(us)) == IsolatedShogiCount(pos, us, pos.shogiPawnList.Get(us))
  {
    IsolatedShogiCountPieceList(pos, us, pos.shogiPawnList.Get(us));
    IsolatedShogiCountPieceList(pos', us, pos'.shogiPawnList.Get(us));
    assert IsolatedShogiPawns(pos', us) == IsolatedShogiPawns(pos, us);
  }

  /** `evaluate<us>` depends only on the pawns, the shogi pawns, the board, the
      rule flags and whether the side has only pawns left: the order of the
      piece lists and everything else in the position are irrelevant. */
  lemma SideScoreSamePawns(pos: Position, pos': Position, us: Color)
    requires pos.Valid() && pos'.Valid() && SamePawnStructure(pos, pos')
    requires pos'.shogiPawns == pos.shogiPawns
    requires (pos'.pieceCount.Get(us) == pos'.PawnCount(us)) == (pos.pieceCount.Get(us) == pos.PawnCount(us))
    ensures SideScore(pos', us) == SideScore(pos, us)
  {
    PawnPartSamePawns(pos, pos', us);
    IsolatedShogiCountSameShogiPawns(pos, pos', us);
  }

  /** An 8x8 board holding one pawn of colour c, on s, and nothing else the
      pawn code reads. */
  function LonePawn(c: Color, s: Square): (pos: Position)
    ensures pos.maxRank == 7 && pos.pawns.Get(c) == {s} && pos.pawns.Get(c.Opponent()) == {}
  {
    var none := PerColor({}, {});
    Position(7, 7, none.With(c, {s}), PerColor([], []).With(c, [s]), none, PerColor([], []),
             PerColor(1, 1), PerColor(Square(4, 0), Square(4, 7)),
             PerColor(CastlingRights(false, false), CastlingRights(false, false)),
             7, 0, 0, false, false)
  }

  /** The passed-pawn bitboard is not colour-symmetric on a board shorter than
      the grid: `is_ok(s + Up)` tests the 12x10 grid, not the board, so a lone
      White pawn on the last rank of an 8x8 board is recorded as passed while
      the mirrored Black pawn, whose push square falls off the grid, is not. */
  lemma PassedPawnsNotColourSymmetric()
    ensures LonePawn(White, Square(0, 7)).Valid() && LonePawn(Black, Square(0, 0)).Valid()
    ensures Square(0, 7) in PassedPawnsOf(LonePawn(White, Square(0, 7)), White)
    ensures Square(0, 0) !in PassedPawnsOf(LonePawn(Black, Square(0, 0)), Black)
  {
    LonePawnValid(White, Square(0, 7));
    LonePawnValid(Black, Square(0, 0));
    NoEnemyPawnsPassed(LonePawn(White, Square(0, 7)), White, Square(0, 7));
  }

  lemma LonePawnValid(c: Color, s: Square)
    requires 0 <= s.file <= 7 && 0 <= s.rank <= 7
    ensures LonePawn(c, s).Valid()
  {
  }

  /** With no enemy pawns on the board every pawn is passed, by alternative (a). */
  lemma NoEnemyPawnsPassed(pos: Position, us: Color, s: Square)
    requires pos.pawns.Get(us.Opponent()) == {}
    ensures Flags(pos, us, s).passed
  {
    FlagsIsFlagsOf(pos, us, s);
    assert Stoppers(pos, us, s) == {} == Lever(pos, us, s);
  }

  /** Doubling adds one copy of the pawn part and leaves the shogi term alone. */
  lemma FinalScoreDoubling(part: Score, n: nat)
    ensures FinalScore(part, true, n) == FinalScore(part, false, n).Add(part)
  {
    var pen := Isolated.Div(2).Mul(n);
    assert FinalScore(part, true, n) == part.Mul(2).Sub(pen);
    assert FinalScore(part, false, n) == part.Sub(pen);
  }

  lemma {:induction false} ShogiCountSameShogiPawns(pos: Position, pos': Position, us: Color, ps: seq<Square>)
    requires pos'.shogiPawns == pos.shogiPawns
    ensures IsolatedShogiCount(pos', us, ps) == IsolatedShogiCount(pos, us, ps)
  {
    if ps != [] {
      ShogiCountSameShogiPawns(pos, pos', us, ps[..|ps| - 1]);
    }
  }
}
