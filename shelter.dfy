/** King shelter and pawn storm: the two tables, the per-file terms of the
    shelter scan, the minimum king-to-pawn distance and the king-safety score.
    These functions specify the `Pawns.Entry` methods `EvaluateShelter` and
    `DoKingSafety`. */
module KingShelter {
  import opened Types
  import opened Board

  /** `VALUE_INFINITE`, whose negation seeds the best shelter. */
  const ValueInfinite := 32001

  /** The cost, in both phases, of a storm pawn blocked on the third rank. */
  const BlockedStorm := 82

  /** The distance the minimum king-to-pawn search starts from. */
  const MaxPawnDistance := 8

  function Pick(r: int, a0: int, a1: int, a2: int, a3: int, a4: int, a5: int, a6: int): int {
    if r == 0 then a0 else if r == 1 then a1 else if r == 2 then a2 else if r == 3 then a3
    else if r == 4 then a4 else if r == 5 then a5 else a6
  }

  /** `ShelterStrength[d][r]`: the table has four rows of seven entries; the
      other slots of its FILE_NB / 2 x RANK_NB shape are zero. */
  function ShelterStrength(d: int, r: int): (v: int)
    requires 0 <= d < GridFiles / 2 && 0 <= r < GridRanks
    ensures -166 <= v <= 93
    ensures (d >= 4 || r >= 7) ==> v == 0
  {
    if d < 4 && r < 7 then
      match d
        case 0 => Pick(r, -6,  81,  93,  58,  39,  18,   25)
        case 1 => Pick(r, -43,  61,  35, -49, -29, -11,  -63)
        case 2 => Pick(r, -10,  75,  23,  -2,  32,   3,  -45)
        case _ => Pick(r, -39, -13, -29, -52, -48, -67, -166)
    else 0
  }

  /** `UnblockedStorm[d][r]`, shaped like `ShelterStrength`. */
  function UnblockedStorm(d: int, r: int): (v: int)
    requires 0 <= d < GridFiles / 2 && 0 <= r < GridRanks
    ensures -285 <= v <= 162
    ensures (d >= 4 || r >= 7) ==> v == 0
  {
    if d < 4 && r < 7 then
      match d
        case 0 => Pick(r, 89, -285, -185, 93, 57,  45,  51)
        case 1 => Pick(r, 44,  -18,  123, 46, 39,  -7,  23)
        case 2 => Pick(r, 4,   52,  162, 37,  7, -14,  -2)
        case _ => Pick(r, -10,  -14,   90, 15,  2,  -7, -16)
    else 0
  }

  /** `clamp(file_of(ksq), FILE_B, max_file - 1)`; the clamp needs its lower
      bound not above its upper one, hence a board of at least three files. */
  function ShelterCenter(maxFile: int, file: int): (c: int)
    requires 2 <= maxFile
    ensures 1 <= c <= maxFile - 1
    ensures 1 <= file <= maxFile - 1 ==> c == file
    ensures file < 1 ==> c == 1
    ensures file > maxFile - 1 ==> c == maxFile - 1
  {
    if file < 1 then 1 else if maxFile - 1 < file then maxFile - 1 else file
  }

  /** The table row of file f: its distance to the nearer edge, capped at FILE_D. */
  function EdgeDistance(maxFile: int, f: int): (d: int)
    requires 0 <= f <= maxFile
    ensures 0 <= d <= 3
    ensures d <= f && d <= maxFile - f
    ensures d == 3 || d == f || d == maxFile - f
  {
    var m := if f < maxFile - f then f else maxFile - f;
    if m < 3 then m else 3
  }

  /** The square of file f on relative rank r, seen from us. */
  function RankSquare(us: Color, f: int, r: int, maxRank: int): (q: Square)
    ensures q.file == f && RelativeRank(us, q, maxRank) == r
  {
    Square(f, if us == White then r else maxRank - r)
  }

  /** The lowest relative rank, from r upward, holding a square of b on file f;
      RANK_1 when there is none. */
  function NearestRankFrom(b: set<Square>, us: Color, f: int, maxRank: int, r: int): (res: int)
    requires 0 <= r
    ensures res == 0 || r <= res <= maxRank
    decreases maxRank + 1 - r
  {
    if r > maxRank then 0
    else if RankSquare(us, f, r, maxRank) in b then r
    else NearestRankFrom(b, us, f, maxRank, r + 1)
  }

  /** `b ? relative_rank(Us, frontmost_sq(Them, b)) : RANK_1` for the squares of
      b on file f: the pawn nearest to our own side. */
  function NearestRank(b: set<Square>, us: Color, f: int, maxRank: int): (res: int)
    requires 0 <= maxRank
    ensures 0 <= res <= maxRank
  {
    NearestRankFrom(b, us, f, maxRank, 0)
  }

  /** The c pawns and shogi pawns not on a rank behind the king on ksq, seen from us. */
  function ShelterPawns(pos: Position, c: Color, us: Color, ksq: Square): set<Square> {
    pos.AllPawns(c) - ForwardRanksBB(us.Opponent(), ksq)
  }

  /** Intersecting the pawns of both sides outside the king's back ranks with
      the pawns of c gives the c pawns of the scan. */
  lemma ShelterPawnsSplit(pos: Position, us: Color, ksq: Square)
    ensures ((pos.AllPawns(White) + pos.AllPawns(Black)) - ForwardRanksBB(us.Opponent(), ksq)) * pos.AllPawns(us)
         == ShelterPawns(pos, us, us, ksq)
    ensures ((pos.AllPawns(White) + pos.AllPawns(Black)) - ForwardRanksBB(us.Opponent(), ksq)) * pos.AllPawns(us.Opponent())
         == ShelterPawns(pos, us.Opponent(), us, ksq)
  {
  }

  /** `ourRank` on file f. */
  function OurRank(pos: Position, us: Color, ksq: Square, f: int): (r: int)
    requires pos.Fits()
    ensures 0 <= r <= pos.maxRank
  {
    NearestRank(ShelterPawns(pos, us, us, ksq), us, f, pos.maxRank)
  }

  /** `theirRank` on file f. */
  function TheirRank(pos: Position, us: Color, ksq: Square, f: int): (r: int)
    requires pos.Fits()
    ensures 0 <= r <= pos.maxRank
  {
    NearestRank(ShelterPawns(pos, us.Opponent(), us, ksq), us, f, pos.maxRank)
  }

  /** The shelter term of a file: doubled for a pawn on the first two ranks (or
      none) when captured pieces go to hand. */
  function ShelterTerm(d: int, ourRank: int, capturesToHand: bool): (v: Score)
    requires 0 <= d <= 3 && 0 <= ourRank < GridRanks
    ensures v.eg == 0
    ensures -332 <= v.mg <= 186
  {
    var base := Score(ShelterStrength(d, ourRank), 0);
    if capturesToHand && ourRank <= 1 then base.Mul(2) else base
  }

  /** A file is locked when our nearest pawn stands directly below theirs. */
  predicate Locked(ourRank: int, theirRank: int) {
    ourRank != 0 && ourRank == theirRank - 1
  }

  /** The storm term of a file: a blocked storm pawn costs `BlockedStorm` in both
      phases on the third rank and nothing elsewhere; any other file costs the
      unblocked storm value in the midgame. */
  function StormTerm(d: int, ourRank: int, theirRank: int): (p: Score)
    requires 0 <= d <= 3 && 0 <= ourRank < GridRanks && 0 <= theirRank < GridRanks
    ensures p.eg != 0 <==> ourRank == 1 && theirRank == 2
    ensures p.eg != 0 ==> p == Score(BlockedStorm, BlockedStorm)
    ensures Locked(ourRank, theirRank) && theirRank != 2 ==> p == ScoreZero
    ensures -285 <= p.mg <= 162
  {
    if Locked(ourRank, theirRank) then
      if theirRank == 2 then Score(BlockedStorm, BlockedStorm) else ScoreZero
    else Score(UnblockedStorm(d, theirRank), 0)
  }

  /** What file f adds to the shelter bonus of a king on ksq: the shelter
      term of our nearest pawn minus the storm term of theirs. */
  function FileTerm(pos: Position, us: Color, ksq: Square, f: int): (s: Score)
    requires pos.Fits() && 0 <= f <= pos.maxFile
    ensures -494 <= s.mg <= 471
    ensures -BlockedStorm <= s.eg <= 0
  {
    var ourRank := OurRank(pos, us, ksq, f);
    var theirRank := TheirRank(pos, us, ksq, f);
    var d := EdgeDistance(pos.maxFile, f);
    ShelterTerm(d, ourRank, pos.capturesToHand).Sub(StormTerm(d, ourRank, theirRank))
  }

  /** `FileTerm` of file f, reached after n idle recursive steps.
      It is a proof-performance device, not part of the evaluator: the verifier
      unfolds a recursive function only a bounded number of times, so a
      definition reached through enough idle steps stays folded until a proof
      asks for it with the lemma below. */
  function FileTermAfter(pos: Position, us: Color, ksq: Square, f: int, n: nat): Score
    requires pos.Fits() && 0 <= f <= pos.maxFile
    decreases n
  {
    if n == 0 then FileTerm(pos, us, ksq, f) else FileTermAfter(pos, us, ksq, f, n - 1)
  }

  /** The term of file f as the shelter sums add it up. It equals `FileTerm`
      (lemma `FileShelterIsFileTerm`); defining it through `FileTermAfter`
      lets the proofs about sums of file terms treat each term as one value
      instead of expanding both tables for every file they mention. */
  function FileShelter(pos: Position, us: Color, ksq: Square, f: int): Score
    requires pos.Fits() && 0 <= f <= pos.maxFile
  {
    FileTermAfter(pos, us, ksq, f, f + 8)
  }

  lemma {:induction false} FileTermAfterIsFileTerm(pos: Position, us: Color, ksq: Square, f: int, n: nat)
    requires pos.Fits() && 0 <= f <= pos.maxFile
    ensures FileTermAfter(pos, us, ksq, f, n) == FileTerm(pos, us, ksq, f)
    decreases n
  {
    if n > 0 {
      FileTermAfterIsFileTerm(pos, us, ksq, f, n - 1);
    }
  }

  /** The term the sums add for file f is the file's shelter term minus its storm term. */
  lemma FileShelterIsFileTerm(pos: Position, us: Color, ksq: Square, f: int)
    requires pos.Fits() && 0 <= f <= pos.maxFile
    ensures FileShelter(pos, us, ksq, f) == FileTerm(pos, us, ksq, f)
  {
    FileTermAfterIsFileTerm(pos, us, ksq, f, f + 8);
  }

  /** The file terms of the files lo .. hi - 1, added in file order. */
  function ShelterSum(pos: Position, us: Color, ksq: Square, lo: int, hi: int): Score
    requires pos.Fits() && 0 <= lo <= hi <= pos.maxFile + 1
    decreases hi - lo
  {
    if hi == lo then ScoreZero
    else ShelterSum(pos, us, ksq, lo, hi - 1).Add(FileShelter(pos, us, ksq, hi - 1))
  }

  /** The shelter bonus of a king on ksq: (5, 5) plus the terms of the three
      files around the clamped king file. */
  function ShelterBonus(pos: Position, us: Color, ksq: Square): Score
    requires pos.Fits() && 2 <= pos.maxFile
  {
    var c := ShelterCenter(pos.maxFile, ksq.file);
    Score(5, 5).Add(ShelterSum(pos, us, ksq, c - 1, c + 2))
  }

  /** The update at the end of `evaluate_shelter`: the bonus replaces the shelter
      only when its midgame value is strictly larger. */
  function KeepBetter(shelter: Score, bonus: Score): (r: Score)
    ensures r.mg == Max(shelter.mg, bonus.mg)
    ensures r == shelter || r == bonus
    ensures bonus.mg <= shelter.mg ==> r == shelter
  {
    if bonus.mg > shelter.mg then bonus else shelter
  }

  function Max(a: int, b: int): int {
    if a < b then b else a
  }

  /** m is the distance from ksq to the nearest pawn of pawns, capped at
      `MaxPawnDistance`. */
  predicate IsClampedMin(m: int, pawns: set<Square>, ksq: Square) {
    && m <= MaxPawnDistance
    && (forall p :: p in pawns ==> m <= Distance(ksq, p))
    && (m == MaxPawnDistance || exists p :: p in pawns && Distance(ksq, p) == m)
  }

  /** The smallest distance from d upward at which some pawn stands, capped at
      `MaxPawnDistance`. */
  function ClampedMinFrom(pawns: set<Square>, ksq: Square, d: nat): (m: int)
    ensures d <= m <= MaxPawnDistance || (d > MaxPawnDistance && m == MaxPawnDistance)
    decreases MaxPawnDistance - d
  {
    if d >= MaxPawnDistance then MaxPawnDistance
    else if exists p :: p in pawns && Distance(ksq, p) == d then d
    else ClampedMinFrom(pawns, ksq, d + 1)
  }

  /** `minPawnDist` as computed for the us king. */
  function MinPawnDistance(pos: Position, us: Color): (m: int)
    ensures 0 <= m <= MaxPawnDistance
    ensures pos.pawns.Get(us) == {} ==> m == 0
    ensures pos.pawns.Get(us) * KingAttacks(pos.kingSquare.Get(us)) != {} ==> m == 1
  {
    var pawns := pos.pawns.Get(us);
    var ksq := pos.kingSquare.Get(us);
    if pawns == {} then 0
    else if pawns * KingAttacks(ksq) != {} then 1
    else ClampedMinFrom(pawns, ksq, 0)
  }

  /** The square a king castles to on file `file`: the first rank of us. */
  function CastlingSquare(pos: Position, us: Color, file: int): Square {
    Square(file, if us == White then 0 else pos.maxRank)
  }

  /** The best shelter over the king square and the castling squares still
      reachable, each tried in the source's order. */
  function BestShelter(pos: Position, us: Color): Score
    requires pos.Fits() && 2 <= pos.maxFile
  {
    var cr := pos.castlingRights.Get(us);
    var s0 := KeepBetter(Score(-ValueInfinite, 0), ShelterBonus(pos, us, pos.kingSquare.Get(us)));
    var s1 := if cr.kingSide then KeepBetter(s0, ShelterBonus(pos, us, CastlingSquare(pos, us, pos.castlingKingsideFile))) else s0;
    if cr.queenSide then KeepBetter(s1, ShelterBonus(pos, us, CastlingSquare(pos, us, pos.castlingQueensideFile))) else s1
  }

  /** What `do_king_safety<us>` returns. */
  function KingSafety(pos: Position, us: Color): Score
    requires pos.Fits() && 2 <= pos.maxFile
  {
    BestShelter(pos, us).Sub(Score(0, 16 * MinPawnDistance(pos, us)))
  }
}

/** Properties of the shelter scan and of the king-safety score. */
module KingShelterProperties {
  import opened Types
  import opened Board
  import opened KingShelter

  /** The three scanned files lie on the board and each reads one of the four
      defined table rows. */
  lemma ShelterWindowOnBoard(maxFile: int, file: int, f: int)
    requires 2 <= maxFile
    requires ShelterCenter(maxFile, file) - 1 <= f <= ShelterCenter(maxFile, file) + 1
    ensures 0 <= f <= maxFile
    ensures 0 <= EdgeDistance(maxFile, f) <= 3
  {
  }

  /** The nearest rank search returns the relative rank of the pawn of b on
      file f nearest to our side, from r upward, and RANK_1 when there is none. */
  lemma {:induction false} NearestRankFromIsNearest(b: set<Square>, us: Color, f: int, maxRank: int, r: int)
    requires 0 <= r
    requires forall q :: q in b ==> 0 <= q.rank <= maxRank
    ensures var res := NearestRankFrom(b, us, f, maxRank, r);
      && (forall q :: q in b && q.file == f && RelativeRank(us, q, maxRank) >= r ==> res <= RelativeRank(us, q, maxRank))
      && ((exists q :: q in b && q.file == f && RelativeRank(us, q, maxRank) >= r) ==>
            exists q :: q in b && q.file == f && RelativeRank(us, q, maxRank) == res)
      && ((forall q :: q in b && q.file == f ==> RelativeRank(us, q, maxRank) < r) ==> res == 0)
    decreases maxRank + 1 - r
  {
    if r > maxRank {
    } else if RankSquare(us, f, r, maxRank) in b {
    } else {
      NearestRankFromIsNearest(b, us, f, maxRank, r + 1);
      forall q | q in b && q.file == f && RelativeRank(us, q, maxRank) >= r
        ensures RelativeRank(us, q, maxRank) >= r + 1
      {
        assert RelativeRank(us, q, maxRank) == r ==> q == RankSquare(us, f, r, maxRank);
      }
    }
  }

  /** `ourRank` and `theirRank` are the relative ranks of the frontmost-for-them
      pawn on the file, that is the one nearest to our side, and RANK_1 when the
      file holds none. */
  lemma NearestRankIsNearest(b: set<Square>, us: Color, f: int, maxRank: int)
    requires 0 <= maxRank
    requires forall q :: q in b ==> 0 <= q.rank <= maxRank
    ensures var res := NearestRank(b, us, f, maxRank);
      && (forall q :: q in b && q.file == f ==> res <= RelativeRank(us, q, maxRank))
      && ((exists q :: q in b && q.file == f) ==> exists q :: q in b && q.file == f && RelativeRank(us, q, maxRank) == res)
      && ((forall q :: q in b ==> q.file != f) ==> res == 0)
  {
    NearestRankFromIsNearest(b, us, f, maxRank, 0);
  }

  /** A locked file costs (82, 82) when their pawn is on the third rank and
      nothing otherwise; the shelter term is unaffected. */
  lemma LockedFileCost(pos: Position, us: Color, ksq: Square, f: int)
    requires pos.Fits() && 0 <= f <= pos.maxFile
    requires Locked(OurRank(pos, us, ksq, f), TheirRank(pos, us, ksq, f))
    ensures var t := ShelterTerm(EdgeDistance(pos.maxFile, f), OurRank(pos, us, ksq, f), pos.capturesToHand);
      && (TheirRank(pos, us, ksq, f) == 2 ==> FileShelter(pos, us, ksq, f) == t.Sub(Score(BlockedStorm, BlockedStorm)))
      && (TheirRank(pos, us, ksq, f) != 2 ==> FileShelter(pos, us, ksq, f) == t)
  {
    FileShelterIsFileTerm(pos, us, ksq, f);
  }

  /** The storm term reads the table on every unlocked file, including one
      without an enemy pawn, where it reads the RANK_1 entry. */
  lemma EmptyFileStillStorms(pos: Position, us: Color, ksq: Square, f: int)
    requires pos.Valid() && 0 <= f <= pos.maxFile
    requires forall q :: q in ShelterPawns(pos, us.Opponent(), us, ksq) ==> q.file != f
    ensures StormTerm(EdgeDistance(pos.maxFile, f), OurRank(pos, us, ksq, f), TheirRank(pos, us, ksq, f))
         == Score(UnblockedStorm(EdgeDistance(pos.maxFile, f), 0), 0)
  {
    var b := ShelterPawns(pos, us.Opponent(), us, ksq);
    assert forall q :: q in b ==> 0 <= q.rank <= pos.maxRank by {
      forall q | q in b ensures 0 <= q.rank <= pos.maxRank {
        assert q in pos.AllPawns(us.Opponent());
      }
    }
    NearestRankIsNearest(b, us, f, pos.maxRank);
  }

  /** Each scanned file moves the sum by a bounded amount: the midgame part
      by at most the extreme table entries, the endgame part only down, and
      only by a blocked storm pawn. */
  lemma {:induction false} ShelterSumBounds(pos: Position, us: Color, ksq: Square, lo: int, hi: int)
    requires pos.Fits() && 0 <= lo <= hi <= pos.maxFile + 1
    ensures var s := ShelterSum(pos, us, ksq, lo, hi);
      && -494 * (hi - lo) <= s.mg <= 471 * (hi - lo)
      && -82 * (hi - lo) <= s.eg <= 0
    decreases hi - lo
  {
    if hi != lo {
      ShelterSumBounds(pos, us, ksq, lo, hi - 1);
      var prev, t := ShelterSum(pos, us, ksq, lo, hi - 1), FileShelter(pos, us, ksq, hi - 1);
      FileShelterIsFileTerm(pos, us, ksq, hi - 1);
      assert ShelterSum(pos, us, ksq, lo, hi) == prev.Add(t);
    }
  }

  /** The shelter bonus stays far above `-VALUE_INFINITE`, so the seed of the
      best shelter is always replaced; its endgame part is at most 5. */
  lemma ShelterBonusBounds(pos: Position, us: Color, ksq: Square)
    requires pos.Fits() && 2 <= pos.maxFile
    ensures -1477 <= ShelterBonus(pos, us, ksq).mg <= 1418
    ensures 5 - 3 * 82 <= ShelterBonus(pos, us, ksq).eg <= 5
  {
    var c := ShelterCenter(pos.maxFile, ksq.file);
    ShelterSumBounds(pos, us, ksq, c - 1, c + 2);
  }

  /** Trying a square never lowers the midgame value of the best shelter. */
  lemma KeepBetterMonotone(shelter: Score, bonus: Score, bonus': Score)
    ensures KeepBetter(shelter, bonus).mg >= shelter.mg
    ensures KeepBetter(KeepBetter(shelter, bonus), bonus').mg >= KeepBetter(shelter, bonus).mg
  {
  }

  /** The search from d finds the capped minimum over the pawns at distance d or more. */
  lemma {:induction false} ClampedMinFromIsMin(pawns: set<Square>, ksq: Square, d: nat)
    requires forall p :: p in pawns ==> d <= Distance(ksq, p)
    ensures IsClampedMin(ClampedMinFrom(pawns, ksq, d), pawns, ksq)
    decreases MaxPawnDistance - d
  {
    if d >= MaxPawnDistance {
    } else if exists p :: p in pawns && Distance(ksq, p) == d {
    } else {
      ClampedMinFromIsMin(pawns, ksq, d + 1);
    }
  }

  /** Two capped minima of the same pawns coincide. */
  lemma ClampedMinUnique(m: int, m': int, pawns: set<Square>, ksq: Square)
    requires IsClampedMin(m, pawns, ksq) && IsClampedMin(m', pawns, ksq)
    ensures m == m'
  {
    if m != MaxPawnDistance {
      var p :| p in pawns && Distance(ksq, p) == m;
    }
    if m' != MaxPawnDistance {
      var p :| p in pawns && Distance(ksq, p) == m';
    }
  }

  /** `minPawnDist` is the capped distance to the nearest own pawn whenever the
      side has pawns and none stands on the king square; the king-adjacent
      shortcut agrees with the search. */
  lemma MinPawnDistanceIsNearest(pos: Position, us: Color)
    requires pos.pawns.Get(us) != {}
    requires pos.kingSquare.Get(us) !in pos.pawns.Get(us)
    ensures IsClampedMin(MinPawnDistance(pos, us), pos.pawns.Get(us), pos.kingSquare.Get(us))
    ensures 1 <= MinPawnDistance(pos, us)
  {
    var pawns, ksq := pos.pawns.Get(us), pos.kingSquare.Get(us);
    if pawns * KingAttacks(ksq) != {} {
      var p :| p in pawns * KingAttacks(ksq);
      assert Distance(ksq, p) == 1;
      forall q | q in pawns ensures 1 <= Distance(ksq, q) {
        assert q != ksq;
      }
    } else {
      forall q | q in pawns ensures 0 <= Distance(ksq, q) { }
      ClampedMinFromIsMin(pawns, ksq, 0);
      forall q | q in pawns ensures 1 <= Distance(ksq, q) {
        assert q != ksq;
      }
    }
  }

  /** The best shelter is the bonus of one of the candidate squares (the king
      square, or a castling square whose right is held), its midgame value is at
      least that of every candidate, and when no castling square is strictly
      better the king square's own bonus is kept. */
  lemma BestShelterIsBestCandidate(pos: Position, us: Color)
    requires pos.Fits() && 2 <= pos.maxFile
    ensures var cr := pos.castlingRights.Get(us);
      var best := BestShelter(pos, us);
      var atKing := ShelterBonus(pos, us, pos.kingSquare.Get(us));
      var atKingSide := ShelterBonus(pos, us, CastlingSquare(pos, us, pos.castlingKingsideFile));
      var atQueenSide := ShelterBonus(pos, us, CastlingSquare(pos, us, pos.castlingQueensideFile));
      && (best == atKing || (cr.kingSide && best == atKingSide) || (cr.queenSide && best == atQueenSide))
      && best.mg >= atKing.mg
      && (cr.kingSide ==> best.mg >= atKingSide.mg)
      && (cr.queenSide ==> best.mg >= atQueenSide.mg)
      && ((!cr.kingSide || atKingSide.mg <= atKing.mg) && (!cr.queenSide || atQueenSide.mg <= atKing.mg) ==> best == atKing)
  {
    ShelterBonusBounds(pos, us, pos.kingSquare.Get(us));
  }

  /** King safety is the best shelter with the endgame part lowered by exactly
      sixteen times the pawn distance. */
  lemma KingSafetyPhases(pos: Position, us: Color)
    requires pos.Fits() && 2 <= pos.maxFile
    ensures KingSafety(pos, us).mg == BestShelter(pos, us).mg
    ensures KingSafety(pos, us).eg == BestShelter(pos, us).eg - 16 * MinPawnDistance(pos, us)
    ensures KingSafety(pos, us).eg <= BestShelter(pos, us).eg
  {
  }
}
