/** The pawn hash table entry and the code that fills it: the per-side pawn
    evaluation, the table probe, the shelter scan and the king-safety score. */
module Pawns {
  import opened Types
  import opened Board
  import opened PawnStructure
  import opened KingShelter
  import opened KingShelterProperties

  /** The scan of `evaluate_shelter<us>` over the pawns of both sides outside
      the ranks behind the king: starting from (5, 5), each of the three files
      around the clamped king file adds its shelter term and subtracts its
      storm term. */
  method ScanShelter(pos: Position, us: Color, ksq: Square, ourPawns: set<Square>, theirPawns: set<Square>)
    returns (bonus: Score)
    requires pos.Fits() && 2 <= pos.maxFile
    requires ourPawns == ShelterPawns(pos, us, us, ksq) && theirPawns == ShelterPawns(pos, us.Opponent(), us, ksq)
    ensures bonus == ShelterBonus(pos, us, ksq)
  {
    bonus := Score(5, 5);
    var center := ShelterCenter(pos.maxFile, ksq.file);
    var f := center - 1;
    while f <= center + 1
      invariant center - 1 <= f <= center + 2
      invariant bonus == Score(5, 5).Add(ShelterSum(pos, us, ksq, center - 1, f))
    {
      bonus := AddFileTerm(pos, us, ksq, ourPawns, theirPawns, f, bonus);
      f := f + 1;
    }
  }

  /** The body of the `evaluate_shelter` loop for file f: the ranks of the
      pawns of both sides nearest to our side, the shelter term added to the
      bonus and the storm term subtracted from it. */
  method AddFileTerm(pos: Position, us: Color, ksq: Square, ourPawns: set<Square>, theirPawns: set<Square>, f: int, bonus: Score)
    returns (r: Score)
    requires pos.Fits() && 0 <= f <= pos.maxFile
    requires ourPawns == ShelterPawns(pos, us, us, ksq) && theirPawns == ShelterPawns(pos, us.Opponent(), us, ksq)
    ensures r == bonus.Add(FileShelter(pos, us, ksq, f))
  {
    var ourRank := NearestRank(ourPawns, us, f, pos.maxRank);
    var theirRank := NearestRank(theirPawns, us, f, pos.maxRank);
    var d := EdgeDistance(pos.maxFile, f);
    r := bonus.Add(ShelterTerm(d, ourRank, pos.capturesToHand));
    if ourRank != 0 && ourRank == theirRank - 1 {
      r := r.Sub(if theirRank == 2 then Score(BlockedStorm, BlockedStorm) else ScoreZero);
    } else {
      r := r.Sub(Score(UnblockedStorm(d, theirRank), 0));
    }
    FileShelterIsFileTerm(pos, us, ksq, f);
  }

  /** The `minPawnDist` block of `do_king_safety<us>`: 8 with pawns and 0
      without, 1 when a pawn stands next to the king, and otherwise the least
      distance from the king to a pawn, taken over the pawns one at a time. */
  method MinPawnDist(pos: Position, us: Color, ksq: Square) returns (minPawnDist: int)
    requires ksq == pos.kingSquare.Get(us)
    ensures minPawnDist == MinPawnDistance(pos, us)
  {
    var pawns := pos.pawns.Get(us);
    ghost var all := pawns;
    minPawnDist := if pawns != {} then MaxPawnDistance else 0;

    if pawns * KingAttacks(ksq) != {} {
      minPawnDist := 1;
    } else {
      while pawns != {}
        invariant pawns <= all
        invariant all == {} ==> minPawnDist == 0
        invariant all != {} ==> IsClampedMin(minPawnDist, all - pawns, ksq)
        decreases |pawns|
      {
        var p :| p in pawns;
        if Distance(ksq, p) < minPawnDist {
          minPawnDist := Distance(ksq, p);
        }
        pawns := pawns - {p};
      }
      if all != {} {
        assert all - pawns == all;
        ClampedMinFromIsMin(all, ksq, 0);
        ClampedMinUnique(minPawnDist, ClampedMinFrom(all, ksq, 0), all, ksq);
      }
    }
  }

  /** The scoring part of the `evaluate<us>` pawn loop for a pawn with flags f
      on relative rank r: the connected bonus, or the isolated or backward
      penalty, tried in that order, and then the doubled penalty. */
  method AddPawnScore(f: PawnFlags, r: int, manyPawns: bool, capturesToHand: bool, mustCapture: bool, score: Score)
    returns (result: Score)
    requires 0 <= r < GridRanks
    ensures result == score.Add(FlagScore(f, r, manyPawns, capturesToHand, mustCapture))
  {
    FlagScoreIsScoreOfFlags(f, r, manyPawns, capturesToHand, mustCapture);
    var unopposed := if f.opposed then ScoreZero else WeakUnopposed;
    var term := ScoreZero;
    if f.support + f.phalanx != {} {
      var v := ConnectedBonus(r, f, manyPawns, capturesToHand);
      term := ConnectedScore(v, r);
    } else if f.neighbours == {} {
      term := ScoreZero.Sub((if mustCapture then Isolated.Mul(3) else Isolated).Add(unopposed));
    } else if f.backward {
      term := ScoreZero.Sub(Backward.Add(unopposed));
    }
    if f.doubled != {} && f.support == {} {
      term := term.Sub(Doubled);
    }
    result := score.Add(term);
  }

  /** One slot of the pawn hash table (`Pawns::Entry`). */
  class Entry {
    var key: nat
    var scores: PerColor<Score>
    var passedPawns: PerColor<set<Square>>
    var pawnAttacks: PerColor<set<Square>>
    var pawnAttacksSpan: PerColor<set<Square>>
    var kingSquares: PerColor<Option<Square>>
    var castlingRights: PerColor<CastlingRights>

    /** A zero-initialised slot, as the table is allocated: every field holds
        0, so the king squares hold square 0 (A1), not SQ_NONE. */
    constructor ()
      ensures key == 0
      ensures scores == PerColor(ScoreZero, ScoreZero)
      ensures passedPawns == PerColor({}, {}) && pawnAttacks == PerColor({}, {}) && pawnAttacksSpan == PerColor({}, {})
      ensures kingSquares == PerColor(Some(Square(0, 0)), Some(Square(0, 0)))
      ensures castlingRights == PerColor(CastlingRights(false, false), CastlingRights(false, false))
    {
      key := 0;
      scores := PerColor(ScoreZero, ScoreZero);
      passedPawns := PerColor({}, {});
      pawnAttacks := PerColor({}, {});
      pawnAttacksSpan := PerColor({}, {});
      kingSquares := PerColor(Some(Square(0, 0)), Some(Square(0, 0)));
      castlingRights := PerColor(CastlingRights(false, false), CastlingRights(false, false));
    }

    /** `evaluate_shelter<us>`: the shelter is replaced by the bonus of a king
        on ksq only when the bonus is strictly better in the midgame. */
    method EvaluateShelter(pos: Position, us: Color, ksq: Square, shelter: Score) returns (result: Score)
      requires pos.Fits() && 2 <= pos.maxFile
      ensures result == KeepBetter(shelter, ShelterBonus(pos, us, ksq))
      ensures result.mg >= shelter.mg
    {
      var them := us.Opponent();
      var b := (pos.AllPawns(White) + pos.AllPawns(Black)) - ForwardRanksBB(them, ksq);
      var ourPawns := b * pos.AllPawns(us);
      var theirPawns := b * pos.AllPawns(them);
      ShelterPawnsSplit(pos, us, ksq);
      var bonus := ScanShelter(pos, us, ksq, ourPawns, theirPawns);
      if bonus.mg > shelter.mg {
        result := bonus;
      } else {
        result := shelter;
      }
    }

    /** `do_king_safety<us>`: records the king square and castling rights of
        us, finds the capped distance to the nearest own pawn, and returns the
        best shelter over the king square and the castling squares still held,
        minus sixteen times that distance in the endgame. */
    method DoKingSafety(pos: Position, us: Color) returns (r: Score)
      requires pos.Fits() && 2 <= pos.maxFile
      requires pos.OnBoard(pos.kingSquare.Get(us))
      requires pos.castlingRights.Get(us).kingSide ==> 0 <= pos.castlingKingsideFile <= pos.maxFile
      requires pos.castlingRights.Get(us).queenSide ==> 0 <= pos.castlingQueensideFile <= pos.maxFile
      modifies this
      ensures kingSquares == old(kingSquares).With(us, Some(pos.kingSquare.Get(us)))
      ensures castlingRights == old(castlingRights).With(us, pos.castlingRights.Get(us))
      ensures key == old(key) && scores == old(scores)
      ensures passedPawns == old(passedPawns) && pawnAttacks == old(pawnAttacks) && pawnAttacksSpan == old(pawnAttacksSpan)
      ensures r == KingSafety(pos, us)
    {
      var ksq := pos.kingSquare.Get(us);
      kingSquares := kingSquares.With(us, Some(ksq));
      castlingRights := castlingRights.With(us, pos.castlingRights.Get(us));

      var minPawnDist := MinPawnDist(pos, us, ksq);

      var shelter := Score(-ValueInfinite, 0);
      shelter := EvaluateShelter(pos, us, ksq, shelter);

      if pos.castlingRights.Get(us).kingSide {
        var s := CastlingSquare(pos, us, pos.castlingKingsideFile);
        shelter := EvaluateShelter(pos, us, s, shelter);
      }

      if pos.castlingRights.Get(us).queenSide {
        var s := CastlingSquare(pos, us, pos.castlingQueensideFile);
        shelter := EvaluateShelter(pos, us, s, shelter);
      }

      r := shelter.Sub(Score(0, 16 * minPawnDist));
    }
  }

  /** `evaluate<us>`: the side's score, stored nowhere, and the passed pawns,
      attacks, attack span and cleared king square it records in the entry for
      us. The fields of the other colour are left alone. */
  method Evaluate(pos: Position, us: Color, e: Entry) returns (score: Score)
    requires pos.Valid()
    modifies e
    ensures score == SideScore(pos, us)
    ensures e.passedPawns == old(e.passedPawns).With(us, PassedPawnsOf(pos, us))
    ensures e.pawnAttacksSpan == old(e.pawnAttacksSpan).With(us, AttackSpanOf(us, pos.pawnList.Get(us)))
    ensures e.pawnAttacks == old(e.pawnAttacks).With(us, PawnAttacksBB(us, pos.pawns.Get(us)))
    ensures e.kingSquares == old(e.kingSquares).With(us, None)
    ensures e.key == old(e.key) && e.scores == old(e.scores) && e.castlingRights == old(e.castlingRights)
  {
    var passed, span;
    score, passed, span := EvaluateSide(pos, us);
    e.kingSquares := e.kingSquares.With(us, None);
    e.pawnAttacks := e.pawnAttacks.With(us, PawnAttacksBB(us, pos.pawns.Get(us)));
    e.passedPawns := e.passedPawns.With(us, passed);
    e.pawnAttacksSpan := e.pawnAttacksSpan.With(us, span);
  }

  /** The computation of `evaluate<us>`: the pawn loop (`ScanPawns`), the
      weak-lever penalty for own pawns attacked twice that are neither defended
      nor passed, the no-pieces doubling and the isolated shogi-pawn penalties
      (`SubtractIsolatedShogi`). */
  method EvaluateSide(pos: Position, us: Color) returns (score: Score, passed: set<Square>, span: set<Square>)
    requires pos.Valid()
    ensures score == SideScore(pos, us)
    ensures passed == PassedPawnsOf(pos, us)
    ensures span == AttackSpanOf(us, pos.pawnList.Get(us))
  {
    var them := us.Opponent();
    var ourPawns := pos.pawns.Get(us);
    var theirPawns := pos.pawns.Get(them);
    var doubleAttackThem := PawnDoubleAttacksBB(them, theirPawns);
    var attacks := PawnAttacksBB(us, ourPawns);

    var pl := pos.pawnList.Get(us);
    score, passed, span := ScanPawns(pos, us, pl);
    PassedAmongPieceList(pos, us, pl);

    var b := ourPawns * doubleAttackThem - (attacks + passed);
    WeakLeversIsWeakLeversOf(pos, us);
    score := score.Sub(WeakLever.Mul(|b|));

    if pos.pieceCount.Get(us) == pos.PawnCount(us) {
      score := score.Mul(2);
    }

    score := SubtractIsolatedShogi(pos, us, score);
  }

  /** The pawn loop of `evaluate<us>` over the piece list pl: each pawn, in
      order, adds its attack span to `span`, joins `passed` when its flags say
      passed and its forward square is on the grid, and adds its score. */
  method ScanPawns(pos: Position, us: Color, pl: seq<Square>) returns (score: Score, passed: set<Square>, span: set<Square>)
    requires pos.Fits() && forall i :: 0 <= i < |pl| ==> pos.OnBoard(pl[i])
    ensures score == PawnsSum(pos, us, pl)
    ensures passed == PassedAmong(pos, us, pl)
    ensures span == AttackSpanOf(us, pl)
  {
    score, passed, span := ScoreZero, {}, {};
    var i := 0;
    assert pl[..0] == [];
    while i < |pl|
      invariant 0 <= i <= |pl|
      invariant score == PawnsSum(pos, us, pl[..i])
      invariant passed == PassedAmong(pos, us, pl[..i])
      invariant span == AttackSpanOf(us, pl[..i])
    {
      var s := pl[i];
      assert pl[..i + 1][..i] == pl[..i];
      span := span + PawnAttackSpan(us, s);

      var f := Flags(pos, us, s);
      if f.passed && IsOk(Forward(us, s)) {
        passed := passed + {s};
      }
      assert passed == PassedAmong(pos, us, pl[..i + 1]);

      score := AddPawnScore(f, RelativeRank(us, s, pos.maxRank), ManyPawns(pos, us), pos.capturesToHand, pos.mustCapture, score);
      assert score == PawnsSum(pos, us, pl[..i + 1]);
      i := i + 1;
    }
    assert pl[..|pl|] == pl;
  }

  /** The shogi-pawn loop of `evaluate<us>`: each shogi pawn of us without an
      own shogi pawn on an adjacent file costs half an `Isolated`. */
  method SubtractIsolatedShogi(pos: Position, us: Color, score: Score) returns (r: Score)
    ensures r == score.Sub(Isolated.Div(2).Mul(IsolatedShogiCount(pos, us, pos.shogiPawnList.Get(us))))
  {
    var sl := pos.shogiPawnList.Get(us);
    var ourShogi := pos.shogiPawns.Get(us);
    r := score;
    var j := 0;
    while j < |sl|
      invariant 0 <= j <= |sl|
      invariant r == score.Sub(Isolated.Div(2).Mul(IsolatedShogiCount(pos, us, sl[..j])))
    {
      assert sl[..j + 1][..j] == sl[..j];
      var neighbours := ourShogi * AdjacentFilesBB(sl[j]);
      if neighbours == {} {
        r := r.Sub(Isolated.Div(2));
      }
      j := j + 1;
    }
    assert sl[..|sl|] == sl;
  }

  /** `Pawns::probe`: the slot for the pawn key is returned as it is when it
      already holds that key and no shogi pawn is on the board; otherwise it
      takes the key and both sides are evaluated into it. The thread-local
      table is an array indexed by the key modulo its length. */
  method Probe(pos: Position, table: array<Entry>) returns (e: Entry)
    requires pos.Valid() && table.Length > 0
    modifies table[pos.pawnKey % table.Length]
    ensures e == table[pos.pawnKey % table.Length]
    ensures e.key == pos.pawnKey
    ensures old(e.key) == pos.pawnKey && !pos.HasShogiPawns() ==> unchanged(e)
    ensures old(e.key) != pos.pawnKey || pos.HasShogiPawns() ==>
      && e.scores == PerColor(SideScore(pos, White), SideScore(pos, Black))
      && e.passedPawns == PerColor(PassedPawnsOf(pos, White), PassedPawnsOf(pos, Black))
      && e.pawnAttacks == PerColor(PawnAttacksBB(White, pos.pawns.white), PawnAttacksBB(Black, pos.pawns.black))
      && e.pawnAttacksSpan == PerColor(AttackSpanOf(White, pos.pawnList.white), AttackSpanOf(Black, pos.pawnList.black))
      && e.kingSquares == PerColor(None, None)
      && e.castlingRights == old(e.castlingRights)
  {
    var key := pos.pawnKey;
    e := table[key % table.Length];

    if e.key == key && !pos.HasShogiPawns() {
      return;
    }

    e.key := key;
    var white := Evaluate(pos, White, e);
    e.scores := e.scores.With(White, white);
    var black := Evaluate(pos, Black, e);
    e.scores := e.scores.With(Black, black);
  }
}
