/** The board queries the pawn evaluator consumes: square-set (bitboard) geometry
    over the engine's fixed grid and an immutable snapshot of a position. The
    engine's bitboard and position code is not part of this model; each helper
    below states the set of squares its namesake stands for. */
module Board {
  import opened Types

  /** Size of the engine's fixed grid (FILE_NB x RANK_NB). A variant board uses the
      files 0..maxFile and ranks 0..maxRank of it. */
  const GridFiles := 12
  const GridRanks := 10

  /** `is_ok(s)`: the square index lies inside the fixed grid. */
  predicate IsOk(s: Square) {
    0 <= s.file < GridFiles && 0 <= s.rank < GridRanks
  }

  /** Every square of the grid: the universe of a bitboard. */
  function Grid(): (g: set<Square>)
    ensures forall s :: s in g <==> IsOk(s)
  {
    var g := set f, r | 0 <= f < GridFiles && 0 <= r < GridRanks :: Square(f, r);
    assert forall s | IsOk(s) :: s == Square(s.file, s.rank);
    g
  }

  /** The rank step of a pawn push (`Up`): north for White, south for Black. */
  function Up(c: Color): int {
    if c == White then 1 else -1
  }

  /** `s + Up`. */
  function Forward(c: Color, s: Square): Square {
    Square(s.file, s.rank + Up(c))
  }

  /** `s - Up`. */
  function Behind(c: Color, s: Square): Square {
    Square(s.file, s.rank - Up(c))
  }

  /** `relative_rank(c, s, maxRank)`: the rank of s counted from c's own side. */
  function RelativeRank(c: Color, s: Square, maxRank: int): int {
    if c == White then s.rank else maxRank - s.rank
  }

  /** q lies on a rank strictly in front of s, seen from c. */
  predicate IsAhead(c: Color, q: Square, s: Square) {
    if c == White then q.rank > s.rank else q.rank < s.rank
  }

  predicate OnAdjacentFile(q: Square, s: Square) {
    q.file == s.file - 1 || q.file == s.file + 1
  }

  /** `forward_ranks_bb(c, s)`. */
  function ForwardRanksBB(c: Color, s: Square): set<Square> {
    set q | q in Grid() && IsAhead(c, q, s)
  }

  /** `file_bb(f)`. */
  function FileBB(f: int): set<Square> {
    set q | q in Grid() && q.file == f
  }

  /** `rank_bb(r)`. */
  function RankBB(r: int): set<Square> {
    set q | q in Grid() && q.rank == r
  }

  /** `adjacent_files_bb(s)`. */
  function AdjacentFilesBB(s: Square): set<Square> {
    set q | q in Grid() && OnAdjacentFile(q, s)
  }

  /** `forward_file_bb(c, s)`: the squares in front of s on its own file. */
  function ForwardFileBB(c: Color, s: Square): set<Square> {
    ForwardRanksBB(c, s) * FileBB(s.file)
  }

  /** `pawn_attack_span(c, s)`: every square a c pawn on s could attack while advancing. */
  function PawnAttackSpan(c: Color, s: Square): set<Square> {
    ForwardRanksBB(c, s) * AdjacentFilesBB(s)
  }

  /** `passed_pawn_span(c, s)`: the squares in front of s on its own and the adjacent files. */
  function PassedPawnSpan(c: Color, s: Square): set<Square> {
    ForwardRanksBB(c, s) * (AdjacentFilesBB(s) + FileBB(s.file))
  }

  /** `PseudoAttacks[c][PAWN][s]`: the two diagonal squares a c pawn on s attacks. */
  function PawnAttacks(c: Color, s: Square): set<Square> {
    set q | q in Grid() && q.rank == s.rank + Up(c) && OnAdjacentFile(q, s)
  }

  /** The squares a pawn attacks, from where it stands or after one push, lie in its passed-pawn span. */
  lemma PawnAttacksInSpan(c: Color, s: Square)
    ensures PawnAttacks(c, s) <= PassedPawnSpan(c, s)
    ensures PawnAttacks(c, Forward(c, s)) <= PassedPawnSpan(c, s)
  {
  }

  /** `pawn_attacks_bb<c>(b)`: the squares some c pawn of b attacks. */
  function PawnAttacksBB(c: Color, b: set<Square>): set<Square> {
    set q | q in Grid() && (Square(q.file - 1, q.rank - Up(c)) in b || Square(q.file + 1, q.rank - Up(c)) in b)
  }

  /** `pawn_double_attacks_bb<c>(b)`: the squares two c pawns of b attack at once. */
  function PawnDoubleAttacksBB(c: Color, b: set<Square>): set<Square> {
    set q | q in Grid() && Square(q.file - 1, q.rank - Up(c)) in b && Square(q.file + 1, q.rank - Up(c)) in b
  }

  /** Fewer pawns attack fewer squares twice. */
  lemma PawnDoubleAttacksMonotone(c: Color, b: set<Square>, b': set<Square>)
    requires b <= b'
    ensures PawnDoubleAttacksBB(c, b) <= PawnDoubleAttacksBB(c, b')
  {
  }

  /** `shift<Up>(b)`: every square of b moved one rank forward for c. */
  function ShiftBB(c: Color, b: set<Square>): set<Square> {
    set q | q in Grid() && Behind(c, q) in b
  }

  function Abs(x: int): nat {
    if x < 0 then -x else x
  }

  /** `distance(a, b)`: the number of king steps between two squares. */
  function Distance(a: Square, b: Square): nat {
    if Abs(a.file - b.file) < Abs(a.rank - b.rank) then Abs(a.rank - b.rank) else Abs(a.file - b.file)
  }

  /** `PseudoAttacks[c][KING][s]`: the squares next to s. */
  function KingAttacks(s: Square): set<Square> {
    set q | q in Grid() && Distance(q, s) == 1
  }

  /** l is a piece list for the bitboard b: each square of b exactly once. */
  predicate IsPieceList(l: seq<Square>, b: set<Square>) {
    && (forall i :: 0 <= i < |l| ==> l[i] in b)
    && (forall s :: s in b ==> s in l)
    && (forall i, j :: 0 <= i < j < |l| ==> l[i] != l[j])
  }

  /** A list without repetitions holds each of its squares exactly once. */
  lemma {:induction false} DistinctMultiset(l: seq<Square>)
    requires forall i, j :: 0 <= i < j < |l| ==> l[i] != l[j]
    ensures forall x :: multiset(l)[x] == if x in l then 1 else 0
  {
    if l != [] {
      var init, last := l[..|l| - 1], l[|l| - 1];
      DistinctMultiset(init);
      assert last !in init by {
        forall k | 0 <= k < |init| ensures init[k] != last {
          assert init[k] == l[k];
        }
      }
      assert l == init + [last];
    }
  }

  /** Two piece lists of the same bitboard differ only in order. */
  lemma PieceListsSameMultiset(l: seq<Square>, l': seq<Square>, b: set<Square>)
    requires IsPieceList(l, b) && IsPieceList(l', b)
    ensures multiset(l) == multiset(l')
  {
    DistinctMultiset(l);
    DistinctMultiset(l');
    assert forall x :: x in l <==> x in l';
  }

  /** The snapshot of a position that the pawn code reads. */
  datatype Position = Position(
    maxFile: int,                              // max_file()
    maxRank: int,                              // max_rank()
    pawns: PerColor<set<Square>>,              // pieces(c, PAWN)
    pawnList: PerColor<seq<Square>>,           // squares<PAWN>(c)
    shogiPawns: PerColor<set<Square>>,         // pieces(c, SHOGI_PAWN)
    shogiPawnList: PerColor<seq<Square>>,      // squares<SHOGI_PAWN>(c)
    pieceCount: PerColor<int>,                 // count<ALL_PIECES>(c)
    kingSquare: PerColor<Square>,              // square<KING>(c)
    castlingRights: PerColor<CastlingRights>,  // castling_rights(c)
    castlingKingsideFile: int,                 // castling_kingside_file()
    castlingQueensideFile: int,                // castling_queenside_file()
    pawnKey: nat,                              // pawn_key()
    capturesToHand: bool,                      // captures_to_hand()
    mustCapture: bool                          // must_capture()
  ) {
    predicate OnBoard(s: Square) {
      0 <= s.file <= maxFile && 0 <= s.rank <= maxRank
    }

    predicate AllOnBoard(b: set<Square>) {
      forall s :: s in b ==> OnBoard(s)
    }

    /** The board's files and ranks lie inside the fixed grid. */
    predicate Fits() {
      0 <= maxFile < GridFiles && 0 <= maxRank < GridRanks
    }

    /** What the board representation guarantees to the pawn evaluation: the
        board fits the grid, piece lists agree with bitboards, and the pawns
        and shogi pawns are on the board. */
    predicate Valid() {
      && Fits()
      && IsPieceList(pawnList.white, pawns.white) && IsPieceList(pawnList.black, pawns.black)
      && IsPieceList(shogiPawnList.white, shogiPawns.white) && IsPieceList(shogiPawnList.black, shogiPawns.black)
      && AllOnBoard(pawns.white) && AllOnBoard(pawns.black)
      && AllOnBoard(shogiPawns.white) && AllOnBoard(shogiPawns.black)
    }

    /** `board_bb()`: the squares of the playing area. */
    function BoardBB(): (b: set<Square>)
      ensures forall q :: q in b <==> IsOk(q) && OnBoard(q)
    {
      set q | q in Grid() && OnBoard(q)
    }

    /** `popcount(board_bb())`: the number of squares of the board. */
    function BoardSquareCount(): nat {
      |BoardBB()|
    }

    /** `count<PAWN>(c)`. */
    function PawnCount(c: Color): nat {
      |pawns.Get(c)|
    }

    /** `pieces(SHOGI_PAWN) != 0`. */
    predicate HasShogiPawns() {
      shogiPawns.white != {} || shogiPawns.black != {}
    }

    /** `pieces(PAWN, SHOGI_PAWN) & pieces(c)`. */
    function AllPawns(c: Color): set<Square> {
      pawns.Get(c) + shogiPawns.Get(c)
    }
  }
}
