/** Basic value types shared by the pawn-structure model: colours, squares,
    per-colour pairs and two-phase scores. */
module Types {

  datatype Color = White | Black {
    /** The other side (`~c` in the engine). */
    function Opponent(): (o: Color)
      ensures o != this
    {
      if this == White then Black else White
    }
  }

  datatype Option<T> = None | Some(value: T)

  /** A square of the engine's fixed grid, by file and rank (both counted from 0). */
  datatype Square = Square(file: int, rank: int)

  /** A two-element array indexed by colour (`T x[COLOR_NB]`). */
  datatype PerColor<T> = PerColor(white: T, black: T) {
    function Get(c: Color): T {
      if c == White then white else black
    }

    /** The pair after the assignment `x[c] = v`. */
    function With(c: Color, v: T): (p: PerColor<T>)
      ensures p.Get(c) == v && p.Get(c.Opponent()) == Get(c.Opponent())
    {
      if c == White then PerColor(v, black) else PerColor(white, v)
    }
  }

  /** The castling rights a side still holds. */
  datatype CastlingRights = CastlingRights(kingSide: bool, queenSide: bool)

  /** Integer division as C++ computes it on `int`: the quotient is truncated toward zero. */
  function TDiv(a: int, b: int): int
    requires b > 0
  {
    if a >= 0 then a / b else -((-a) / b)
  }

  /** A midgame/endgame pair; the packing of both halves into one machine word is not modelled. */
  datatype Score = Score(mg: int, eg: int) {
    function Add(o: Score): Score {
      Score(mg + o.mg, eg + o.eg)
    }

    function Sub(o: Score): Score {
      Score(mg - o.mg, eg - o.eg)
    }

    /** `Score * k` for a count k, as k-fold addition. */
    function Mul(k: int): Score {
      Score(mg * k, eg * k)
    }

    /** `Score / int`: each half divided with C++ truncation. */
    function Div(k: int): Score
      requires k > 0
    {
      Score(TDiv(mg, k), TDiv(eg, k))
    }
  }

  const ScoreZero := Score(0, 0)
}
