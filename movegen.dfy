// Pseudo-legal move generation as functions over a Position, the legal
// filter (make, test the king, undo), and what they guarantee.

module MoveGen {
  import opened Tables
  import opened Squares
  import opened Moves
  import opened Rules

  // ------------------------------------------------------------- add moves

  /** addSingleMove: the capture field reads the target cell (a byte index). */
  function SingleMove(b: seq<int>, piece: int, from: int, to: int, flags: int, promote: int): Move
  {
    var t := Byte(to);
    var capture :=
      if IsCastle(flags) then 0
      else if Get(b, t) != 0 then Type(Get(b, t))
      else if HasBit(flags, BITS_EP_CAPTURE) then PAWN
      else 0;
    Move(capture, Byte(flags), Byte(from), "", Byte(piece), Byte(promote), t)
  }

  /** A pawn reaching the first or last rank. */
  predicate Promotes(piece: int, to: int)
  {
    Type(piece) == PAWN && Rank(to) % 7 == 0
  }

  /** addMove: a promotion becomes four moves, queen, rook, bishop then knight. */
  function AddMove(b: seq<int>, piece: int, from: int, to: int, flags: int): seq<Move>
  {
    if Promotes(piece, to) then
      var f := WithPromotion(flags);
      [SingleMove(b, piece, from, to, f, QUEEN), SingleMove(b, piece, from, to, f, ROOK),
       SingleMove(b, piece, from, to, f, BISHOP), SingleMove(b, piece, from, to, f, KNIGHT)]
    else [SingleMove(b, piece, from, to, flags, 0)]
  }

  /** A pawn move to rank 0 or 7 yields the four promotions, every other move one move. */
  lemma PromotionQuartet(b: seq<int>, piece: int, from: int, to: int, flags: int)
    requires 0 <= flags < 128
    ensures var ms := AddMove(b, piece, from, to, flags);
      (Promotes(piece, to) ==>
        (|ms| == 4 && ms[0].promote == QUEEN && ms[1].promote == ROOK &&
         ms[2].promote == BISHOP && ms[3].promote == KNIGHT &&
         forall k | 0 <= k < 4 :: HasBit(ms[k].flags, BITS_PROMOTION))) &&
      (!Promotes(piece, to) ==> |ms| == 1 && ms[0].promote == 0 && ms[0].flags == flags) &&
      forall k | 0 <= k < |ms| :: ms[k].from == Byte(from) && ms[k].to == Byte(to) && ms[k].piece == Byte(piece)
  {
  }

  // ----------------------------------------------------------------- pawns

  /** PAWN_OFFSETS[us]: single push, double push, the two captures. */
  function PawnSteps(us: int): seq<int>
  {
    if us == WHITE then [-16, -32, -17, -15] else [16, 32, 17, 15]
  }

  lemma PawnRowSteps(us: int)
    requires us == WHITE || us == BLACK
    ensures Row(PAWN_OFFSETS, us) == PawnSteps(us)
  {

  }

  /** A pawn capture towards sq: an opposing piece, or the en passant square. */
  function PawnCapture(p: Position, piece: int, i: int, sq: int): seq<Move>
  {
    if OffBoard(sq) then []
    else if Get(p.board, sq) != 0 && Color(Get(p.board, sq)) == 1 - p.turn then AddMove(p.board, piece, i, sq, BITS_CAPTURE)
    else if sq == p.epSquare then AddMove(p.board, piece, i, p.epSquare, BITS_EP_CAPTURE)
    else []
  }

  /** The pushes of the pawn on i: one step if free, then two from its second rank. */
  function PawnPushes(p: Position, i: int, piece: int, offsets: seq<int>, onlyCapture: bool): seq<Move>
  {
    var push := i + Get(offsets, 0);
    var push2 := i + Get(offsets, 1);
    if onlyCapture || Get(p.board, push) != 0 then []
    else AddMove(p.board, piece, i, push, BITS_NORMAL) + DoublePush(p, i, piece, push2)
  }

  /** The double push onto push2, only from the pawn's second rank and onto an empty square. */
  function DoublePush(p: Position, i: int, piece: int, push2: int): seq<Move>
  {
    if 6 - p.turn * 5 == Rank(i) && Get(p.board, push2) == 0 then AddMove(p.board, piece, i, push2, BITS_BIG_PAWN) else []
  }

  /** The pawn on i, with its row `offsets` of PAWN_OFFSETS: pushes, then the two captures. */
  function PawnMoves(p: Position, i: int, piece: int, offsets: seq<int>, onlyCapture: bool): seq<Move>
  {
    PawnPushes(p, i, piece, offsets, onlyCapture) +
    PawnCapture(p, piece, i, i + Get(offsets, 2)) + PawnCapture(p, piece, i, i + Get(offsets, 3))
  }

  // ---------------------------------------------------------------- pieces

  /** Every step of the list moves at most two ranks and one file. */
  predicate ShortSteps(offsets: seq<int>)
  {
    forall k | 0 <= k < |offsets| :: -33 <= offsets[k] <= 33
  }

  lemma PieceRowShort(typ: int)
    ensures ShortSteps(Row(PIECE_OFFSETS, typ))
  {
    if 0 <= typ < 7 {
      forall k | 0 <= k < 8
        ensures -33 <= PIECE_OFFSETS[typ][k] <= 33
      {
        if typ == 0 {} else if typ == 1 {} else if typ == 2 {} else if typ == 3 {}
        else if typ == 4 {} else if typ == 5 {} else {}
      }
    }
  }

  /** The squares along one direction: free squares, then a capture or an own piece. */
  function RayWalk(p: Position, piece: int, from: int, offset: int, sq: int, typ: int, onlyCapture: bool): seq<Move>
    requires -40 <= sq <= 160 && -40 <= offset <= 40 && offset != 0
    decreases if offset > 0 then 200 - sq else sq + 200
  {
    OffBoardNear(sq);
    if OffBoard(sq) then []
    else if Get(p.board, sq) == 0 then
      (if onlyCapture then [] else AddMove(p.board, piece, from, sq, BITS_NORMAL)) +
      (if typ == KING || typ == KNIGHT then [] else RayWalk(p, piece, from, offset, sq + offset, typ, onlyCapture))
    else if Color(Get(p.board, sq)) == p.turn then []
    else AddMove(p.board, piece, from, sq, BITS_CAPTURE)
  }

  /** The directions of a piece type (its row of PIECE_OFFSETS) from index j onward;
      a zero offset ends the list. */
  function PieceRays(p: Position, piece: int, i: int, offsets: seq<int>, typ: int, j: int, onlyCapture: bool): seq<Move>
    requires OnBoard(i) && ShortSteps(offsets)
    decreases 8 - j
  {
    if j >= 8 || j < 0 then []
    else
      var offset := Get(offsets, j);
      if offset == 0 then []
      else RayWalk(p, piece, i, offset, i + offset, typ, onlyCapture) + PieceRays(p, piece, i, offsets, typ, j + 1, onlyCapture)
  }

  /** One direction of PieceRays, for the loop that walks them. */
  lemma PieceRaysStep(p: Position, piece: int, i: int, offsets: seq<int>, typ: int, j: int, onlyCapture: bool)
    requires OnBoard(i) && ShortSteps(offsets) && 0 <= j < 8 && Get(offsets, j) != 0
    ensures -33 <= Get(offsets, j) <= 33
    ensures PieceRays(p, piece, i, offsets, typ, j, onlyCapture) ==
      RayWalk(p, piece, i, Get(offsets, j), i + Get(offsets, j), typ, onlyCapture) + PieceRays(p, piece, i, offsets, typ, j + 1, onlyCapture)
  { }

  /** The loop over the directions: appending direction j moves the split point on by one. */
  lemma PieceRaysShift(p: Position, piece: int, i: int, offsets: seq<int>, typ: int, j: int, onlyCapture: bool,
                       done: seq<Move>, all: seq<Move>)
    requires OnBoard(i) && ShortSteps(offsets) && 0 <= j < 8 && Get(offsets, j) != 0
    requires done + PieceRays(p, piece, i, offsets, typ, j, onlyCapture) == all
    ensures -33 <= Get(offsets, j) <= 33
    ensures (done + RayWalk(p, piece, i, Get(offsets, j), i + Get(offsets, j), typ, onlyCapture)) +
      PieceRays(p, piece, i, offsets, typ, j + 1, onlyCapture) == all
  {
    PieceRaysStep(p, piece, i, offsets, typ, j, onlyCapture);
    var ray := RayWalk(p, piece, i, Get(offsets, j), i + Get(offsets, j), typ, onlyCapture);
    var rest := PieceRays(p, piece, i, offsets, typ, j + 1, onlyCapture);
    assert (done + ray) + rest == done + (ray + rest);
  }

  /** PieceRays ends at the eighth offset or the first zero one. */
  lemma PieceRaysEnd(p: Position, piece: int, i: int, offsets: seq<int>, typ: int, j: int, onlyCapture: bool)
    requires OnBoard(i) && ShortSteps(offsets) && (j >= 8 || Get(offsets, j) == 0)
    ensures PieceRays(p, piece, i, offsets, typ, j, onlyCapture) == []
  { }

  /** The moves of the piece on square i, if it belongs to the side to move. */
  function SquareMoves(p: Position, i: int, onlyCapture: bool): seq<Move>
    requires OnBoard(i)
  {
    var piece := Get(p.board, i);
    if piece == 0 || Color(piece) != p.turn then []
    else if Type(piece) == PAWN then PawnMoves(p, i, piece, Row(PAWN_OFFSETS, p.turn), onlyCapture)
    else
      PieceRowShort(Type(piece));
      PieceRays(p, piece, i, Row(PIECE_OFFSETS, Type(piece)), Type(piece), 0, onlyCapture)
  }

  /** A table of square moves: entry k holds the moves of square k, for every playing square. */
  predicate TableOf(t: seq<seq<Move>>, p: Position, onlyCapture: bool)
  {
    |t| == 128 &&
    forall k {:trigger SquareMoves(p, k, onlyCapture)} | 0 <= k < 128 && OnBoard(k) :: t[k] == SquareMoves(p, k, onlyCapture)
  }

  /** The moves of every square of the position. */
  function SquareTable(p: Position, onlyCapture: bool): (t: seq<seq<Move>>)
    ensures TableOf(t, p, onlyCapture)
  {
    seq(128, k requires 0 <= k < 128 => if OnBoard(k) then SquareMoves(p, k, onlyCapture) else [])
  }

  /** The square scan over a table of square moves, from square i onward. */
  function GenFromTable(t: seq<seq<Move>>, i: int): seq<Move>
    requires |t| == 128
    decreases SQUARE_H1 + 1 - i
  {
    if i > SQUARE_H1 || i < 0 then []
    else if OffBoard(i) then GenFromTable(t, i + 8)
    else t[i] + GenFromTable(t, i + 1)
  }

  /** The square scan of createMoves from square i onward: the moves of each
      playing square in turn. */
  function GenFrom(p: Position, i: int, onlyCapture: bool): seq<Move>
  {
    GenFromTable(SquareTable(p, onlyCapture), i)
  }

  // -------------------------------------------------------------- castling

  function Min(a: int, b: int): int { if a <= b then a else b }
  function Max(a: int, b: int): int { if a >= b then a else b }

  /** Every square from lo to hi is empty, king and rook squares apart. */
  predicate PathClear(b: seq<int>, lo: int, hi: int, king: int, rook: int)
  {
    forall j | lo <= j <= hi && j != king && j != rook :: Get(b, j) == 0
  }

  /** The square test of the castling loop: is square k attacked by `them`? */
  function AttackedBy(b: seq<int>, them: int): int -> bool
  {
    k => Attacked(b, them, k)
  }

  /** No square from lo to hi is attacked by `them`. */
  predicate Unattacked(b: seq<int>, them: int, lo: int, hi: int)
  {
    forall k | lo <= k <= hi :: !AttackedBy(b, them)(k)
  }

  /** One square of the castling loop's check. */
  lemma UnattackedStep(b: seq<int>, them: int, j: int, hi: int)
    requires j <= hi
    ensures Unattacked(b, them, j, hi) == (!Attacked(b, them, j) && Unattacked(b, them, j + 1, hi))
  {
    assert AttackedBy(b, them)(j) == Attacked(b, them, j);
  }

  /** Castling on one side (q = 0 king side, 1 queen side): the rook still has its right,
      the path is free and the king crosses no attacked square. In standard chess the
      move goes to the king's target, otherwise (Chess960) to the rook. */
  function CastleSide(p: Position, frc: bool, king: int, q: int): seq<Move>
  {
    var rook := Get(p.castling, 2 * p.turn + q);
    if rook == EMPTY then [] else CastleWith(p.board, p.turn, frc, king, rook, q)
  }

  /** Castling on one side is castling with the rook the rights name, when there is one. */
  lemma CastleSideRook(p: Position, frc: bool, king: int, q: int, rook: int)
    requires rook == Get(p.castling, 2 * p.turn + q)
    ensures CastleSide(p, frc, king, q) == if rook == EMPTY then [] else CastleWith(p.board, p.turn, frc, king, rook, q)
  { }

  /** Castling with a rook that still has its right. */
  function CastleWith(b: seq<int>, us: int, frc: bool, king: int, rook: int, q: int): seq<Move>
  {
    if !CastleGate(b, us, king, rook, q) then [] else CastleMove(b, us, frc, king, rook, q)
  }

  /** The castle's two checks: the squares both pieces cross are empty (but for the two pieces),
      and no square the king stands on or crosses is attacked by the opponent. */
  predicate CastleGate(b: seq<int>, us: int, king: int, rook: int, q: int)
  {
    var kingTo := CastleKingTo(king, q);
    var rookTo := kingTo - 1 + 2 * q;
    var maxKing := Max(king, kingTo);
    var minKing := Min(king, kingTo);
    var maxPath := Max(maxKing, Max(rook, rookTo));
    var minPath := Min(minKing, Min(rook, rookTo));
    PathClear(b, minPath, maxPath, king, rook) && Unattacked(b, 1 - us, minKing, maxKing)
  }

  /** The castle itself: standard chess moves the king to its target, a Chess960 castle
      (or one not from the e-file with a corner rook) moves it onto the rook. */
  function CastleMove(b: seq<int>, us: int, frc: bool, king: int, rook: int, q: int): seq<Move>
  {
    AddMove(b, Colorize(us, KING), king,
      if frc || File(king) != 4 || File(rook) % 7 != 0 then rook else CastleKingTo(king, q),
      if q == 1 then BITS_QSIDE_CASTLE else BITS_KSIDE_CASTLE)
  }

  function CastleMoves(p: Position, frc: bool): seq<Move>
  {
    var king := Get(p.kings, p.turn);
    if king == EMPTY then [] else CastleSide(p, frc, king, 0) + CastleSide(p, frc, king, 1)
  }

  /** createMoves(frc, false, onlyCapture): the pseudo-legal moves, in generation order. */
  function PseudoMoves(p: Position, frc: bool, onlyCapture: bool): seq<Move>
  {
    GenFrom(p, SQUARE_A8, onlyCapture) + (if onlyCapture then [] else CastleMoves(p, frc))
  }

  // ------------------------------------------------------ consistent states

  /** The king square of color c is unknown, or holds that king. */
  predicate KingPlaced(p: Position, c: int)
    requires WellFormed(p) && 0 <= c < 2
  {
    p.kings[c] == EMPTY || (OnBoard(p.kings[c]) && p.board[p.kings[c]] == Colorize(c, KING))
  }

  /** Castling right k (2 * color + side) is gone, or names a square holding that rook. */
  predicate RookPlaced(p: Position, k: int)
    requires WellFormed(p) && 0 <= k < 4
  {
    p.castling[k] == EMPTY || (OnBoard(p.castling[k]) && p.board[p.castling[k]] == Colorize(k / 2, ROOK))
  }

  /** The en passant square is unset, or empty with the pawn that just passed it behind. */
  predicate EpPlaced(p: Position)
    requires WellFormed(p)
  {
    var c := p.epSquare + 16 - 32 * p.turn;
    p.epSquare == EMPTY ||
    (OnBoard(p.epSquare) && p.board[p.epSquare] == 0 && 0 <= c < 128 && p.board[c] == Colorize(1 - p.turn, PAWN))
  }

  /** Every cell holds 0 or a piece code of white or black. */
  predicate PiecesOnly(p: Position)
    requires WellFormed(p)
  {
    forall i | 0 <= i < 128 :: 0 <= p.board[i] < 16
  }

  /**
   * What a position reached by play satisfies (and what the undo record relies on):
   * cells hold 0 or a piece of either color, the king, rook and en passant records
   * agree with the board, and no pawn of the side to move stands on its last rank.
   */
  predicate Consistent(p: Position)
  {
    WellFormed(p) && PiecesOnly(p) &&
    KingPlaced(p, WHITE) && KingPlaced(p, BLACK) &&
    RookPlaced(p, 0) && RookPlaced(p, 1) && RookPlaced(p, 2) && RookPlaced(p, 3) &&
    EpPlaced(p) &&
    (forall i | 0 <= i < 128 && p.board[i] == Colorize(p.turn, PAWN) :: Rank(i) != 7 * p.turn)
  }

  /** The flag values the generator uses, decoded. */
  lemma FlagValues()
    ensures !IsCastle(1) && !IsCastle(2) && !IsCastle(4) && !IsCastle(8)
    ensures !IsCastle(17) && !IsCastle(18) && !IsCastle(24)
    ensures !HasBit(1, 2) && !HasBit(1, 4) && !HasBit(1, 8) && !HasBit(1, 16)
    ensures HasBit(2, 2) && !HasBit(2, 4) && !HasBit(2, 8) && !HasBit(2, 16)
    ensures !HasBit(4, 2) && HasBit(4, 4) && !HasBit(4, 8)
    ensures !HasBit(8, 2) && !HasBit(8, 4) && HasBit(8, 8) && !HasBit(8, 16)
    ensures WithPromotion(1) == 17 && !HasBit(17, 2) && !HasBit(17, 4) && !HasBit(17, 8) && HasBit(17, 16)
    ensures WithPromotion(2) == 18 && HasBit(18, 2) && !HasBit(18, 4) && !HasBit(18, 8) && HasBit(18, 16)
    ensures WithPromotion(8) == 24 && !HasBit(24, 2) && !HasBit(24, 4) && HasBit(24, 8) && HasBit(24, 16)
    ensures IsCastle(32) && IsCastle(64) && QSide(32) == 0 && QSide(64) == 1
  {
  }

  /** Every move of the list fits the position. */
  predicate AllFit(p: Position, ms: seq<Move>)
    requires WellFormed(p)
  {
    forall m | m in ms :: Fits(p, m)
  }

  lemma AllFitAppend(p: Position, a: seq<Move>, b: seq<Move>)
    requires WellFormed(p) && AllFit(p, a) && AllFit(p, b)
    ensures AllFit(p, a + b)
  {
  }

  /** A quiet move or double push onto an empty square fits. */
  lemma QuietFits(p: Position, piece: int, from: int, to: int, flags: int)
    requires WellFormed(p) && 0 <= from < 128 && 0 <= to < 128 && from != to
    requires p.board[from] == piece && 0 <= piece < 16 && p.board[to] == 0
    requires flags == BITS_NORMAL || (flags == BITS_BIG_PAWN && Type(piece) == PAWN && !Promotes(piece, to))
    ensures forall m | m in AddMove(p.board, piece, from, to, flags) :: Fits(p, m)
  {
    FlagValues();
    PromotionQuartet(p.board, piece, from, to, flags);
  }

  /** A capture of an opposing piece fits. */
  lemma CaptureFits(p: Position, piece: int, from: int, to: int)
    requires WellFormed(p) && 0 <= from < 128 && 0 <= to < 128 && from != to
    requires p.board[from] == piece && 0 <= piece < 16
    requires 0 < p.board[to] < 16 && Color(p.board[to]) == 1 - p.turn
    ensures forall m | m in AddMove(p.board, piece, from, to, BITS_CAPTURE) :: Fits(p, m)
  {
    FlagValues();
    PromotionQuartet(p.board, piece, from, to, BITS_CAPTURE);
    var t := p.board[to];
    assert t == Colorize(1 - p.turn, Type(t));
  }

  /** An en passant capture fits when the passed pawn stands behind the target. */
  lemma EnPassantFits(p: Position, piece: int, from: int, to: int)
    requires WellFormed(p) && 0 <= from < 128 && 0 <= to < 128 && from != to
    requires p.board[from] == piece && 0 <= piece < 16 && Type(piece) == PAWN && p.board[to] == 0
    requires var c := to + 16 - 32 * p.turn; 0 <= c < 128 && c != from && p.board[c] == Colorize(1 - p.turn, PAWN)
    ensures forall m | m in AddMove(p.board, piece, from, to, BITS_EP_CAPTURE) :: Fits(p, m)
  {
    FlagValues();
    PromotionQuartet(p.board, piece, from, to, BITS_EP_CAPTURE);
  }

  /** Each pawn capture lands diagonally, one file beside the pawn. */
  lemma PawnCaptureFits(p: Position, piece: int, i: int, sq: int)
    requires WellFormed(p) && PiecesOnly(p) && EpPlaced(p) && OnBoard(i) && p.board[i] == piece && Type(piece) == PAWN
    requires sq + 16 - 32 * p.turn == i - 1 || sq + 16 - 32 * p.turn == i + 1
    ensures AllFit(p, PawnCapture(p, piece, i, sq))
  {
    OffBoardNear(sq);
    if !OffBoard(sq) {
      assert 0 <= p.board[sq] < 16 && 0 <= piece < 16;
      if Get(p.board, sq) != 0 && Color(Get(p.board, sq)) == 1 - p.turn {
        CaptureFits(p, piece, i, sq);
      } else if sq == p.epSquare {
        assert EpPlaced(p);
        EnPassantFits(p, piece, i, sq);
      }
    }
  }

  lemma PawnPushesFit(p: Position, i: int, piece: int, onlyCapture: bool)
    requires WellFormed(p) && PiecesOnly(p) && OnBoard(i) && p.board[i] == piece
    requires piece == Colorize(p.turn, PAWN) && Rank(i) != 7 * p.turn
    ensures AllFit(p, PawnPushes(p, i, piece, PawnSteps(p.turn), onlyCapture))
  {
    var us := p.turn;
    var f := 32 * us - 16;
    assert Get(PawnSteps(us), 0) == f && Get(PawnSteps(us), 1) == 2 * f;
    var push := i + f;
    if !(onlyCapture || Get(p.board, push) != 0) {
      assert OnBoard(push) by {
        if us == WHITE { assert i >= 16; } else { assert i < 112; }
      }
      QuietFits(p, piece, i, push, BITS_NORMAL);
      DoublePushFits(p, i, piece);
      var double := DoublePush(p, i, piece, i + 2 * f);
      AllFitAppend(p, AddMove(p.board, piece, i, push, BITS_NORMAL), double);
      PawnPushesSplit(p, i, piece, PawnSteps(us), onlyCapture);
    }
  }

  /** Free of the single push's square, the pushes are the single push and the double push. */
  lemma PawnPushesSplit(p: Position, i: int, piece: int, offsets: seq<int>, onlyCapture: bool)
    requires !(onlyCapture || Get(p.board, i + Get(offsets, 0)) != 0)
    ensures PawnPushes(p, i, piece, offsets, onlyCapture) ==
      AddMove(p.board, piece, i, i + Get(offsets, 0), BITS_NORMAL) + DoublePush(p, i, piece, i + Get(offsets, 1))
  { }

  /** The double push of a pawn from its second rank fits. */
  lemma DoublePushFits(p: Position, i: int, piece: int)
    requires WellFormed(p) && PiecesOnly(p) && OnBoard(i) && p.board[i] == piece
    requires piece == Colorize(p.turn, PAWN)
    ensures AllFit(p, DoublePush(p, i, piece, i + 2 * (32 * p.turn - 16)))
  {
    var us := p.turn;
    var push2 := i + 2 * (32 * us - 16);
    if 6 - us * 5 == Rank(i) && Get(p.board, push2) == 0 {
      assert OnBoard(push2) && Rank(push2) % 7 != 0 by {
        if us == WHITE { assert Rank(push2) == 4; } else { assert Rank(push2) == 3; }
      }
      QuietFits(p, piece, i, push2, BITS_BIG_PAWN);
    }
  }

  lemma PawnMovesFit(p: Position, i: int, piece: int, onlyCapture: bool)
    requires WellFormed(p) && PiecesOnly(p) && EpPlaced(p) && OnBoard(i) && p.board[i] == piece
    requires piece == Colorize(p.turn, PAWN) && Rank(i) != 7 * p.turn
    ensures AllFit(p, PawnMoves(p, i, piece, PawnSteps(p.turn), onlyCapture))
  {
    var offsets := PawnSteps(p.turn);
    var f := 32 * p.turn - 16;
    var left := if p.turn == WHITE then i + f - 1 else i + f + 1;
    var right := if p.turn == WHITE then i + f + 1 else i + f - 1;
    assert offsets[2] == left - i && offsets[3] == right - i;
    var a := PawnPushes(p, i, piece, offsets, onlyCapture);
    var b := PawnCapture(p, piece, i, left);
    var c := PawnCapture(p, piece, i, right);
    PawnPushesFit(p, i, piece, onlyCapture);
    PawnCaptureFits(p, piece, i, left);
    PawnCaptureFits(p, piece, i, right);
    AllFitAppend(p, a, b);
    AllFitAppend(p, a + b, c);
    assert PawnMoves(p, i, piece, offsets, onlyCapture) == a + b + c;
  }

  lemma {:induction false} RayWalkFits(p: Position, piece: int, from: int, offset: int, sq: int, typ: int, onlyCapture: bool)
    requires WellFormed(p) && PiecesOnly(p) && OnBoard(from) && p.board[from] == piece && Color(piece) == p.turn
    requires -40 <= sq <= 160 && -40 <= offset <= 40 && offset != 0
    requires (offset > 0 ==> sq > from) && (offset < 0 ==> sq < from)
    ensures AllFit(p, RayWalk(p, piece, from, offset, sq, typ, onlyCapture))
    decreases if offset > 0 then 200 - sq else sq + 200
  {
    OffBoardNear(sq);
    if !OffBoard(sq) {
      if Get(p.board, sq) == 0 {
        assert 0 <= piece < 16;
        QuietFits(p, piece, from, sq, BITS_NORMAL);
        if !(typ == KING || typ == KNIGHT) {
          OffBoardNear(sq + offset);
          RayWalkFits(p, piece, from, offset, sq + offset, typ, onlyCapture);
        }
      } else if Color(Get(p.board, sq)) != p.turn {
        assert 0 <= p.board[sq] < 16 && 0 <= piece < 16;
        CaptureFits(p, piece, from, sq);
      }
    }
  }

  lemma {:induction false} PieceRaysFit(p: Position, piece: int, i: int, offsets: seq<int>, typ: int, j: int, onlyCapture: bool)
    requires WellFormed(p) && PiecesOnly(p) && OnBoard(i) && p.board[i] == piece && Color(piece) == p.turn
    requires ShortSteps(offsets)
    ensures AllFit(p, PieceRays(p, piece, i, offsets, typ, j, onlyCapture))
    decreases 8 - j
  {
    if 0 <= j < 8 {
      var offset := Get(offsets, j);
      if offset != 0 {
        RayWalkFits(p, piece, i, offset, i + offset, typ, onlyCapture);
        PieceRaysFit(p, piece, i, offsets, typ, j + 1, onlyCapture);
        AllFitAppend(p, RayWalk(p, piece, i, offset, i + offset, typ, onlyCapture), PieceRays(p, piece, i, offsets, typ, j + 1, onlyCapture));
      }
    }
  }

  lemma SquareMovesFit(p: Position, i: int, onlyCapture: bool)
    requires Consistent(p) && OnBoard(i)
    ensures AllFit(p, SquareMoves(p, i, onlyCapture))
  {
    var piece := Get(p.board, i);
    if piece != 0 && Color(piece) == p.turn {
      assert 0 <= piece < 16;
      if Type(piece) == PAWN {
        assert piece == Colorize(p.turn, PAWN);
        assert Rank(i) != 7 * p.turn;
        PawnRowSteps(p.turn);
        PawnMovesFit(p, i, piece, onlyCapture);
      } else {
        PieceRowShort(Type(piece));
        PieceRaysFit(p, piece, i, Row(PIECE_OFFSETS, Type(piece)), Type(piece), 0, onlyCapture);
      }
    }
  }

  lemma {:induction false} GenFromFit(p: Position, i: int, onlyCapture: bool)
    requires Consistent(p)
    ensures AllFit(p, GenFrom(p, i, onlyCapture))
  {
    GenTableFit(p, onlyCapture, SquareTable(p, onlyCapture), i);
  }

  lemma {:induction false} GenTableFit(p: Position, onlyCapture: bool, t: seq<seq<Move>>, i: int)
    requires Consistent(p) && TableOf(t, p, onlyCapture)
    ensures AllFit(p, GenFromTable(t, i))
    decreases SQUARE_H1 + 1 - i
  {
    if 0 <= i <= SQUARE_H1 {
      if OffBoard(i) {
        GenTableFit(p, onlyCapture, t, i + 8);
      } else {
        OffBoardNear(i);
        SquareMovesFit(p, i, onlyCapture);
        GenTableFit(p, onlyCapture, t, i + 1);
        AllFitAppend(p, t[i], GenFromTable(t, i + 1));
      }
    }
  }

  /** The castling move built for side q fits when king and rook are where the
      records say and the landing squares are free of other pieces. */
  lemma CastleMoveFits(p: Position, q: int, to: int)
    requires WellFormed(p) && (q == 0 || q == 1)
    requires var us := p.turn; var king := p.kings[us]; var rook := p.castling[2 * us + q];
      OnBoard(king) && OnBoard(rook) && p.board[king] == Colorize(us, KING) && p.board[rook] == Colorize(us, ROOK)
    requires var king := p.kings[p.turn]; var rook := p.castling[2 * p.turn + q];
      var kingTo := CastleKingTo(king, q); var rookTo := kingTo - 1 + 2 * q;
      OnBoard(kingTo) && OnBoard(rookTo) &&
      (kingTo != king && kingTo != rook ==> p.board[kingTo] == 0) &&
      (rookTo != king && rookTo != rook ==> p.board[rookTo] == 0)
    ensures var flags := if q == 1 then BITS_QSIDE_CASTLE else BITS_KSIDE_CASTLE;
      AllFit(p, AddMove(p.board, Colorize(p.turn, KING), p.kings[p.turn], to, flags))
  {
    var flags := if q == 1 then BITS_QSIDE_CASTLE else BITS_KSIDE_CASTLE;
    CastleFlags(q);
    var piece := Colorize(p.turn, KING);
    var king := p.kings[p.turn];
    var m := SingleMove(p.board, piece, king, to, flags, 0);
    CastleSingle(p.board, p.turn, king, to, q);
    CastleFitsWhen(p, q, m);
    FitsOne(p, m);
  }

  lemma FitsOne(p: Position, m: Move)
    requires WellFormed(p) && IsCastle(m.flags) && CastleFits(p, m)
    ensures AllFit(p, [m])
  {
  }

  /** A castle is one move: the king is no pawn, so it never promotes. */
  lemma CastleSingle(b: seq<int>, us: int, king: int, to: int, q: int)
    requires (us == 0 || us == 1) && (q == 0 || q == 1)
    ensures var flags := if q == 1 then BITS_QSIDE_CASTLE else BITS_KSIDE_CASTLE;
      var m := SingleMove(b, Colorize(us, KING), king, to, flags, 0);
      AddMove(b, Colorize(us, KING), king, to, flags) == [m] && m.flags == flags && m.piece == Colorize(us, KING)
  {
  }

  lemma CastleFitsWhen(p: Position, q: int, m: Move)
    requires WellFormed(p) && (q == 0 || q == 1)
    requires m.flags == (if q == 1 then BITS_QSIDE_CASTLE else BITS_KSIDE_CASTLE) && m.piece == Colorize(p.turn, KING)
    requires IsCastle(m.flags) && QSide(m.flags) == q
    requires var us := p.turn; var king := p.kings[us]; var rook := p.castling[2 * us + q];
      OnBoard(king) && OnBoard(rook) && p.board[king] == Colorize(us, KING) && p.board[rook] == Colorize(us, ROOK)
    requires var king := p.kings[p.turn]; var rook := p.castling[2 * p.turn + q];
      var kingTo := CastleKingTo(king, q); var rookTo := kingTo - 1 + 2 * q;
      OnBoard(kingTo) && OnBoard(rookTo) &&
      (kingTo != king && kingTo != rook ==> p.board[kingTo] == 0) &&
      (rookTo != king && rookTo != rook ==> p.board[rookTo] == 0)
    ensures CastleFits(p, m)
  {
  }

  lemma CastleFlags(q: int)
    requires q == 0 || q == 1
    ensures var flags := if q == 1 then BITS_QSIDE_CASTLE else BITS_KSIDE_CASTLE;
      IsCastle(flags) && QSide(flags) == q
  {
  }

  lemma CastleSideFits(p: Position, frc: bool, q: int)
    requires WellFormed(p) && (q == 0 || q == 1) && p.kings[p.turn] != EMPTY
    requires KingPlaced(p, p.turn) && RookPlaced(p, 2 * p.turn + q)
    ensures AllFit(p, CastleSide(p, frc, p.kings[p.turn], q))
  {
    var us := p.turn;
    var rook := Get(p.castling, 2 * us + q);
    assert (2 * us + q) / 2 == us;
    if rook != EMPTY {
      CastleWithFits(p, frc, q);
    }
  }

  lemma CastleWithFits(p: Position, frc: bool, q: int)
    requires WellFormed(p) && (q == 0 || q == 1)
    requires var us := p.turn; var king := p.kings[us]; var rook := p.castling[2 * us + q];
      OnBoard(king) && OnBoard(rook) && p.board[king] == Colorize(us, KING) && p.board[rook] == Colorize(us, ROOK)
    ensures AllFit(p, CastleWith(p.board, p.turn, frc, p.kings[p.turn], p.castling[2 * p.turn + q], q))
  {
    if CastleGate(p.board, p.turn, p.kings[p.turn], p.castling[2 * p.turn + q], q) {
      GateSquares(p.board, p.turn, p.kings[p.turn], p.castling[2 * p.turn + q], q);
      CastleGateFits(p, frc, q);
    }
  }

  /** A castle whose checks pass has empty landing squares (but for the king's and the rook's). */
  lemma GateSquares(b: seq<int>, us: int, king: int, rook: int, q: int)
    requires CastleGate(b, us, king, rook, q)
    ensures var kingTo := CastleKingTo(king, q); var rookTo := kingTo - 1 + 2 * q;
      (kingTo != king && kingTo != rook ==> Get(b, kingTo) == 0) &&
      (rookTo != king && rookTo != rook ==> Get(b, rookTo) == 0)
  {
    var kingTo := CastleKingTo(king, q);
    var rookTo := kingTo - 1 + 2 * q;
    assert PathClear(b, Min(Min(king, kingTo), Min(rook, rookTo)), Max(Max(king, kingTo), Max(rook, rookTo)), king, rook);
  }

  /** A castle whose landing squares are free fits the position. */
  lemma CastleGateFits(p: Position, frc: bool, q: int)
    requires WellFormed(p) && (q == 0 || q == 1)
    requires var us := p.turn; var king := p.kings[us]; var rook := p.castling[2 * us + q];
      OnBoard(king) && OnBoard(rook) && p.board[king] == Colorize(us, KING) && p.board[rook] == Colorize(us, ROOK)
    requires var king := p.kings[p.turn]; var rook := p.castling[2 * p.turn + q];
      var kingTo := CastleKingTo(king, q); var rookTo := kingTo - 1 + 2 * q;
      (kingTo != king && kingTo != rook ==> Get(p.board, kingTo) == 0) &&
      (rookTo != king && rookTo != rook ==> Get(p.board, rookTo) == 0)
    ensures AllFit(p, CastleMove(p.board, p.turn, frc, p.kings[p.turn], p.castling[2 * p.turn + q], q))
  {
    var us := p.turn;
    var king := p.kings[us];
    var rook := p.castling[2 * us + q];
    var kingTo := CastleKingTo(king, q);
    var rookTo := kingTo - 1 + 2 * q;
    CastleSquares(king, q);
    var to := if frc || File(king) != 4 || File(rook) % 7 != 0 then rook else kingTo;
    CastleMoveFits(p, q, to);
    assert CastleMove(p.board, us, frc, king, rook, q) ==
      AddMove(p.board, Colorize(us, KING), king, to, if q == 1 then BITS_QSIDE_CASTLE else BITS_KSIDE_CASTLE);
  }

  lemma CastleMovesFit(p: Position, frc: bool)
    requires Consistent(p)
    ensures AllFit(p, CastleMoves(p, frc))
  {
    if p.kings[p.turn] != EMPTY {
      assert KingPlaced(p, p.turn) && RookPlaced(p, 2 * p.turn) && RookPlaced(p, 2 * p.turn + 1);
      CastleSideFits(p, frc, 0);
      CastleSideFits(p, frc, 1);
      AllFitAppend(p, CastleSide(p, frc, p.kings[p.turn], 0), CastleSide(p, frc, p.kings[p.turn], 1));
    }
  }

  /** Every generated move fits the position, so making and undoing it restores the position. */
  lemma PseudoMovesFit(p: Position, frc: bool, onlyCapture: bool)
    requires Consistent(p)
    ensures AllFit(p, PseudoMoves(p, frc, onlyCapture))
  {
    GenFromFit(p, SQUARE_A8, onlyCapture);
    CastleMovesFit(p, frc);
    AllFitAppend(p, GenFrom(p, SQUARE_A8, onlyCapture), if onlyCapture then [] else CastleMoves(p, frc));
  }

  // ------------------------------------------------------------ legal moves

  /** After the move the mover's king is not attacked. */
  predicate Safe(p: Position, us: int, m: Move)
  {
    !KingAttacked(MakePos(p, m), us)
  }

  /** The moves of the list that are safe, in their order. */
  function KeepSafe(p: Position, us: int, moves: seq<Move>): (r: seq<Move>)
    ensures |r| <= |moves|
  {
    if moves == [] then []
    else (if Safe(p, us, moves[0]) then [moves[0]] else []) + KeepSafe(p, us, moves[1..])
  }

  predicate IsSubsequence(a: seq<Move>, b: seq<Move>)
    decreases |b|
  {
    a == [] || (b != [] && (if a[0] == b[0] then IsSubsequence(a[1..], b[1..]) else IsSubsequence(a, b[1..])))
  }

  /** The legal filter keeps exactly the safe moves, as a subsequence. */
  lemma {:induction false} KeepSafeMeans(p: Position, us: int, moves: seq<Move>)
    ensures IsSubsequence(KeepSafe(p, us, moves), moves)
    ensures forall m :: m in KeepSafe(p, us, moves) <==> m in moves && Safe(p, us, m)
  {
    if moves != [] {
      KeepSafeMeans(p, us, moves[1..]);
      var rest := KeepSafe(p, us, moves[1..]);
      if Safe(p, us, moves[0]) {
        assert KeepSafe(p, us, moves) == [moves[0]] + rest;
        assert ([moves[0]] + rest)[1..] == rest;
      } else {
        assert KeepSafe(p, us, moves) == rest;
        SubsequenceOfTail(rest, moves);
      }
    }
  }

  lemma {:induction false} SubsequenceOfTail(a: seq<Move>, b: seq<Move>)
    requires b != [] && IsSubsequence(a, b[1..])
    ensures IsSubsequence(a, b)
    decreases |a| + |b|
  {
    if a != [] && a[0] == b[0] {
      SubsequenceDrop(a, b[1..]);
    }
  }

  /** Dropping the head of a subsequence keeps it a subsequence. */
  lemma {:induction false} SubsequenceDrop(a: seq<Move>, b: seq<Move>)
    requires a != [] && IsSubsequence(a, b)
    ensures IsSubsequence(a[1..], b)
    decreases |a| + |b|
  {
    if a[0] == b[0] {
      if a[1..] != [] {
        SubsequenceDrop(a[1..], b[1..]);
        SubsequenceOfTail(a[1..], b);
      }
    } else {
      SubsequenceDrop(a, b[1..]);
      if a[1..] != [] {
        SubsequenceOfTail(a[1..], b);
      }
    }
  }

  /** The legal filter of createMoves: make each move, keep it if the mover's king
      (`us`) is not attacked, undo it. The engine state is threaded through. */
  function FilterLegal(g: Game, moves: seq<Move>, us: int): (r: (Game, seq<Move>))
    requires g.pos.ply >= -1
    ensures r.0.pos.ply == g.pos.ply && |r.1| <= |moves|
    decreases |moves|
  {
    if moves == [] then (g, [])
    else
      var g1 := MoveRawGame(g, moves[0]);
      AddStateKeeps(g.history, g.pos, moves[0]);
      var keep := !KingAttacked(g1.pos, us);
      var rest := FilterLegal(UndoGame(g1), moves[1..], us);
      (rest.0, if keep then [moves[0]] + rest.1 else rest.1)
  }

  /** The history entries up to ply survive, and the vector does not shrink. */
  predicate HistoryKept(h: seq<State>, h2: seq<State>, ply: int)
  {
    |h2| >= |h| && forall k | 0 <= k <= ply && k < |h| :: h2[k] == h[k]
  }

  /**
   * When every move fits the position, the filter restores the position after
   * each trial and returns exactly the safe moves in their order.
   */
  lemma {:induction false} FilterLegalKeepsSafe(g: Game, moves: seq<Move>, us: int)
    requires WellFormed(g.pos) && g.pos.ply >= -1
    requires forall m | m in moves :: Fits(g.pos, m)
    ensures FilterLegal(g, moves, us).0.pos == g.pos
    ensures FilterLegal(g, moves, us).1 == KeepSafe(g.pos, us, moves)
    ensures HistoryKept(g.history, FilterLegal(g, moves, us).0.history, g.pos.ply)
    decreases |moves|
  {
    if moves != [] {
      var m := moves[0];
      MoveUndoRestores(g, m);
      AddStateKeeps(g.history, g.pos, m);
      var g2 := UndoGame(MoveRawGame(g, m));
      assert g2 == Game(g.pos, AddState(g.history, g.pos, m));
      FilterLegalKeepsSafe(g2, moves[1..], us);
    }
  }

  /** createMoves(frc, true, onlyCapture) on the engine state. */
  function LegalMoves(g: Game, frc: bool, onlyCapture: bool): (Game, seq<Move>)
    requires g.pos.ply >= -1
  {
    FilterLegal(g, PseudoMoves(g.pos, frc, onlyCapture), g.pos.turn)
  }

  /**
   * createMoves(frc, true, onlyCapture) from a consistent position returns exactly
   * the generated moves after which the mover's king is not attacked, in generation
   * order, and leaves the position as it found it.
   */
  lemma LegalMovesAreSafe(g: Game, frc: bool, onlyCapture: bool)
    requires Consistent(g.pos) && g.pos.ply >= -1
    ensures var r := LegalMoves(g, frc, onlyCapture);
      var pseudo := PseudoMoves(g.pos, frc, onlyCapture);
      r.0.pos == g.pos && HistoryKept(g.history, r.0.history, g.pos.ply) &&
      IsSubsequence(r.1, pseudo) &&
      forall m :: m in r.1 <==> m in pseudo && Safe(g.pos, g.pos.turn, m)
  {
    var pseudo := PseudoMoves(g.pos, frc, onlyCapture);
    PseudoMovesFit(g.pos, frc, onlyCapture);
    FilterLegalKeepsSafe(g, pseudo, g.pos.turn);
    KeepSafeMeans(g.pos, g.pos.turn, pseudo);
  }
}
