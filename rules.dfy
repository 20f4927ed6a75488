// The position of the engine as a value, and the rules over it: attack
// detection, making a move, the undo record and unmaking a move.

module Rules {
  import opened Tables
  import opened Squares
  import opened Moves

  /** The engine state that the rules read and write. */
  datatype Position = Position(
    board: seq<int>,      // 128 cells, a piece code per cell
    castling: seq<int>,   // rook squares: white king side, white queen side, black ..
    epSquare: int,
    halfMoves: int,
    kings: seq<int>,
    materials: seq<int>,
    turn: int,
    moveNumber: int,
    ply: int)

  /** The position together with the history vector of undo records. */
  datatype Game = Game(pos: Position, history: seq<State>)

  /** Shape of the state: array sizes and a side to move. */
  predicate WellFormed(p: Position)
  {
    |p.board| == 128 &&
    |p.castling| == 4 && |p.kings| == 2 && |p.materials| == 2 &&
    (p.turn == WHITE || p.turn == BLACK)
  }

  // ---------------------------------------------------------------- attacks

  /** A piece stands on one of the `steps` squares j, j + offset, ... */
  function Blocked(b: seq<int>, j: int, offset: int, steps: nat): bool
    decreases steps
  {
    if steps == 0 then false else Get(b, j) != 0 || Blocked(b, j + offset, offset, steps - 1)
  }

  /** The piece on square i (if any) is of `color` and attacks `square`. */
  function AttacksFrom(b: seq<int>, color: int, square: int, i: int): bool
  {
    var piece := Get(b, i);
    var index := i - square + 119;
    var typ := Type(piece);
    if piece == 0 || Color(piece) != color || !AttackBit(index, typ) then false
    else if typ == KING || typ == KNIGHT then true
    else if typ == PAWN then (if i - square > 0 then color == WHITE else color == BLACK)
    else SlideClear(b, i, index)
  }

  /** A sliding piece on i reaches the target: no piece on the squares between, walking
      RAYS[index] for STEPS[index] - 1 squares. */
  function SlideClear(b: seq<int>, i: int, index: int): bool
  {
    var offset := At(RAYS, index);
    var steps := At(STEPS, index);
    if offset != 0 && steps >= 1 then !Blocked(b, i + offset, offset, steps - 1) else true
  }

  /** The scan of attacked(): some playing square from i onward is marked in hits. */
  function AnyFrom(hits: seq<bool>, i: int): bool
    requires |hits| == 128
    decreases SQUARE_H1 + 1 - i
  {
    if i > SQUARE_H1 || i < 0 then false
    else if OffBoard(i) then AnyFrom(hits, i + 8)
    else hits[i] || AnyFrom(hits, i + 1)
  }

  /** The squares whose piece attacks `square` for `color`. */
  function Attackers(b: seq<int>, color: int, square: int): (hits: seq<bool>)
    ensures |hits| == 128
  {
    seq(128, k => AttacksFrom(b, color, square, k))
  }

  /** attacked(color, square) */
  function Attacked(b: seq<int>, color: int, square: int): bool
  {
    AnyFrom(Attackers(b, color, square), SQUARE_A8)
  }

  lemma {:induction false} AnyFromExists(hits: seq<bool>, i: int)
    requires |hits| == 128 && 0 <= i && i % 16 <= 8
    ensures AnyFrom(hits, i) <==> exists k | i <= k <= SQUARE_H1 && k % 16 < 8 :: hits[k]
    decreases SQUARE_H1 + 1 - i
  {
    if i > SQUARE_H1 {
    } else if i % 16 == 8 {
      assert OffBoard(i);
      AnyFromExists(hits, i + 8);
      if exists k | i <= k <= SQUARE_H1 && k % 16 < 8 :: hits[k] {
        var k :| i <= k <= SQUARE_H1 && k % 16 < 8 && hits[k];
        PastOffFiles(i, k);
      }
    } else {
      assert !OffBoard(i);
      AnyFromExists(hits, i + 1);
      if exists k | i <= k <= SQUARE_H1 && k % 16 < 8 :: hits[k] {
        var k :| i <= k <= SQUARE_H1 && k % 16 < 8 && hits[k];
        if k != i {
          assert i + 1 <= k;
        }
      }
    }
  }

  /** From the first off-board file of a row, the next playing square is eight on. */
  lemma PastOffFiles(i: int, k: int)
    requires i % 16 == 8 && i <= k && k % 16 < 8
    ensures i + 8 <= k
  {
  }

  /** The scan of attacked() finds a hit exactly when some playing square is marked. */
  lemma AnyFromMeans(hits: seq<bool>)
    requires |hits| == 128
    ensures AnyFrom(hits, SQUARE_A8) <==> exists k | 0 <= k < 128 && OnBoard(k) :: hits[k]
  {
    AnyFromExists(hits, 0);
    if exists k | 0 <= k < 128 && OnBoard(k) :: hits[k] {
      var k :| 0 <= k < 128 && OnBoard(k) && hits[k];
      assert k <= SQUARE_H1;
    }
  }

  /** The color kingAttacked(color) looks at: 2 names the side to move, any larger
      value the other side. */
  function KingColor(turn: int, color: int): int
  {
    if color > 1 then (if color == 2 then turn else 1 - turn) else color
  }

  /** The opponent of a color. */
  function Opponent(color: int): int { 1 - color }

  /** kingAttacked(color): the king of that color is attacked by the other side. */
  function KingAttacked(p: Position, color: int): bool
  {
    var c := KingColor(p.turn, color);
    Attacked(p.board, Opponent(c), Get(p.kings, c))
  }

  // -------------------------------------------------------------- make move

  function QSide(flags: int): int
  {
    if HasBit(flags, BITS_QSIDE_CASTLE) then 1 else 0
  }

  /** Where a castling king lands: g-file for king side, c-file for queen side, on the king's rank. */
  function CastleKingTo(king: int, q: int): int
  {
    Rank(king) * 16 + 6 - 4 * q
  }

  /** The squares a castle lands king and rook on lie on the king's rank, files g and f
      (king side) or c and d (queen side). */
  lemma CastleSquares(king: int, q: int)
    requires 0 <= king < 128 && (q == 0 || q == 1)
    ensures var kingTo := CastleKingTo(king, q);
      OnBoard(kingTo) && OnBoard(kingTo - 1 + 2 * q) && 0 <= kingTo - 1 && kingTo + 1 < 128
  {
    var r := king / 16;
    assert 0 <= r < 8;
    var kingTo := r * 16 + 6 - 4 * q;
    assert kingTo % 16 == 6 - 4 * q && kingTo / 16 == r;
    assert (kingTo - 1 + 2 * q) % 16 == 5 - 2 * q;
  }

  /** The board after a castle: king and rook leave, then land on their castled squares. */
  function CastleBoard(b: seq<int>, us: int, king: int, rook: int, q: int): seq<int>
  {
    var kingTo := CastleKingTo(king, q);
    SetCell(SetCell(SetCell(SetCell(b, king, 0), rook, 0), kingTo, Colorize(us, KING)), kingTo - 1 + 2 * q, Colorize(us, ROOK))
  }

  /** Clears castling entries idx and, if it was a rook on `sq`, the side that rook belonged to. */
  function ClearRook(c: seq<int>, base: int, sq: int): seq<int>
  {
    if sq == Get(c, base) then Set(c, base, EMPTY)
    else if sq == Get(c, base + 1) then Set(c, base + 1, EMPTY)
    else c
  }

  /** The undo record moveRaw stores before it changes anything. */
  function SavedState(p: Position, m: Move): State
  {
    State(p.castling, p.epSquare, p.halfMoves, p.kings, m)
  }

  /** moveRaw(move), without the undo record: each field as moveRaw leaves it. */
  function MakePos(p: Position, m: Move): Position
  {
    Position(MadeBoard(p, m), MadeCastling(p, m), MadeEpSquare(p, m), MadeHalfMoves(p, m),
      MadeKings(p, m), MadeMaterials(p, m), 1 - p.turn,
      if p.turn == BLACK then p.moveNumber + 1 else p.moveNumber, p.ply + 1)
  }

  /** The board: a castle moves king and rook; another move empties `from`, fills `to`,
      removes a pawn taken en passant and replaces a promoted pawn. */
  function MadeBoard(p: Position, m: Move): seq<int>
  {
    var us := p.turn;
    var typ := Type(m.piece);
    if IsCastle(m.flags) then
      if typ == KING then CastleBoard(p.board, us, Get(p.kings, us), Get(p.castling, 2 * us + QSide(m.flags)), QSide(m.flags))
      else p.board
    else
      var b1 := ShiftBoard(p.board, m);
      if typ == PAWN && !HasBit(m.flags, BITS_BIG_PAWN) then PawnBoard(b1, us, m) else b1
  }

  /** The piece leaves `from` for `to`. */
  function ShiftBoard(b: seq<int>, m: Move): seq<int>
  {
    if m.from != m.to then SetCell(SetCell(b, m.to, Get(b, m.from)), m.from, 0) else b
  }

  /** The castling rook squares: a king move clears both of its side's entries, capturing
      a rook clears the entry of that rook, moving a rook clears its own entry. */
  function MadeCastling(p: Position, m: Move): seq<int>
  {
    var us := p.turn;
    var them := 1 - us;
    var typ := Type(m.piece);
    var c1 := if typ == KING then Set(Set(p.castling, 2 * us, EMPTY), 2 * us + 1, EMPTY) else p.castling;
    if IsCastle(m.flags) then c1
    else
      var c2 := if m.capture == ROOK then ClearRook(c1, 2 * them, m.to) else c1;
      if typ == ROOK then ClearRook(c2, 2 * us, m.from) else c2
  }

  /** The king squares: a king move records where the king lands. */
  function MadeKings(p: Position, m: Move): seq<int>
  {
    var us := p.turn;
    if Type(m.piece) != KING then p.kings
    else if IsCastle(m.flags) then Set(p.kings, us, CastleKingTo(Get(p.kings, us), QSide(m.flags)))
    else Set(p.kings, us, m.to)
  }

  /** The en passant square: the square a double pawn push passed over, else EMPTY. */
  function MadeEpSquare(p: Position, m: Move): int
  {
    if !IsCastle(m.flags) && Type(m.piece) == PAWN && HasBit(m.flags, BITS_BIG_PAWN) then m.to + 16 - 32 * p.turn
    else EMPTY
  }

  function MadeHalfMoves(p: Position, m: Move): int
  {
    if !IsCastle(m.flags) && (m.capture != 0 || Type(m.piece) == PAWN) then 0 else p.halfMoves + 1
  }

  /** The material totals: a capture takes the captured piece off the opponent's total,
      a promotion adds the difference to the mover's. */
  function MadeMaterials(p: Position, m: Move): seq<int>
  {
    if IsCastle(m.flags) then p.materials
    else PromotedScores(CapturedScores(p.materials, 1 - p.turn, m.capture), p.turn, m)
  }

  /** A capture takes the captured piece's score from the opponent. */
  function CapturedScores(mat: seq<int>, them: int, capture: int): seq<int>
  {
    if capture != 0 then Set(mat, them, Get(mat, them) - Get(PIECE_SCORES, capture)) else mat
  }

  /** A promoting pawn (not a double push) adds the promotion piece's score to its side. */
  function PromotedScores(mat: seq<int>, us: int, m: Move): seq<int>
  {
    if Type(m.piece) == PAWN && !HasBit(m.flags, BITS_BIG_PAWN) && HasBit(m.flags, BITS_PROMOTION) then
      Set(mat, us, Get(mat, us) + Get(PROMOTE_SCORES, m.promote))
    else mat
  }

  // ---------------------------------------------- moveRaw block by block

  /** moveRaw's opening: one more half move, and no en passant square. */
  function StartMove(p: Position): Position
  {
    p.(halfMoves := p.halfMoves + 1, epSquare := EMPTY)
  }

  /** Both castling entries of a side set to EMPTY. */
  function DropRights(c: seq<int>, us: int): seq<int>
  {
    Set(Set(c, 2 * us, EMPTY), 2 * us + 1, EMPTY)
  }

  /** The king block: a castle moves king and rook; any king move records where the
      king lands and drops both castling entries of its side. */
  function KingBlock(p: Position, m: Move): Position
  {
    var us := p.turn;
    if Type(m.piece) != KING then p
    else if IsCastle(m.flags) then
      var q := QSide(m.flags);
      var king := Get(p.kings, us);
      p.(board := CastleBoard(p.board, us, king, Get(p.castling, 2 * us + q), q),
         kings := Set(p.kings, us, CastleKingTo(king, q)), castling := DropRights(p.castling, us))
    else p.(kings := Set(p.kings, us, m.to), castling := DropRights(p.castling, us))
  }

  /** The piece leaves `from` for `to` (a move that is not a castle). */
  function ShiftBlock(p: Position, m: Move): Position
  {
    p.(board := ShiftBoard(p.board, m))
  }

  /** A capture: the opponent loses the captured score, a captured rook its castling
      entry, and the half-move clock restarts. */
  function CaptureBlock(p: Position, m: Move): Position
  {
    var them := 1 - p.turn;
    if m.capture == 0 then p
    else p.(materials := Set(p.materials, them, Get(p.materials, them) - Get(PIECE_SCORES, m.capture)),
            castling := if m.capture == ROOK then ClearRook(p.castling, 2 * them, m.to) else p.castling,
            halfMoves := 0)
  }

  /** A rook move drops its castling entry; a pawn move sets the en passant square
      after a double push, or removes a pawn taken en passant and promotes, and
      restarts the half-move clock. */
  function PieceBlock(p: Position, m: Move): Position
  {
    var typ := Type(m.piece);
    if typ == ROOK then p.(castling := ClearRook(p.castling, 2 * p.turn, m.from))
    else if typ == PAWN then PawnBlock(p, m)
    else p
  }

  /** A pawn move: a double push sets the en passant square, any other move removes the
      pawn taken en passant and promotes; every pawn move resets the fifty-move clock. */
  function PawnBlock(p: Position, m: Move): Position
  {
    var us := p.turn;
    if HasBit(m.flags, BITS_BIG_PAWN) then p.(epSquare := m.to + 16 - 32 * us, halfMoves := 0)
    else
      var mat := if HasBit(m.flags, BITS_PROMOTION) then Set(p.materials, us, Get(p.materials, us) + Get(PROMOTE_SCORES, m.promote)) else p.materials;
      p.(board := PawnBoard(p.board, us, m), materials := mat, halfMoves := 0)
  }

  /** A pawn move's cells: the pawn taken en passant leaves the board, a promoted pawn
      becomes the promotion piece. */
  function PawnBoard(b: seq<int>, us: int, m: Move): seq<int>
  {
    var b1 := if HasBit(m.flags, BITS_EP_CAPTURE) then SetCell(b, m.to + 16 - 32 * us, 0) else b;
    if HasBit(m.flags, BITS_PROMOTION) then SetCell(b1, m.to, Colorize(us, m.promote)) else b1
  }

  /** moveRaw's closing: one more ply, the move number after black, the other side to move. */
  function EndMove(p: Position): Position
  {
    p.(ply := p.ply + 1, moveNumber := if p.turn == BLACK then p.moveNumber + 1 else p.moveNumber, turn := 1 - p.turn)
  }

  /** The block for a move that is not a castle: shift, capture, then rook or pawn. */
  function PlainBlock(p: Position, m: Move): Position
  {
    if IsCastle(m.flags) then p else PieceBlock(CaptureBlock(ShiftBlock(p, m), m), m)
  }

  /** moveRaw's blocks in the order it runs them. */
  function MoveInOrder(p: Position, m: Move): Position
  {
    EndMove(PlainBlock(KingBlock(StartMove(p), m), m))
  }

  /** Running the blocks in order gives each field as MakePos describes it. */
  lemma MoveInOrderIsMakePos(p: Position, m: Move)
    ensures MoveInOrder(p, m) == MakePos(p, m)
  {
    InOrderBoard(p, m);
    InOrderCastling(p, m);
    InOrderKings(p, m);
    InOrderClocks(p, m);
    InOrderMaterials(p, m);
  }

  lemma InOrderBoard(p: Position, m: Move)
    ensures MoveInOrder(p, m).board == MadeBoard(p, m)
  {
    var p1 := KingBlock(StartMove(p), m);
    if IsCastle(m.flags) {
      assert MoveInOrder(p, m).board == p1.board;
    } else {
      assert p1.board == p.board && p1.turn == p.turn;
      var p2 := CaptureBlock(ShiftBlock(p1, m), m);
      assert p2.board == ShiftBoard(p.board, m) && p2.turn == p.turn;
      assert MoveInOrder(p, m).board == PieceBlock(p2, m).board;
    }
  }

  lemma InOrderCastling(p: Position, m: Move)
    ensures MoveInOrder(p, m).castling == MadeCastling(p, m)
  {
  }

  lemma InOrderKings(p: Position, m: Move)
    ensures MoveInOrder(p, m).kings == MadeKings(p, m)
  {
  }

  lemma InOrderClocks(p: Position, m: Move)
    ensures MoveInOrder(p, m).epSquare == MadeEpSquare(p, m)
    ensures MoveInOrder(p, m).halfMoves == MadeHalfMoves(p, m)
  {
  }

  lemma InOrderMaterials(p: Position, m: Move)
    ensures MoveInOrder(p, m).materials == MadeMaterials(p, m)
  {
    var p0 := StartMove(p);
    assert p0.materials == p.materials && p0.turn == p.turn;
    var p1 := KingBlock(p0, m);
    KingBlockMaterials(p0, m);
    var p3 := PlainBlock(p1, m);
    assert MoveInOrder(p, m) == EndMove(p3);
    EndMoveMaterials(p3);
    if !IsCastle(m.flags) {
      var s := ShiftBlock(p1, m);
      assert s.materials == p.materials && s.turn == p.turn;
      var p2 := CaptureBlock(s, m);
      CaptureBlockMaterials(s, m);
      PieceBlockMaterials(p2, m);
      assert p3 == PieceBlock(p2, m);
    }
  }

  /** moveRaw's closing leaves the scores alone. */
  lemma EndMoveMaterials(p: Position)
    ensures EndMove(p).materials == p.materials
  {
  }

  /** The king block leaves the scores and the side to move alone. */
  lemma KingBlockMaterials(p: Position, m: Move)
    ensures KingBlock(p, m).materials == p.materials && KingBlock(p, m).turn == p.turn
  {
  }

  /** The capture block takes the captured piece's score from the opponent. */
  lemma CaptureBlockMaterials(p: Position, m: Move)
    ensures CaptureBlock(p, m).turn == p.turn
    ensures CaptureBlock(p, m).materials == CapturedScores(p.materials, 1 - p.turn, m.capture)
  {
  }

  /** The piece block adds the promotion score of a promoting pawn, and only that. */
  lemma PieceBlockMaterials(p: Position, m: Move)
    ensures PieceBlock(p, m).materials == PromotedScores(p.materials, p.turn, m)
  {
  }

  /** undoMove() of the record s, which moveRaw stored at this ply. */
  function UnmakePos(p: Position, s: State): Position
  {
    var us := 1 - p.turn;
    Position(UnmadeBoard(p.board, us, s), s.castling, s.epSquare, s.halfMoves, s.kings,
      UnmadeMaterials(p.materials, us, s.move), us,
      if us == BLACK then p.moveNumber - 1 else p.moveNumber, p.ply - 1)
  }

  /** undoMove's first block: the record's castling rights, en passant square, clock and
      king squares come back, the side to move flips, the move number and ply step back. */
  function RestoreRecord(p: Position, s: State): Position
  {
    var us := 1 - p.turn;
    p.(castling := s.castling, epSquare := s.epSquare, halfMoves := s.halfMoves, kings := s.kings,
       turn := us, moveNumber := if us == BLACK then p.moveNumber - 1 else p.moveNumber, ply := p.ply - 1)
  }

  /** undoMove's second block, for the side to move (the side that made the move). */
  function UnmakePieces(p: Position, s: State): Position
  {
    p.(board := UnmadeBoard(p.board, p.turn, s), materials := UnmadeMaterials(p.materials, p.turn, s.move))
  }

  /** The two blocks in order are undoMove. */
  lemma UnmakeInOrder(p: Position, s: State)
    ensures UnmakePieces(RestoreRecord(p, s), s) == UnmakePos(p, s)
  {
  }

  /** The board undoMove leaves; us is the side that made the move. */
  function UnmadeBoard(b: seq<int>, us: int, s: State): seq<int>
  {
    if IsCastle(s.move.flags) then UncastleBoard(b, us, s)
    else UncaptureBoard(UnshiftBoard(b, s.move), us, s.move)
  }

  /** Undoing a castle: the landing squares are emptied, king and rook go back to the
      squares of the record. */
  function UncastleBoard(b: seq<int>, us: int, s: State): seq<int>
  {
    var q := QSide(s.move.flags);
    var king := Get(s.kings, us);
    var kingTo := CastleKingTo(king, q);
    SetCell(SetCell(SetCell(SetCell(b, kingTo, 0), kingTo - 1 + 2 * q, 0), king, Colorize(us, KING)), Get(s.castling, 2 * us + q), Colorize(us, ROOK))
  }

  /** Undoing a move that is not a castle: the piece goes back to `from`, `to` is emptied. */
  function UnshiftBoard(b: seq<int>, m: Move): seq<int>
  {
    if m.from != m.to then SetCell(SetCell(b, m.from, m.piece), m.to, 0) else b
  }

  /** Undoing a capture: the captured piece returns to `to`, or the pawn taken en passant
      to its square. */
  function UncaptureBoard(b: seq<int>, us: int, m: Move): seq<int>
  {
    var them := 1 - us;
    if HasBit(m.flags, BITS_CAPTURE) then SetCell(b, m.to, Colorize(them, m.capture))
    else if HasBit(m.flags, BITS_EP_CAPTURE) then SetCell(b, m.to + 16 - 32 * us, Colorize(them, PAWN))
    else b
  }

  function UnmadeMaterials(mat: seq<int>, us: int, m: Move): seq<int>
  {
    var them := 1 - us;
    if IsCastle(m.flags) then mat
    else
      var mat1 :=
        if HasBit(m.flags, BITS_CAPTURE) then Set(mat, them, Get(mat, them) + Get(PIECE_SCORES, m.capture))
        else if HasBit(m.flags, BITS_EP_CAPTURE) then Set(mat, them, Get(mat, them) + Get(PIECE_SCORES, PAWN))
        else mat;
      if m.promote != 0 then Set(mat1, us, Get(mat1, us) - Get(PROMOTE_SCORES, m.promote)) else mat1
  }

  /** The history vector grown with value-initialised records up to length n. */
  function Grow(h: seq<State>, n: int): (r: seq<State>)
    ensures |r| == if |h| < n then n else |h|
    ensures r[..|h|] == h
    ensures forall k | |h| <= k < |r| :: r[k] == BLANK_STATE
    decreases n - |h|
  {
    if |h| >= n then h else Grow(h + [BLANK_STATE], n)
  }

  /** addState(move): the record for this ply goes to history[ply + 1]. */
  function AddState(h: seq<State>, p: Position, m: Move): (r: seq<State>)
    requires p.ply >= -1
  {
    Grow(h, p.ply + 2)[p.ply + 1 := SavedState(p, m)]
  }

  /** The entries before ply + 1 and the length are kept; entry ply + 1 is the new record. */
  lemma AddStateKeeps(h: seq<State>, p: Position, m: Move)
    requires p.ply >= -1
    ensures |AddState(h, p, m)| >= p.ply + 2 && |AddState(h, p, m)| >= |h|
    ensures AddState(h, p, m)[p.ply + 1] == SavedState(p, m)
    ensures forall k | 0 <= k < |h| && k != p.ply + 1 :: AddState(h, p, m)[k] == h[k]
  {
    var g := Grow(h, p.ply + 2);
    forall k | 0 <= k < |h| && k != p.ply + 1 ensures AddState(h, p, m)[k] == h[k] {
      assert g[..|h|][k] == h[k];
    }
  }

  /** moveRaw(move) on the whole engine state. */
  function MoveRawGame(g: Game, m: Move): Game
    requires g.pos.ply >= -1
  {
    Game(MakePos(g.pos, m), AddState(g.history, g.pos, m))
  }

  /** The record undoMove() reads for a ply. A ply the history does not reach (a
      position loaded at a later move, with nothing recorded) is an out-of-range read
      in the source, taken here as the value-initialised record. */
  function RecordAt(h: seq<State>, ply: int): (s: State)
    ensures 0 <= ply < |h| ==> s == h[ply]
    ensures !(0 <= ply < |h|) ==> s == BLANK_STATE
  {
    if 0 <= ply < |h| then h[ply] else BLANK_STATE
  }

  /** undoMove() on the whole engine state: nothing happens before the first move;
      afterwards the ply steps back and the record of that ply is undone. */
  function UndoGame(g: Game): (r: Game)
    ensures g.pos.ply < 0 ==> r == g
    ensures r.history == g.history
    ensures g.pos.ply >= 0 ==>
      (r.pos.ply == g.pos.ply - 1 && r.pos.turn == 1 - g.pos.turn &&
       r.pos.castling == RecordAt(g.history, g.pos.ply).castling && r.pos.kings == RecordAt(g.history, g.pos.ply).kings)
  {
    if g.pos.ply < 0 then g else Game(UnmakePos(g.pos, RecordAt(g.history, g.pos.ply)), g.history)
  }

  // ------------------------------------------------------------ bookkeeping

  /** What moveRaw promises about the clocks, the side to move and the rights. */
  lemma MoveBookkeeping(p: Position, m: Move)
    requires WellFormed(p)
    ensures var r := MakePos(p, m);
      r.turn == 1 - p.turn && r.ply == p.ply + 1 &&
      r.moveNumber == (if p.turn == BLACK then p.moveNumber + 1 else p.moveNumber) &&
      r.halfMoves == (if !IsCastle(m.flags) && (m.capture != 0 || Type(m.piece) == PAWN) then 0 else p.halfMoves + 1) &&
      (r.epSquare != EMPTY ==> !IsCastle(m.flags) && Type(m.piece) == PAWN && HasBit(m.flags, BITS_BIG_PAWN)) &&
      (Type(m.piece) == KING ==> r.castling[2 * p.turn] == EMPTY && r.castling[2 * p.turn + 1] == EMPTY) &&
      (Type(m.piece) == KING ==> r.kings[p.turn] == (if IsCastle(m.flags) then CastleKingTo(p.kings[p.turn], QSide(m.flags)) else m.to))
  {
  }

  // ----------------------------------------------------------------- restore

  /**
   * The facts about a move and the position it is made in that make the
   * undo record enough to restore the position. Every move the generator
   * produces on a consistent position has them (MoveGen.PseudoMovesFit).
   */
  predicate Fits(p: Position, m: Move)
    requires WellFormed(p)
  {
    if IsCastle(m.flags) then CastleFits(p, m) else PlainFits(p, m)
  }

  /** A castle: king and rook stand on their squares, the squares they land on are free. */
  predicate CastleFits(p: Position, m: Move)
    requires WellFormed(p)
  {
    var us := p.turn;
    var q := QSide(m.flags);
    var king := p.kings[us];
    var rook := p.castling[2 * us + q];
    var kingTo := CastleKingTo(king, q);
    var rookTo := kingTo - 1 + 2 * q;
    Type(m.piece) == KING &&
    OnBoard(king) && OnBoard(rook) && OnBoard(kingTo) && OnBoard(rookTo) &&
    p.board[king] == Colorize(us, KING) && p.board[rook] == Colorize(us, ROOK) &&
    (kingTo != king && kingTo != rook ==> p.board[kingTo] == 0) &&
    (rookTo != king && rookTo != rook ==> p.board[rookTo] == 0)
  }

  /** Another move: the piece stands on `from`; the capture field and flags describe
      what stands on `to` (or behind it, en passant); only a promotion names a piece. */
  predicate PlainFits(p: Position, m: Move)
    requires WellFormed(p)
  {
    var us := p.turn;
    var them := 1 - us;
    var typ := Type(m.piece);
    var pawn := typ == PAWN && !HasBit(m.flags, BITS_BIG_PAWN);
    0 <= m.from < 128 && 0 <= m.to < 128 && m.from != m.to &&
    0 <= m.piece < 256 && p.board[m.from] == m.piece &&
    (m.promote != 0 ==> pawn && HasBit(m.flags, BITS_PROMOTION)) &&
    if HasBit(m.flags, BITS_CAPTURE) then
      0 <= m.capture < 8 && p.board[m.to] == Colorize(them, m.capture) &&
      !(pawn && HasBit(m.flags, BITS_EP_CAPTURE))
    else if HasBit(m.flags, BITS_EP_CAPTURE) then
      var c := m.to + 16 - 32 * us;
      pawn && m.capture == PAWN && p.board[m.to] == 0 &&
      0 <= c < 128 && c != m.from && p.board[c] == Colorize(them, PAWN)
    else
      m.capture == 0 && p.board[m.to] == 0
  }

  lemma SameAfterCastle(b0: seq<int>, b1: seq<int>, b2: seq<int>, us: int, king: int, rook: int, kingTo: int, rookTo: int)
    requires |b0| == 128 && 0 <= king < 128 && 0 <= rook < 128 && 0 <= kingTo < 128 && 0 <= rookTo < 128
    requires king != rook && kingTo != rookTo
    requires b0[king] == Colorize(us, KING) && b0[rook] == Colorize(us, ROOK)
    requires kingTo != king && kingTo != rook ==> b0[kingTo] == 0
    requires rookTo != king && rookTo != rook ==> b0[rookTo] == 0
    requires b1 == b0[king := 0][rook := 0][kingTo := Colorize(us, KING)][rookTo := Colorize(us, ROOK)]
    requires b2 == b1[kingTo := 0][rookTo := 0][king := Colorize(us, KING)][rook := Colorize(us, ROOK)]
    ensures b2 == b0
  {
  }

  lemma CastleBoardCells(b: seq<int>, us: int, king: int, rook: int, q: int)
    requires |b| == 128 && 0 <= king < 128 && 0 <= rook < 128 && (q == 0 || q == 1) && (us == 0 || us == 1)
    requires 0 <= CastleKingTo(king, q) - 1 < CastleKingTo(king, q) + 1 < 128
    ensures var kingTo := CastleKingTo(king, q);
      CastleBoard(b, us, king, rook, q) == b[king := 0][rook := 0][kingTo := Colorize(us, KING)][kingTo - 1 + 2 * q := Colorize(us, ROOK)]
  {
  }

  /** undoMove's board after a castle: king and rook leave their landing squares and
      return to the squares the record names. */
  lemma UncastleBoardCells(b: seq<int>, us: int, s: State, king: int, rook: int, q: int)
    requires |b| == 128 && |s.kings| == 2 && |s.castling| == 4 && (us == 0 || us == 1) && IsCastle(s.move.flags)
    requires (q == 0 || q == 1) && s.kings[us] == king && s.castling[2 * us + q] == rook && QSide(s.move.flags) == q
    requires var kingTo := CastleKingTo(king, q);
      0 <= king < 128 && 0 <= rook < 128 && 0 <= kingTo - 1 < kingTo + 1 < 128
    ensures var kingTo := CastleKingTo(king, q);
      UnmadeBoard(b, us, s) == b[kingTo := 0][kingTo - 1 + 2 * q := 0][king := Colorize(us, KING)][rook := Colorize(us, ROOK)]
  {
  }

  /** moveRaw's board for a castle is CastleBoard. */
  lemma MadeCastleBoard(p: Position, m: Move)
    requires WellFormed(p) && IsCastle(m.flags) && Type(m.piece) == KING
    ensures var q := QSide(m.flags);
      MadeBoard(p, m) == CastleBoard(p.board, p.turn, p.kings[p.turn], p.castling[2 * p.turn + q], q)
  {
  }

  lemma CastleBoardRestores(p: Position, m: Move)
    requires WellFormed(p) && IsCastle(m.flags) && CastleFits(p, m)
    ensures UnmadeBoard(MadeBoard(p, m), p.turn, SavedState(p, m)) == p.board
  {
    var us := p.turn;
    var q := QSide(m.flags);
    var king := p.kings[us];
    var rook := p.castling[2 * us + q];
    CastleSquares(king, q);
    CastleCellsRestore(p.board, us, king, rook, q);
    MadeCastleBoard(p, m);
    UncastleBoardCells(MadeBoard(p, m), us, SavedState(p, m), king, rook, q);
  }

  /** Undoing the four cells of a castle gives back the board it was made on. */
  lemma CastleCellsRestore(b: seq<int>, us: int, king: int, rook: int, q: int)
    requires |b| == 128 && (q == 0 || q == 1) && (us == 0 || us == 1)
    requires var kingTo := CastleKingTo(king, q); var rookTo := kingTo - 1 + 2 * q;
      OnBoard(king) && OnBoard(rook) && OnBoard(kingTo) && OnBoard(rookTo) &&
      b[king] == Colorize(us, KING) && b[rook] == Colorize(us, ROOK) &&
      (kingTo != king && kingTo != rook ==> b[kingTo] == 0) &&
      (rookTo != king && rookTo != rook ==> b[rookTo] == 0)
    ensures var kingTo := CastleKingTo(king, q);
      CastleBoard(b, us, king, rook, q)[kingTo := 0][kingTo - 1 + 2 * q := 0][king := Colorize(us, KING)][rook := Colorize(us, ROOK)] == b
  {
    var kingTo := CastleKingTo(king, q);
    var rookTo := kingTo - 1 + 2 * q;
    CastleBoardCells(b, us, king, rook, q);
    var b1 := b[king := 0][rook := 0][kingTo := Colorize(us, KING)][rookTo := Colorize(us, ROOK)];
    SameAfterCastle(b, b1, b1[kingTo := 0][rookTo := 0][king := Colorize(us, KING)][rook := Colorize(us, ROOK)], us, king, rook, kingTo, rookTo);
  }

  /** The board moveRaw leaves after a move that is not a castle and fits. */
  lemma PlainMadeCells(p: Position, m: Move)
    requires WellFormed(p) && !IsCastle(m.flags) && PlainFits(p, m)
    ensures var us := p.turn;
      var b1 := p.board[m.to := m.piece][m.from := 0];
      var pawn := Type(m.piece) == PAWN && !HasBit(m.flags, BITS_BIG_PAWN);
      var b2 := if pawn && HasBit(m.flags, BITS_EP_CAPTURE) then b1[m.to + 16 - 32 * us := 0] else b1;
      MadeBoard(p, m) == if pawn && HasBit(m.flags, BITS_PROMOTION) then b2[m.to := Byte(Colorize(us, m.promote))] else b2
  {
  }

  /** The board undoMove leaves after a move that is not a castle. */
  lemma PlainUnmadeCells(b: seq<int>, us: int, s: State, m: Move)
    requires |b| == 128 && s.move == m && !IsCastle(m.flags) && (us == 0 || us == 1)
    requires 0 <= m.from < 128 && 0 <= m.to < 128 && m.from != m.to && 0 <= m.piece < 256
    requires HasBit(m.flags, BITS_CAPTURE) ==> 0 <= m.capture < 8
    requires !HasBit(m.flags, BITS_CAPTURE) && HasBit(m.flags, BITS_EP_CAPTURE) ==> 0 <= m.to + 16 - 32 * us < 128
    ensures var u1 := b[m.from := m.piece][m.to := 0];
      UnmadeBoard(b, us, s) ==
        if HasBit(m.flags, BITS_CAPTURE) then u1[m.to := Colorize(1 - us, m.capture)]
        else if HasBit(m.flags, BITS_EP_CAPTURE) then u1[m.to + 16 - 32 * us := Colorize(1 - us, PAWN)]
        else u1
  {
  }

  lemma PlainBoardRestores(p: Position, m: Move)
    requires WellFormed(p) && !IsCastle(m.flags) && PlainFits(p, m)
    ensures UnmadeBoard(MadeBoard(p, m), p.turn, SavedState(p, m)) == p.board
  {
    var us := p.turn;
    assert 0 <= m.from < 128 && 0 <= m.to < 128 && m.from != m.to && 0 <= m.piece < 256;
    PlainCellsRestore(p.board, us, m);
    PlainMadeCells(p, m);
    PlainUnmadeCells(MadeBoard(p, m), us, SavedState(p, m), m);
  }

  lemma PlainCellsRestore(b: seq<int>, us: int, m: Move)
    requires |b| == 128 && (us == 0 || us == 1) && 0 <= m.from < 128 && 0 <= m.to < 128 && m.from != m.to
    requires 0 <= m.piece < 256 && b[m.from] == m.piece
    requires m.promote != 0 ==> Type(m.piece) == PAWN
    requires HasBit(m.flags, BITS_CAPTURE) ==> b[m.to] == Colorize(1 - us, m.capture)
    requires !HasBit(m.flags, BITS_CAPTURE) ==> b[m.to] == 0
    requires var c := m.to + 16 - 32 * us;
      !HasBit(m.flags, BITS_CAPTURE) && HasBit(m.flags, BITS_EP_CAPTURE) ==>
        0 <= c < 128 && c != m.from && b[c] == Colorize(1 - us, PAWN) && Type(m.piece) == PAWN && !HasBit(m.flags, BITS_BIG_PAWN)
    requires HasBit(m.flags, BITS_CAPTURE) ==> !(Type(m.piece) == PAWN && !HasBit(m.flags, BITS_BIG_PAWN) && HasBit(m.flags, BITS_EP_CAPTURE))
    ensures var b1 := b[m.to := m.piece][m.from := 0];
      var pawn := Type(m.piece) == PAWN && !HasBit(m.flags, BITS_BIG_PAWN);
      var b2 := if pawn && HasBit(m.flags, BITS_EP_CAPTURE) then b1[m.to + 16 - 32 * us := 0] else b1;
      var b3 := if pawn && HasBit(m.flags, BITS_PROMOTION) then b2[m.to := Byte(Colorize(us, m.promote))] else b2;
      var u1 := b3[m.from := m.piece][m.to := 0];
      (if HasBit(m.flags, BITS_CAPTURE) then u1[m.to := Colorize(1 - us, m.capture)]
       else if HasBit(m.flags, BITS_EP_CAPTURE) then u1[m.to + 16 - 32 * us := Colorize(1 - us, PAWN)]
       else u1) == b
  {
  }

  lemma BoardRestores(p: Position, m: Move)
    requires WellFormed(p) && Fits(p, m)
    ensures UnmadeBoard(MadeBoard(p, m), p.turn, SavedState(p, m)) == p.board
  {
    if IsCastle(m.flags) {
      CastleBoardRestores(p, m);
    } else {
      PlainBoardRestores(p, m);
    }
  }

  lemma MaterialsRestore(p: Position, m: Move)
    requires WellFormed(p) && Fits(p, m)
    ensures UnmadeMaterials(MadeMaterials(p, m), p.turn, m) == p.materials
  {
  }

  /**
   * Make then unmake: moveRaw followed by undoMove gives back the board,
   * castling, en passant square, clock, kings, material, side to move,
   * move number and ply.
   */
  lemma MakeUnmakeRestores(p: Position, m: Move)
    requires WellFormed(p) && Fits(p, m)
    ensures UnmakePos(MakePos(p, m), SavedState(p, m)) == p
  {
    var q := MakePos(p, m);
    var s := SavedState(p, m);
    assert q.board == MadeBoard(p, m) && q.materials == MadeMaterials(p, m) && 1 - q.turn == p.turn;
    BoardRestores(p, m);
    MaterialsRestore(p, m);
    assert UnmakePos(q, s) == Position(p.board, p.castling, p.epSquare, p.halfMoves, p.kings, p.materials, p.turn, p.moveNumber, p.ply);
  }

  /** The same on the whole engine state: only history[ply + 1] is left behind. */
  lemma MoveUndoRestores(g: Game, m: Move)
    requires WellFormed(g.pos) && Fits(g.pos, m) && g.pos.ply >= -1
    ensures UndoGame(MoveRawGame(g, m)) == Game(g.pos, AddState(g.history, g.pos, m))
  {
    AddStateKeeps(g.history, g.pos, m);
    MakeUnmakeRestores(g.pos, m);
  }
}
