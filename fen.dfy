// Forsyth-Edwards Notation (section 16.1 of the PGN standard): load() as a
// fold over the characters, its castling post-processing, and createFen().

module Fen {
  import opened Tables
  import opened Squares
  import opened Moves
  import opened Rules

  // ------------------------------------------------------------------- put

  /** The three arrays put() writes. */
  datatype Placement = Placement(board: seq<int>, kings: seq<int>, materials: seq<int>)

  /** put(piece, square): the cell takes the piece; a king records its square,
      any other code adds its score to its color's material. */
  function PutSpec(pl: Placement, piece: int, square: int): (r: Placement)
    ensures |r.board| == |pl.board| && |r.kings| == |pl.kings| && |r.materials| == |pl.materials|
  {
    var b := SetCell(pl.board, square, piece);
    if Type(piece) == KING then Placement(b, Set(pl.kings, Color(piece), square), pl.materials)
    else Placement(b, pl.kings, Set(pl.materials, Color(piece), Get(pl.materials, Color(piece)) + Get(PIECE_SCORES, piece)))
  }

  /** After put, the square holds the piece, and a king's square is the one recorded. */
  lemma PutPlaces(pl: Placement, piece: int, square: int)
    requires |pl.board| == 128 && |pl.kings| == 2 && |pl.materials| == 2
    requires 0 <= piece < 15 && 0 <= square < 128
    ensures var r := PutSpec(pl, piece, square);
      r.board[square] == piece &&
      (forall i | 0 <= i < 128 && i != square :: r.board[i] == pl.board[i]) &&
      (Type(piece) == KING ==> r.kings[Color(piece)] == square && r.materials == pl.materials) &&
      (Type(piece) != KING ==>
        (r.kings == pl.kings && r.materials[Color(piece)] == pl.materials[Color(piece)] + PIECE_SCORES[piece]))
  {
  }

  // ------------------------------------------------------------ the scan

  /** The locals of load()'s character loop, plus the arrays put() writes. */
  datatype Scan = Scan(pl: Placement, turn: int, step: int, step2: int, step3: int, square: int,
                       half: int, move: int, castle: string, ep: string)

  function Digit(c: char): int { c as int - '0' as int }

  /** One iteration of the loop, for the character c at index i. */
  function ScanChar(s: Scan, i: int, c: char): (r: Scan)
    ensures |r.pl.board| == |s.pl.board| && |r.pl.kings| == |s.pl.kings| && |r.pl.materials| == |s.pl.materials|
    ensures s.turn == 0 || s.turn == 1 ==> r.turn == 0 || r.turn == 1
    ensures (r.step2 == s.step2 || r.step2 == i) && (r.step3 == s.step3 || r.step3 == i)
  {
    if c == ' ' then
      var step := s.step + 1;
      if step == 2 then s.(step := step, step2 := i)
      else if step == 3 then s.(step := step, step3 := i)
      else s.(step := step)
    else if s.step == 0 then
      if c == '/' then s.(square := s.square + 8)
      else if '1' <= c <= '9' then s.(square := s.square + Digit(c))
      else s.(pl := PutSpec(s.pl, PieceCode(c), s.square), square := s.square + 1)
    else if s.step == 1 then s.(turn := if c == 'w' then 0 else 1)
    else if s.step == 2 then s.(castle := s.castle + [c])
    else if s.step == 3 then s.(ep := s.ep + [c])
    else if s.step == 4 then s.(half := s.half * 10 + Digit(c))
    else if s.step == 5 then s.(move := s.move * 10 + Digit(c))
    else s
  }

  /** The loop from index k to the end of the text. */
  function ScanFrom(fen: string, k: nat, s: Scan): (r: Scan)
    ensures |r.pl.board| == |s.pl.board| && |r.pl.kings| == |s.pl.kings| && |r.pl.materials| == |s.pl.materials|
    ensures s.turn == 0 || s.turn == 1 ==> r.turn == 0 || r.turn == 1
    ensures 0 <= s.step2 <= |fen| && 0 <= s.step3 <= |fen| ==> 0 <= r.step2 <= |fen| && 0 <= r.step3 <= |fen|
    decreases |fen| - k
  {
    if k >= |fen| then s else ScanFrom(fen, k + 1, ScanChar(s, k, fen[k]))
  }

  /** The arrays as clear() leaves them. */
  function ClearBoard(): (r: seq<int>)
    ensures |r| == 128 && forall i | 0 <= i < 128 :: r[i] == 0
  {
    seq(128, i => 0)
  }

  const CLEAR_BOARD: seq<int> := ClearBoard()
  const NO_SQUARES: seq<int> := [EMPTY, EMPTY, EMPTY, EMPTY]
  const CLEAR_PLACEMENT := Placement(CLEAR_BOARD, [EMPTY, EMPTY], [0, 0])
  const SCAN_START := Scan(CLEAR_PLACEMENT, WHITE, 0, 0, 0, 0, 0, 0, "", "")

  /** The position clear() leaves. */
  const CLEAR_POSITION := Position(CLEAR_BOARD, NO_SQUARES, EMPTY, 0, [EMPTY, EMPTY], [0, 0], WHITE, 1, -1)

  // -------------------------------------------------------------- castling

  /** The castling records after the castling field is read letter by letter. */
  datatype CastleRead = CastleRead(castling: seq<int>, error: bool, frc: bool)

  /** One castling letter: K/Q/k/q or a file letter (upper case white, lower case black).
      The rook square goes to the king side entry unless it lies before the king.
      On the starting position, a letter naming a square without a rook is an error. */
  function CastleLetter(cr: CastleRead, letter: char, kings: seq<int>, board: seq<int>, start: bool): (r: CastleRead)
    ensures |r.castling| == |cr.castling|
  {
    var code := letter as int;
    var lower := if code < 'a' as int then code + 'a' as int - 'A' as int else code;
    var final := if lower == 'k' as int then 'h' as int else if lower == 'q' as int then 'a' as int else lower;
    var color := if code == lower then 1 else 0;
    var square := final - 'a' as int + (if color == 1 then 0 else 7) * 16;
    var index := color * 2 + (if square < Get(kings, color) then 1 else 0);
    CastleRead(Set(cr.castling, index, square),
      cr.error || (start && Type(Get(board, square)) != ROOK),
      cr.frc || final == lower)
  }

  function CastleLetters(cr: CastleRead, castle: string, k: nat, kings: seq<int>, board: seq<int>, start: bool): (r: CastleRead)
    ensures |r.castling| == |cr.castling|
    decreases |castle| - k
  {
    if k >= |castle| then cr
    else CastleLetters(CastleLetter(cr, castle[k], kings, board, start), castle, k + 1, kings, board, start)
  }

  /** The error fix, to the right of the king: the first rook before the file runs
      past h, or None. */
  function RightRook(board: seq<int>, i: int): (r: Option<int>)
    ensures r.Some? ==> Type(Get(board, r.value)) == ROOK && File(r.value) <= 7 && r.value >= i
    ensures r.Some? ==> r.value / 16 == i / 16
    decreases if File(i) <= 7 then 8 - File(i) else 0
  {
    if File(i) > 7 then None
    else if Type(Get(board, i)) == ROOK then Some(i)
    else RightRook(board, i + 1)
  }

  /** The error fix, to the left of the king, with the scan stopping when the file
      wraps below a (see the finding in README): the first rook, or None. */
  function LeftRook(board: seq<int>, i: int): (r: Option<int>)
    ensures r.Some? ==> Type(Get(board, r.value)) == ROOK && File(r.value) <= 7 && r.value <= i
    ensures r.Some? ==> r.value / 16 == i / 16
    decreases if File(i) <= 7 then File(i) + 1 else 0
  {
    if File(i) > 7 then None
    else if Type(Get(board, i)) == ROOK then Some(i)
    else LeftRook(board, i - 1)
  }

  /** The left scan as written (guard FILE(i) >= 0), cut off after `fuel` squares:
      None when the fuel ran out, Some(i) when a rook was found at i. */
  function LeftRookAsWritten(board: seq<int>, i: int, fuel: nat): Option<int>
    decreases fuel
  {
    if fuel == 0 then None
    else if !(File(i) >= 0) then Some(EMPTY)
    else if Type(Get(board, i)) == ROOK then Some(i)
    else LeftRookAsWritten(board, i - 1, fuel - 1)
  }

  /** FILE(i) is i & 15, never negative: the as-written guard never stops the scan. */
  lemma AsWrittenGuardAlwaysHolds(i: int)
    ensures File(i) >= 0
  {
  }

  /** The board "4k3/8/8/8/8/8/8/4K3" loads: the two kings and nothing else. */
  const KINGS_ONLY: seq<int> := seq(128, j => if j == 4 then 14 else if j == 116 then 6 else 0)

  /**
   * On that board (loaded from "4k3/8/8/8/8/8/8/4K3 w K - 0 1", whose K letter names
   * an empty h1 and so triggers the fix), the as-written scan left of the white king
   * finds no rook however far it runs: it walks off the board.
   */
  lemma {:induction false} AsWrittenLeftScanRunsOff(i: int, fuel: nat)
    requires i <= 115
    ensures LeftRookAsWritten(KINGS_ONLY, i, fuel) == None
    decreases fuel
  {
    if fuel > 0 {
      assert Type(Get(KINGS_ONLY, i)) != ROOK;
      AsWrittenLeftScanRunsOff(i - 1, fuel - 1);
    }
  }

  /** The board "r3k3/8/8/8/8/8/R7/4K3" loads: the two kings, a black rook on a8 and a
      white rook on a2. */
  const A2_ROOK_BOARD: seq<int> :=
    seq(128, j => if j == 0 then 12 else if j == 4 then 14 else if j == 116 then 6 else if j == 96 then 4 else 0)

  /** The as-written scan passes over squares that hold no rook, one fuel per square. */
  lemma {:induction false} AsWrittenScanSkips(board: seq<int>, i: int, j: int, fuel: nat)
    requires j <= i && fuel > i - j
    requires forall k | j < k <= i :: Type(Get(board, k)) != ROOK
    ensures LeftRookAsWritten(board, i, fuel) == LeftRookAsWritten(board, j, fuel - (i - j))
    decreases i - j
  {
    if j < i {
      assert File(i) >= 0;
      AsWrittenScanSkips(board, i - 1, j, fuel - 1);
    }
  }

  /**
   * On "r3k3/8/8/8/8/8/R7/4K3 w K - 0 1" (h1 empty, so the fix runs) the as-written
   * scan left of the white king runs past a1 into the 0x88 gap and on to a2, and
   * records the a2 rook (square 96, castling letter 'A') for White's queen side.
   * The corrected scan stops at a1 and finds nothing. Black's left scan meets the a8
   * rook on its own rank, so every cell either scan reads is on the board.
   */
  lemma AsWrittenLeftScanLeavesRank()
    ensures LeftRookAsWritten(A2_ROOK_BOARD, 115, 20) == Some(96)
    ensures 96 / 16 != 115 / 16 && ToChar('A' as int + File(96)) == 'A'
    ensures LeftRook(A2_ROOK_BOARD, 115) == None
    ensures LeftRookAsWritten(A2_ROOK_BOARD, 3, 4) == Some(0) && LeftRook(A2_ROOK_BOARD, 3) == Some(0)
  {
    BlackScanStays();
    AsWrittenScanSkips(A2_ROOK_BOARD, 115, 96, 20);
    assert Type(Get(A2_ROOK_BOARD, 96)) == ROOK;
    assert LeftRook(A2_ROOK_BOARD, 112) == None;
    assert LeftRook(A2_ROOK_BOARD, 113) == None;
    assert LeftRook(A2_ROOK_BOARD, 114) == None;
  }

  /** On the same board Black's left scan from d8 meets the a8 rook, as written and
      corrected alike. */
  lemma BlackScanStays()
    ensures LeftRookAsWritten(A2_ROOK_BOARD, 3, 4) == Some(0) && LeftRook(A2_ROOK_BOARD, 3) == Some(0)
  {
    AsWrittenScanSkips(A2_ROOK_BOARD, 3, 0, 4);
    assert Type(Get(A2_ROOK_BOARD, 0)) == ROOK;
    assert LeftRook(A2_ROOK_BOARD, 0) == Some(0);
  }

  /** With the corrected guard the scan stays on the king's rank and ends. */
  lemma LeftRookOnKingsRank(board: seq<int>, king: int)
    ensures var r := LeftRook(board, king - 1);
      r.Some? ==> r.value < king && r.value / 16 == (king - 1) / 16 && Type(Get(board, r.value)) == ROOK
    ensures LeftRook(KINGS_ONLY, 115) == None
  {
    assert LeftRook(KINGS_ONLY, 112) == None;
    assert LeftRook(KINGS_ONLY, 113) == None;
    assert LeftRook(KINGS_ONLY, 114) == None;
  }

  /** A rook found by a scan becomes the castling entry at `index`, and its file
      letter is added to the castling text; no rook found changes nothing. */
  function FixSide(castling: seq<int>, castle: string, found: Option<int>, index: int, letter: int): (r: (seq<int>, string))
    ensures |r.0| == |castling|
  {
    if found.Some? then (Set(castling, index, found.value), castle + [ToChar(letter + File(found.value))])
    else (castling, castle)
  }

  /** The fix for one color: the scan right of the king gives the king side entry,
      the scan left of it the queen side entry. */
  function FixColor(castling: seq<int>, castle: string, board: seq<int>, kings: seq<int>, color: int): (r: (seq<int>, string))
    ensures |r.0| == |castling|
  {
    var letter := if color == 1 then 'a' as int else 'A' as int;
    var king := Get(kings, color);
    var right := FixSide(castling, castle, RightRook(board, king + 1), color * 2, letter);
    FixSide(right.0, right.1, LeftRook(board, king - 1), color * 2 + 1, letter)
  }

  // ------------------------------------------------------------------ load

  /** What load() leaves besides the position: the FEN text and the Chess960 flag. */
  datatype Loaded = Loaded(pos: Position, frc: bool, fen: string)


  /** The castling records, the Chess960 flag and the FEN text after load() reads the
      castling field; on error both colors' rooks are searched and the field rewritten. */
  datatype Castled = Castled(castling: seq<int>, frc: bool, fen: string)

  function CastleFix(fen: string, castle: string, step2: int, step3: int, board: seq<int>, kings: seq<int>,
                     start: bool, frc: bool): (r: Castled)
    requires 0 <= step2 <= |fen| && 0 <= step3 <= |fen|
    ensures |r.castling| == 4
  {
    if castle == "-" then Castled(NO_SQUARES, frc, fen)
    else
      var cr := CastleLetters(CastleRead(NO_SQUARES, false, frc), castle, 0, kings, board, start);
      if !cr.error then Castled(cr.castling, cr.frc, fen)
      else
        var white := FixColor(cr.castling, "", board, kings, 0);
        var both := FixColor(white.0, white.1, board, kings, 1);
        Castled(both.0, true, fen[..step2] + " " + both.1 + fen[step3..])
  }

  /** The position the character loop leaves, before the castling field is read:
      the en passant square, the clocks and the ply follow from the loop's text. */
  function ScannedPos(s: Scan): (p: Position)
    ensures p.ply == 2 * p.moveNumber - 3 + p.turn
    ensures p.moveNumber >= 1 && (s.move >= 1 ==> p.moveNumber == s.move)
    ensures s.turn == WHITE || s.turn == BLACK ==> p.ply >= -1
  {
    var ep := if s.ep == "-" then EMPTY else AnToSquare(s.ep);
    var move := MoveNumberOf(s.move);
    Position(s.pl.board, NO_SQUARES, ep, s.half, s.pl.kings, s.pl.materials, s.turn, move, move * 2 - 3 + s.turn)
  }

  /** The move number load() keeps for the number its move field reads: a missing,
      zero or negative field counts as move 1, the first move of section 16.1.3.6 of
      the PGN standard (the corrected reading; see the finding in README). */
  function MoveNumberOf(move: int): int
  {
    if move < 1 then 1 else move
  }

  // --------------------------------------------- the missing move number, as written

  /** The number of spaces in fen[k..]. */
  function SpacesFrom(fen: string, k: nat): nat
    decreases |fen| - k
  {
    if k >= |fen| then 0 else (if fen[k] == ' ' then 1 else 0) + SpacesFrom(fen, k + 1)
  }

  /** Before the fifth space the loop never reaches its move-number case. */
  lemma {:induction false} MoveFieldUnread(fen: string, k: nat, s: Scan)
    requires s.step + SpacesFrom(fen, k) < 5
    ensures ScanFrom(fen, k, s).move == s.move
    decreases |fen| - k
  {
    if k < |fen| {
      var t := ScanChar(s, k, fen[k]);
      assert t.move == s.move && t.step == s.step + (if fen[k] == ' ' then 1 else 0);
      MoveFieldUnread(fen, k + 1, t);
    }
  }

  /** The ply load() sets as written: move_number * 2 - 3 + turn, with the move number
      exactly as read. */
  function AsWrittenPly(move: int, turn: int): int
  {
    move * 2 - 3 + turn
  }

  /** addState's loop bound as written: ply + 2 converted to the 64-bit size_t. */
  function AsWrittenStatesBound(ply: int): int
  {
    (ply + 2) % 0x1_0000_0000_0000_0000
  }

  /**
   * A text with fewer than five spaces, such as "4k3/8/8/8/8/8/8/4K3 w - -", has no
   * move field, so as written its move number stays 0. With White to move the ply is
   * -3, and addState's loop then grows the history towards 2^64 - 1 records; with
   * Black to move it is -2, and addState writes the record at index -1.
   */
  lemma AsWrittenNoMoveNumber(fen: string)
    requires SpacesFrom(fen, 0) < 5
    ensures var s := ScanFrom(fen, 0, SCAN_START);
      s.move == 0 &&
      (s.turn == WHITE ==> AsWrittenPly(s.move, s.turn) == -3 && AsWrittenStatesBound(-3) == 0xFFFF_FFFF_FFFF_FFFF) &&
      (s.turn == BLACK ==> AsWrittenPly(s.move, s.turn) + 1 == -1)
  {
    MoveFieldUnread(fen, 0, SCAN_START);
  }

  /** A stretch without spaces adds nothing to the count. */
  lemma {:induction false} SpacesSkip(fen: string, k: nat, j: nat)
    requires k <= j <= |fen| && forall i | k <= i < j :: fen[i] != ' '
    ensures SpacesFrom(fen, k) == SpacesFrom(fen, j)
    decreases j - k
  {
    if k < j {
      SpacesSkip(fen, k + 1, j);
    }
  }

  /** The example text has three spaces: after the placement, the turn and the castling field. */
  lemma KingsOnlyNoMoveField()
    ensures SpacesFrom(KINGS_ONLY_NO_MOVE, 0) == 3
  {
    var fen := KINGS_ONLY_NO_MOVE;
    SpacesSkip(fen, 0, 19);
    assert SpacesFrom(fen, 24) == 0;
    assert SpacesFrom(fen, 19) == 1 + SpacesFrom(fen, 20);
    assert SpacesFrom(fen, 20) == SpacesFrom(fen, 21);
    assert SpacesFrom(fen, 21) == 1 + SpacesFrom(fen, 22);
    assert SpacesFrom(fen, 22) == SpacesFrom(fen, 23);
    assert SpacesFrom(fen, 23) == 1 + SpacesFrom(fen, 24);
  }

  const KINGS_ONLY_NO_MOVE := "4k3/8/8/8/8/8/8/4K3 w - -"

  /** With the corrected move number every load leaves ply >= -1: the record slot
      ply + 1 that addState writes is a real index, and the size_t conversion of
      ply + 2 changes nothing. */
  lemma LoadLeavesRecordSlot(fen: string, frc: bool)
    requires fen != ""
    ensures var p := LoadSpec(fen, frc).pos;
      p.moveNumber >= 1 && p.ply >= -1 &&
      (p.ply + 2 < 0x1_0000_0000_0000_0000 ==> AsWrittenStatesBound(p.ply) == p.ply + 2)
  {
  }

  /** load(fen) on a non-empty text, starting from the cleared state; a load on the
      starting position (white to move, move field read as 1) clears the Chess960 flag
      first. The start test uses the move number as read, before its correction. */
  function LoadSpec(fen: string, frc: bool): (r: Loaded)
    requires fen != ""
    ensures WellFormed(r.pos)
    ensures r.pos.ply == 2 * r.pos.moveNumber - 3 + r.pos.turn
    ensures r.pos.moveNumber >= 1 && r.pos.ply >= -1
  {
    var s := ScanFrom(fen, 0, SCAN_START);
    var start := s.turn == WHITE && s.move == 1;
    var c := CastleFix(fen, s.castle, s.step2, s.step3, s.pl.board, s.pl.kings, start, if start then false else frc);
    Loaded(ScannedPos(s).(castling := c.castling), c.frc, c.fen)
  }

  /** Every cell of a board the character loop builds holds 0 or a piece code: clear()
      leaves zeros and put() writes the PIECES code of a letter, 0 for any other. */
  predicate PieceCodes(b: seq<int>)
  {
    forall i | 0 <= i < |b| :: 0 <= b[i] < 16
  }

  lemma {:induction false} ScanKeepsPieceCodes(fen: string, k: nat, s: Scan)
    requires PieceCodes(s.pl.board)
    ensures PieceCodes(ScanFrom(fen, k, s).pl.board)
    decreases |fen| - k
  {
    if k < |fen| {
      var s1 := ScanChar(s, k, fen[k]);
      forall i | 0 <= i < |s1.pl.board|
        ensures 0 <= s1.pl.board[i] < 16
      {
        CellOverWrite(s.pl.board, s.square, i, PieceCode(fen[k]));
      }
      ScanKeepsPieceCodes(fen, k + 1, s1);
    }
  }

  /** Whatever the text, the loaded board holds only empty cells and piece codes. */
  lemma LoadPieceCodes(fen: string, frc: bool)
    requires fen != ""
    ensures PieceCodes(LoadSpec(fen, frc).pos.board)
  {
    ScanKeepsPieceCodes(fen, 0, SCAN_START);
  }

  // ------------------------------------------------------------- createFen

  /** The count of a run of empty cells, as the single character '0' + n. */
  function EmptyRun(empty: int): (r: string)
    ensures empty > 0 <==> |r| == 1
    ensures 0 < empty <= 9 ==> '1' <= r[0] <= '9' && Digit(r[0]) == empty
  {
    if empty > 0 then [ToChar('0' as int + empty)] else ""
  }

  /** The text for one cell: nothing for an empty cell, otherwise the pending count
      of empty cells and the piece's PIECE_NAMES letter. */
  function CellText(piece: int, empty: int): string
  {
    if piece == 0 then "" else EmptyRun(empty) + [CharAt(PIECE_NAMES, piece)]
  }

  /** The count of empty cells pending after one cell. */
  function Pending(piece: int, empty: int): int
  {
    if piece == 0 then empty + 1 else 0
  }

  /**
   * The placement field, from cell i with `empty` empty cells pending; after the
   * last cell of a rank the count is flushed, a '/' follows except after h1, and
   * the 8 cells off the board are skipped.
   */
  function BoardFrom(b: seq<int>, i: nat, empty: int): (r: string)
    decreases 120 - i
  {
    if i > SQUARE_H1 then ""
    else
      var piece := Get(b, i);
      var text := CellText(piece, empty);
      var pending := Pending(piece, empty);
      if OffBoard(i + 1) then
        text + EmptyRun(pending) + (if i != SQUARE_H1 then "/" else "") + BoardFrom(b, i + 9, 0)
      else text + BoardFrom(b, i + 1, pending)
  }

  /** The castling letter of a recorded rook under Chess960: its file letter, upper
      case off the eighth rank; none for an EMPTY entry. */
  function RookLetter(square: int): (r: string)
    ensures square == EMPTY <==> r == ""
  {
    if square == EMPTY then ""
    else [ToChar(File(square) + (if Rank(square) > 0 then 'A' as int else 'a' as int))]
  }

  /** The castling field with the Chess960 flag: one letter per recorded rook. */
  function FileLetters(castling: seq<int>, k: nat): (r: string)
    decreases |castling| - k
  {
    if k >= |castling| then "" else RookLetter(castling[k]) + FileLetters(castling, k + 1)
  }

  /** The castling field without Chess960: K, Q, k, q for the recorded rooks. */
  function Kqkq(castling: seq<int>): (r: string)
    ensures r == "" <==> forall k | 0 <= k < 4 :: Get(castling, k) == EMPTY
    ensures r != "-"
  {
    var black := (if Get(castling, 2) != EMPTY then "k" else "") + (if Get(castling, 3) != EMPTY then "q" else "");
    var white := (if Get(castling, 0) != EMPTY then "K" else "") + (if Get(castling, 1) != EMPTY then "Q" else "");
    assert black == "" || black[0] != '-';
    assert white == "" || white[0] != '-';
    assert white != "" ==> (white + black)[0] == white[0];
    assert white == "" ==> white + black == black;
    white + black
  }

  /** The castling field: "-" when no letter is written. */
  function CastleText(castling: seq<int>, frc: bool): (r: string)
    ensures r != ""
    ensures !frc ==> (r == "-" <==> forall k | 0 <= k < 4 :: Get(castling, k) == EMPTY)
  {
    var text := if frc then FileLetters(castling, 0) else Kqkq(castling);
    if text == "" then "-" else text
  }

  /** The en passant field: "-" or the square's file letter and rank digit. */
  function EpText(ep: int): (r: string)
    ensures ep == EMPTY <==> r == "-"
    ensures OnBoard(ep) ==> r == SquareToAn(ep, true)
  {
    if ep == EMPTY then "-" else [ToChar('a' as int + File(ep)), ToChar('8' as int - Rank(ep))]
  }

  function DigitChar(d: int): (c: char)
    requires 0 <= d < 10
    ensures '0' <= c <= '9' && Digit(c) == d
  {
    ('0' as int + d) as char
  }

  /** The decimal digits of n (std::to_string of a non-negative int). */
  function NatText(n: nat): (r: string)
    ensures |r| >= 1 && forall k | 0 <= k < |r| :: '0' <= r[k] <= '9'
    ensures |r| > 1 ==> r[0] != '0'
    decreases n
  {
    if n < 10 then [DigitChar(n)]
    else
      var high := NatText(n / 10);
      high + [DigitChar(n % 10)]
  }

  /** std::to_string of an int. */
  function IntText(n: int): (r: string)
    ensures r != "" && (n < 0 <==> r[0] == '-')
  {
    if n < 0 then "-" + NatText(-n) else NatText(n)
  }

  /** The side to move, 'w' for white and 'b' otherwise. */
  function ColorText(turn: int): char
  {
    if turn == WHITE then 'w' else 'b'
  }

  /** createFen(): the six fields, separated by single spaces. */
  function FenSpec(p: Position, frc: bool): (r: string)
  {
    BoardFrom(p.board, SQUARE_A8, 0) + " " + [ColorText(p.turn)] + " " + CastleText(p.castling, frc) + " "
      + EpText(p.epSquare) + " " + IntText(p.halfMoves) + " " + IntText(p.moveNumber)
  }

  // ------------------------------------------------------ numbers round trip

  /** The digits of a field read as load() reads the half-move and move fields. */
  function DigitsValue(s: string, acc: int): int
    decreases |s|
  {
    if s == [] then acc else DigitsValue(s[1..], acc * 10 + Digit(s[0]))
  }

  lemma {:induction false} DigitsValueAppend(s: string, c: char, acc: int)
    ensures DigitsValue(s + [c], acc) == DigitsValue(s, acc) * 10 + Digit(c)
    decreases |s|
  {
    if s == [] {
      assert ([] + [c])[1..] == [];
    } else {
      assert (s + [c])[1..] == s[1..] + [c];
      DigitsValueAppend(s[1..], c, acc * 10 + Digit(s[0]));
    }
  }

  /** Reading back the text std::to_string gives for a non-negative number yields it. */
  lemma {:induction false} NatTextRoundTrip(n: nat)
    ensures DigitsValue(NatText(n), 0) == n
    decreases n
  {
    if n >= 10 {
      NatTextRoundTrip(n / 10);
      DigitsValueAppend(NatText(n / 10), DigitChar(n % 10), 0);
    }
  }

  /** Steps 4 and 5 of load() accumulate exactly DigitsValue over a field without spaces. */
  lemma {:induction false} ScanNumberField(fen: string, k: nat, s: Scan)
    requires k <= |fen| && (s.step == 4 || s.step == 5)
    requires forall j | k <= j < |fen| :: fen[j] != ' '
    ensures var r := ScanFrom(fen, k, s);
      r.step == s.step &&
      (s.step == 4 ==> r.half == DigitsValue(fen[k..], s.half) && r.move == s.move) &&
      (s.step == 5 ==> r.move == DigitsValue(fen[k..], s.move) && r.half == s.half)
    decreases |fen| - k
  {
    if k < |fen| {
      assert fen[k..][1..] == fen[k + 1..];
      ScanNumberField(fen, k + 1, ScanChar(s, k, fen[k]));
    }
  }
}
