// The Chess class: the engine state in place (a 128-cell board array and the
// scalar fields), with each method proved to leave the state the pure rules
// describe.

module Engine {
  import opened Tables
  import opened Squares
  import opened Moves
  import opened Rules
  import opened Fen
  import Options
  import opened MoveGen
  import Notation
  import Play
  import StartFen

  /** Every undo record carries a full castling array and both king squares. */
  predicate StatesShaped(h: seq<State>)
  {
    forall k | 0 <= k < |h| :: |h[k].castling| == 4 && |h[k].kings| == 2
  }

  lemma AddStateShaped(h: seq<State>, p: Position, m: Move)
    requires StatesShaped(h) && WellFormed(p) && p.ply >= -1
    ensures StatesShaped(Rules.AddState(h, p, m))
  {
    var g := Grow(h, p.ply + 2);
    forall k | 0 <= k < |g| ensures |g[k].castling| == 4 && |g[k].kings| == 2 {
      if k < |h| {
        assert g[..|h|][k] == h[k];
      }
    }
  }

  class Chess {
    const board: array<int>
    var castling: seq<int>
    var epSquare: int
    var evalMode: int
    var fen: string
    var frc: bool
    var halfMoves: int
    var kings: seq<int>
    var materials: seq<int>
    var maxDepth: int
    var maxNodes: int
    var maxTime: int
    var moveNumber: int
    var ply: int
    var plyStates: seq<State>
    var searchMode: int
    var turn: int

    /** Chess(): default options at depth 4, then the standard starting position. */
    constructor ()
      ensures Valid() && fresh(board)
      ensures Settings() == Options.Settings(1, 4, Options.MAX_NODES, 0, 0)
      ensures plyStates == []
      ensures StartFen.Started(Pos(), fen, frc)
    {
      board := new int[128];
      castling := NO_SQUARES;
      kings := [EMPTY, EMPTY];
      materials := [0, 0];
      turn := WHITE;
      plyStates := [];
      new;
      Start();
    }

    /** The body of Chess(): configure(false, "", 4), clear(), then the starting position. */
    method Start()
      requires Valid()
      modifies board, this`castling, this`epSquare, this`fen, this`frc, this`halfMoves, this`kings, this`materials, this`moveNumber, this`ply, this`plyStates, this`turn
      modifies this`evalMode, this`maxDepth, this`maxNodes, this`maxTime, this`searchMode
      ensures Valid() && plyStates == []
      ensures Settings() == Options.Settings(1, 4, Options.MAX_NODES, 0, 0)
      ensures StartFen.Started(Pos(), fen, frc)
    {
      ConfigureStart();
      ClearAndLoadStart();
    }

    /** clear(), then load(DEFAULT_POSITION), from the constructor. */
    method ClearAndLoadStart()
      requires Valid()
      modifies board, this`castling, this`epSquare, this`fen, this`frc, this`halfMoves, this`kings, this`materials, this`moveNumber, this`ply, this`plyStates, this`turn
      ensures Valid() && plyStates == []
      ensures StartFen.Started(Pos(), fen, frc)
    {
      Clear();
      LoadStart();
    }

    /** load(DEFAULT_POSITION) from the constructor. */
    method LoadStart()
      requires Valid()
      modifies board, this`castling, this`epSquare, this`fen, this`frc, this`halfMoves, this`kings, this`materials, this`moveNumber, this`ply, this`plyStates, this`turn
      ensures Valid() && plyStates == []
      ensures StartFen.Started(Pos(), fen, frc)
    {
      var text := Load(DEFAULT_POSITION);
      StartFen.LoadDefaultIgnoresFrc(old(frc));
      StartFen.LoadDefault(false);
      StartFen.DefaultRoundTrip(false);
    }


    /** configure(false, "", 4): the default settings. */
    method ConfigureStart()
      modifies this`evalMode, this`frc, this`maxDepth, this`maxNodes, this`maxTime, this`searchMode
      ensures Settings() == Options.Settings(1, 4, Options.MAX_NODES, 0, 0)
    {
      ghost var s0 := Settings();
      Configure(false, "", 4);
      Options.ConfigureDefaults(s0, "", 4);
    }

    /** The sizes of the arrays and a side to move. */
    predicate Valid()
      reads this, board
    {
      board.Length == 128 && |castling| == 4 && |kings| == 2 && |materials| == 2 &&
      (turn == WHITE || turn == BLACK) && StatesShaped(plyStates)
    }

    /** The fields as a Position value. */
    function Pos(): Position
      reads this, board
    {
      Position(board[..], castling, epSquare, halfMoves, kings, materials, turn, moveNumber, ply)
    }

    /** The position with the history vector. */
    function GameState(): Game
      reads this, board
    {
      Game(Pos(), plyStates)
    }

    /** The search settings configure() writes. */
    function Settings(): Options.Settings
      reads this
    {
      Options.Settings(evalMode, maxDepth, maxNodes, maxTime, searchMode)
    }

    lemma PosWellFormed()
      requires Valid()
      ensures WellFormed(Pos())
    {
    }

    /** board[k] = v on the uint8 board; a write outside the array is dropped. */
    method Write(k: int, v: int)
      requires board.Length == 128
      modifies board
      ensures board[..] == SetCell(old(board[..]), k, v)
    {
      if 0 <= k < board.Length {
        board[k] := Byte(v);
      }
    }

    /** board[k], 0 outside the array. */
    function Cell(k: int): (r: int)
      reads board
      ensures r == Get(board[..], k)
    {
      if 0 <= k < board.Length then board[k] else 0
    }

    // ---------------------------------------------------------- clear / put

    /** clear(): an empty board, no castling, no kings, no history, white to move at move 1. */
    method Clear()
      requires Valid()
      modifies board, this`castling, this`epSquare, this`fen, this`halfMoves, this`kings, this`materials, this`moveNumber, this`ply, this`plyStates, this`turn
      ensures Valid()
      ensures Pos() == CLEAR_POSITION && plyStates == [] && fen == ""
    {
      EmptyBoard();
      castling := NO_SQUARES;
      epSquare := EMPTY;
      fen := "";
      halfMoves := 0;
      kings := [EMPTY, EMPTY];
      materials := [0, 0];
      moveNumber := 1;
      ply := -1;
      plyStates := [];
      turn := WHITE;
    }

    /** The board part of clear(): every cell emptied. */
    method EmptyBoard()
      requires board.Length == 128
      modifies board
      ensures board[..] == CLEAR_BOARD
    {
      forall k | 0 <= k < board.Length {
        board[k] := 0;
      }
      assert board[..] == CLEAR_BOARD;
    }

    /** put(piece, square) */
    method Put(piece: int, square: int)
      requires Valid()
      modifies board, this`kings, this`materials
      ensures Valid()
      ensures Placement(board[..], kings, materials) == PutSpec(old(Placement(board[..], kings, materials)), piece, square)
    {
      Write(square, piece);
      if Type(piece) == KING {
        kings := Set(kings, Color(piece), square);
      } else {
        materials := Set(materials, Color(piece), Get(materials, Color(piece)) + Get(PIECE_SCORES, piece));
      }
    }

    // ------------------------------------------------------------------ load

    /** reset(): standard chess from the starting position. */
    method Reset()
      requires Valid()
      modifies board, this`castling, this`epSquare, this`fen, this`frc, this`halfMoves, this`kings, this`materials, this`moveNumber, this`ply, this`plyStates, this`turn
      ensures Valid() && plyStates == [] && frc == LoadSpec(DEFAULT_POSITION, false).frc
      ensures Pos() == LoadSpec(DEFAULT_POSITION, false).pos && fen == LoadSpec(DEFAULT_POSITION, false).fen
      ensures FenSpec(Pos(), frc) == DEFAULT_POSITION && fen == DEFAULT_POSITION && !frc
    {
      frc := false;
      var text := Load(DEFAULT_POSITION);
      StartFen.DefaultRoundTrip(false);
      StartFen.LoadDefault(false);
    }


    /** load(fen): "" is refused, changing nothing; any other text is read from a
        cleared state, with the castling field checked and, on error, rebuilt. */
    method Load(text: string) returns (r: string)
      requires Valid()
      modifies board, this`castling, this`epSquare, this`fen, this`frc, this`halfMoves, this`kings, this`materials, this`moveNumber, this`ply, this`plyStates, this`turn
      ensures Valid()
      ensures text == "" ==> r == "" && Pos() == old(Pos()) && fen == old(fen) && frc == old(frc) && plyStates == old(plyStates)
      ensures text != "" ==> var l := LoadSpec(text, old(frc));
        Pos() == l.pos && frc == l.frc && fen == l.fen && r == fen && plyStates == []
    {
      if text == "" {
        return "";
      }
      r := LoadText(text);
    }

    /** load() on a non-empty text. */
    method LoadText(text: string) returns (r: string)
      requires Valid() && text != ""
      modifies board, this`castling, this`epSquare, this`fen, this`frc, this`halfMoves, this`kings, this`materials, this`moveNumber, this`ply, this`plyStates, this`turn
      ensures Valid()
      ensures var l := LoadSpec(text, old(frc));
        Pos() == l.pos && frc == l.frc && fen == l.fen && r == fen && plyStates == []
    {
      ghost var frc0 := frc;
      Clear();
      fen := text;
      var step2, step3, half, move, castle, ep := ScanFen(text);
      ghost var s := ScanFrom(text, 0, SCAN_START);
      var start := turn == WHITE && move == 1;
      SetClocks(ep, half, move);
      if start {
        frc := false;
      }
      assert frc == if start then false else frc0;
      CastleFields(text, castle, start, step2, step3);
      assert Pos() == ScannedPos(s).(castling := castling);
      r := fen;
    }

    /** The fields after the loop: the en passant square, the clocks and the ply. */
    method SetClocks(ep: string, half: int, move: int)
      modifies this`epSquare, this`halfMoves, this`moveNumber, this`ply
      ensures epSquare == (if ep == "-" then EMPTY else AnToSquare(ep))
      ensures halfMoves == half && moveNumber == MoveNumberOf(move) && ply == moveNumber * 2 - 3 + turn
    {
      epSquare := if ep == "-" then EMPTY else AnToSquare(ep);
      halfMoves := half;
      moveNumber := if move < 1 then 1 else move;
      ply := moveNumber * 2 - 3 + turn;
    }

    /** The castling field: read when it is not "-", and on error rebuilt from the
        rooks found beside each king, with the FEN text rewritten. */
    method CastleFields(text: string, castle: string, start: bool, step2: int, step3: int)
      requires Valid() && castling == NO_SQUARES && fen == text && 0 <= step2 <= |text| && 0 <= step3 <= |text|
      modifies this`castling, this`frc, this`fen
      ensures Valid()
      ensures Castled(castling, frc, fen) == CastleFix(text, castle, step2, step3, board[..], kings, start, old(frc))
    {
      if castle != "-" {
        var error := ReadCastling(castle, start);
        if error {
          var white := FixRooks(0, "");
          var both := FixRooks(1, white);
          fen := fen[..step2] + " " + both + fen[step3..];
          frc := true;
        }
      }
    }

    /** load()'s character loop: the board through put(), the side to move, and the
        other fields' text gathered for the code after the loop. */
    method ScanFen(text: string) returns (step2: int, step3: int, half: int, move: int, castle: string, ep: string)
      requires Valid() && Placement(board[..], kings, materials) == CLEAR_PLACEMENT && turn == WHITE
      modifies board, this`kings, this`materials, this`turn
      ensures Valid()
      ensures var sc := ScanFrom(text, 0, SCAN_START);
        Placement(board[..], kings, materials) == sc.pl && turn == sc.turn &&
        0 <= step2 <= |text| && 0 <= step3 <= |text| &&
        step2 == sc.step2 && step3 == sc.step3 && half == sc.half && move == sc.move && castle == sc.castle && ep == sc.ep
    {
      var step, square := 0, 0;
      step2, step3, half, move, castle, ep := 0, 0, 0, 0, "", "";
      var i := 0;
      while i < |text|
        invariant Valid() && 0 <= i <= |text|
        invariant ScanFrom(text, i, Scan(Placement(board[..], kings, materials), turn, step, step2, step3, square, half, move, castle, ep))
          == ScanFrom(text, 0, SCAN_START)
      {
        ghost var before := Scan(Placement(board[..], kings, materials), turn, step, step2, step3, square, half, move, castle, ep);
        var value := text[i];
        if value == ' ' {
          step := step + 1;
          if step == 2 {
            step2 := i;
          } else if step == 3 {
            step3 := i;
          }
        } else if step == 0 {
          if value == '/' {
            square := square + 8;
          } else if '1' <= value <= '9' {
            square := square + Digit(value);
          } else {
            Put(PieceCode(value), square);
            square := square + 1;
          }
        } else if step == 1 {
          turn := if value == 'w' then 0 else 1;
        } else if step == 2 {
          castle := castle + [value];
        } else if step == 3 {
          ep := ep + [value];
        } else if step == 4 {
          half := half * 10 + Digit(value);
        } else if step == 5 {
          move := move * 10 + Digit(value);
        }
        assert Scan(Placement(board[..], kings, materials), turn, step, step2, step3, square, half, move, castle, ep)
          == ScanChar(before, i, value);
        i := i + 1;
      }
    }

    /** The castling letters, one at a time: each names a rook square, an error is
        a letter naming a square without a rook on the starting position, and a file
        letter marks Chess960. */
    method ReadCastling(castle: string, start: bool) returns (error: bool)
      requires Valid()
      modifies this`castling, this`frc
      ensures Valid()
      ensures CastleRead(castling, error, frc) == CastleLetters(CastleRead(old(castling), false, old(frc)), castle, 0, kings, board[..], start)
    {
      error := false;
      var k := 0;
      while k < |castle|
        invariant Valid() && 0 <= k <= |castle|
        invariant CastleLetters(CastleRead(castling, error, frc), castle, k, kings, board[..], start)
          == CastleLetters(CastleRead(old(castling), false, old(frc)), castle, 0, kings, board[..], start)
      {
        error := ReadLetter(castle[k], start, error);
        k := k + 1;
      }
    }

    /** One castling letter: K and Q name the h and a files, upper case is white; the
        rook square lands in the queen side entry when it lies before the king. */
    method ReadLetter(letter: char, start: bool, error0: bool) returns (error: bool)
      requires Valid()
      modifies this`castling, this`frc
      ensures Valid()
      ensures CastleRead(castling, error, frc) == CastleLetter(CastleRead(old(castling), error0, old(frc)), letter, kings, board[..], start)
    {
      var code := letter as int;
      var lower := if code < 'a' as int then code + 'a' as int - 'A' as int else code;
      var final := if lower == 'k' as int then 'h' as int else if lower == 'q' as int then 'a' as int else lower;
      var color := if code == lower then 1 else 0;
      var square := final - 'a' as int + (if color == 1 then 0 else 7) * 16;
      var index := color * 2 + (if square < kings[color] then 1 else 0);
      castling := castling[index := square];
      error := error0;
      if start && Type(Cell(square)) != ROOK {
        error := true;
      }
      if final == lower {
        frc := true;
      }
    }

    /** The error fix for one color: the first rook right of the king becomes the king
        side entry and the first rook left of it the queen side entry, each adding its
        file letter to the castling text. */
    method FixRooks(color: int, castle: string) returns (text: string)
      requires Valid() && (color == 0 || color == 1)
      modifies this`castling
      ensures Valid()
      ensures (castling, text) == FixColor(old(castling), castle, board[..], kings, color)
    {
      var letter := if color == 1 then 'a' as int else 'A' as int;
      var king := kings[color];
      var right := FindRightRook(king + 1);
      var left := FindLeftRook(king - 1);
      text := RecordRook(castle, right, color * 2, letter);
      text := RecordRook(text, left, color * 2 + 1, letter);
    }

    /** A rook found by a scan: its square into castling[index], its letter onto the text. */
    method RecordRook(castle: string, found: Option<int>, index: int, letter: int) returns (text: string)
      requires Valid() && 0 <= index < 4
      modifies this`castling
      ensures Valid()
      ensures (castling, text) == FixSide(old(castling), castle, found, index, letter)
    {
      text := castle;
      if found.Some? {
        castling := castling[index := found.value];
        text := text + [ToChar(letter + File(found.value))];
      }
    }

    /** The scan right of the king, up to the h-file. */
    method FindRightRook(from: int) returns (r: Option<int>)
      requires board.Length == 128
      ensures r == RightRook(board[..], from)
    {
      var i := from;
      while File(i) <= 7
        invariant RightRook(board[..], i) == RightRook(board[..], from)
        decreases if File(i) <= 7 then 8 - File(i) else 0
      {
        if Type(Cell(i)) == ROOK {
          return Some(i);
        }
        i := i + 1;
      }
      return None;
    }

    /** The scan left of the king, until the file wraps below the a-file. */
    method FindLeftRook(from: int) returns (r: Option<int>)
      requires board.Length == 128
      ensures r == LeftRook(board[..], from)
    {
      var i := from;
      while File(i) <= 7
        invariant LeftRook(board[..], i) == LeftRook(board[..], from)
        decreases if File(i) <= 7 then File(i) + 1 else 0
      {
        if Type(Cell(i)) == ROOK {
          return Some(i);
        }
        i := i - 1;
      }
      return None;
    }

    // ------------------------------------------------------------- createFen

    /** createFen(): the placement, side, castling, en passant and clock fields. */
    method CreateFen() returns (r: string)
      requires Valid()
      modifies this`fen
      ensures fen == FenSpec(Pos(), frc) && r == fen
    {
      BoardText();
      var castle;
      if frc {
        castle := RookFiles();
      } else {
        castle := Kqkq(castling);
      }
      if castle == "" {
        castle := "-";
      }
      var epflags := EpText(epSquare);
      fen := fen + " " + [ColorText(turn)] + " " + castle + " " + epflags + " " + IntText(halfMoves) + " " + IntText(moveNumber);
      r := fen;
    }

    /** The placement field, written into fen: runs of empty cells as a digit, pieces
        as their letters, a '/' after each rank but the last. */
    method BoardText()
      requires Valid()
      modifies this`fen
      ensures fen == BoardFrom(board[..], SQUARE_A8, 0)
    {
      ghost var b := board[..];
      var empty := 0;
      fen := "";
      var i := SQUARE_A8;
      while i <= SQUARE_H1
        invariant 0 <= i <= SQUARE_H1 + 9
        invariant empty >= 0 && |b| == 128
        invariant fen + BoardFrom(b, i, empty) == BoardFrom(b, SQUARE_A8, 0)
        decreases SQUARE_H1 + 9 - i
      {
        ghost var start := fen;
        ghost var e0 := empty;
        var piece := board[i];
        empty := AppendCell(piece, empty);
        if OffBoard(i + 1) {
          EndRank(i, empty);
          RankStep(b, i, e0, start, fen);
          empty := 0;
          i := i + 8;
        } else {
          CellStep(b, i, e0, start, fen);
        }
        i := i + 1;
      }
    }

    /** One cell: an empty cell is counted, a piece flushes the pending count and adds
        its letter. */
    method AppendCell(piece: int, empty: int) returns (pending: int)
      requires empty >= 0
      modifies this`fen
      ensures fen == old(fen) + CellText(piece, empty) && pending == Pending(piece, empty)
    {
      pending := empty;
      if piece == 0 {
        pending := pending + 1;
        assert fen + "" == fen;
      } else {
        ghost var start := fen;
        assert start + "" == start;
        if pending > 0 {
          fen := fen + [ToChar('0' as int + pending)];
          pending := 0;
        }
        assert fen == start + EmptyRun(empty);
        fen := fen + [CharAt(PIECE_NAMES, piece)];
        AppendAssoc(start, EmptyRun(empty), [CharAt(PIECE_NAMES, piece)]);
      }
    }

    /** The end of a rank: the pending count, then '/' unless the rank is the last. */
    method EndRank(i: int, empty: int)
      modifies this`fen
      ensures fen == old(fen) + EmptyRun(empty) + (if i != SQUARE_H1 then "/" else "")
    {
      if empty > 0 {
        fen := fen + [ToChar('0' as int + empty)];
      }
      if i != SQUARE_H1 {
        fen := fen + "/";
      }
    }

    /** The castling field under Chess960: a file letter per recorded rook, upper case
        for white's. */
    method RookFiles() returns (castle: string)
      requires Valid()
      ensures castle == FileLetters(castling, 0)
    {
      castle := "";
      var k := 0;
      while k < |castling|
        invariant 0 <= k <= |castling|
        invariant castle + FileLetters(castling, k) == FileLetters(castling, 0)
      {
        ghost var before := castle;
        var square := castling[k];
        if square != EMPTY {
          var file := File(square);
          var rank := Rank(square);
          if rank > 0 {
            castle := castle + [ToChar(file + 'A' as int)];
          } else {
            castle := castle + [ToChar(file + 'a' as int)];
          }
        }
        assert castle == before + RookLetter(square);
        assert FileLetters(castling, k) == RookLetter(square) + FileLetters(castling, k + 1);
        AppendAssoc(before, RookLetter(square), FileLetters(castling, k + 1));
        k := k + 1;
      }
    }

    // ------------------------------------------------------------- configure

    /** configure(frc, options, depth): the defaults, then each word of the options
        line in order. */
    method Configure(frcFlag: bool, options: string, depth: int)
      modifies this`evalMode, this`frc, this`maxDepth, this`maxNodes, this`maxTime, this`searchMode
      ensures Settings() == Options.ConfigureSpec(old(Settings()), options, depth) && frc == frcFlag
    {
      frc := frcFlag;
      SetDefaults(depth);
      var words := Options.Words(options);
      assert words[0..] == words;
      var k := 0;
      while k < |words|
        invariant 0 <= k <= |words| && frc == frcFlag
        invariant Options.ApplyWords(Settings(), words[k..]) == Options.ConfigureSpec(old(Settings()), options, depth)
      {
        ApplyOption(words[k]);
        assert words[k..][1..] == words[k + 1..];
        k := k + 1;
      }
      assert words[k..] == [];
    }

    /** The settings before the words: material evaluation, the given depth unless it
        is negative, a billion nodes, no time limit, search mode 0. */
    method SetDefaults(depth: int)
      modifies this`evalMode, this`maxDepth, this`maxNodes, this`maxTime, this`searchMode
      ensures Settings() == Options.Defaults(old(Settings()), depth)
    {
      evalMode := 1;
      if depth >= 0 {
        maxDepth := depth;
      }
      maxNodes := Options.MAX_NODES;
      maxTime := 0;
      searchMode := 0;
    }

    /** One `key=value` word: depth (a negative depth is a time), evaluation mode,
        nodes, search mode or time; anything else is skipped. */
    method ApplyOption(option: string)
      modifies this`evalMode, this`maxDepth, this`maxNodes, this`maxTime, this`searchMode
      ensures Settings() == Options.ApplyWord(old(Settings()), option)
    {
      if |option| < 3 || option[1] != '=' {
        return;
      }
      var left := option[0];
      var right := option[2..];
      var value := Options.Atoi(right);
      if left == 'd' {
        if value >= 0 {
          maxDepth := value;
        } else if value < 0 {
          maxTime := -value;
        }
      } else if left == 'e' {
        if right in EVAL_MODES {
          evalMode := EVAL_MODES[right];
        }
      } else if left == 'n' {
        maxNodes := value;
      } else if left == 's' {
        if right in SEARCH_MODES {
          searchMode := SEARCH_MODES[right];
        }
      } else if left == 't' {
        maxTime := value;
      }
    }

    // ------------------------------------------------------------ attacks

    /** attacked(color, square): the scan of the playing squares for an attacker. */
    method Attacked(color: int, square: int) returns (r: bool)
      requires Valid()
      ensures r == Rules.Attacked(board[..], color, square)
    {
      ghost var b := board[..];
      ghost var hits := Attackers(b, color, square);
      var i := SQUARE_A8;
      while i <= SQUARE_H1
        invariant 0 <= i <= 128
        invariant AnyFrom(hits, i) == AnyFrom(hits, SQUARE_A8)
        decreases 128 - i
      {
        if OffBoard(i) {
          i := i + 8;
          continue;
        }
        var hit := AttacksFromAt(color, square, i);
        if hit {
          return true;
        }
        i := i + 1;
      }
      return false;
    }

    /** One square of the scan: does the piece on i attack `square` for `color`? */
    method AttacksFromAt(color: int, square: int, i: int) returns (r: bool)
      requires Valid() && 0 <= i < 128
      ensures r == AttacksFrom(board[..], color, square, i)
    {
      var piece := board[i];
      if piece == 0 {
        return false;
      }
      var pieceColor := Color(piece);
      if pieceColor != color {
        return false;
      }
      var difference := i - square;
      var index := difference + 119;
      var pieceType := Type(piece);
      if !AttackBit(index, pieceType) {
        return false;
      }
      if pieceType == KING || pieceType == KNIGHT {
        return true;
      }
      if pieceType == PAWN {
        if difference > 0 {
          if pieceColor == WHITE {
            return true;
          }
        } else if pieceColor == BLACK {
          return true;
        }
        return false;
      }
      SlidesInTable(index);
      r := SlideFrom(i, square, index);
    }

    /** A sliding piece on i: the walk along RAYS[index] toward `square`. */
    method SlideFrom(i: int, square: int, index: int) returns (r: bool)
      requires Valid() && index == i - square + 119
      requires At(RAYS, index) != 0 && At(STEPS, index) >= 1 && At(STEPS, index) * At(RAYS, index) == 119 - index
      ensures r == SlideClear(board[..], i, index)
    {
      var offset := At(RAYS, index);
      r := RayClear(i, square, offset, At(STEPS, index));
    }

    /** The ray walk from i toward `square`, `offset` at a time: true when none of the
        n - 1 squares in between holds a piece. */
    method RayClear(i: int, square: int, offset: int, ghost n: int) returns (r: bool)
      requires Valid() && offset != 0 && n >= 1 && square - i == n * offset
      ensures r == !Blocked(board[..], i + offset, offset, n - 1)
    {
      ghost var b := board[..];
      var blocked := false;
      var j := i + offset;
      ghost var left: nat := n - 1;
      RayStep(i, offset, n, square);
      while j != square
        invariant square - j == left * offset
        invariant Blocked(b, i + offset, offset, n - 1) == Blocked(b, j, offset, left)
        decreases left
      {
        RayStep(j, offset, left, square);
        if Cell(j) != 0 {
          blocked := true;
          break;
        }
        j := j + offset;
        left := left - 1;
      }
      RayStep(j, offset, left, square);
      return !blocked;
    }

    /** kingAttacked(color): 2 names the side to move, 3 the other side. */
    method KingAttacked(color: int) returns (r: bool)
      requires Valid()
      ensures r == Rules.KingAttacked(Pos(), color)
    {
      var c := KingColor(turn, color);
      r := Attacked(Opponent(c), Get(kings, c));
    }

    // ---------------------------------------------------------- make / undo

    /** addState(move): grow the history to ply + 2 records, then store the record. */
    method AddState(m: Move)
      requires Valid() && ply >= -1
      modifies this`plyStates
      ensures Pos() == old(Pos())
      ensures Valid()
      ensures plyStates == Rules.AddState(old(plyStates), Pos(), m)
    {
      ghost var h := plyStates;
      AddStateShaped(h, Pos(), m);
      while |plyStates| < ply + 2
        invariant plyStates == Grow(h, |plyStates|) && |h| <= |plyStates| <= (if |h| < ply + 2 then ply + 2 else |h|)
        decreases ply + 2 - |plyStates|
      {
        GrowStep(h, |plyStates|);
        plyStates := plyStates + [BLANK_STATE];
      }
      GrowDone(h, |plyStates|, ply + 2);
      plyStates := plyStates[ply + 1 := SavedState(Pos(), m)];
    }

    /** moveRaw(move): record the undo state, then run the king block, the block for
        a move that is not a castle, and the turn change. */
    method MoveRaw(m: Move)
      requires Valid() && ply >= -1
      modifies board, this`plyStates, this`halfMoves, this`epSquare, this`kings, this`castling, this`materials, this`ply, this`moveNumber, this`turn
      ensures Valid()
      ensures GameState() == MoveRawGame(old(GameState()), m)
    {
      AddState(m);
      BeginMove();
      MoveKing(m);
      MovePlain(m);
      FinishMove();
      MoveInOrderIsMakePos(old(Pos()), m);
    }

    /** moveRaw's opening: the fifty-move clock ticks, the en passant square is cleared. */
    method BeginMove()
      requires Valid()
      modifies this`halfMoves, this`epSquare
      ensures Valid() && Pos() == StartMove(old(Pos()))
    {
      halfMoves := halfMoves + 1;
      epSquare := EMPTY;
    }

    /** moveRaw's closing: one more ply, the move number after black, the other side to move. */
    method FinishMove()
      requires Valid()
      modifies this`ply, this`moveNumber, this`turn
      ensures Valid() && Pos() == EndMove(old(Pos()))
    {
      ply := ply + 1;
      if turn == BLACK {
        moveNumber := moveNumber + 1;
      }
      turn := 1 - turn;
    }

    /** The king block of moveRaw. */
    method MoveKing(m: Move)
      requires Valid()
      modifies board, this`kings, this`castling
      ensures Valid() && Pos() == KingBlock(old(Pos()), m)
    {
      if Type(m.piece) != KING {
        return;
      }
      var us := turn;
      var moveTo := m.to;
      if IsCastle(m.flags) {
        var q := QSide(m.flags);
        var king := kings[us];
        var kingTo := CastleKingTo(king, q);
        var rook := castling[2 * us + q];
        CastleCells(us, king, rook, q);
        moveTo := kingTo;
      }
      kings := kings[us := moveTo];
      castling := castling[2 * us := EMPTY][2 * us + 1 := EMPTY];
    }

    /** The board writes of a castle: king and rook leave, then land. */
    method CastleCells(us: int, king: int, rook: int, q: int)
      requires board.Length == 128
      modifies board
      ensures board[..] == CastleBoard(old(board[..]), us, king, rook, q)
    {
      var kingTo := CastleKingTo(king, q);
      Write(king, 0);
      Write(rook, 0);
      Write(kingTo, Colorize(us, KING));
      Write(kingTo - 1 + 2 * q, Colorize(us, ROOK));
    }

    /** The block of moveRaw for a move that is not a castle. */
    method MovePlain(m: Move)
      requires Valid()
      modifies board, this`castling, this`materials, this`halfMoves, this`epSquare
      ensures Valid() && Pos() == PlainBlock(old(Pos()), m)
    {
      if !IsCastle(m.flags) {
        MovePiece(m);
        MoveCapture(m);
        MoveRookOrPawn(m);
      }
    }

    /** The piece leaves `from` for `to`. */
    method MovePiece(m: Move)
      requires Valid()
      modifies board
      ensures Valid() && Pos() == ShiftBlock(old(Pos()), m)
    {
      if m.from != m.to {
        var v := Cell(m.from);
        Write(m.to, v);
        Write(m.from, 0);
      }
    }

    /** A capture: material, a captured rook's castling entry and the clock. */
    method MoveCapture(m: Move)
      requires Valid()
      modifies this`materials, this`castling, this`halfMoves
      ensures Valid() && Pos() == CaptureBlock(old(Pos()), m)
    {
      var them := 1 - turn;
      if m.capture != 0 {
        materials := materials[them := materials[them] - Get(PIECE_SCORES, m.capture)];
        if m.capture == ROOK {
          if m.to == castling[2 * them] {
            castling := castling[2 * them := EMPTY];
          } else if m.to == castling[2 * them + 1] {
            castling := castling[2 * them + 1 := EMPTY];
          }
        }
        halfMoves := 0;
      }
    }

    /** A rook move drops its castling entry; a pawn move handles the double push,
        en passant and promotion. */
    method MoveRookOrPawn(m: Move)
      requires Valid()
      modifies board, this`castling, this`epSquare, this`materials, this`halfMoves
      ensures Valid() && Pos() == PieceBlock(old(Pos()), m)
    {
      var us := turn;
      var moveType := Type(m.piece);
      if moveType == ROOK {
        if m.from == castling[2 * us] {
          castling := castling[2 * us := EMPTY];
        } else if m.from == castling[2 * us + 1] {
          castling := castling[2 * us + 1 := EMPTY];
        }
      } else if moveType == PAWN {
        MovePawn(m);
      }
    }

    /** The pawn part of moveRaw. */
    method MovePawn(m: Move)
      requires Valid()
      modifies board, this`epSquare, this`materials, this`halfMoves
      ensures Valid() && Pos() == PawnBlock(old(Pos()), m)
    {
      if HasBit(m.flags, BITS_BIG_PAWN) {
        PawnPush(m);
      } else {
        PawnLands(m);
      }
    }

    /** A double push leaves the en passant square behind the pawn. */
    method PawnPush(m: Move)
      requires Valid() && HasBit(m.flags, BITS_BIG_PAWN)
      modifies this`epSquare, this`halfMoves
      ensures Valid() && Pos() == PawnBlock(old(Pos()), m)
    {
      ghost var p := Pos();
      epSquare := m.to + 16 - 32 * turn;
      halfMoves := 0;
      assert Pos() == p.(epSquare := m.to + 16 - 32 * p.turn, halfMoves := 0);
    }

    /** Any other pawn move: the en passant victim, the promotion piece and its score. */
    method PawnLands(m: Move)
      requires Valid() && !HasBit(m.flags, BITS_BIG_PAWN)
      modifies board, this`materials, this`halfMoves
      ensures Valid() && Pos() == PawnBlock(old(Pos()), m)
    {
      ghost var p := Pos();
      var us := turn;
      var mat := materials;
      if HasBit(m.flags, BITS_PROMOTION) {
        mat := Set(materials, us, Get(materials, us) + Get(PROMOTE_SCORES, m.promote));
      }
      PawnCells(us, m);
      materials := mat;
      halfMoves := 0;
      assert Pos() == p.(board := PawnBoard(p.board, us, m), materials := mat, halfMoves := 0);
    }

    /** The board writes of a pawn move: the pawn taken en passant, the promotion piece. */
    method PawnCells(us: int, m: Move)
      requires board.Length == 128
      modifies board
      ensures board[..] == PawnBoard(old(board[..]), us, m)
    {
      if HasBit(m.flags, BITS_EP_CAPTURE) {
        Write(m.to + 16 - 32 * us, 0);
      }
      if HasBit(m.flags, BITS_PROMOTION) {
        Write(m.to, Colorize(us, m.promote));
      }
    }

    /** undoMove(): restore the record of this ply and put the pieces back. */
    method UndoMove()
      requires Valid()
      modifies board, this`castling, this`epSquare, this`halfMoves, this`kings, this`turn, this`moveNumber, this`ply, this`materials
      ensures Valid()
      ensures GameState() == UndoGame(old(GameState()))
    {
      if ply < 0 {
        return;
      }
      var state := if ply < |plyStates| then plyStates[ply] else BLANK_STATE;
      RestoreFields(state);
      UndoPieces(state);
      UnmakeInOrder(old(Pos()), state);
    }

    /** The record's fields come back; the side to move, move number and ply step back. */
    method RestoreFields(s: State)
      requires Valid() && |s.castling| == 4 && |s.kings| == 2
      modifies this`castling, this`epSquare, this`halfMoves, this`kings, this`turn, this`moveNumber, this`ply
      ensures Valid() && Pos() == RestoreRecord(old(Pos()), s)
    {
      castling := s.castling;
      epSquare := s.epSquare;
      halfMoves := s.halfMoves;
      kings := s.kings;
      turn := 1 - turn;
      if turn == BLACK {
        moveNumber := moveNumber - 1;
      }
      ply := ply - 1;
    }

    /** The board and material part of undoMove, for the side to move (the side that
        made the move). */
    method UndoPieces(s: State)
      requires Valid() && kings == s.kings && castling == s.castling
      modifies board, this`materials
      ensures Valid() && Pos() == UnmakePieces(old(Pos()), s)
    {
      if IsCastle(s.move.flags) {
        Uncastle(turn, s);
      } else {
        Unshift(turn, s.move);
        Uncapture(turn, s.move);
      }
    }

    /** Undoing a castle: the king and rook go back to the squares of the record. */
    method Uncastle(us: int, s: State)
      requires board.Length == 128 && |kings| == 2 && |castling| == 4 && (us == WHITE || us == BLACK)
      requires kings == s.kings && castling == s.castling
      modifies board
      ensures board[..] == UncastleBoard(old(board[..]), us, s)
    {
      ghost var b := board[..];
      var q := QSide(s.move.flags);
      var king := kings[us];
      var kingTo := CastleKingTo(king, q);
      var rook := castling[2 * us + q];
      Write(kingTo, 0);
      Write(kingTo - 1 + 2 * q, 0);
      ghost var b2 := board[..];
      assert b2 == SetCell(SetCell(b, kingTo, 0), kingTo - 1 + 2 * q, 0);
      Write(king, Colorize(us, KING));
      Write(rook, Colorize(us, ROOK));
      assert board[..] == SetCell(SetCell(b2, king, Colorize(us, KING)), rook, Colorize(us, ROOK));
    }

    /** Undoing another move: the piece goes back, `to` is emptied. */
    method Unshift(us: int, m: Move)
      requires Valid()
      modifies board
      ensures board[..] == UnshiftBoard(old(board[..]), m)
    {
      if m.from != m.to {
        Write(m.from, m.piece);
        Write(m.to, 0);
      }
    }

    /** Undoing a capture puts the captured piece back and restores the material;
        undoing a promotion takes the promotion's gain back. */
    method Uncapture(us: int, m: Move)
      requires Valid() && (us == WHITE || us == BLACK) && !IsCastle(m.flags)
      modifies board, this`materials
      ensures Valid()
      ensures board[..] == UncaptureBoard(old(board[..]), us, m)
      ensures materials == UnmadeMaterials(old(materials), us, m)
    {
      var them := 1 - us;
      CapturedCell(us, m);
      if HasBit(m.flags, BITS_CAPTURE) {
        materials := materials[them := materials[them] + Get(PIECE_SCORES, m.capture)];
      } else if HasBit(m.flags, BITS_EP_CAPTURE) {
        materials := materials[them := materials[them] + Get(PIECE_SCORES, PAWN)];
      }
      if m.promote != 0 {
        materials := materials[us := materials[us] - Get(PROMOTE_SCORES, m.promote)];
      }
    }

    /** The board write of undoing a capture: the captured piece on `to`, or the pawn
        taken en passant behind it. */
    method CapturedCell(us: int, m: Move)
      requires board.Length == 128
      modifies board
      ensures board[..] == UncaptureBoard(old(board[..]), us, m)
    {
      var them := 1 - us;
      if HasBit(m.flags, BITS_CAPTURE) {
        Write(m.to, Colorize(them, m.capture));
      } else if HasBit(m.flags, BITS_EP_CAPTURE) {
        Write(m.to + 16 - 32 * us, Colorize(them, PAWN));
      }
    }

    // ------------------------------------------------------------ create moves

    /** createMoves(frc, legal, onlyCapture): the pieces' moves square by square, then
        (unless only captures are asked for) the castles; with `legal`, each move is
        made, kept when the mover's king is not attacked, and undone. */
    method CreateMoves(frcFlag: bool, legal: bool, onlyCapture: bool) returns (moves: seq<Move>)
      requires Valid() && (legal ==> ply >= -1)
      modifies board, this`castling, this`epSquare, this`halfMoves, this`kings, this`materials, this`moveNumber, this`ply, this`plyStates, this`turn
      ensures Valid()
      ensures !legal ==> moves == PseudoMoves(old(Pos()), frcFlag, onlyCapture) && GameState() == old(GameState())
      ensures legal ==> (GameState(), moves) == LegalMoves(old(GameState()), frcFlag, onlyCapture)
    {
      var pseudo := GenerateMoves(onlyCapture);
      if onlyCapture {
        assert pseudo + [] == pseudo;
      } else {
        var castles := CastleMovesAt(frcFlag);
        pseudo := pseudo + castles;
      }
      if !legal {
        return pseudo;
      }
      moves := FilterMoves(pseudo);
    }

    /** createMoves' square loop over the pieces of the side to move. */
    method GenerateMoves(onlyCapture: bool) returns (moves: seq<Move>)
      requires Valid()
      ensures moves == GenFrom(Pos(), SQUARE_A8, onlyCapture)
    {
      moves := ScanSquares(onlyCapture, SquareTable(Pos(), onlyCapture));
    }

    /** The square loop: each playing square from a8 to h1 in turn. */
    method ScanSquares(onlyCapture: bool, ghost t: seq<seq<Move>>) returns (moves: seq<Move>)
      requires Valid() && TableOf(t, Pos(), onlyCapture)
      ensures moves == GenFromTable(t, SQUARE_A8)
    {
      moves := [];
      var i := SQUARE_A8;
      while i <= SQUARE_H1
        invariant 0 <= i <= 128
        invariant moves + GenFromTable(t, i) == GenFromTable(t, SQUARE_A8)
        decreases 128 - i
      {
        if OffBoard(i) {
          i := i + 8;
          continue;
        }
        var ms := SquareMovesAt(i, onlyCapture, t);
        AppendAssoc(moves, ms, GenFromTable(t, i + 1));
        moves := moves + ms;
        i := i + 1;
      }
      assert moves + [] == moves;
    }

    /** The moves of the piece on square i when it belongs to the side to move. */
    method SquareMovesAt(i: int, onlyCapture: bool, ghost t: seq<seq<Move>>) returns (ms: seq<Move>)
      requires Valid() && OnBoard(i) && TableOf(t, Pos(), onlyCapture)
      ensures ms == t[i]
    {
      var piece := board[i];
      if piece == 0 || Color(piece) != turn {
        ms := [];
      } else if Type(piece) == PAWN {
        ms := PawnMovesAt(i, piece, onlyCapture);
      } else {
        var offsets := Row(PIECE_OFFSETS, Type(piece));
        PieceRowShort(Type(piece));
        ms := PieceMovesAt(i, piece, offsets, onlyCapture);
      }
      assert ms == SquareMoves(Pos(), i, onlyCapture);
    }

    /** A pawn: one step and, from its second rank, two steps when free; then the
        two captures, onto an opposing piece or the en passant square. */
    method PawnMovesAt(i: int, piece: int, onlyCapture: bool) returns (ms: seq<Move>)
      requires Valid()
      ensures ms == PawnMoves(Pos(), i, piece, Row(PAWN_OFFSETS, turn), onlyCapture)
    {
      ghost var p := Pos();
      var offsets := Row(PAWN_OFFSETS, turn);
      ms := PushesAt(i, piece, offsets, onlyCapture);
      for j := 2 to 4
        invariant ms == PawnPushes(p, i, piece, offsets, onlyCapture) +
          (if j > 2 then PawnCapture(p, piece, i, i + Get(offsets, 2)) else []) +
          (if j > 3 then PawnCapture(p, piece, i, i + Get(offsets, 3)) else [])
      {
        var square := i + Get(offsets, j);
        var c := PawnCaptureAt(piece, i, square);
        ms := ms + c;
      }
    }

    /** The pawn's pushes. */
    method PushesAt(i: int, piece: int, offsets: seq<int>, onlyCapture: bool) returns (ms: seq<Move>)
      requires Valid()
      ensures ms == PawnPushes(Pos(), i, piece, offsets, onlyCapture)
    {
      ms := [];
      if !onlyCapture {
        var square := i + Get(offsets, 0);
        if Cell(square) == 0 {
          var single := AddMove(board[..], piece, i, square, BITS_NORMAL);
          square := i + Get(offsets, 1);
          var double := [];
          if 6 - turn * 5 == Rank(i) && Cell(square) == 0 {
            double := AddMove(board[..], piece, i, square, BITS_BIG_PAWN);
          }
          ms := single + double;
        }
      }
    }

    /** One pawn capture toward `square`. */
    method PawnCaptureAt(piece: int, i: int, square: int) returns (ms: seq<Move>)
      requires Valid()
      ensures ms == PawnCapture(Pos(), piece, i, square)
    {
      ms := [];
      if OffBoard(square) {
        return;
      }
      if Cell(square) != 0 && Color(Cell(square)) == 1 - turn {
        ms := AddMove(board[..], piece, i, square, BITS_CAPTURE);
      } else if square == epSquare {
        ms := AddMove(board[..], piece, i, epSquare, BITS_EP_CAPTURE);
      }
    }

    /** A piece other than a pawn: each direction of its row of PIECE_OFFSETS, up to
        the first zero offset. */
    method PieceMovesAt(i: int, piece: int, offsets: seq<int>, onlyCapture: bool) returns (ms: seq<Move>)
      requires Valid() && OnBoard(i) && ShortSteps(offsets)
      ensures ms == PieceRays(Pos(), piece, i, offsets, Type(piece), 0, onlyCapture)
    {
      ghost var p := Pos();
      var typ := Type(piece);
      ms := [];
      var j := 0;
      ghost var all := PieceRays(p, piece, i, offsets, typ, 0, onlyCapture);
      while j < 8 && Get(offsets, j) != 0
        invariant 0 <= j <= 8
        invariant ms + PieceRays(p, piece, i, offsets, typ, j, onlyCapture) == all
        decreases 8 - j
      {
        PieceRaysShift(p, piece, i, offsets, typ, j, onlyCapture, ms, all);
        var ray := RayAt(i, piece, Get(offsets, j), typ, onlyCapture, p);
        ms := ms + ray;
        j := j + 1;
      }
      PieceRaysEnd(p, piece, i, offsets, typ, j, onlyCapture);
      assert ms + [] == ms;
    }

    /** One direction: free squares, then a capture or an own piece; a king or a
        knight takes a single step. */
    method RayAt(i: int, piece: int, offset: int, typ: int, onlyCapture: bool, ghost p: Position) returns (ms: seq<Move>)
      requires Valid() && p == Pos() && OnBoard(i) && -33 <= offset <= 33 && offset != 0
      ensures ms == RayWalk(p, piece, i, offset, i + offset, typ, onlyCapture)
    {
      ms := [];
      var square := i;
      while true
        invariant OnBoard(square)
        invariant ms + RayWalk(p, piece, i, offset, square + offset, typ, onlyCapture) == RayWalk(p, piece, i, offset, i + offset, typ, onlyCapture)
        decreases if offset > 0 then 200 - square else square + 200
      {
        square := square + offset;
        OffBoardNear(square);
        if OffBoard(square) {
          break;
        }
        ghost var rest := RayWalk(p, piece, i, offset, square + offset, typ, onlyCapture);
        if Cell(square) == 0 {
          var step := if onlyCapture then [] else AddMove(board[..], piece, i, square, BITS_NORMAL);
          AppendAssoc(ms, step, rest);
          ms := ms + step;
        } else {
          if Color(Cell(square)) == turn {
            break;
          }
          ms := ms + AddMove(board[..], piece, i, square, BITS_CAPTURE);
          break;
        }
        if typ == KING || typ == KNIGHT {
          assert ms + [] == ms;
          break;
        }
      }
      assert ms + [] == ms;
    }

    /** The castles of the side to move: king side, then queen side. */
    method CastleMovesAt(frcFlag: bool) returns (ms: seq<Move>)
      requires Valid()
      ensures ms == CastleMoves(Pos(), frcFlag)
    {
      var king := Get(kings, turn);
      if king == EMPTY {
        return [];
      }
      ghost var p := Pos();
      ms := [];
      for q := 0 to 2
        invariant ms == (if q > 0 then CastleSide(p, frcFlag, king, 0) else []) +
          (if q > 1 then CastleSide(p, frcFlag, king, 1) else [])
      {
        var side := CastleSideAt(frcFlag, king, q);
        ms := ms + side;
      }
    }

    /** One castle: the rook still has its right, the path is free, and no square the
        king crosses is attacked. Standard chess moves the king two files; a Chess960
        castle, or one that is not from the e-file with a corner rook, targets the rook. */
    method CastleSideAt(frcFlag: bool, king: int, q: int) returns (ms: seq<Move>)
      requires Valid()
      ensures ms == CastleSide(Pos(), frcFlag, king, q)
    {
      var rook := Get(castling, 2 * turn + q);
      CastleSideRook(Pos(), frcFlag, king, q, rook);
      if rook == EMPTY {
        return [];
      }
      ms := CastleWithAt(frcFlag, king, rook, q);
    }

    method CastleWithAt(frcFlag: bool, king: int, rook: int, q: int) returns (ms: seq<Move>)
      requires Valid()
      ensures ms == CastleWith(board[..], turn, frcFlag, king, rook, q)
    {
      var ok := CastleAllowed(king, rook, q);
      ms := if ok then CastleMove(board[..], turn, frcFlag, king, rook, q) else [];
    }

    /** The two checks of a castle: the path is free, then the king's squares are safe. */
    method CastleAllowed(king: int, rook: int, q: int) returns (ok: bool)
      requires Valid()
      ensures ok == CastleGate(board[..], turn, king, rook, q)
    {
      ghost var b := board[..];
      var kingTo := CastleKingTo(king, q);
      var rookTo := kingTo - 1 + 2 * q;
      var maxKing := Max(king, kingTo);
      var minKing := Min(king, kingTo);
      var maxPath := Max(maxKing, Max(rook, rookTo));
      var minPath := Min(minKing, Min(rook, rookTo));
      ok := PathFree(minPath, maxPath, king, rook, b);
      if ok {
        ok := PathSafe(1 - turn, minKing, maxKing, b);
      }
    }

    /** The path loop: every square from lo to hi but the king's and the rook's is empty. */
    method PathFree(lo: int, hi: int, king: int, rook: int, ghost b: seq<int>) returns (r: bool)
      requires Valid() && b == board[..]
      ensures r == PathClear(b, lo, hi, king, rook)
    {
      var j := lo;
      while j <= hi
        invariant lo <= j
        invariant forall k | lo <= k < j && k != king && k != rook :: Get(b, k) == 0
        decreases hi - j
      {
        if j != king && j != rook && Cell(j) != 0 {
          return false;
        }
        j := j + 1;
      }
      return true;
    }

    /** The attack loop: no square from lo to hi is attacked by `them`. */
    method PathSafe(them: int, lo: int, hi: int, ghost b: seq<int>) returns (r: bool)
      requires Valid() && b == board[..]
      ensures r == Unattacked(b, them, lo, hi)
    {
      var j := lo;
      while j <= hi
        invariant Unattacked(b, them, lo, hi) == Unattacked(b, them, j, hi)
        decreases hi - j
      {
        UnattackedStep(b, them, j, hi);
        var hit := Attacked(them, j);
        if hit {
          return false;
        }
        j := j + 1;
      }
      return true;
    }

    /** The legal filter: make each move, keep it when the mover's king is not
        attacked, undo it. */
    method FilterMoves(ms: seq<Move>) returns (legalMoves: seq<Move>)
      requires Valid() && ply >= -1
      modifies board, this`castling, this`epSquare, this`halfMoves, this`kings, this`materials, this`moveNumber, this`ply, this`plyStates, this`turn
      ensures Valid()
      ensures (GameState(), legalMoves) == FilterLegal(old(GameState()), ms, old(turn))
    {
      var us := turn;
      ghost var g0 := GameState();
      legalMoves := [];
      assert ms[0..] == ms;
      assert [] + FilterLegal(g0, ms, us).1 == FilterLegal(g0, ms, us).1;
      for k := 0 to |ms|
        invariant Valid() && ply == old(ply)
        invariant FilterLegal(g0, ms, us) ==
          (FilterLegal(GameState(), ms[k..], us).0, legalMoves + FilterLegal(GameState(), ms[k..], us).1)
      {
        ghost var g := GameState();
        var m := ms[k];
        assert ms[k..][0] == m && ms[k..][1..] == ms[k + 1..];
        var keep := TryMove(m, us);
        ghost var rest := FilterLegal(GameState(), ms[k + 1..], us).1;
        if keep {
          AppendAssoc(legalMoves, [m], rest);
          legalMoves := legalMoves + [m];
        }
      }
      assert ms[|ms|..] == [];
      assert legalMoves + [] == legalMoves;
    }

    /** One move of the filter: make it, look at the mover's king, undo it. */
    method TryMove(m: Move, us: int) returns (keep: bool)
      requires Valid() && ply >= -1
      modifies board, this`castling, this`epSquare, this`halfMoves, this`kings, this`materials, this`moveNumber, this`ply, this`plyStates, this`turn
      ensures Valid() && ply == old(ply)
      ensures var g1 := MoveRawGame(old(GameState()), m);
        keep == !Rules.KingAttacked(g1.pos, us) && GameState() == UndoGame(g1)
    {
      ghost var g := GameState();
      AddStateKeeps(g.history, g.pos, m);
      MoveRaw(m);
      var attacked := KingAttacked(us);
      UndoMove();
      keep := !attacked;
    }

    // ------------------------------------------------------- moves from text

    /** decorateMove(move): '+' for check, '#' for mate, unless already marked. The
        text of the move is updated and returned with it. */
    method DecorateMove(move: Move) returns (r: Move)
      requires Valid() && ply >= -1
      modifies board, this`castling, this`epSquare, this`halfMoves, this`kings, this`materials, this`moveNumber, this`ply, this`plyStates, this`turn
      ensures Valid()
      ensures var d := Play.Decorate(old(GameState()), frc, move.m);
        GameState() == d.0 && r == Notation.WithText(move, d.1)
    {
      var text := move.m;
      var last := CharAt(text, |text| - 1);
      r := move;
      if last != '+' && last != '#' {
        var attacked := KingAttacked(turn);
        if attacked {
          var moves := CreateMoves(frc, true, false);
          text := text + (if |moves| > 0 then "+" else "#");
          r := Notation.WithText(move, text);
        }
      }
    }

    /** Make the move found, if any, and decorate it on request. */
    method PlayFound(m: Move, decorate: bool) returns (r: Move)
      requires Valid() && ply >= -1
      modifies board, this`castling, this`epSquare, this`halfMoves, this`kings, this`materials, this`moveNumber, this`ply, this`plyStates, this`turn
      ensures Valid()
      ensures (GameState(), r) == Play.PlayFound(old(GameState()), frc, m, decorate)
    {
      r := m;
      if m.piece != 0 {
        MoveRaw(m);
        if decorate {
          r := DecorateMove(m);
        }
      }
    }

    /** moveSan(text, frc, decorate, sloppy). */
    method MoveSan(text: string, frcFlag: bool, decorate: bool, sloppy: bool) returns (move: Move)
      requires Valid() && ply >= -1
      modifies board, this`castling, this`epSquare, this`halfMoves, this`kings, this`materials, this`moveNumber, this`ply, this`plyStates, this`turn
      ensures Valid()
      ensures (GameState(), move) == Play.MoveSanSpec(old(GameState()), text, frcFlag, frc, decorate, sloppy)
    {
      var moves := CreateMoves(frcFlag, true, false);
      move := Notation.SanToMove(text, moves, sloppy);
      move := PlayFound(move, decorate);
    }

    /** moveObject(move, frc, decorate). */
    method MoveObject(move: Move, frcFlag: bool, decorate: bool) returns (moveObj: Move)
      requires Valid() && ply >= -1
      modifies board, this`castling, this`epSquare, this`halfMoves, this`kings, this`materials, this`moveNumber, this`ply, this`plyStates, this`turn
      ensures Valid()
      ensures (GameState(), moveObj) == Play.MoveObjectSpec(old(GameState()), move, frcFlag, frc, decorate)
    {
      var moves := CreateMoves(frcFlag, true, false);
      var flags := ObjectFlagsNow(move, frcFlag);
      moveObj := FoundObject(move, flags, moves);
      moveObj := PlayFound(moveObj, decorate);
    }

    /** The castle flag moveObject looks for: a king move in Chess960 onto its rook or two files over. */
    method ObjectFlagsNow(move: Move, frcFlag: bool) returns (flags: int)
      requires Valid()
      ensures flags == Play.ObjectFlags(Pos(), frcFlag, move)
    {
      flags := 0;
      if frcFlag && move.from == Get(kings, turn) {
        if move.to == Get(castling, turn * 2) || move.to == move.from + 2 {
          flags := BITS_KSIDE_CASTLE;
        } else if move.to == Get(castling, turn * 2 + 1) || move.to == move.from - 2 {
          flags := BITS_QSIDE_CASTLE;
        }
      }
    }

    /** The first matching listed move with its SAN, or the null move. */
    static method FoundObject(move: Move, flags: int, moves: seq<Move>) returns (found: Move)
      ensures var k := Play.FirstObject(move, flags, moves, 0);
        found == if k >= 0 then Notation.WithText(moves[k], Notation.SanOf(moves[k], moves)) else NULL_MOVE
    {
      var k := ObjectIndex(move, flags, moves);
      found := NULL_MOVE;
      if k >= 0 {
        var san := Notation.MoveToSan(moves[k], moves);
        found := Notation.WithText(moves[k], san);
      }
    }

    /** moveObject's search loop: the first listed move that matches the request. */
    static method ObjectIndex(move: Move, flags: int, moves: seq<Move>) returns (k: int)
      ensures k == Play.FirstObject(move, flags, moves, 0)
    {
      for j := 0 to |moves|
        invariant forall i | 0 <= i < j :: !Play.ObjectMatches(move, flags, moves[i])
      {
        var m2 := moves[j];
        if flags > 0 {
          if HasBit(m2.flags, flags) {
            return j;
          }
        } else if move.from == m2.from && move.to == m2.to && (m2.promote == 0 || Type(move.promote) == m2.promote) {
          return j;
        }
      }
      return -1;
    }

    /** moveUci(text, frc, decorate): the request cut from the text, played by moveObject. */
    method MoveUci(text: string, frcFlag: bool, decorate: bool) returns (moveObj: Move)
      requires Valid() && ply >= -1 && |text| >= 2
      modifies board, this`castling, this`epSquare, this`halfMoves, this`kings, this`materials, this`moveNumber, this`ply, this`plyStates, this`turn
      ensures Valid()
      ensures (GameState(), moveObj) == Play.MoveUciSpec(old(GameState()), text, frcFlag, frc, decorate)
    {
      var move := Move(0, 0, AnToSquare(text[..2]), "", 0, PieceCode(CharAt(text, 4)),
        AnToSquare(text[2..if |text| < 4 then |text| else 4]));
      moveObj := MoveObject(move, frcFlag, decorate);
    }

    /** The legal moves and the move the SAN names among them, or the null move. */
    method SanFound(text: string, frcFlag: bool, sloppy: bool) returns (move: Move)
      requires Valid() && ply >= -1
      modifies board, this`castling, this`epSquare, this`halfMoves, this`kings, this`materials, this`moveNumber, this`ply, this`plyStates, this`turn
      ensures Valid()
      ensures var lm := LegalMoves(old(GameState()), frcFlag, false);
        GameState() == lm.0 && move == Notation.SanToMoveSpec(text, lm.1, sloppy)
    {
      var moves := CreateMoves(frcFlag, true, false);
      move := Notation.SanToMove(text, moves, sloppy);
    }

    /** One word of multiSan: read and make the move, and record it with the FEN after it. */
    method SanWord(text: string, frcFlag: bool, sloppy: bool) returns (e: Option<MoveText>)
      requires Valid() && ply >= -1
      modifies board, this`castling, this`epSquare, this`halfMoves, this`kings, this`materials, this`moveNumber, this`ply, this`plyStates, this`turn, this`fen
      ensures Valid()
      ensures (GameState(), e) == Play.SanStep(old(GameState()), text, frcFlag, frc, sloppy)
      ensures if e.Some? then fen == e.value.fen else fen == old(fen)
    {
      var move := SanFound(text, frcFlag, sloppy);
      if move.piece == 0 {
        return None;
      }
      MoveRaw(move);
      var f := CreateFen();
      e := Some(MoveText(move, f, ply, 0));
    }

    /** SanWord as the step the scan of multiSan is written with. */
    method SanWordStep(text: string, frcFlag: bool, sloppy: bool, ghost step: Play.Step) returns (e: Option<MoveText>)
      requires Valid() && ply >= -1 && Play.SanStepsAre(step, frcFlag, frc, sloppy)
      modifies board, this`castling, this`epSquare, this`halfMoves, this`kings, this`materials, this`moveNumber, this`ply, this`plyStates, this`turn, this`fen
      ensures Valid()
      ensures (GameState(), e) == step(old(GameState()), text)
      ensures if e.Some? then fen == e.value.fen else fen == old(fen)
    {
      e := SanWord(text, frcFlag, sloppy);
    }


    /** The state of a multiSan or multiUci scan: the list so far, followed by the
        words still ahead played from the current game, gives the whole list. */
    ghost predicate Scanned(step: Play.Step, stop: bool, spec: (Game, seq<MoveText>), fen0: string,
                            left: seq<string>, result: seq<MoveText>)
      reads this, board
    {
      Valid() && ply >= -1 &&
      (var rest := Play.Steps(step, stop, GameState(), left); spec == (rest.0, result + rest.1)) &&
      (if result == [] then fen == fen0 else fen == result[|result| - 1].fen)
    }

    /** One word of the loop of multiSan made, and the entry it adds appended. */
    method SanTake(w: string, frcFlag: bool, sloppy: bool, ghost step: Play.Step, ghost left: seq<string>,
                   ghost spec: (Game, seq<MoveText>), ghost fen0: string, result: seq<MoveText>) returns (res: seq<MoveText>, e: Option<MoveText>)
      requires Play.SanStepsAre(step, frcFlag, frc, sloppy) && Play.Counts(step)
      requires left != [] && left[0] == w
      requires Scanned(step, true, spec, fen0, left, result)
      modifies board, this`castling, this`epSquare, this`halfMoves, this`kings, this`materials, this`moveNumber, this`ply, this`plyStates, this`turn, this`fen
      ensures e.None? ==> Scanned(step, true, spec, fen0, [], res)
      ensures e.Some? ==> Scanned(step, true, spec, fen0, left[1..], res)
    {
      ghost var g := GameState();
      e := SanWordStep(w, frcFlag, sloppy, step);
      assert Play.StepCounts(g, step(g, w));
      res := result;
      if e.Some? {
        assert result + [e.value] + Play.Steps(step, true, GameState(), left[1..]).1 ==
          result + ([e.value] + Play.Steps(step, true, GameState(), left[1..]).1);
        res := result + [e.value];
      } else {
        assert res + [] == res;
      }
    }

    /** One character of the loop of multiSan. */
    method ScanSanAt(multi: string, frcFlag: bool, sloppy: bool, ghost step: Play.Step, ghost spec: (Game, seq<MoveText>),
                     ghost fen0: string, ghost left: seq<string>, prev: nat, i: nat, result: seq<MoveText>)
      returns (ghost left1: seq<string>, prev1: nat, i1: nat, result1: seq<MoveText>)
      requires Play.SanStepsAre(step, frcFlag, frc, sloppy) && Play.Counts(step)
      requires prev <= i <= |multi| && left == Play.WordsLeft(multi, prev, i)
      requires Scanned(step, true, spec, fen0, left, result)
      modifies board, this`castling, this`epSquare, this`halfMoves, this`kings, this`materials, this`moveNumber, this`ply, this`plyStates, this`turn, this`fen
      ensures i < i1 && prev1 <= i1 <= |multi| + 1 && left1 == Play.WordsLeft(multi, prev1, i1)
      ensures Scanned(step, true, spec, fen0, left1, result1)
    {
      Play.WordsLeftStep(multi, prev, i);
      left1, prev1, i1, result1 := left, prev, i + 1, result;
      if i == |multi| || multi[i] == ' ' {
        if CharAt(multi, prev) >= 'A' {
          var e;
          result1, e := SanTake(multi[prev..i], frcFlag, sloppy, step, left, spec, fen0, result);
          if e.None? {
            left1, prev1, i1 := [], prev, |multi| + 1;
          } else {
            left1, prev1, i1 := left[1..], i + 1, i + 1;
          }
        } else {
          prev1 := i + 1;
        }
      }
    }

    /** The character loop of multiSan: `left` holds the words still ahead. */
    method ScanSan(multi: string, frcFlag: bool, sloppy: bool, ghost step: Play.Step) returns (result: seq<MoveText>)
      requires Valid() && ply >= -1 && Play.SanStepsAre(step, frcFlag, frc, sloppy) && Play.Counts(step)
      modifies board, this`castling, this`epSquare, this`halfMoves, this`kings, this`materials, this`moveNumber, this`ply, this`plyStates, this`turn, this`fen
      ensures Valid()
      ensures (GameState(), result) == Play.Steps(step, true, old(GameState()), Play.MoveWords(multi))
      ensures if result == [] then fen == old(fen) else fen == result[|result| - 1].fen
    {
      ghost var spec := Play.Steps(step, true, GameState(), Play.MoveWords(multi));
      ghost var left := Play.MoveWords(multi);
      result := [];
      assert [] + spec.1 == spec.1;
      var prev: nat, i: nat := 0, 0;
      while i <= |multi|
        invariant prev <= i <= |multi| + 1
        invariant left == Play.WordsLeft(multi, prev, i)
        invariant Scanned(step, true, spec, old(fen), left, result)
        decreases |multi| + 1 - i
      {
        left, prev, i, result := ScanSanAt(multi, frcFlag, sloppy, step, spec, old(fen), left, prev, i, result);
      }
      assert result + [] == result;
    }

    /** multiSan(multi, frc, sloppy): the moves of the text made one after the other,
        up to the first that is not legal. */
    method MultiSan(multi: string, frcFlag: bool, sloppy: bool) returns (result: seq<MoveText>)
      requires Valid() && ply >= -1
      modifies board, this`castling, this`epSquare, this`halfMoves, this`kings, this`materials, this`moveNumber, this`ply, this`plyStates, this`turn, this`fen
      ensures Valid()
      ensures (GameState(), result) == Play.MultiSanSpec(old(GameState()), Play.MoveWords(multi), frcFlag, frc, sloppy)
      ensures if result == [] then fen == old(fen) else fen == result[|result| - 1].fen
    {
      Play.SanStepAtIs(frcFlag, frc, sloppy);
      result := ScanSan(multi, frcFlag, sloppy, Play.SanStepAt(frcFlag, frc, sloppy));
    }

    /** One word of multiUci: moveUci with decorators, recorded with the FEN after it. */
    method UciWord(text: string, frcFlag: bool) returns (e: Option<MoveText>)
      requires Valid() && ply >= -1 && |text| >= 2
      modifies board, this`castling, this`epSquare, this`halfMoves, this`kings, this`materials, this`moveNumber, this`ply, this`plyStates, this`turn, this`fen
      ensures Valid()
      ensures (GameState(), e) == Play.UciStep(old(GameState()), text, frcFlag, frc)
      ensures if e.Some? then fen == e.value.fen else fen == old(fen)
    {
      var move := MoveUci(text, frcFlag, true);
      if move.piece == 0 {
        return None;
      }
      var f := CreateFen();
      e := Some(MoveText(move, f, ply, 0));
    }

    /** UciWord as the step the scan of multiUci is written with. */
    method UciWordStep(text: string, frcFlag: bool, ghost step: Play.Step) returns (e: Option<MoveText>)
      requires Valid() && ply >= -1 && |text| >= 2 && Play.UciStepsAre(step, frcFlag, frc)
      modifies board, this`castling, this`epSquare, this`halfMoves, this`kings, this`materials, this`moveNumber, this`ply, this`plyStates, this`turn, this`fen
      ensures Valid()
      ensures (GameState(), e) == step(old(GameState()), text)
      ensures if e.Some? then fen == e.value.fen else fen == old(fen)
    {
      e := UciWord(text, frcFlag);
    }


    /** One word of the loop of multiUci made, and the entry it adds appended. */
    method UciTake(w: string, frcFlag: bool, ghost step: Play.Step, ghost left: seq<string>,
                   ghost spec: (Game, seq<MoveText>), ghost fen0: string, result: seq<MoveText>) returns (res: seq<MoveText>)
      requires Play.UciStepsAre(step, frcFlag, frc) && Play.Counts(step)
      requires left != [] && left[0] == w && |w| >= 2
      requires Scanned(step, false, spec, fen0, left, result)
      modifies board, this`castling, this`epSquare, this`halfMoves, this`kings, this`materials, this`moveNumber, this`ply, this`plyStates, this`turn, this`fen
      ensures Scanned(step, false, spec, fen0, left[1..], res)
    {
      ghost var g := GameState();
      var e := UciWordStep(w, frcFlag, step);
      assert Play.StepCounts(g, step(g, w));
      res := result;
      if e.Some? {
        assert result + [e.value] + Play.Steps(step, false, GameState(), left[1..]).1 ==
          result + ([e.value] + Play.Steps(step, false, GameState(), left[1..]).1);
        res := result + [e.value];
      }
    }

    /** One character of the loop of multiUci. */
    method ScanUciAt(multi: string, frcFlag: bool, ghost step: Play.Step, ghost spec: (Game, seq<MoveText>),
                     ghost fen0: string, ghost left: seq<string>, prev: nat, i: nat, result: seq<MoveText>)
      returns (ghost left1: seq<string>, prev1: nat, i1: nat, result1: seq<MoveText>)
      requires Play.UciStepsAre(step, frcFlag, frc) && Play.Counts(step)
      requires prev <= i <= |multi| && left == Play.WordsLeft(multi, prev, i) && Play.UciWords(left)
      requires Scanned(step, false, spec, fen0, left, result)
      modifies board, this`castling, this`epSquare, this`halfMoves, this`kings, this`materials, this`moveNumber, this`ply, this`plyStates, this`turn, this`fen
      ensures i < i1 && prev1 <= i1 <= |multi| + 1 && left1 == Play.WordsLeft(multi, prev1, i1) && Play.UciWords(left1)
      ensures Scanned(step, false, spec, fen0, left1, result1)
    {
      Play.WordsLeftStep(multi, prev, i);
      left1, prev1, i1, result1 := left, prev, i + 1, result;
      if i == |multi| || multi[i] == ' ' {
        if CharAt(multi, prev) >= 'A' {
          result1 := UciTake(multi[prev..i], frcFlag, step, left, spec, fen0, result);
          left1, prev1, i1 := left[1..], i + 1, i + 1;
        } else {
          prev1 := i + 1;
        }
      }
    }

    /** The character loop of multiUci: `left` holds the words still ahead. */
    method ScanUci(multi: string, frcFlag: bool, ghost step: Play.Step) returns (result: seq<MoveText>)
      requires Valid() && ply >= -1 && Play.UciStepsAre(step, frcFlag, frc) && Play.Counts(step) && Play.UciWords(Play.MoveWords(multi))
      modifies board, this`castling, this`epSquare, this`halfMoves, this`kings, this`materials, this`moveNumber, this`ply, this`plyStates, this`turn, this`fen
      ensures Valid()
      ensures (GameState(), result) == Play.Steps(step, false, old(GameState()), Play.MoveWords(multi))
      ensures if result == [] then fen == old(fen) else fen == result[|result| - 1].fen
    {
      ghost var spec := Play.Steps(step, false, GameState(), Play.MoveWords(multi));
      ghost var left := Play.MoveWords(multi);
      result := [];
      assert [] + spec.1 == spec.1;
      var prev: nat, i: nat := 0, 0;
      while i <= |multi|
        invariant prev <= i <= |multi| + 1
        invariant left == Play.WordsLeft(multi, prev, i)
        invariant Scanned(step, false, spec, old(fen), left, result)
        invariant Play.UciWords(left)
        decreases |multi| + 1 - i
      {
        left, prev, i, result := ScanUciAt(multi, frcFlag, step, spec, old(fen), left, prev, i, result);
      }
      assert result + [] == result;
    }

    /** multiUci(multi, frc): the UCI moves of the text played in turn; one that is not
        legal is skipped. */
    method MultiUci(multi: string, frcFlag: bool) returns (result: seq<MoveText>)
      requires Valid() && ply >= -1 && Play.UciWords(Play.MoveWords(multi))
      modifies board, this`castling, this`epSquare, this`halfMoves, this`kings, this`materials, this`moveNumber, this`ply, this`plyStates, this`turn, this`fen
      ensures Valid()
      ensures (GameState(), result) == Play.MultiUciSpec(old(GameState()), Play.MoveWords(multi), frcFlag, frc)
      ensures if result == [] then fen == old(fen) else fen == result[|result| - 1].fen
    {
      Play.UciStepAtIs(frcFlag, frc);
      result := ScanUci(multi, frcFlag, Play.UciStepAt(frcFlag, frc));
    }
  }

  /** A cell inside a rank: the text so far plus the rest of the field from the next cell. */
  lemma CellStep(b: seq<int>, i: nat, e0: int, start: string, fen: string)
    requires i <= SQUARE_H1 && !OffBoard(i + 1) && fen == start + CellText(Get(b, i), e0)
    ensures fen + BoardFrom(b, i + 1, Pending(Get(b, i), e0)) == start + BoardFrom(b, i, e0)
  {
    AppendAssoc(start, CellText(Get(b, i), e0), BoardFrom(b, i + 1, Pending(Get(b, i), e0)));
  }

  /** The last cell of a rank: the text so far plus the field from the next rank. */
  lemma RankStep(b: seq<int>, i: nat, e0: int, start: string, fen: string)
    requires i <= SQUARE_H1 && OffBoard(i + 1)
    requires fen == start + CellText(Get(b, i), e0) + EmptyRun(Pending(Get(b, i), e0)) + (if i != SQUARE_H1 then "/" else "")
    ensures fen + BoardFrom(b, i + 9, 0) == start + BoardFrom(b, i, e0)
  {
    var text := CellText(Get(b, i), e0);
    var run := EmptyRun(Pending(Get(b, i), e0));
    var slash := if i != SQUARE_H1 then "/" else "";
    var rest := BoardFrom(b, i + 9, 0);
    assert BoardFrom(b, i, e0) == text + run + slash + rest;
    AppendAssoc(start + text, run, slash);
    AppendAssoc(start, text, run + slash);
    AppendAssoc(start, text + (run + slash), rest);
    AppendAssoc(text, run, slash);
    AppendAssoc(text + run, slash, rest);
  }

  lemma AppendAssoc<T>(a: seq<T>, b: seq<T>, c: seq<T>)
    ensures (a + b) + c == a + (b + c)
  {
  }

  lemma GrowStep(h: seq<State>, n: int)
    requires |h| <= n
    ensures Grow(h, n) + [BLANK_STATE] == Grow(h, n + 1)
  {
    var a := Grow(h, n) + [BLANK_STATE];
    var c := Grow(h, n + 1);
    assert |a| == |c|;
    forall k | 0 <= k < |a| ensures a[k] == c[k] {
      if k < |h| {
        assert Grow(h, n)[..|h|][k] == h[k];
        assert c[..|h|][k] == h[k];
      }
    }
  }

  lemma GrowDone(h: seq<State>, n: int, target: int)
    requires |h| <= n && n >= target && (n == |h| || n == target)
    ensures Grow(h, n) == Grow(h, target)
  {
    var a := Grow(h, n);
    var c := Grow(h, target);
    assert |a| == |c|;
    forall k | 0 <= k < |a| ensures a[k] == c[k] {
      if k < |h| {
        assert a[..|h|][k] == h[k];
        assert c[..|h|][k] == h[k];
      }
    }
  }

  /** Walking a ray that is k steps of `offset` short of the target: the target is
      reached exactly when k is 0, and one step leaves k - 1. */
  lemma RayStep(j: int, offset: int, k: int, square: int)
    requires offset != 0 && square - j == k * offset
    ensures j == square <==> k == 0
    ensures square - (j + offset) == (k - 1) * offset
  {
  }

  /** A sliding attack bit sits on a ray that reaches the target in STEPS steps. */
  lemma SlidesInTable(index: int)
    requires Slides(At(ATTACKS, index))
    ensures At(RAYS, index) != 0 && At(STEPS, index) >= 1 && At(STEPS, index) * At(RAYS, index) == 119 - index
  {
    RaysReachTarget();
    assert RayReaches(index);
  }
}
