// load(DEFAULT_POSITION) followed by createFen() gives DEFAULT_POSITION back: the
// character loop of load() run segment by segment over the start text, the castling
// field it reads, and the placement field createFen() writes rank by rank.

module StartFen {
  import opened Tables
  import opened Squares
  import opened Moves
  import opened Rules
  import opened Fen
  import MoveGen

  // ------------------------------------------------------ the loop in segments

  /** load()'s loop over seg from its index j, the first character of seg standing
      at index base of the whole text. */
  function ScanRun(seg: string, j: nat, base: int, s: Scan): Scan
    decreases |seg| - j
  {
    if j >= |seg| then s else ScanRun(seg, j + 1, base, ScanChar(s, base + j, seg[j]))
  }

  lemma {:induction false} ScanFromRun(fen: string, k: nat, s: Scan)
    ensures ScanFrom(fen, k, s) == ScanRun(fen, k, 0, s)
    decreases |fen| - k
  {
    if k < |fen| {
      ScanFromRun(fen, k + 1, ScanChar(s, k, fen[k]));
    }
  }

  lemma {:induction false} ScanRunShift(a: string, b: string, i: nat, base: int, s: Scan)
    ensures ScanRun(a + b, |a| + i, base, s) == ScanRun(b, i, base + |a|, s)
    decreases |b| - i
  {
    if i < |b| {
      assert (a + b)[|a| + i] == b[i];
      ScanRunShift(a, b, i + 1, base, ScanChar(s, base + |a| + i, b[i]));
    }
  }

  /** The loop over a + b is the loop over a followed by the loop over b. */
  lemma {:induction false} ScanRunAppend(a: string, b: string, j: nat, base: int, s: Scan)
    requires j <= |a|
    ensures ScanRun(a + b, j, base, s) == ScanRun(b, 0, base + |a|, ScanRun(a, j, base, s))
    decreases |a| - j
  {
    if j == |a| {
      ScanRunShift(a, b, 0, base, s);
    } else {
      assert (a + b)[j] == a[j];
      ScanRunAppend(a, b, j + 1, base, ScanChar(s, base + j, a[j]));
    }
  }

  lemma OneChar(c: char, base: int, s: Scan)
    ensures ScanRun([c], 0, base, s) == ScanChar(s, base, c)
  {
    assert ScanRun([c], 1, base, ScanChar(s, base, c)) == ScanChar(s, base, c);
  }

  // ------------------------------------------------------- the placement field

  /** Cells sq .. sq + |t| - 1 hold the piece codes of the letters of t. */
  predicate Spelled(b: seq<int>, sq: int, t: string)
  {
    0 <= sq && sq + |t| <= |b| && forall f | 0 <= f < |t| :: b[sq + f] == PieceCode(t[f])
  }

  /** The two boards differ at most in cells lo .. hi - 1. */
  predicate Outside(b: seq<int>, b2: seq<int>, lo: int, hi: int)
  {
    |b| == |b2| && forall i | 0 <= i < |b| && !(lo <= i < hi) :: b2[i] == b[i]
  }

  /** No piece stands on a cell from q on. */
  predicate ClearFrom(b: seq<int>, q: int)
  {
    forall i | 0 <= i && q <= i < |b| :: b[i] == 0
  }

  lemma SpelledKept(b: seq<int>, b2: seq<int>, sq: int, t: string, lo: int, hi: int)
    requires Spelled(b, sq, t) && Outside(b, b2, lo, hi) && (sq + |t| <= lo || hi <= sq)
    ensures Spelled(b2, sq, t)
  {
    forall f | 0 <= f < |t|
      ensures b2[sq + f] == PieceCode(t[f])
    {
      assert b2[sq + f] == b[sq + f];
    }
  }

  lemma SpelledJoin(b: seq<int>, sq: int, a: string, c: string)
    requires Spelled(b, sq, a) && Spelled(b, sq + |a|, c)
    ensures Spelled(b, sq, a + c)
  {
    forall f | 0 <= f < |a + c|
      ensures b[sq + f] == PieceCode((a + c)[f])
    {
      if f >= |a| {
        assert b[sq + |a| + (f - |a|)] == PieceCode(c[f - |a|]);
      }
    }
  }

  /** The eight cells from q on are the same on both boards. */
  predicate Kept(b: seq<int>, b2: seq<int>, q: int)
  {
    |b| == |b2| && forall i | 0 <= i < |b| && q <= i < q + 8 :: b2[i] == b[i]
  }

  lemma OutsideWiden(b: seq<int>, b2: seq<int>, lo: int, mid: int, hi: int)
    requires Outside(b, b2, lo, mid) && lo <= mid <= hi
    ensures Outside(b, b2, lo, hi)
  {
  }

  /** Cells q .. q + 7 lie outside both written ranges, so they keep their value. */
  lemma OutsideKept(b: seq<int>, b2: seq<int>, b3: seq<int>, q: int, lo1: int, hi1: int, lo2: int, hi2: int)
    requires Outside(b, b2, lo1, hi1) && Outside(b2, b3, lo2, hi2) && hi1 <= q && q + 8 <= lo2
    ensures Kept(b, b3, q)
  {
  }

  lemma OutsideJoin(b: seq<int>, b2: seq<int>, b3: seq<int>, lo: int, mid: int, hi: int)
    requires Outside(b, b2, lo, mid) && Outside(b2, b3, mid, hi) && lo <= mid <= hi
    ensures Outside(b, b3, lo, hi)
  {
  }

  /** The king squares after put() has placed the letters of seg from square sq on. */
  function KingsAfter(seg: string, j: nat, sq: int, kings: seq<int>): (r: seq<int>)
    ensures |r| == |kings|
    decreases |seg| - j
  {
    if j >= |seg| then kings
    else
      var code := PieceCode(seg[j]);
      KingsAfter(seg, j + 1, sq + 1, if Type(code) == KING then Set(kings, Color(code), sq) else kings)
  }

  /** Only the king letters record a king square. */
  lemma {:induction false} NoKingsAfter(seg: string, j: nat, sq: int, kings: seq<int>)
    requires j <= |seg| && forall f | j <= f < |seg| :: seg[f] != 'K' && seg[f] != 'k'
    ensures KingsAfter(seg, j, sq, kings) == kings
    decreases |seg| - j
  {
    if j < |seg| {
      assert Type(PieceCode(seg[j])) != KING;
      NoKingsAfter(seg, j + 1, sq + 1, kings);
    }
  }

  /** A letter other than a king letter records nothing. */
  lemma KingsSkip(t: string, j: nat, sq: int, kings: seq<int>)
    requires j < |t| && t[j] != 'K' && t[j] != 'k'
    ensures KingsAfter(t, j, sq, kings) == KingsAfter(t, j + 1, sq + 1, kings)
  {
    assert Type(PieceCode(t[j])) != KING;
  }

  /** A back rank records its king on file e. */
  lemma BackKings(t: string, sq: int, kings: seq<int>)
    requires |t| == 8 && (t[4] == 'K' || t[4] == 'k')
    requires forall f | 0 <= f < 8 && f != 4 :: t[f] != 'K' && t[f] != 'k'
    ensures KingsAfter(t, 0, sq, kings) == Set(kings, Color(PieceCode(t[4])), sq + 4)
  {
    var k2 := Set(kings, Color(PieceCode(t[4])), sq + 4);
    NoKingsAfter(t, 5, sq + 5, k2);
    KingsSkip(t, 0, sq, kings);
    KingsSkip(t, 1, sq + 1, kings);
    KingsSkip(t, 2, sq + 2, kings);
    KingsSkip(t, 3, sq + 3, kings);
    assert Type(PieceCode(t[4])) == KING;
    assert KingsAfter(t, 4, sq + 4, kings) == KingsAfter(t, 5, sq + 5, k2);
  }

  /** The pawn ranks record no king. */
  lemma PawnKings(sq: int, kings: seq<int>)
    ensures KingsAfter("pppppppp", 0, sq, kings) == kings
    ensures KingsAfter("PPPPPPPP", 0, sq, kings) == kings
  {
    NoKingsAfter("pppppppp", 0, sq, kings);
    NoKingsAfter("PPPPPPPP", 0, sq, kings);
  }

  /** Rank 8 records the black king on file e. */
  lemma BlackBackKings(sq: int, kings: seq<int>)
    ensures KingsAfter("rnbqkbnr", 0, sq, kings) == Set(kings, BLACK, sq + 4)
  {
    BackKings("rnbqkbnr", sq, kings);
  }

  /** Rank 1 records the white king on file e. */
  lemma WhiteBackKings(sq: int, kings: seq<int>)
    ensures KingsAfter("RNBQKBNR", 0, sq, kings) == Set(kings, WHITE, sq + 4)
  {
    BackKings("RNBQKBNR", sq, kings);
  }

  /** A run of piece letters: each letter's piece lands on the next square, no other
      cell changes, and a king letter records its square. */
  lemma {:induction false} PiecesRun(seg: string, j: nat, base: int, s: Scan)
    requires j <= |seg| && s.step == 0 && |s.pl.board| == 128
    requires 0 <= s.square && s.square + |seg| - j <= 128
    requires forall f | j <= f < |seg| :: seg[f] in PIECES
    ensures var r := ScanRun(seg, j, base, s);
      r == s.(pl := r.pl, square := s.square + |seg| - j) &&
      r.pl.kings == KingsAfter(seg, j, s.square, s.pl.kings) &&
      Outside(s.pl.board, r.pl.board, s.square, s.square + |seg| - j) &&
      Spelled(r.pl.board, s.square, seg[j..])
    decreases |seg| - j
  {
    if j < |seg| {
      var c := seg[j];
      var code := PieceCode(c);
      var s1 := ScanChar(s, base + j, c);
      assert s1.pl.board == s.pl.board[s.square := code];
      assert s1 == s.(pl := s1.pl, square := s.square + 1);
      PiecesRun(seg, j + 1, base, s1);
      var r := ScanRun(seg, j + 1, base, s1);
      assert Spelled(r.pl.board, s.square, [c]) by {
        assert r.pl.board[s.square] == s1.pl.board[s.square];
      }
      SpelledJoin(r.pl.board, s.square, [c], seg[j + 1..]);
      assert [c] + seg[j + 1..] == seg[j..];
    } else {
      assert seg[j..] == [];
    }
  }

  /** Rank separators and the digit 8 only move the square on by 8. */
  lemma {:induction false} SkipRun(seg: string, j: nat, base: int, s: Scan)
    requires j <= |seg| && s.step == 0
    requires forall f | j <= f < |seg| :: seg[f] == '/' || seg[f] == '8'
    ensures ScanRun(seg, j, base, s) == s.(square := s.square + 8 * (|seg| - j))
    decreases |seg| - j
  {
    if j < |seg| {
      SkipRun(seg, j + 1, base, ScanChar(s, base + j, seg[j]));
    }
  }

  /** The board load() builds from the start text, as createFen() reads it. */
  predicate StartBoard(b: seq<int>)
  {
    |b| == 128 &&
    Spelled(b, 0, "rnbqkbnr") && Spelled(b, 16, "pppppppp") &&
    Spelled(b, 96, "PPPPPPPP") && Spelled(b, 112, "RNBQKBNR") &&
    forall i | 24 <= i < 96 :: b[i] == 0
  }

  /** The cells the separators of ranks 8 and 2 skip, and those after h1, stay empty. */
  predicate GapsClear(b: seq<int>)
  {
    |b| == 128 && forall i | 0 <= i < 128 && (8 <= i < 16 || 104 <= i < 112 || 120 <= i) :: b[i] == 0
  }

  /** A rank of eight piece letters after the text x. */
  lemma RankRun(x: string, t: string, s0: Scan)
    requires |t| == 8 && forall f | 0 <= f < 8 :: t[f] in PIECES
    requires var u := ScanRun(x, 0, 0, s0);
      u.step == 0 && |u.pl.board| == 128 && 0 <= u.square && u.square + 8 <= 128
    ensures var u := ScanRun(x, 0, 0, s0);
      var r := ScanRun(x + t, 0, 0, s0);
      r == u.(pl := r.pl, square := u.square + 8) &&
      r.pl.kings == KingsAfter(t, 0, u.square, u.pl.kings) &&
      Outside(u.pl.board, r.pl.board, u.square, u.square + 8) && Spelled(r.pl.board, u.square, t)
  {
    ScanRunAppend(x, t, 0, 0, s0);
    PiecesRun(t, 0, |x|, ScanRun(x, 0, 0, s0));
    assert t[0..] == t;
  }

  /** A rank separator after the text x. */
  lemma SlashRun(x: string, s0: Scan)
    requires ScanRun(x, 0, 0, s0).step == 0
    ensures var u := ScanRun(x, 0, 0, s0);
      ScanRun(x + "/", 0, 0, s0) == u.(square := u.square + 8)
  {
    ScanRunAppend(x, "/", 0, 0, s0);
    SkipRun("/", 0, |x|, ScanRun(x, 0, 0, s0));
  }

  /** Rank 8, from the cleared board. */
  lemma ScanRank8Pieces(s0: Scan)
    requires s0.step == 0 && s0.square == 0 && s0.pl.kings == [EMPTY, EMPTY] && |s0.pl.board| == 128
    ensures var r := ScanRun("rnbqkbnr", 0, 0, s0);
      r == s0.(pl := r.pl, square := 8) && r.pl.kings == [EMPTY, 4] &&
      Outside(s0.pl.board, r.pl.board, 0, 8) && Spelled(r.pl.board, 0, "rnbqkbnr")
  {
    PiecesRun("rnbqkbnr", 0, 0, s0);
    assert "rnbqkbnr"[0..] == "rnbqkbnr";
    BlackBackKings(s0.square, s0.pl.kings);
    assert Set(s0.pl.kings, BLACK, 4) == [EMPTY, 4];
  }

  /** Rank 8 and the separator after it, from the cleared board. */
  lemma ScanRank8(s0: Scan)
    requires s0.step == 0 && s0.square == 0 && s0.pl.kings == [EMPTY, EMPTY] && |s0.pl.board| == 128
    ensures var r := ScanRun("rnbqkbnr" + "/", 0, 0, s0);
      r == s0.(pl := r.pl, square := 16) && r.pl.kings == [EMPTY, 4] &&
      Outside(s0.pl.board, r.pl.board, 0, 8) && Spelled(r.pl.board, 0, "rnbqkbnr")
  {
    ScanRank8Pieces(s0);
    SlashRun("rnbqkbnr", s0);
  }

  /** Ranks 8 and 7 with the separator between them, from the cleared board. */
  lemma ScanBlackRanks(s0: Scan)
    requires s0.step == 0 && s0.square == 0 && s0.pl.kings == [EMPTY, EMPTY] && |s0.pl.board| == 128
    ensures var r := ScanRun("rnbqkbnr" + "/" + "pppppppp", 0, 0, s0);
      r == s0.(pl := r.pl, square := 24) && r.pl.kings == [EMPTY, 4] &&
      Outside(s0.pl.board, r.pl.board, 0, 24) && Kept(s0.pl.board, r.pl.board, 8) &&
      Spelled(r.pl.board, 0, "rnbqkbnr") && Spelled(r.pl.board, 16, "pppppppp")
  {
    var p2 := "rnbqkbnr" + "/";
    ScanRank8(s0);
    var s2 := ScanRun(p2, 0, 0, s0);
    RankRun(p2, "pppppppp", s0);
    PawnKings(s2.square, s2.pl.kings);
    var r := ScanRun(p2 + "pppppppp", 0, 0, s0);
    SpelledKept(s2.pl.board, r.pl.board, 0, "rnbqkbnr", 16, 24);
    OutsideWiden(s0.pl.board, s2.pl.board, 0, 8, 16);
    OutsideJoin(s0.pl.board, s2.pl.board, r.pl.board, 0, 16, 24);
    OutsideKept(s0.pl.board, s2.pl.board, r.pl.board, 8, 0, 8, 16, 24);
  }

  /** Ranks 6 to 3, each an 8 between separators: only the square moves on. */
  lemma ScanEmptyRanks(x: string, s0: Scan)
    requires ScanRun(x, 0, 0, s0).step == 0
    ensures var u := ScanRun(x, 0, 0, s0);
      ScanRun(x + "/" + "8" + "/" + "8" + "/" + "8" + "/" + "8" + "/", 0, 0, s0) == u.(square := u.square + 72)
  {
    var p0 := x;
    var p1 := p0 + "/"; ScanRunAppend(p0, "/", 0, 0, s0); SkipRun("/", 0, |p0|, ScanRun(p0, 0, 0, s0));
    var p2 := p1 + "8"; ScanRunAppend(p1, "8", 0, 0, s0); SkipRun("8", 0, |p1|, ScanRun(p1, 0, 0, s0));
    var p3 := p2 + "/"; ScanRunAppend(p2, "/", 0, 0, s0); SkipRun("/", 0, |p2|, ScanRun(p2, 0, 0, s0));
    var p4 := p3 + "8"; ScanRunAppend(p3, "8", 0, 0, s0); SkipRun("8", 0, |p3|, ScanRun(p3, 0, 0, s0));
    var p5 := p4 + "/"; ScanRunAppend(p4, "/", 0, 0, s0); SkipRun("/", 0, |p4|, ScanRun(p4, 0, 0, s0));
    var p6 := p5 + "8"; ScanRunAppend(p5, "8", 0, 0, s0); SkipRun("8", 0, |p5|, ScanRun(p5, 0, 0, s0));
    var p7 := p6 + "/"; ScanRunAppend(p6, "/", 0, 0, s0); SkipRun("/", 0, |p6|, ScanRun(p6, 0, 0, s0));
    var p8 := p7 + "8"; ScanRunAppend(p7, "8", 0, 0, s0); SkipRun("8", 0, |p7|, ScanRun(p7, 0, 0, s0));
    var p9 := p8 + "/"; ScanRunAppend(p8, "/", 0, 0, s0); SkipRun("/", 0, |p8|, ScanRun(p8, 0, 0, s0));
  }

  /** Ranks 2 and 1 with the separator between them, after the empty ranks. */
  lemma ScanWhiteRanks(x: string, s0: Scan)
    requires var u := ScanRun(x, 0, 0, s0);
      u.step == 0 && u.square == 96 && u.pl.kings == [EMPTY, 4] && |u.pl.board| == 128
    ensures var u := ScanRun(x, 0, 0, s0);
      var r := ScanRun(x + "PPPPPPPP" + "/" + "RNBQKBNR", 0, 0, s0);
      r == u.(pl := r.pl, square := 120) && r.pl.kings == [116, 4] &&
      Outside(u.pl.board, r.pl.board, 96, 120) && Kept(u.pl.board, r.pl.board, 104) &&
      Spelled(r.pl.board, 96, "PPPPPPPP") && Spelled(r.pl.board, 112, "RNBQKBNR")
  {
    var u := ScanRun(x, 0, 0, s0);
    RankRun(x, "PPPPPPPP", s0);
    PawnKings(u.square, u.pl.kings);
    var s1 := ScanRun(x + "PPPPPPPP", 0, 0, s0);
    SlashRun(x + "PPPPPPPP", s0);
    var s2 := ScanRun(x + "PPPPPPPP" + "/", 0, 0, s0);
    RankRun(x + "PPPPPPPP" + "/", "RNBQKBNR", s0);
    WhiteBackKings(s2.square, s2.pl.kings);
    assert Set(s2.pl.kings, WHITE, 116) == [116, 4];
    var r := ScanRun(x + "PPPPPPPP" + "/" + "RNBQKBNR", 0, 0, s0);
    SpelledKept(s1.pl.board, r.pl.board, 96, "PPPPPPPP", 112, 120);
    OutsideWiden(u.pl.board, s1.pl.board, 96, 104, 112);
    OutsideJoin(u.pl.board, s1.pl.board, r.pl.board, 96, 112, 120);
    OutsideKept(u.pl.board, s1.pl.board, r.pl.board, 104, 96, 104, 112, 120);
  }

  /** The placement field of the start text, from the cleared board. */
  lemma ScanPlacement(s0: Scan)
    requires s0.step == 0 && s0.square == 0 && s0.pl.kings == [EMPTY, EMPTY]
    requires |s0.pl.board| == 128 && ClearFrom(s0.pl.board, 0)
    ensures var r := ScanRun(START_PLACEMENT, 0, 0, s0);
      r == s0.(pl := r.pl, square := 120) && r.pl.kings == [116, 4] && StartBoard(r.pl.board) &&
      GapsClear(r.pl.board)
  {
    var x := "rnbqkbnr" + "/" + "pppppppp";
    ScanBlackRanks(s0);
    ScanEmptyRanks(x, s0);
    var y := x + "/" + "8" + "/" + "8" + "/" + "8" + "/" + "8" + "/";
    ScanWhiteRanks(y, s0);
    PlacementBoard(s0.pl.board, ScanRun(x, 0, 0, s0).pl.board, ScanRun(START_PLACEMENT, 0, 0, s0).pl.board);
  }

  /** The writes of the placement field, from the cleared board. */
  lemma PlacementBoard(b0: seq<int>, b3: seq<int>, b: seq<int>)
    requires |b0| == 128 && ClearFrom(b0, 0)
    requires Outside(b0, b3, 0, 24) && Spelled(b3, 0, "rnbqkbnr") && Spelled(b3, 16, "pppppppp")
    requires Outside(b3, b, 96, 120) && Spelled(b, 96, "PPPPPPPP") && Spelled(b, 112, "RNBQKBNR")
    requires Kept(b0, b3, 8) && Kept(b3, b, 104)
    ensures StartBoard(b) && GapsClear(b)
  {
    SpelledKept(b3, b, 0, "rnbqkbnr", 96, 120);
    SpelledKept(b3, b, 16, "pppppppp", 96, 120);
    forall i | 24 <= i < 96
      ensures b[i] == 0
    {
      assert b[i] == b3[i] == b0[i];
    }
    forall i | 8 <= i < 16 || 104 <= i < 112 || 120 <= i < 128
      ensures b[i] == 0
    {
      assert b[i] == b3[i] == b0[i];
    }
  }

  // --------------------------------------------------------------- the fields

  lemma {:induction false} CastleFieldRun(t: string, j: nat, base: int, s: Scan)
    requires j <= |t| && s.step == 2 && forall f | j <= f < |t| :: t[f] != ' '
    ensures ScanRun(t, j, base, s) == s.(castle := s.castle + t[j..])
    decreases |t| - j
  {
    if j < |t| {
      CastleFieldRun(t, j + 1, base, ScanChar(s, base + j, t[j]));
      assert s.castle + [t[j]] + t[j + 1..] == s.castle + t[j..];
    }
  }

  /** The five fields after the placement field x: side to move, castling, en passant
      square and the two clocks. */
  lemma ScanFields(x: string, s0: Scan)
    requires |x| == 43
    requires var u := ScanRun(x, 0, 0, s0);
      u.step == 0 && u.castle == "" && u.ep == "" && u.half == 0 && u.move == 0
    ensures var u := ScanRun(x, 0, 0, s0);
      var r := ScanRun(x + " " + "w" + " " + "KQkq" + " " + "-" + " " + "0" + " " + "1", 0, 0, s0);
      r.pl == u.pl && r.turn == WHITE && r.castle == "KQkq" && r.ep == "-" &&
      r.half == 0 && r.move == 1 && r.step2 == 45 && r.step3 == 50
  {
    var q0 := x;
    var q1 := q0 + " "; ScanRunAppend(q0, " ", 0, 0, s0); OneChar(' ', 43, ScanRun(q0, 0, 0, s0));
    var q2 := q1 + "w"; ScanRunAppend(q1, "w", 0, 0, s0); OneChar('w', 44, ScanRun(q1, 0, 0, s0));
    var q3 := q2 + " "; ScanRunAppend(q2, " ", 0, 0, s0); OneChar(' ', 45, ScanRun(q2, 0, 0, s0));
    var q4 := q3 + "KQkq"; ScanRunAppend(q3, "KQkq", 0, 0, s0); CastleFieldRun("KQkq", 0, 46, ScanRun(q3, 0, 0, s0));
    var q5 := q4 + " "; ScanRunAppend(q4, " ", 0, 0, s0); OneChar(' ', 50, ScanRun(q4, 0, 0, s0));
    var q6 := q5 + "-"; ScanRunAppend(q5, "-", 0, 0, s0); OneChar('-', 51, ScanRun(q5, 0, 0, s0));
    var q7 := q6 + " "; ScanRunAppend(q6, " ", 0, 0, s0); OneChar(' ', 52, ScanRun(q6, 0, 0, s0));
    var q8 := q7 + "0"; ScanRunAppend(q7, "0", 0, 0, s0); OneChar('0', 53, ScanRun(q7, 0, 0, s0));
    var q9 := q8 + " "; ScanRunAppend(q8, " ", 0, 0, s0); OneChar(' ', 54, ScanRun(q8, 0, 0, s0));
    ScanRunAppend(q9, "1", 0, 0, s0); OneChar('1', 55, ScanRun(q9, 0, 0, s0));
    assert "" + "KQkq"[0..] == "KQkq";
    assert "" + ['-'] == "-";
  }

  /** The loop over the whole start text. */
  lemma ScanDefault()
    ensures var r := ScanFrom(DEFAULT_POSITION, 0, SCAN_START);
      StartBoard(r.pl.board) && GapsClear(r.pl.board) && r.pl.kings == [116, 4] && r.turn == WHITE &&
      r.castle == "KQkq" && r.ep == "-" && r.half == 0 && r.move == 1 && r.step2 == 45 && r.step3 == 50
  {
    var s0 := SCAN_START;
    ScanFromRun(DEFAULT_POSITION, 0, s0);
    ScanPlacement(s0);
    ScanFields(START_PLACEMENT, s0);
  }

  /** The castling field KQkq on the start board: the four corner rooks, no error. */
  lemma ReadKqkq(b: seq<int>)
    requires StartBoard(b)
    ensures CastleLetters(CastleRead(NO_SQUARES, false, false), "KQkq", 0, [116, 4], b, true)
      == CastleRead([119, 112, 7, 0], false, false)
  {
    assert b[119] == PieceCode("RNBQKBNR"[7]) && b[112] == PieceCode("RNBQKBNR"[0]);
    assert b[7] == PieceCode("rnbqkbnr"[7]) && b[0] == PieceCode("rnbqkbnr"[0]);
    var kings := [116, 4];
    var c1 := CastleLetter(CastleRead(NO_SQUARES, false, false), 'K', kings, b, true);
    assert c1 == CastleRead([119, EMPTY, EMPTY, EMPTY], false, false);
    var c2 := CastleLetter(c1, 'Q', kings, b, true);
    assert c2 == CastleRead([119, 112, EMPTY, EMPTY], false, false);
    var c3 := CastleLetter(c2, 'k', kings, b, true);
    assert c3 == CastleRead([119, 112, 7, EMPTY], false, false);
    var c4 := CastleLetter(c3, 'q', kings, b, true);
    assert c4 == CastleRead([119, 112, 7, 0], false, false);
    assert CastleLetters(c4, "KQkq", 4, kings, b, true) == c4;
  }

  /** load(DEFAULT_POSITION), whatever the Chess960 flag was: the standard start, the
      four rooks recorded as castling rooks, Chess960 off and the text unchanged. */
  lemma LoadDefault(frc: bool)
    ensures var l := LoadSpec(DEFAULT_POSITION, frc);
      l.fen == DEFAULT_POSITION && !l.frc && StartBoard(l.pos.board) &&
      l.pos.castling == [119, 112, 7, 0] && l.pos.kings == [116, 4] && l.pos.epSquare == EMPTY &&
      l.pos.halfMoves == 0 && l.pos.moveNumber == 1 && l.pos.turn == WHITE && l.pos.ply == -1
  {
    ScanDefault();
    var s := ScanFrom(DEFAULT_POSITION, 0, SCAN_START);
    ReadKqkq(s.pl.board);
  }

  /** The text starts the game, so load() clears the Chess960 flag before reading the
      castling field: the loaded state does not depend on the flag it had. */
  lemma LoadDefaultIgnoresFrc(frc: bool)
    ensures LoadSpec(DEFAULT_POSITION, frc) == LoadSpec(DEFAULT_POSITION, false)
  {
    ScanDefault();
  }

  /** The loaded start position is one the make/unmake and move-list results apply
      to: piece codes only, both kings and all four castling rooks on their recorded
      squares, no en passant square, and no white pawn on the eighth rank. */
  lemma StartConsistent()
    ensures MoveGen.Consistent(LoadSpec(DEFAULT_POSITION, false).pos)
  {
    var p := LoadSpec(DEFAULT_POSITION, false).pos;
    LoadDefault(false);
    LoadPieceCodes(DEFAULT_POSITION, false);
    LoadDefaultGaps();
    StartCells(p.board);
    forall i | 0 <= i < 128 && p.board[i] == Colorize(WHITE, PAWN)
      ensures Rank(i) != 0
    {
    }
  }

  /** The loaded start board keeps the cells no rank writes empty. */
  lemma LoadDefaultGaps()
    ensures GapsClear(LoadSpec(DEFAULT_POSITION, false).pos.board)
  {
    ScanDefault();
  }

  /** Kings and corner rooks of the start board, and no white pawn on the eighth rank. */
  lemma StartCells(b: seq<int>)
    requires StartBoard(b) && GapsClear(b)
    ensures b[116] == Colorize(WHITE, KING) && b[4] == Colorize(BLACK, KING)
    ensures b[119] == Colorize(WHITE, ROOK) && b[112] == Colorize(WHITE, ROOK)
    ensures b[7] == Colorize(BLACK, ROOK) && b[0] == Colorize(BLACK, ROOK)
    ensures forall i | 0 <= i < 16 :: b[i] != Colorize(WHITE, PAWN)
  {
    assert b[116] == PieceCode("RNBQKBNR"[4]) && b[4] == PieceCode("rnbqkbnr"[4]);
    assert b[119] == PieceCode("RNBQKBNR"[7]) && b[112] == PieceCode("RNBQKBNR"[0]);
    assert b[7] == PieceCode("rnbqkbnr"[7]) && b[0] == PieceCode("rnbqkbnr"[0]);
    forall i | 0 <= i < 8
      ensures b[i] != Colorize(WHITE, PAWN)
    {
      assert b[i] == PieceCode("rnbqkbnr"[i]);
    }
  }

  /** The state load(DEFAULT_POSITION) leaves: the start position, the text kept,
      Chess960 off, and createFen() writing the same text back. */
  predicate Started(p: Position, fen: string, frc: bool)
  {
    p == LoadSpec(DEFAULT_POSITION, false).pos && fen == DEFAULT_POSITION && !frc &&
    FenSpec(p, frc) == DEFAULT_POSITION
  }

  // ------------------------------------------------------------ createFen side

  lemma NamesOfPieces()
    ensures forall c | c in PIECES :: CharAt(PIECE_NAMES, PIECES[c]) == c
  {
  }

  /** A cell holding the piece of letter c is written as c, with nothing pending. */
  lemma PieceCell(b: seq<int>, i: int, c: char)
    requires |b| == 128 && 0 <= i <= SQUARE_H1 && c in PIECES && b[i] == PieceCode(c)
    ensures !OffBoard(i + 1) ==> BoardFrom(b, i, 0) == [c] + BoardFrom(b, i + 1, 0)
    ensures OffBoard(i + 1) ==> BoardFrom(b, i, 0) == [c] + (if i != SQUARE_H1 then "/" else "") + BoardFrom(b, i + 9, 0)
  {
    NamesOfPieces();
    assert Get(b, i) == PieceCode(c) && CharAt(PIECE_NAMES, Get(b, i)) == c;
    assert CellText(Get(b, i), 0) == [c] && Pending(Get(b, i), 0) == 0;
    assert EmptyRun(0) == "";
  }

  /** The cell after file f of rank r is off the board exactly after the h-file. */
  lemma RankCell(r: int, f: int)
    requires 0 <= r < 8 && 0 <= f <= 7
    ensures OffBoard(16 * r + f + 1) <==> f == 7
    ensures 16 * r + f <= SQUARE_H1 && (16 * r + f != SQUARE_H1 <==> r < 7 || f < 7)
    ensures f == 7 ==> 16 * r + f + 9 == 16 * r + 16
  {
  }

  /** A piece in front of a written run of cells adds its letter in front. */
  lemma PieceStep(b: seq<int>, i: int, c: char, u: string, v: string, sep: string, rest: string)
    requires |b| == 128 && 0 <= i < SQUARE_H1 && !OffBoard(i + 1) && c in PIECES && b[i] == PieceCode(c)
    requires BoardFrom(b, i + 1, 0) == u + sep + rest && v == [c] + u
    ensures BoardFrom(b, i, 0) == v + sep + rest
  {
    PieceCell(b, i, c);
    Regroup([c], u, sep, rest);
  }

  /** The piece on the h-file ends its rank. */
  lemma PieceLast(b: seq<int>, i: int, c: char, v: string, sep: string, rest: string)
    requires |b| == 128 && 0 <= i <= SQUARE_H1 && OffBoard(i + 1) && c in PIECES && b[i] == PieceCode(c)
    requires sep == (if i != SQUARE_H1 then "/" else "") && rest == BoardFrom(b, i + 9, 0) && v == [c]
    ensures BoardFrom(b, i, 0) == v + sep + rest
  {
    PieceCell(b, i, c);
  }

  /** A rank of eight pieces is written as their eight letters. */
  lemma {:induction false} PiecesText(b: seq<int>, r: int, f: int, t: string)
    requires 0 <= r < 8 && 0 <= f <= 7 && |b| == 128 && |t| == 8
    requires Spelled(b, 16 * r, t) && forall k | 0 <= k < 8 :: t[k] in PIECES
    ensures BoardFrom(b, 16 * r + f, 0) == t[f..] + (if r < 7 then "/" else "") + BoardFrom(b, 16 * r + 16, 0)
    decreases 8 - f
  {
    var i := 16 * r + f;
    var sep := if r < 7 then "/" else "";
    var rest := BoardFrom(b, 16 * r + 16, 0);
    RankCell(r, f);
    assert t[f] in PIECES && b[16 * r + f] == PieceCode(t[f]);
    if f < 7 {
      PiecesText(b, r, f + 1, t);
      PieceStep(b, i, t[f], t[f + 1..], t[f..], sep, rest);
    } else {
      PieceLast(b, i, t[f], t[f..], sep, rest);
    }
  }

  /** An empty cell adds one to the pending count, which the h-file flushes. */
  lemma EmptyCell(b: seq<int>, i: int, e: int)
    requires |b| == 128 && 0 <= i <= SQUARE_H1 && b[i] == 0
    ensures !OffBoard(i + 1) ==> BoardFrom(b, i, e) == BoardFrom(b, i + 1, e + 1)
    ensures OffBoard(i + 1) ==> BoardFrom(b, i, e) == EmptyRun(e + 1) + (if i != SQUARE_H1 then "/" else "") + BoardFrom(b, i + 9, 0)
  {
    assert Get(b, i) == 0 && CellText(0, e) == "" && Pending(0, e) == e + 1;
  }

  /** An empty cell before the h-file leaves the text of the next cell. */
  lemma EmptyStep(b: seq<int>, i: int, j: int, e: int, x: string)
    requires |b| == 128 && 0 <= i < SQUARE_H1 && j == i + 1 && !OffBoard(j) && b[i] == 0
    requires BoardFrom(b, j, e + 1) == x
    ensures BoardFrom(b, i, e) == x
  {
    EmptyCell(b, i, e);
  }

  /** An empty h-file cell after seven empty cells flushes the digit 8. */
  lemma EmptyLast(b: seq<int>, i: int, j: int, e: int)
    requires |b| == 128 && 0 <= i < SQUARE_H1 && j == i + 9 && OffBoard(i + 1) && b[i] == 0 && e == 7
    ensures BoardFrom(b, i, e) == "8" + "/" + BoardFrom(b, j, 0)
  {
    EmptyCell(b, i, e);
    assert EmptyRun(8) == "8";
  }

  lemma Regroup(x: string, y: string, z: string, w: string)
    ensures x + ((y + z) + w) == ((x + y) + z) + w
  {
  }

  /** Rank 1, the last one, is written without a separator. */
  lemma LastRankText(b: seq<int>, t: string)
    requires |b| == 128 && |t| == 8 && Spelled(b, 112, t)
    requires forall k | 0 <= k < 8 :: t[k] in PIECES
    ensures BoardFrom(b, 112, 0) == t
  {
    PiecesText(b, 7, 0, t);
    LastJoin(BoardFrom(b, 112, 0), t, BoardFrom(b, 128, 0));
  }

  /** The text of the last rank with nothing after it. */
  lemma LastJoin(x: string, t: string, y: string)
    requires x == t[0..] + "" + y && y == ""
    ensures x == t
  {
    assert t[0..] == t;
  }

  /** A rank of pieces other than the last, written from its first cell sq. */
  lemma RankText(b: seq<int>, sq: int, next: int, r: int, t: string)
    requires 0 <= r < 7 && sq == 16 * r && next == sq + 16
    requires |b| == 128 && |t| == 8 && Spelled(b, sq, t)
    requires forall k | 0 <= k < 8 :: t[k] in PIECES
    ensures BoardFrom(b, sq, 0) == t + "/" + BoardFrom(b, next, 0)
  {
    PiecesText(b, r, 0, t);
    assert t[0..] == t;
  }

  /** Empty cells before the h-file only add to the pending count. */
  lemma {:induction false} EmptyCells(b: seq<int>, sq: int, e: int, last: int, fin: int)
    requires |b| == 128 && 0 <= sq <= last < SQUARE_H1 && fin == e + (last - sq)
    requires forall k | sq < k <= last :: !OffBoard(k)
    requires forall i | sq <= i < last :: b[i] == 0
    ensures BoardFrom(b, sq, e) == BoardFrom(b, last, fin)
    decreases last - sq
  {
    if sq < last {
      EmptyCells(b, sq + 1, e + 1, last, fin);
      EmptyStep(b, sq, sq + 1, e, BoardFrom(b, last, fin));
    }
  }

  /** An empty rank other than the last, written from its first cell sq. */
  lemma EmptyRankText(b: seq<int>, sq: int, next: int, r: int)
    requires 0 <= r < 7 && sq == 16 * r && next == sq + 16
    requires |b| == 128 && forall i | sq <= i < sq + 8 :: b[i] == 0
    ensures BoardFrom(b, sq, 0) == "8" + "/" + BoardFrom(b, next, 0)
  {
    forall k | sq < k <= sq + 7
      ensures !OffBoard(k)
    {
      RankCell(r, k - sq - 1);
    }
    EmptyCells(b, sq, 0, sq + 7, 7);
    RankCell(r, 7);
    assert b[sq + 7] == 0;
    EmptyLast(b, sq + 7, next, 7);
  }

  /** Ranks 8 to 5 of the placement field. */
  lemma UpperText(b: seq<int>)
    requires StartBoard(b)
    ensures BoardFrom(b, 0, 0) == "rnbqkbnr" + "/" + BoardFrom(b, 16, 0)
    ensures BoardFrom(b, 16, 0) == "pppppppp" + "/" + BoardFrom(b, 32, 0)
    ensures BoardFrom(b, 32, 0) == "8" + "/" + BoardFrom(b, 48, 0)
    ensures BoardFrom(b, 48, 0) == "8" + "/" + BoardFrom(b, 64, 0)
  {
    RankText(b, 0, 16, 0, "rnbqkbnr");
    RankText(b, 16, 32, 1, "pppppppp");
    EmptyRankText(b, 32, 48, 2);
    EmptyRankText(b, 48, 64, 3);
  }

  /** Ranks 4 to 2 of the placement field. */
  lemma LowerText(b: seq<int>)
    requires StartBoard(b)
    ensures BoardFrom(b, 64, 0) == "8" + "/" + BoardFrom(b, 80, 0)
    ensures BoardFrom(b, 80, 0) == "8" + "/" + BoardFrom(b, 96, 0)
    ensures BoardFrom(b, 96, 0) == "PPPPPPPP" + "/" + BoardFrom(b, 112, 0)
  {
    EmptyRankText(b, 64, 80, 4);
    EmptyRankText(b, 80, 96, 5);
    RankText(b, 96, 112, 6, "PPPPPPPP");
  }

  /** Rank 1 of the placement field. */
  lemma BackRankText(b: seq<int>)
    requires StartBoard(b)
    ensures BoardFrom(b, 112, 0) == "RNBQKBNR"
  {
    LastRankText(b, "RNBQKBNR");
  }

  /** createFen()'s placement field on the start board is the start text's. */
  lemma PlacementText(b: seq<int>)
    requires StartBoard(b)
    ensures BoardFrom(b, 0, 0) == START_PLACEMENT
  {
    UpperText(b);
    LowerText(b);
    BackRankText(b);
    PlacementJoin(BoardFrom(b, 0, 0), BoardFrom(b, 16, 0), BoardFrom(b, 32, 0), BoardFrom(b, 48, 0),
      BoardFrom(b, 64, 0), BoardFrom(b, 80, 0), BoardFrom(b, 96, 0), BoardFrom(b, 112, 0));
  }

  /** The eight rank texts joined by separators. */
  lemma PlacementJoin(b0: string, b16: string, b32: string, b48: string, b64: string,
                      b80: string, b96: string, b112: string)
    requires b0 == "rnbqkbnr" + "/" + b16 && b16 == "pppppppp" + "/" + b32
    requires b32 == "8" + "/" + b48 && b48 == "8" + "/" + b64 && b64 == "8" + "/" + b80
    requires b80 == "8" + "/" + b96 && b96 == "PPPPPPPP" + "/" + b112 && b112 == "RNBQKBNR"
    ensures b0 == START_PLACEMENT
  {
    var x1 := "rnbqkbnr" + "/";
    Regroup(x1, "pppppppp", "/", b32);
    var x2 := x1 + "pppppppp" + "/";
    Regroup(x2, "8", "/", b48);
    var x3 := x2 + "8" + "/";
    Regroup(x3, "8", "/", b64);
    var x4 := x3 + "8" + "/";
    Regroup(x4, "8", "/", b80);
    var x5 := x4 + "8" + "/";
    Regroup(x5, "8", "/", b96);
    var x6 := x5 + "8" + "/";
    Regroup(x6, "PPPPPPPP", "/", b112);
  }

  /** The FEN round trip on the start position: load(DEFAULT_POSITION), then
      createFen() writes DEFAULT_POSITION again, with or without Chess960 set before. */
  lemma DefaultRoundTrip(frc: bool)
    ensures var l := LoadSpec(DEFAULT_POSITION, frc);
      FenSpec(l.pos, l.frc) == DEFAULT_POSITION && l.fen == DEFAULT_POSITION
  {
    LoadDefault(frc);
    var l := LoadSpec(DEFAULT_POSITION, frc);
    PlacementText(l.pos.board);
    assert CastleText([119, 112, 7, 0], false) == "KQkq";
    assert EpText(EMPTY) == "-";
    assert IntText(0) == "0" && IntText(1) == "1";
    assert [ColorText(WHITE)] == "w";
  }
}
