// Standard Algebraic Notation (section 8.2.3 of the PGN standard) and UCI
// coordinate moves: production, parsing, and the properties linking them.

module Notation {
  import opened Tables
  import opened Squares
  import opened Moves
  import opened San

  // --------------------------------------------------------- disambiguation

  /** Another move of the same piece type, from another square, to the same square. */
  predicate Ambiguous(m: Move, m2: Move)
  {
    Type(m.piece) == Type(m2.piece) && m.from != m2.from && m.to == m2.to
  }

  /** The three counters of disambiguate(). */
  datatype Ambiguity = Ambiguity(count: nat, sameRank: nat, sameFile: nat)

  /** The counters after scanning `moves` in order. */
  function Ambiguities(m: Move, moves: seq<Move>): (a: Ambiguity)
    ensures a.sameRank <= a.count && a.sameFile <= a.count
    ensures a.count == 0 <==> forall m2 | m2 in moves :: !Ambiguous(m, m2)
    ensures a.sameFile == 0 ==> forall m2 | m2 in moves && Ambiguous(m, m2) :: File(m2.from) != File(m.from)
    ensures a.sameRank == 0 ==> forall m2 | m2 in moves && Ambiguous(m, m2) :: Rank(m2.from) != Rank(m.from)
  {
    if moves == [] then Ambiguity(0, 0, 0)
    else
      var front := moves[..|moves| - 1];
      var m2 := moves[|moves| - 1];
      assert moves == front + [m2];
      var a := Ambiguities(m, front);
      if Ambiguous(m, m2) then
        Ambiguity(a.count + 1,
          a.sameRank + (if Rank(m.from) == Rank(m2.from) then 1 else 0),
          a.sameFile + (if File(m.from) == File(m2.from) then 1 else 0))
      else a
  }

  /** disambiguate(move, moves): nothing, the from-file, the from-rank or the whole from-square. */
  function Disambiguation(m: Move, moves: seq<Move>): (r: string)
    ensures r == "" <==> forall m2 | m2 in moves :: !Ambiguous(m, m2)
    ensures |r| <= 2
  {
    var a := Ambiguities(m, moves);
    if a.count == 0 then ""
    else
      var an := SquareToAn(m.from, false);
      if a.sameRank > 0 && a.sameFile > 0 then an
      else
        var pos := if a.sameFile > 0 then 1 else 0;
        an[pos..pos + 1]
  }

  /** The letter naming a square's file and the digit naming its rank. */
  function FileName(sq: int): string { SquareToAn(sq, false)[..1] }
  function RankName(sq: int): string { SquareToAn(sq, false)[1..] }

  /**
   * The disambiguator tells the move apart from every ambiguous one: it is the
   * from-file when no ambiguous move shares it, else the from-rank when none
   * shares that, else the whole from-square.
   */
  lemma DisambiguationIdentifies(m: Move, moves: seq<Move>, m2: Move)
    requires m2 in moves && Ambiguous(m, m2)
    ensures var r := Disambiguation(m, moves);
      (r == FileName(m.from) && File(m2.from) != File(m.from)) ||
      (r == RankName(m.from) && Rank(m2.from) != Rank(m.from)) ||
      r == SquareToAn(m.from, false)
  {
  }

  /** disambiguate(move, moves): the counting loop over the listed moves. */
  method Disambiguate(m: Move, moves: seq<Move>) returns (r: string)
    ensures r == Disambiguation(m, moves)
  {
    var ambiguities, sameRank, sameFile := 0, 0, 0;
    for k := 0 to |moves|
      invariant Ambiguities(m, moves[..k]) == Ambiguity(ambiguities, sameRank, sameFile)
    {
      var m2 := moves[k];
      assert moves[..k + 1][..k] == moves[..k];
      if Type(m.piece) == Type(m2.piece) && m.from != m2.from && m.to == m2.to {
        ambiguities := ambiguities + 1;
        if Rank(m.from) == Rank(m2.from) {
          sameRank := sameRank + 1;
        }
        if File(m.from) == File(m2.from) {
          sameFile := sameFile + 1;
        }
      }
    }
    assert moves[..|moves|] == moves;
    if ambiguities == 0 {
      return "";
    }
    var an := SquareToAn(m.from, false);
    if sameRank > 0 && sameFile > 0 {
      return an;
    }
    var pos := if sameFile > 0 then 1 else 0;
    r := an[pos..pos + 1];
  }

  // ------------------------------------------------------------------ SAN

  /** Whether flags mark a capture, en passant included. */
  predicate Captures(flags: int)
  {
    HasBit(flags, BITS_CAPTURE) || HasBit(flags, BITS_EP_CAPTURE)
  }

  /** The SAN body before the destination: piece letter and disambiguator, or a pawn's file. */
  function SanPrefix(m: Move, moves: seq<Move>): string
  {
    var typ := Type(m.piece);
    var piece := if typ != PAWN then [CharAt(PIECE_UPPER, typ)] + Disambiguation(m, moves) else "";
    if Captures(m.flags) then piece + (if typ == PAWN then [SquareToAn(m.from, false)[0]] else "") + "x"
    else piece
  }

  /** moveToSan(move, moves): castles as O-O / O-O-O, else prefix, target, promotion. */
  function SanOf(m: Move, moves: seq<Move>): string
  {
    if HasBit(m.flags, BITS_KSIDE_CASTLE) then "O-O"
    else if HasBit(m.flags, BITS_QSIDE_CASTLE) then "O-O-O"
    else
      var body := SanPrefix(m, moves) + SquareToAn(m.to, false);
      if HasBit(m.flags, BITS_PROMOTION) then body + "=" + [CharAt(PIECE_UPPER, m.promote)] else body
  }

  /** moveToSan(move, moves), written out piece by piece. */
  method MoveToSan(m: Move, moves: seq<Move>) returns (output: string)
    ensures output == SanOf(m, moves)
  {
    if HasBit(m.flags, BITS_KSIDE_CASTLE) {
      return "O-O";
    }
    if HasBit(m.flags, BITS_QSIDE_CASTLE) {
      return "O-O-O";
    }
    var disambiguator := Disambiguate(m, moves);
    var typ := Type(m.piece);
    output := "";
    if typ != PAWN {
      output := [CharAt(PIECE_UPPER, typ)] + disambiguator;
    }
    if Captures(m.flags) {
      if typ == PAWN {
        output := output + [SquareToAn(m.from, false)[0]];
      }
      output := output + "x";
    }
    assert output == SanPrefix(m, moves);
    output := output + SquareToAn(m.to, false);
    if HasBit(m.flags, BITS_PROMOTION) {
      output := output + "=" + [CharAt(PIECE_UPPER, m.promote)];
    }
  }

  /** What a SAN looks like, for each kind of move. */
  lemma SanShape(m: Move, moves: seq<Move>)
    ensures var s := SanOf(m, moves);
      var typ := Type(m.piece);
      var d := Disambiguation(m, moves);
      var castle := IsCastle(m.flags);
      (HasBit(m.flags, BITS_KSIDE_CASTLE) ==> s == "O-O") &&
      (HasBit(m.flags, BITS_QSIDE_CASTLE) && !HasBit(m.flags, BITS_KSIDE_CASTLE) ==> s == "O-O-O") &&
      (!castle && typ != PAWN ==> |s| >= 3 + |d| && s[..1 + |d|] == [CharAt(PIECE_UPPER, typ)] + d) &&
      (!castle && typ == PAWN && Captures(m.flags) ==> |s| >= 4 && s[0] == SquareToAn(m.from, false)[0] && s[1] == 'x') &&
      (!castle && typ == PAWN && !Captures(m.flags) ==> s[..2] == SquareToAn(m.to, false)) &&
      (!castle && HasBit(m.flags, BITS_PROMOTION) ==> |s| >= 4 && s[|s| - 2..] == ['=', CharAt(PIECE_UPPER, m.promote)]) &&
      (!castle && !HasBit(m.flags, BITS_PROMOTION) ==> |s| >= 2 && s[|s| - 2..] == SquareToAn(m.to, false))
  {
    var s := SanOf(m, moves);
    if !IsCastle(m.flags) {
      var pre := SanPrefix(m, moves);
      var body := pre + SquareToAn(m.to, false);
      assert body[..|pre|] == pre;
      if HasBit(m.flags, BITS_PROMOTION) {
        assert s == body + "=" + [CharAt(PIECE_UPPER, m.promote)];
        assert s[..|body|] == body;
      } else {
        assert s == body;
      }
      assert s[..|pre|] == pre;
    }
  }

  /** An 'x' appears in a non-castling SAN exactly when the move captures. */
  lemma SanCaptureMark(m: Move, moves: seq<Move>)
    requires !IsCastle(m.flags)
    requires OnBoard(m.from) && OnBoard(m.to)
    ensures Captures(m.flags) <==> 'x' in SanPrefix(m, moves)
    ensures SanOf(m, moves)[|SanPrefix(m, moves)|..][..2] == SquareToAn(m.to, false)
  {
    var typ := Type(m.piece);
    var d := Disambiguation(m, moves);
    if typ != PAWN {
      assert 0 <= typ < 8;
      var c := CharAt(PIECE_UPPER, typ);
      assert c != 'x' by {
        assert PIECE_UPPER[typ] in " PNBRQK";
      }
      assert forall k | 0 <= k < |d| :: d[k] != 'x';
    }
    var pre := SanPrefix(m, moves);
    var body := pre + SquareToAn(m.to, false);
    if HasBit(m.flags, BITS_PROMOTION) {
      assert SanOf(m, moves) == body + ("=" + [CharAt(PIECE_UPPER, m.promote)]);
    }
  }

  // ---------------------------------------------------------------- parsing

  /** The cleaned SAN of every listed move, in order. */
  function CleanSans(moves: seq<Move>): (r: seq<string>)
    ensures |r| == |moves|
  {
    seq(|moves|, j requires 0 <= j < |moves| => CleanSanSpec(SanOf(moves[j], moves)))
  }

  /** Index of the first entry from k on equal to `clean`, or -1. */
  function FirstExact(clean: string, sans: seq<string>, k: nat): (r: int)
    requires k <= |sans|
    ensures r == -1 || k <= r < |sans|
    ensures r >= 0 ==> sans[r] == clean
    ensures forall j | k <= j < |sans| && (r < 0 || j < r) :: sans[j] != clean
    decreases |sans| - k
  {
    if k == |sans| then -1
    else if sans[k] == clean then k
    else FirstExact(clean, sans, k + 1)
  }

  /** What the sloppy parser reads from a cleaned SAN: target, piece type, from-file,
      from-rank and promotion (0 or -1 when absent). */
  datatype SloppyKey = SloppyKey(to: int, typ: int, fromFile: int, fromRank: int, promote: int)

  /** strchr("bnrqBNRQ", c), which also matches the terminating NUL. */
  predicate IsPromotionLetter(c: char)
  {
    c in "bnrqBNRQ" || c == '\0'
  }

  /** The sloppy parser: read backwards promotion, target rank and file, an 'x',
      from-rank, from-file and piece letter. */
  function SloppyParse(clean: string): Option<SloppyKey>
  {
    var i0 := |clean| - 1;
    if i0 < 2 then None
    else
      var promo := IsPromotionLetter(clean[i0]);
      var promote := if promo then Type(PieceCode(clean[i0])) else 0;
      var i1 := if promo then i0 - 1 else i0;
      if !('1' <= clean[i1] <= '8') then None
      else if !('a' <= clean[i1 - 1] <= 'j') then None
      else
        var to := (clean[i1 - 1] as int - 'a' as int) + ('8' as int - clean[i1] as int) * 16;
        var i2 := i1 - 2;
        var i3 := if i2 >= 0 && clean[i2] == 'x' then i2 - 1 else i2;
        var rankHere := i3 >= 0 && '1' <= clean[i3] <= '8';
        var fromRank := if rankHere then '8' as int - clean[i3] as int else -1;
        var i4 := if rankHere then i3 - 1 else i3;
        var fileHere := i4 >= 0 && 'a' <= clean[i4] <= 'j';
        var fromFile := if fileHere then clean[i4] as int - 'a' as int else -1;
        var i5 := if fileHere then i4 - 1 else i4;
        Some(SloppyKey(to, Type(PieceCode(CharAt(clean, i5))), fromFile, fromRank, promote))
  }

  /** A move agrees with everything the sloppy parser read. */
  predicate SloppyMatches(key: SloppyKey, m: Move)
  {
    key.to == m.to &&
    (key.typ == 0 || key.typ == Type(m.piece)) &&
    (key.fromFile < 0 || key.fromFile == File(m.from)) &&
    (key.fromRank < 0 || key.fromRank == Rank(m.from)) &&
    (key.promote == 0 || key.promote == m.promote)
  }

  /** Index of the first move that the key matches, or -1. */
  function FirstSloppy(key: SloppyKey, moves: seq<Move>, k: nat): (r: int)
    requires k <= |moves|
    ensures r == -1 || k <= r < |moves|
    ensures r >= 0 ==> SloppyMatches(key, moves[r])
    ensures forall j | k <= j < |moves| && (r < 0 || j < r) :: !SloppyMatches(key, moves[j])
    decreases |moves| - k
  {
    if k == |moves| then -1
    else if SloppyMatches(key, moves[k]) then k
    else FirstSloppy(key, moves, k + 1)
  }

  function WithText(m: Move, text: string): Move
  {
    Move(m.capture, m.flags, m.from, text, m.piece, m.promote, m.to)
  }

  /** sanToMove(san, moves, sloppy): the first exact match (carrying the text given),
      else with sloppy set the first move the sloppy key fits (carrying its own SAN),
      else NULL_MOVE. */
  function SanToMoveSpec(san: string, moves: seq<Move>, sloppy: bool): Move
  {
    var clean := CleanSanSpec(san);
    var e := FirstExact(clean, CleanSans(moves), 0);
    if e >= 0 then WithText(moves[e], san)
    else if !sloppy then NULL_MOVE
    else match SloppyParse(clean)
      case None => NULL_MOVE
      case Some(key) =>
        var s := FirstSloppy(key, moves, 0);
        if s >= 0 then WithText(moves[s], SanOf(moves[s], moves)) else NULL_MOVE
  }

  /** The backward analysis of the sloppy parser. */
  method ParseSloppy(clean: string) returns (key: Option<SloppyKey>)
    ensures key == SloppyParse(clean)
  {
    var fromFile, fromRank, i := -1, -1, |clean| - 1;
    var promote := 0;
    if i < 2 {
      return None;
    }
    if IsPromotionLetter(clean[i]) {
      promote := Type(PieceCode(clean[i]));
      i := i - 1;
    }
    if clean[i] < '1' || clean[i] > '8' {
      return None;
    }
    i := i - 1;
    if clean[i] < 'a' || clean[i] > 'j' {
      return None;
    }
    var to := (clean[i] as int - 'a' as int) + ('8' as int - clean[i + 1] as int) * 16;
    i := i - 1;
    if i >= 0 && clean[i] == 'x' {
      i := i - 1;
    }
    if i >= 0 && '1' <= clean[i] <= '8' {
      fromRank := '8' as int - clean[i] as int;
      i := i - 1;
    }
    if i >= 0 && 'a' <= clean[i] <= 'j' {
      fromFile := clean[i] as int - 'a' as int;
      i := i - 1;
    }
    var typ := Type(PieceCode(CharAt(clean, i)));
    return Some(SloppyKey(to, typ, fromFile, fromRank, promote));
  }

  /** sanToMove(san, moves, sloppy): the exact loop, then the sloppy one. */
  method SanToMove(san: string, moves: seq<Move>, sloppy: bool) returns (r: Move)
    ensures r == SanToMoveSpec(san, moves, sloppy)
  {
    var clean := CleanSan(san);
    var e := ExactIndex(clean, moves);
    if e >= 0 {
      return WithText(moves[e], san);
    }
    if !sloppy {
      return NULL_MOVE;
    }
    var key := ParseSloppy(clean);
    if key.None? {
      return NULL_MOVE;
    }
    var k := SloppyIndex(key.value, moves);
    if k < 0 {
      return NULL_MOVE;
    }
    var text := MoveToSan(moves[k], moves);
    r := WithText(moves[k], text);
  }

  /** The exact loop: the first move whose cleaned SAN is `clean`. */
  method ExactIndex(clean: string, moves: seq<Move>) returns (e: int)
    ensures e == FirstExact(clean, CleanSans(moves), 0)
  {
    ghost var sans := CleanSans(moves);
    for k := 0 to |moves|
      invariant forall j | 0 <= j < k :: sans[j] != clean
    {
      var text := MoveToSan(moves[k], moves);
      var c := CleanSan(text);
      assert c == sans[k];
      if clean == c {
        return k;
      }
    }
    return -1;
  }

  /** The sloppy loop: the first move the parsed key fits. */
  method SloppyIndex(key: SloppyKey, moves: seq<Move>) returns (s: int)
    ensures s == FirstSloppy(key, moves, 0)
  {
    for k := 0 to |moves|
      invariant forall j | 0 <= j < k :: !SloppyMatches(key, moves[j])
    {
      if key.to == moves[k].to && (key.typ == 0 || key.typ == Type(moves[k].piece)) &&
        (key.fromFile < 0 || key.fromFile == File(moves[k].from)) &&
        (key.fromRank < 0 || key.fromRank == Rank(moves[k].from)) &&
        (key.promote == 0 || key.promote == moves[k].promote)
      {
        return k;
      }
    }
    return -1;
  }

  /**
   * Reading back the SAN of a listed move finds a move with the same cleaned
   * SAN: the first such one, which is the move itself if no earlier move shares it.
   */
  lemma SanRoundTrip(moves: seq<Move>, k: nat, sloppy: bool)
    requires k < |moves|
    ensures var sans := CleanSans(moves);
      var r := SanToMoveSpec(SanOf(moves[k], moves), moves, sloppy);
      var e := FirstExact(sans[k], sans, 0);
      0 <= e <= k && r == WithText(moves[e], SanOf(moves[k], moves)) && sans[e] == sans[k]
    ensures var sans := CleanSans(moves);
      (forall j | 0 <= j < k :: sans[j] != sans[k]) ==>
      SanToMoveSpec(SanOf(moves[k], moves), moves, sloppy) == WithText(moves[k], SanOf(moves[k], moves))
  {
    var sans := CleanSans(moves);
    var san := SanOf(moves[k], moves);
    assert CleanSanSpec(san) == sans[k];
    FirstExactFinds(sans[k], sans, k);
  }

  /** An entry equal to `clean` at k means the first match is at k or before. */
  lemma FirstExactFinds(clean: string, sans: seq<string>, k: nat)
    requires k < |sans| && sans[k] == clean
    ensures 0 <= FirstExact(clean, sans, 0) <= k && sans[FirstExact(clean, sans, 0)] == clean
    ensures (forall j | 0 <= j < k :: sans[j] != clean) ==> FirstExact(clean, sans, 0) == k
  {
  }

  /** A result other than NULL_MOVE is one of the listed moves with its text set;
      with the sloppy parser off, text that matches no SAN gives NULL_MOVE. */
  lemma SanToMoveResult(san: string, moves: seq<Move>, sloppy: bool)
    ensures var r := SanToMoveSpec(san, moves, sloppy);
      r == NULL_MOVE || exists j | 0 <= j < |moves| :: r == WithText(moves[j], r.m)
    ensures !sloppy && (forall j | 0 <= j < |moves| :: CleanSans(moves)[j] != CleanSanSpec(san)) ==>
      SanToMoveSpec(san, moves, sloppy) == NULL_MOVE
  {
    var r := SanToMoveSpec(san, moves, sloppy);
    var clean := CleanSanSpec(san);
    var e := FirstExact(clean, CleanSans(moves), 0);
    if e >= 0 {
      assert r == WithText(moves[e], r.m);
    } else if sloppy && SloppyParse(clean).Some? {
      var s := FirstSloppy(SloppyParse(clean).value, moves, 0);
      if s >= 0 {
        assert r == WithText(moves[s], r.m);
      }
    }
  }

  // ------------------------------------------------------------------ UCI

  /** ucify(move): from-square, to-square, and the lower-case promotion letter. */
  function UciOf(m: Move): string
  {
    SquareToAn(m.from, false) + SquareToAn(m.to, false) +
    (if m.promote != 0 then [CharAt(PIECE_LOWER, m.promote)] else "")
  }

  /** The squares and promotion moveUci reads from its text (text[4] is the
      terminating NUL for a four-letter move). */
  function UciFrom(text: string): int { AnToSquare(text[..Min(2, |text|)]) }
  function UciTo(text: string): int
    requires |text| >= 2
  { AnToSquare(text[2..Min(4, |text|)]) }
  function UciPromote(text: string): int { PieceCode(CharAt(text, 4)) }

  function Min(a: int, b: int): int { if a <= b then a else b }

  /** A move between playing squares, written by ucify, is read back by moveUci
      as the same squares and the same promotion type. */
  lemma UciRoundTrip(m: Move)
    requires OnBoard(m.from) && OnBoard(m.to)
    requires m.promote == 0 || KNIGHT <= m.promote <= QUEEN
    ensures var text := UciOf(m);
      |text| == (if m.promote == 0 then 4 else 5) &&
      UciFrom(text) == m.from && UciTo(text) == m.to && Type(UciPromote(text)) == m.promote
  {
    var text := UciOf(m);
    SquareRoundTrip(m.from);
    SquareRoundTrip(m.to);
    assert text[..2] == SquareToAn(m.from, false);
    assert text[2..4] == SquareToAn(m.to, false);
    if m.promote != 0 {
      assert text[4] == PIECE_LOWER[m.promote];
    }
  }

  lemma UciExamples()
    ensures UciOf(Move(0, BITS_BIG_PAWN, 98, "", PAWN, 0, 66)) == "c2c4"
    ensures UciOf(Move(0, BITS_PROMOTION, 16, "", PAWN, QUEEN, 0)) == "a7a8q"
  {
  }
}
