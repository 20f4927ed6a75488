// Moves given as SAN, as a from/to object or as UCI text, played on the engine
// state: the legal move search, the match, the move made, and the check and
// mate decorators; and the move lists multiSan and multiUci read from one text.

module Play {
  import opened Tables
  import opened Squares
  import opened Moves
  import opened Rules
  import opened MoveGen
  import opened Notation
  import opened Fen

  // -------------------------------------------------------------- decorators

  /** The side to move is in check. */
  predicate InCheck(p: Position)
  {
    KingAttacked(p, p.turn)
  }

  /** Some generated move leaves the mover's king unattacked. */
  predicate HasLegalMove(p: Position, frc: bool)
  {
    exists m | m in PseudoMoves(p, frc, false) :: Safe(p, p.turn, m)
  }

  /** decorateMove: a text that does not already end in '+' or '#' gains '+' when
      the side to move is in check and has a legal move, '#' when it has none; the
      search runs createMoves(frc, true, false) on the state. */
  function Decorate(g: Game, frc: bool, text: string): (r: (Game, string))
    requires g.pos.ply >= -1
    ensures r.0.pos.ply == g.pos.ply
  {
    var last := CharAt(text, |text| - 1);
    if last != '+' && last != '#' && KingAttacked(g.pos, g.pos.turn) then
      var lm := LegalMoves(g, frc, false);
      (lm.0, text + (if |lm.1| > 0 then "+" else "#"))
    else (g, text)
  }

  /**
   * From a consistent position the decorator leaves the position as it was, and
   * marks check with '+' and checkmate with '#'.
   */
  lemma DecorateMeans(g: Game, frc: bool, text: string)
    requires Consistent(g.pos) && g.pos.ply >= -1
    ensures var r := Decorate(g, frc, text);
      var last := CharAt(text, |text| - 1);
      r.0.pos == g.pos &&
      (last == '+' || last == '#' || !InCheck(g.pos) ==> r.1 == text) &&
      (last != '+' && last != '#' && InCheck(g.pos) ==>
        r.1 == text + (if HasLegalMove(g.pos, frc) then "+" else "#"))
  {
    var last := CharAt(text, |text| - 1);
    if last != '+' && last != '#' && InCheck(g.pos) {
      var lm := LegalMoves(g, frc, false);
      LegalMovesAreSafe(g, frc, false);
      if |lm.1| > 0 {
        assert lm.1[0] in lm.1;
      }
      if HasLegalMove(g.pos, frc) {
        var m :| m in PseudoMoves(g.pos, frc, false) && Safe(g.pos, g.pos.turn, m);
        assert m in lm.1;
      }
    }
  }

  // ------------------------------------------------------------ single moves

  /** Make the move found (a piece code of 0 means none was), then decorate its
      text on request. */
  function PlayFound(g: Game, frc: bool, m: Move, decorate: bool): (r: (Game, Move))
    requires g.pos.ply >= -1
    ensures m.piece == 0 ==> r == (g, m)
    ensures m.piece != 0 ==> r.0.pos.ply == g.pos.ply + 1 && r.1 == WithText(m, r.1.m)
  {
    if m.piece == 0 then (g, m)
    else
      var g1 := MoveRawGame(g, m);
      if decorate then
        var d := Decorate(g1, frc, m.m);
        (d.0, WithText(m, d.1))
      else (g1, m)
  }

  /** moveSan(text, frc, decorate, sloppy): the legal moves, the SAN read against
      them, and the move made. `frcField` is the engine's own Chess960 flag, which
      the decorator's search uses. */
  function MoveSanSpec(g: Game, text: string, frc: bool, frcField: bool, decorate: bool, sloppy: bool): (r: (Game, Move))
    requires g.pos.ply >= -1
  {
    var lm := LegalMoves(g, frc, false);
    PlayFound(lm.0, frcField, SanToMoveSpec(text, lm.1, sloppy), decorate)
  }

  /** A move found is one of the legal moves, text apart, and it is made; when none
      is found the position stays as it was. */
  lemma MoveSanPlaysLegal(g: Game, text: string, frc: bool, frcField: bool, decorate: bool, sloppy: bool)
    requires Consistent(g.pos) && g.pos.ply >= -1
    ensures var r := MoveSanSpec(g, text, frc, frcField, decorate, sloppy);
      (r.1.piece == 0 ==> r.0.pos == g.pos) &&
      (r.1.piece != 0 ==> LegalText(g.pos, frc, r.1)) &&
      (r.1.piece != 0 && !decorate ==> r.0.pos == MakePos(g.pos, r.1))
  {
    var lm := LegalMoves(g, frc, false);
    LegalMovesAreSafe(g, frc, false);
    var m := SanToMoveSpec(text, lm.1, sloppy);
    SanToMoveResult(text, lm.1, sloppy);
    if m.piece != 0 {
      var j :| 0 <= j < |lm.1| && m == WithText(lm.1[j], m.m);
      assert lm.1[j] in lm.1;
      WithTextAgain(lm.1[j], m.m, PlayFound(lm.0, frcField, m, decorate).1.m);
    }
  }

  /** The move, whatever its text, is a generated move that leaves the mover's king safe. */
  predicate LegalText(p: Position, frc: bool, m: Move)
  {
    exists m2 | m2 in PseudoMoves(p, frc, false) :: Safe(p, p.turn, m2) && m == WithText(m2, m.m)
  }

  lemma WithTextAgain(m: Move, t1: string, t2: string)
    ensures WithText(WithText(m, t1), t2) == WithText(m, t2)
  {
  }

  /** The castle flag moveObject looks for in Chess960: a king move onto a castling
      rook's square or two files over; 0 otherwise. */
  function ObjectFlags(p: Position, frc: bool, move: Move): (flags: int)
    ensures flags == 0 || flags == BITS_KSIDE_CASTLE || flags == BITS_QSIDE_CASTLE
    ensures flags != 0 ==> frc && move.from == Get(p.kings, p.turn)
  {
    if frc && move.from == Get(p.kings, p.turn) then
      if move.to == Get(p.castling, p.turn * 2) || move.to == move.from + 2 then BITS_KSIDE_CASTLE
      else if move.to == Get(p.castling, p.turn * 2 + 1) || move.to == move.from - 2 then BITS_QSIDE_CASTLE
      else 0
    else 0
  }

  /** With a castle flag, a listed move with that flag; otherwise one with the same
      from and to squares and, when it promotes, the same promotion type. */
  predicate ObjectMatches(move: Move, flags: int, m2: Move)
  {
    if flags > 0 then HasBit(m2.flags, flags)
    else move.from == m2.from && move.to == m2.to && (m2.promote == 0 || Type(move.promote) == m2.promote)
  }

  /** Index of the first listed move from k on that matches, or -1. */
  function FirstObject(move: Move, flags: int, moves: seq<Move>, k: nat): (r: int)
    requires k <= |moves|
    ensures r == -1 || k <= r < |moves|
    ensures r >= 0 ==> ObjectMatches(move, flags, moves[r])
    ensures forall j | k <= j < |moves| && (r < 0 || j < r) :: !ObjectMatches(move, flags, moves[j])
    decreases |moves| - k
  {
    if k == |moves| then -1
    else if ObjectMatches(move, flags, moves[k]) then k
    else FirstObject(move, flags, moves, k + 1)
  }

  /** moveObject(move, frc, decorate): the first matching legal move, carrying its
      SAN, is made; NULL_MOVE when none matches. */
  function MoveObjectSpec(g: Game, move: Move, frc: bool, frcField: bool, decorate: bool): (r: (Game, Move))
    requires g.pos.ply >= -1
  {
    var lm := LegalMoves(g, frc, false);
    var k := FirstObject(move, ObjectFlags(lm.0.pos, frc, move), lm.1, 0);
    var found := if k >= 0 then WithText(lm.1[k], SanOf(lm.1[k], lm.1)) else NULL_MOVE;
    PlayFound(lm.0, frcField, found, decorate)
  }

  /** The move made is a legal move that matches the request, and carries its SAN
      (before any decorator) unless decorated. */
  lemma MoveObjectPlaysLegal(g: Game, move: Move, frc: bool, frcField: bool, decorate: bool)
    requires Consistent(g.pos) && g.pos.ply >= -1
    ensures var r := MoveObjectSpec(g, move, frc, frcField, decorate);
      var flags := ObjectFlags(g.pos, frc, move);
      (r.1.piece == 0 ==> r.0.pos == g.pos) &&
      (r.1.piece != 0 ==> LegalText(g.pos, frc, r.1) && ObjectMatches(move, flags, r.1)) &&
      (r.1.piece != 0 && !decorate ==>
        r.0.pos == MakePos(g.pos, r.1) && r.1.m == SanOf(WithText(r.1, ""), LegalMoves(g, frc, false).1))
  {
    var lm := LegalMoves(g, frc, false);
    LegalMovesAreSafe(g, frc, false);
    var flags := ObjectFlags(g.pos, frc, move);
    assert flags == ObjectFlags(lm.0.pos, frc, move);
    var k := FirstObject(move, flags, lm.1, 0);
    var r := MoveObjectSpec(g, move, frc, frcField, decorate);
    if k >= 0 {
      var m2 := lm.1[k];
      assert r == PlayFound(lm.0, frcField, WithText(m2, SanOf(m2, lm.1)), decorate);
      assert m2 in lm.1 && m2 == WithText(m2, m2.m);
      assert LegalText(g.pos, frc, m2);
      FoundPlayed(lm.0, frc, frcField, decorate, m2, lm.1, move, flags);
    } else {
      assert r == PlayFound(lm.0, frcField, NULL_MOVE, decorate);
    }
  }

  /** Playing a legal, matching move found in `moves`, with its SAN against them as its text. */
  lemma FoundPlayed(g: Game, frc: bool, frcField: bool, decorate: bool, m2: Move, moves: seq<Move>, move: Move, flags: int)
    requires g.pos.ply >= -1 && LegalText(g.pos, frc, m2) && ObjectMatches(move, flags, m2)
    ensures var r := PlayFound(g, frcField, WithText(m2, SanOf(m2, moves)), decorate);
      (r.1.piece == 0 ==> r.0.pos == g.pos) &&
      (r.1.piece != 0 ==> LegalText(g.pos, frc, r.1) && ObjectMatches(move, flags, r.1)) &&
      (r.1.piece != 0 && !decorate ==> r.0.pos == MakePos(g.pos, r.1) && r.1.m == SanOf(WithText(r.1, ""), moves))
  {
    var found := WithText(m2, SanOf(m2, moves));
    var r := PlayFound(g, frcField, found, decorate);
    LegalTextAgain(g.pos, frc, m2, r.1.m);
    WithTextAgain(m2, found.m, r.1.m);
    WithTextAgain(m2, r.1.m, "");
    SanIgnoresText(m2, "", moves);
  }

  /** Legality, text apart, survives a change of text. */
  lemma LegalTextAgain(p: Position, frc: bool, m: Move, t: string)
    requires LegalText(p, frc, m)
    ensures LegalText(p, frc, WithText(m, t))
  {
    var m2 :| m2 in PseudoMoves(p, frc, false) && Safe(p, p.turn, m2) && m == WithText(m2, m.m);
    WithTextAgain(m2, m.m, t);
  }

  /** The SAN of a move does not depend on the move's own text. */
  lemma SanIgnoresText(m: Move, t: string, moves: seq<Move>)
    ensures SanOf(WithText(m, t), moves) == SanOf(m, moves)
  {
    var m1 := WithText(m, t);
    AmbiguitiesIgnoreText(m, m1, moves);
    assert Disambiguation(m1, moves) == Disambiguation(m, moves);
    assert SanPrefix(m1, moves) == SanPrefix(m, moves);
  }

  lemma {:induction false} AmbiguitiesIgnoreText(m: Move, m1: Move, moves: seq<Move>)
    requires m1 == WithText(m, m1.m)
    ensures Ambiguities(m1, moves) == Ambiguities(m, moves)
    decreases |moves|
  {
    if moves != [] {
      AmbiguitiesIgnoreText(m, m1, moves[..|moves| - 1]);
    }
  }

  /** The request moveUci builds from its text: from-square, to-square and the piece
      code of the fifth character (the string's terminating NUL for four letters). */
  function UciRequest(text: string): Move
    requires |text| >= 2
  {
    Move(0, 0, UciFrom(text), "", 0, UciPromote(text), UciTo(text))
  }

  /** moveUci(text, frc, decorate). */
  function MoveUciSpec(g: Game, text: string, frc: bool, frcField: bool, decorate: bool): (r: (Game, Move))
    requires g.pos.ply >= -1 && |text| >= 2
  {
    MoveObjectSpec(g, UciRequest(text), frc, frcField, decorate)
  }

  /** The UCI text ucify writes for a legal move selects, in standard chess, a legal
      move with the same squares, and the same promotion when it promotes. */
  lemma UciSelectsMove(g: Game, frcField: bool, m: Move)
    requires g.pos.ply >= -1
    requires OnBoard(m.from) && OnBoard(m.to) && (m.promote == 0 || KNIGHT <= m.promote <= QUEEN)
    requires m in LegalMoves(g, false, false).1
    ensures var r := MoveUciSpec(g, UciOf(m), false, frcField, false);
      r.1.from == m.from && r.1.to == m.to && (r.1.promote == 0 || r.1.promote == m.promote)
  {
    var req := UciRequest(UciOf(m));
    UciRequestMatches(m);
    var lm := LegalMoves(g, false, false);
    FirstObjectFinds(req, lm.1, m);
  }

  /** The request read from a move's UCI text matches the move and asks for its promotion. */
  lemma UciRequestMatches(m: Move)
    requires OnBoard(m.from) && OnBoard(m.to) && (m.promote == 0 || KNIGHT <= m.promote <= QUEEN)
    ensures var req := UciRequest(UciOf(m));
      ObjectMatches(req, 0, m) && req.from == m.from && req.to == m.to && Type(req.promote) == m.promote
  {
    UciRoundTrip(m);
  }

  /** A listed move that matches is found, at or before its own place. */
  lemma FirstObjectFinds(move: Move, moves: seq<Move>, m: Move)
    requires m in moves && ObjectMatches(move, 0, m)
    ensures var k := FirstObject(move, 0, moves, 0);
      0 <= k < |moves| && ObjectMatches(move, 0, moves[k])
  {
    var j :| 0 <= j < |moves| && moves[j] == m;
  }

  // -------------------------------------------------------------- move lists

  /**
   * The words multiSan and multiUci act on, from piece start `prev` and scan
   * index i: the text is cut at each single space and at its end, and a piece is
   * kept when its first character is at least 'A' (the NUL past the end is not).
   */
  function MoveWordsFrom(s: string, prev: nat, i: nat): seq<string>
    requires prev <= i <= |s|
    decreases |s| - i
  {
    if i < |s| && s[i] != ' ' then MoveWordsFrom(s, prev, i + 1)
    else
      var rest := if i == |s| then [] else MoveWordsFrom(s, i + 1, i + 1);
      if CharAt(s, prev) >= 'A' then [s[prev..i]] + rest else rest
  }

  function MoveWords(s: string): seq<string>
  {
    MoveWordsFrom(s, 0, 0)
  }

  /** The words still ahead of a scan at (prev, i); none once the scan is past the end. */
  function WordsLeft(s: string, prev: nat, i: nat): seq<string>
    requires prev <= i <= |s| + 1
  {
    if i <= |s| then MoveWordsFrom(s, prev, i) else []
  }

  /** One character of the scan: inside a word it moves on; at a space or the end
      the word is cut off, and kept when it starts at 'A' or above. */
  lemma WordsLeftStep(s: string, prev: nat, i: nat)
    requires prev <= i <= |s|
    ensures i < |s| && s[i] != ' ' ==> WordsLeft(s, prev, i) == WordsLeft(s, prev, i + 1)
    ensures (i == |s| || s[i] == ' ') && CharAt(s, prev) >= 'A' ==>
      WordsLeft(s, prev, i) != [] && WordsLeft(s, prev, i)[0] == s[prev..i] &&
      WordsLeft(s, prev, i)[1..] == WordsLeft(s, i + 1, i + 1)
    ensures (i == |s| || s[i] == ' ') && CharAt(s, prev) < 'A' ==>
      WordsLeft(s, prev, i) == WordsLeft(s, i + 1, i + 1)
  {
  }

  /** A word the lists accept: it starts at 'A' or above and holds no space. */
  predicate IsMoveWord(w: string)
  {
    w != [] && w[0] >= 'A' && forall j | 0 <= j < |w| :: w[j] != ' '
  }

  /** Every word read is a space-free piece of the text starting at 'A' or above. */
  lemma {:induction false} MoveWordsShape(s: string, prev: nat, i: nat)
    requires prev <= i <= |s| && forall j | prev <= j < i :: s[j] != ' '
    ensures forall w | w in MoveWordsFrom(s, prev, i) :: IsMoveWord(w)
    decreases |s| - i
  {
    if i < |s| && s[i] != ' ' {
      MoveWordsShape(s, prev, i + 1);
    } else {
      if i < |s| {
        MoveWordsShape(s, i + 1, i + 1);
      }
      if CharAt(s, prev) >= 'A' {
        assert prev < i;
        assert IsMoveWord(s[prev..i]);
      }
    }
  }

  /** The words joined by single spaces. */
  function JoinWords(ws: seq<string>): string
  {
    if ws == [] then "" else if |ws| == 1 then ws[0] else ws[0] + " " + JoinWords(ws[1..])
  }

  /** Reading the words of a space-joined list of move words gives back the list. */
  lemma {:induction false} MoveWordsOfJoin(ws: seq<string>)
    requires ws != [] && forall k | 0 <= k < |ws| :: IsMoveWord(ws[k])
    ensures MoveWords(JoinWords(ws)) == ws
  {
    var w := ws[0];
    var s := JoinWords(ws);
    if |ws| == 1 {
      WordScan(w, "", 0);
      assert w + "" == w;
      assert w[0..|w|] == w;
    } else {
      var tail := JoinWords(ws[1..]);
      assert s == w + (" " + tail);
      WordScan(w, " " + tail, 0);
      assert s[0..|w|] == w;
      MoveWordsOfJoin(ws[1..]);
      MoveWordsShift(s, |w| + 1, tail, 0);
      assert s[|w|] == ' ';
    }
  }

  /** The scan runs through a word up to the space or end that follows it. */
  lemma {:induction false} WordScan(w: string, rest: string, i: nat)
    requires IsMoveWord(w) && i <= |w| && (rest == [] || rest[0] == ' ')
    ensures MoveWordsFrom(w + rest, 0, i) == MoveWordsFrom(w + rest, 0, |w|)
    decreases |w| - i
  {
    if i < |w| {
      assert (w + rest)[i] == w[i];
      WordScan(w, rest, i + 1);
    }
  }

  /** The words read from index k of s on are those of the suffix s[k..]. */
  lemma {:induction false} MoveWordsShift(s: string, k: nat, t: string, i: nat)
    requires k <= |s| && s[k..] == t && i <= |t|
    ensures forall prev: nat | prev <= i :: MoveWordsFrom(s, k + prev, k + i) == MoveWordsFrom(t, prev, i)
    decreases |t| - i
  {
    forall prev: nat | prev <= i
      ensures MoveWordsFrom(s, k + prev, k + i) == MoveWordsFrom(t, prev, i)
    {
      assert CharAt(s, k + prev) == CharAt(t, prev);
      assert s[k + prev..k + i] == t[prev..i] by {
        forall x | prev <= x < i
          ensures s[k + x] == t[x]
        {
        }
      }
      if i < |t| {
        assert s[k + i] == t[i];
        MoveWordsShift(s, k, t, i + 1);
      }
    }
  }

  /** One word of multiSan: the legal moves, the SAN read against them, and the
      move made, with the FEN and ply after it. */
  function SanStep(g: Game, text: string, frc: bool, frcField: bool, sloppy: bool): (r: (Game, Option<MoveText>))
    requires g.pos.ply >= -1
    ensures r.0.pos.ply == g.pos.ply + (if r.1.Some? then 1 else 0)
    ensures r.1.Some? ==> r.1.value.ply == r.0.pos.ply && r.1.value.score == 0
  {
    var lm := LegalMoves(g, frc, false);
    var m := SanToMoveSpec(text, lm.1, sloppy);
    if m.piece == 0 then (lm.0, None)
    else
      var g1 := MoveRawGame(lm.0, m);
      (g1, Some(MoveText(m, FenSpec(g1.pos, frcField), g1.pos.ply, 0)))
  }

  /** What one step of a move list does: the game after it and the entry it adds, if any. */
  type Step = (Game, string) -> (Game, Option<MoveText>)

  /**
   * A list of words played one step at a time. A step that adds no entry stops
   * the list when `stop` holds (multiSan) and is skipped otherwise (multiUci).
   */
  function Steps(step: Step, stop: bool, g: Game, words: seq<string>): (r: (Game, seq<MoveText>))
    ensures |r.1| <= |words|
    decreases |words|
  {
    if words == [] then (g, [])
    else
      var s := step(g, words[0]);
      match s.1
      case None => if stop then (s.0, []) else Steps(step, stop, s.0, words[1..])
      case Some(e) =>
        var rest := Steps(step, stop, s.0, words[1..]);
        (rest.0, [e] + rest.1)
  }

  /** A step that adds an entry makes one ply and records the ply after it. */
  predicate StepCounts(g: Game, s: (Game, Option<MoveText>))
  {
    s.0.pos.ply == g.pos.ply + (if s.1.Some? then 1 else 0) &&
    (s.1.Some? ==> s.1.value.ply == s.0.pos.ply)
  }

  ghost predicate Counts(step: Step)
  {
    forall g: Game, w: string | g.pos.ply >= -1 :: StepCounts(g, step(g, w))
  }

  /** The entries of a list count the plies up from the starting one. */
  lemma {:induction false} StepsCount(step: Step, stop: bool, g: Game, words: seq<string>)
    requires Counts(step) && g.pos.ply >= -1
    ensures var r := Steps(step, stop, g, words);
      r.0.pos.ply == g.pos.ply + |r.1| &&
      forall k | 0 <= k < |r.1| :: r.1[k].ply == g.pos.ply + k + 1
    decreases |words|
  {
    if words != [] {
      var s := step(g, words[0]);
      assert StepCounts(g, s);
      StepsCount(step, stop, s.0, words[1..]);
    }
  }

  /** multiSan's step on any game: SanStep where it is defined. */
  function SanStepAt(frc: bool, frcField: bool, sloppy: bool): Step
  {
    (g: Game, w: string) => if g.pos.ply >= -1 then SanStep(g, w, frc, frcField, sloppy) else (g, None)
  }

  /** `step` agrees with SanStep wherever that is defined. */
  ghost predicate SanStepsAre(step: Step, frc: bool, frcField: bool, sloppy: bool)
  {
    forall g: Game, w: string {:trigger SanStep(g, w, frc, frcField, sloppy)} | g.pos.ply >= -1 ::
      step(g, w) == SanStep(g, w, frc, frcField, sloppy)
  }

  lemma SanStepAtIs(frc: bool, frcField: bool, sloppy: bool)
    ensures SanStepsAre(SanStepAt(frc, frcField, sloppy), frc, frcField, sloppy)
    ensures Counts(SanStepAt(frc, frcField, sloppy))
  {
    var step := SanStepAt(frc, frcField, sloppy);
    forall g: Game, w: string | g.pos.ply >= -1
      ensures StepCounts(g, step(g, w))
    {
      var s := SanStep(g, w, frc, frcField, sloppy);
      assert step(g, w) == s;
    }
  }

  /** multiSan on a list of words: it stops at the first word that is no legal SAN.
      The entries count the plies up from the starting one. */
  function MultiSanSpec(g: Game, words: seq<string>, frc: bool, frcField: bool, sloppy: bool): (r: (Game, seq<MoveText>))
    requires g.pos.ply >= -1
    ensures |r.1| <= |words|
    ensures r.0.pos.ply == g.pos.ply + |r.1|
    ensures forall k | 0 <= k < |r.1| :: r.1[k].ply == g.pos.ply + k + 1
  {
    SanStepAtIs(frc, frcField, sloppy);
    StepsCount(SanStepAt(frc, frcField, sloppy), true, g, words);
    Steps(SanStepAt(frc, frcField, sloppy), true, g, words)
  }

  /** One word of multiUci: moveUci with decorators, and the FEN and ply after it. */
  function UciStep(g: Game, text: string, frc: bool, frcField: bool): (r: (Game, Option<MoveText>))
    requires g.pos.ply >= -1 && |text| >= 2
    ensures r.0.pos.ply == g.pos.ply + (if r.1.Some? then 1 else 0)
    ensures r.1.Some? ==> r.1.value.ply == r.0.pos.ply && r.1.value.score == 0
  {
    var r := MoveUciSpec(g, text, frc, frcField, true);
    if r.1.piece == 0 then (r.0, None)
    else (r.0, Some(MoveText(r.1, FenSpec(r.0.pos, frcField), r.0.pos.ply, 0)))
  }

  /** Every word is long enough for moveUci's two square names to be cut from it. */
  predicate UciWords(words: seq<string>)
  {
    forall k | 0 <= k < |words| :: |words[k]| >= 2
  }

  /** multiUci's step on any game and word: UciStep where it is defined. */
  function UciStepAt(frc: bool, frcField: bool): Step
  {
    (g: Game, w: string) => if g.pos.ply >= -1 && |w| >= 2 then UciStep(g, w, frc, frcField) else (g, None)
  }

  /** `step` agrees with UciStep wherever that is defined. */
  ghost predicate UciStepsAre(step: Step, frc: bool, frcField: bool)
  {
    forall g: Game, w: string {:trigger UciStep(g, w, frc, frcField)} | g.pos.ply >= -1 && |w| >= 2 ::
      step(g, w) == UciStep(g, w, frc, frcField)
  }

  lemma UciStepAtIs(frc: bool, frcField: bool)
    ensures UciStepsAre(UciStepAt(frc, frcField), frc, frcField)
    ensures Counts(UciStepAt(frc, frcField))
  {
    var step := UciStepAt(frc, frcField);
    forall g: Game, w: string | g.pos.ply >= -1
      ensures StepCounts(g, step(g, w))
    {
      if |w| >= 2 {
        var s := UciStep(g, w, frc, frcField);
        assert step(g, w) == s;
      }
    }
  }

  /** multiUci on a list of words: a word that is no legal move is skipped. */
  function MultiUciSpec(g: Game, words: seq<string>, frc: bool, frcField: bool): (r: (Game, seq<MoveText>))
    requires g.pos.ply >= -1 && UciWords(words)
    ensures |r.1| <= |words|
    ensures r.0.pos.ply == g.pos.ply + |r.1|
    ensures forall k | 0 <= k < |r.1| :: r.1[k].ply == g.pos.ply + k + 1
  {
    UciStepAtIs(frc, frcField);
    StepsCount(UciStepAt(frc, frcField), false, g, words);
    Steps(UciStepAt(frc, frcField), false, g, words)
  }
}
