// The Chess960 start position generator, createFen960(index): the bishops, the
// queen and the knights are placed by the digits of the index, then rook, king
// and rook fill what is left.

module Fen960 {

  /** The back rank before anything is placed. */
  const BLANK_LINE := "        "

  /** The types the last loop places, right to left: the characters of the literal
      "RKR", whose terminating NUL is iterated over as well. */
  function RookKingRook(t: int): char
  {
    if t == 0 || t == 2 then 'R' else if t == 1 then 'K' else '\0'
  }

  /** The back rank and the two halves of the castling field. */
  datatype BackRank = BackRank(line: string, rooks: string, rooks2: string)

  /** Number of blanks in a line. */
  function Blanks(s: string): nat
  {
    multiset(s)[' ']
  }

  // --------------------------------------------------------------- the loops

  /** The queen loop from i: every blank passed decrements n, and the blank met
      with n at 0 takes c. */
  function PlaceFrom(line: string, i: nat, c: char, n: int): (r: string)
    ensures |r| == |line|
    decreases |line| - i
  {
    if i >= |line| then line
    else if line[i] == ' ' then (if n == 0 then line[i := c] else PlaceFrom(line, i + 1, c, n - 1))
    else PlaceFrom(line, i + 1, c, n)
  }

  /** The knight loop from i: every blank decrements both counters, and a blank met
      with either counter at 0 takes a knight. */
  function KnightsFrom(line: string, i: nat, n1: int, n2: int): (r: string)
    ensures |r| == |line|
    decreases |line| - i
  {
    if i >= |line| then line
    else if line[i] == ' ' then KnightsFrom(if n1 == 0 || n2 == 0 then line[i := 'N'] else line, i + 1, n1 - 1, n2 - 1)
    else KnightsFrom(line, i + 1, n1, n2)
  }

  /** One pass of the inner loop of the last placement: from i downwards the first
      blank takes t; the loop index is kept where it stopped, and is negative when
      no blank was found. */
  function FillDown(line: string, i: int, t: char): (r: (string, int))
    requires i < |line|
    ensures r.1 <= i && r.1 < |line| && |r.0| == |line|
    decreases i + 1
  {
    if i < 0 then (line, i)
    else if line[i] == ' ' then (line[i := t], i)
    else FillDown(line, i - 1, t)
  }

  /** The inner loop stops on the highest blank at or below i, or finds none. */
  lemma {:induction false} FillDownMeans(line: string, i: int, t: char)
    requires i < |line|
    ensures var r := FillDown(line, i, t);
      (r.1 >= 0 ==> line[r.1] == ' ' && r.0 == line[r.1 := t] && forall j | r.1 < j <= i :: line[j] != ' ') &&
      (r.1 < 0 ==> r.0 == line && forall j | 0 <= j <= i :: line[j] != ' ')
    decreases i + 1
  {
    if i >= 0 && line[i] != ' ' {
      FillDownMeans(line, i - 1, t);
    }
  }

  /** The state of the last loop: the line, the index carried from one type to
      the next, and the two halves of the castling field. */
  datatype Filling = Filling(line: string, i: int, rooks: string, rooks2: string)

  /** One type of the last loop: the inner loop places it, and a rook adds its file
      letter to both halves. */
  function FillStep(f: Filling, typ: char): (r: Filling)
    requires f.i < |f.line|
    ensures |r.line| == |f.line| && r.i < |r.line|
  {
    var d := FillDown(f.line, f.i, typ);
    var rook := d.1 >= 0 && typ == 'R';
    Filling(d.0, d.1,
      if rook then f.rooks + [Letter('A', d.1)] else f.rooks,
      if rook then f.rooks2 + [Letter('a', d.1)] else f.rooks2)
  }

  /** The last loop's state after its first t types, starting at the right end. */
  function FilledAfter(line: string, t: nat): (r: Filling)
    requires |line| == 8
    ensures |r.line| == 8 && r.i < 8
  {
    if t == 0 then Filling(line, 7, "", "") else FillStep(FilledAfter(line, t - 1), RookKingRook(t - 1))
  }

  /** The back rank after the four types. */
  function FillTypes(line: string): (r: BackRank)
    requires |line| == 8
    ensures |r.line| == 8
  {
    var f := FilledAfter(line, 4);
    BackRank(f.line, f.rooks, f.rooks2)
  }

  /** A char offset from a letter, as `'A' + i` is appended to a string. */
  function Letter(base: char, i: int): char
  {
    ((base as int + i) % 256) as char
  }

  /** The search for the knights' blank numbers: for n1 = 0, 1, 2, 3 the candidate
      n2 is computed, until n1 < n2 and 0 < n2 < 5. */
  function KnightSearch(index: int, n1: int, n2: int): (r: (int, int))
    decreases 4 - n1
  {
    if n1 >= 4 then (n1, n2)
    else
      var m := index + ((3 - n1) * (4 - n1)) / 2 - 5;
      if n1 < m && m > 0 && m < 5 then (n1, m) else KnightSearch(index, n1 + 1, m)
  }

  // ---------------------------------------------------------- the position

  /** The first bishop's file: odd, so on a light square of the first rank. */
  function LightBishop(index: int): int { (index % 4) * 2 + 1 }

  /** The second bishop's file: even. */
  function DarkBishop(index: int): int { ((index / 4) % 4) * 2 }

  function QueenBlank(index: int): int { (index / 16) % 6 }

  function KnightIndex(index: int): int { index / 96 }

  /** The line after the bishops and the queen. */
  function WithQueen(index: int): (r: string)
    requires 0 <= index < 960
    ensures |r| == 8
  {
    PlaceFrom(BLANK_LINE[LightBishop(index) := 'B'][DarkBishop(index) := 'B'], 0, 'Q', QueenBlank(index))
  }

  /** The back rank and castling letters of the position with that index. */
  function Fen960Rank(index: int): (r: BackRank)
    requires 0 <= index < 960
    ensures |r.line| == 8
  {
    var ns := KnightSearch(KnightIndex(index), 0, 0);
    FillTypes(KnightsFrom(WithQueen(index), 0, ns.0, ns.1))
  }

  /** Every letter shifted by 'a' - 'A'. */
  function Lower(line: string): (r: string)
    ensures |r| == |line|
  {
    seq(|line|, k requires 0 <= k < |line| => Letter(line[k], 'a' as int - 'A' as int))
  }

  /** createFen960(index): "" outside 0..959, otherwise the mirrored back ranks, the
      pawns, white to move and the rook files as castling field. */
  function Fen960Spec(index: int): (r: string)
    ensures r == "" <==> index < 0 || index >= 960
  {
    if index < 0 || index >= 960 then ""
    else
      var rank := Fen960Rank(index);
      Lower(rank.line) + "/pppppppp/8/8/8/8/PPPPPPPP/" + rank.line + " w " + rank.rooks + rank.rooks2 + " - 0 1"
  }

  // ------------------------------------------------------------- the loops' lemmas

  lemma BlanksFrom(s: string, i: nat)
    requires i < |s|
    ensures Blanks(s[i..]) == (if s[i] == ' ' then 1 else 0) + Blanks(s[i + 1..])
  {
    assert s[i..] == [s[i]] + s[i + 1..];
  }

  /** The index of the n-th blank from i on, or -1. */
  function NthBlank(line: string, i: nat, n: int): (r: int)
    ensures i <= |line| && 0 <= n < Blanks(line[i..]) ==> i <= r < |line| && line[r] == ' '
    decreases |line| - i
  {
    if i >= |line| then -1
    else
      BlanksFrom(line, i);
      if line[i] == ' ' then (if n == 0 then i else NthBlank(line, i + 1, n - 1))
      else NthBlank(line, i + 1, n)
  }

  /** The queen loop writes c on one blank, the n-th from i. */
  lemma {:induction false} PlaceFromPlaces(line: string, i: nat, c: char, n: int)
    requires i <= |line| && 0 <= n < Blanks(line[i..])
    ensures var k := NthBlank(line, i, n);
      i <= k < |line| && line[k] == ' ' && PlaceFrom(line, i, c, n) == line[k := c]
    decreases |line| - i
  {
    if i < |line| {
      BlanksFrom(line, i);
      if line[i] != ' ' || n != 0 {
        PlaceFromPlaces(line, i + 1, c, if line[i] == ' ' then n - 1 else n);
      }
    }
  }

  /** The n-th blank from i, when there is one, lies before any later-numbered blank. */
  lemma {:induction false} NthBlankOrder(line: string, i: nat, n: int, m: int)
    requires i <= |line| && 0 <= n < m < Blanks(line[i..])
    ensures i <= NthBlank(line, i, n) < NthBlank(line, i, m)
    decreases |line| - i
  {
    if i < |line| {
      BlanksFrom(line, i);
      if line[i] == ' ' {
        if n == 0 {
          PlaceFromPlaces(line, i + 1, ' ', m - 1);
        } else {
          NthBlankOrder(line, i + 1, n - 1, m - 1);
        }
      } else {
        NthBlankOrder(line, i + 1, n, m);
      }
    }
  }

  /** With both counters negative the knight loop changes nothing. */
  lemma {:induction false} KnightsNone(line: string, i: nat, n1: int, n2: int)
    requires n1 < 0 && n2 < 0
    ensures KnightsFrom(line, i, n1, n2) == line
    decreases |line| - i
  {
    if i < |line| {
      if line[i] == ' ' {
        KnightsNone(line, i + 1, n1 - 1, n2 - 1);
      } else {
        KnightsNone(line, i + 1, n1, n2);
      }
    }
  }

  /** With n1 negative the knight loop places one knight, on the n2-th blank. */
  lemma {:induction false} KnightsOne(line: string, i: nat, n1: int, n2: int)
    requires i <= |line| && n1 < 0 && 0 <= n2 < Blanks(line[i..])
    ensures KnightsFrom(line, i, n1, n2) == line[NthBlank(line, i, n2) := 'N']
    decreases |line| - i
  {
    if i < |line| {
      BlanksFrom(line, i);
      if line[i] == ' ' && n2 == 0 {
        KnightsNone(line[i := 'N'], i + 1, n1 - 1, n2 - 1);
      } else if line[i] == ' ' {
        KnightsOne(line, i + 1, n1 - 1, n2 - 1);
      } else {
        KnightsOne(line, i + 1, n1, n2);
      }
    }
  }

  /** With 0 <= n1 < n2 the knight loop places two knights, on the n1-th and n2-th blanks. */
  lemma {:induction false} KnightsTwo(line: string, i: nat, n1: int, n2: int)
    requires i <= |line| && 0 <= n1 < n2 < Blanks(line[i..])
    ensures KnightsFrom(line, i, n1, n2) == line[NthBlank(line, i, n1) := 'N'][NthBlank(line, i, n2) := 'N']
    decreases |line| - i
  {
    if i < |line| {
      BlanksFrom(line, i);
      if line[i] == ' ' && n1 == 0 {
        KnightsFirstHere(line, i, n2);
      } else if line[i] == ' ' {
        assert NthBlank(line, i, n1) == NthBlank(line, i + 1, n1 - 1) && NthBlank(line, i, n2) == NthBlank(line, i + 1, n2 - 1);
        KnightsTwo(line, i + 1, n1 - 1, n2 - 1);
        assert KnightsFrom(line, i, n1, n2) == KnightsFrom(line, i + 1, n1 - 1, n2 - 1);
      } else {
        assert NthBlank(line, i, n1) == NthBlank(line, i + 1, n1) && NthBlank(line, i, n2) == NthBlank(line, i + 1, n2);
        KnightsTwo(line, i + 1, n1, n2);
        assert KnightsFrom(line, i, n1, n2) == KnightsFrom(line, i + 1, n1, n2);
      }
    } else {
      assert false;
    }
  }

  /** The first knight on the blank at i: the second goes on the n2-th blank from i. */
  lemma KnightsFirstHere(line: string, i: nat, n2: int)
    requires i < |line| && line[i] == ' ' && 0 < n2 < Blanks(line[i..])
    ensures KnightsFrom(line, i, 0, n2) == line[i := 'N'][NthBlank(line, i, n2) := 'N']
    ensures NthBlank(line, i, 0) == i
  {
    BlanksFrom(line, i);
    var l1 := line[i := 'N'];
    assert l1[i + 1..] == line[i + 1..];
    KnightsOne(l1, i + 1, -1, n2 - 1);
    NthBlankSame(line, l1, i + 1, n2 - 1);
  }

  /** NthBlank from i only looks at the cells from i on. */
  lemma {:induction false} NthBlankSame(a: string, b: string, i: nat, n: int)
    requires |a| == |b| && i <= |a| && a[i..] == b[i..]
    ensures NthBlank(a, i, n) == NthBlank(b, i, n)
    decreases |a| - i
  {
    if i < |a| {
      assert a[i] == a[i..][0] && b[i] == b[i..][0];
      assert a[i + 1..] == a[i..][1..] && b[i + 1..] == b[i..][1..];
      NthBlankSame(a, b, i + 1, if a[i] == ' ' then n - 1 else n);
    }
  }

  /** For every knight index the search ends with two blank numbers 0 <= n1 < n2 <= 4. */
  lemma KnightSearchFinds(index: int)
    requires 0 <= index < 10
    ensures var ns := KnightSearch(index, 0, 0); 0 <= ns.0 < ns.1 <= 4
  {
    assert KnightSearch(index, 4, index - 5) == (4, index - 5);
    assert KnightSearch(index, 3, index - 4) == KnightSearch(index, 4, index - 5) || 3 < index - 5 < 5;
  }

  /** A blank count above zero means some cell is blank. */
  lemma SomeBlank(s: string)
    requires Blanks(s) > 0
    ensures exists j :: 0 <= j < |s| && s[j] == ' '
  {
    assert ' ' in multiset(s);
    assert ' ' in s;
  }

  /** Writing a non-blank over a blank takes one blank away. */
  lemma FillBlank(s: string, j: int, c: char)
    requires 0 <= j < |s| && s[j] == ' ' && c != ' '
    ensures Blanks(s[j := c]) == Blanks(s) - 1
    ensures multiset(s[j := c]) == multiset(s) - multiset{' '} + multiset{c}
  {
  }

  /** One pass of the last loop on a line whose blanks all lie at or below i: the
      highest blank takes t. */
  lemma FillOne(line: string, i: int, t: char)
    requires -1 <= i < |line| && t != ' ' && Blanks(line) > 0
    requires forall j | i < j < |line| :: line[j] != ' '
    ensures var f := FillDown(line, i, t);
      0 <= f.1 <= i && line[f.1] == ' ' && f.0 == line[f.1 := t] && Blanks(f.0) == Blanks(line) - 1 &&
      forall j | f.1 <= j < |line| :: f.0[j] != ' '
  {
    var f := FillDown(line, i, t);
    FillDownMeans(line, i, t);
    if f.1 < 0 {
      SomeBlank(line);
      assert false;
    }
    FillBlank(line, f.1, t);
  }

  /** The back rank the last loop fills in, for the blank positions a < k < b. */
  function RookKingRookLine(line: string, a: int, k: int, b: int): BackRank
    requires 0 <= a < k < b < |line|
  {
    BackRank(line[b := 'R'][k := 'K'][a := 'R'], [Letter('A', b), Letter('A', a)], [Letter('a', b), Letter('a', a)])
  }

  /** On a line of 8 with exactly three blanks the last loop puts a rook on the
      rightmost blank, the king on the middle one and a rook on the leftmost, and
      the castling halves list the rook files right to left. */
  lemma FillsRookKingRook(line: string) returns (a: int, k: int, b: int)
    requires |line| == 8 && Blanks(line) == 3
    ensures 0 <= a < k < b < 8 && line[a] == ' ' && line[k] == ' ' && line[b] == ' '
    ensures FillTypes(line) == RookKingRookLine(line, a, k, b)
  {
    FillOne(line, 7, 'R');
    var f1 := FillDown(line, 7, 'R');
    b := f1.1;
    FillOne(f1.0, b, 'K');
    var f2 := FillDown(f1.0, b, 'K');
    k := f2.1;
    FillOne(f2.0, k, 'R');
    var f3 := FillDown(f2.0, k, 'R');
    a := f3.1;
    var f4 := FillDown(f3.0, a, '\0');
    FillDownMeans(f3.0, a, '\0');
    if f4.1 >= 0 {
      assert false;
    }
    FilledFour(line, f1.0, f2.0, f3.0, a, k, b);
    assert f3.0 == line[b := 'R'][k := 'K'][a := 'R'];
  }

  /** The last loop, when the three letters find blanks at b, k and a and the NUL finds none. */
  lemma FilledFour(line: string, l1: string, l2: string, l3: string, a: int, k: int, b: int)
    requires |line| == 8 && 0 <= a && 0 <= k && 0 <= b
    requires FillDown(line, 7, 'R') == (l1, b) && FillDown(l1, b, 'K') == (l2, k)
    requires FillDown(l2, k, 'R') == (l3, a) && FillDown(l3, a, '\0').1 < 0
    ensures FillTypes(line) == BackRank(l3, [Letter('A', b), Letter('A', a)], [Letter('a', b), Letter('a', a)])
  {
    FillDownMeans(l3, a, '\0');
    assert FilledAfter(line, 1) == Filling(l1, b, [Letter('A', b)], [Letter('a', b)]);
    assert FilledAfter(line, 2) == Filling(l2, k, [Letter('A', b)], [Letter('a', b)]);
    assert FilledAfter(line, 3) == Filling(l3, a, [Letter('A', b), Letter('A', a)], [Letter('a', b), Letter('a', a)]);
  }

  /** The letters of RNBQKBNR, counted. */
  predicate Pieces(line: string)
  {
    multiset(line)['R'] == 2 && multiset(line)['N'] == 2 && multiset(line)['B'] == 2 &&
    multiset(line)['Q'] == 1 && multiset(line)['K'] == 1
  }

  /** How many blanks, bishops, queens, knights, rooks and kings a line holds. */
  predicate Counts(line: string, blanks: nat, b: nat, q: nat, n: nat, r: nat, k: nat)
  {
    multiset(line)[' '] == blanks && multiset(line)['B'] == b && multiset(line)['Q'] == q &&
    multiset(line)['N'] == n && multiset(line)['R'] == r && multiset(line)['K'] == k
  }

  /** Every cell is blank or holds a piece letter. */
  predicate Lettered(line: string)
  {
    forall i | 0 <= i < |line| :: line[i] in " RNBQK"
  }

  /** The second line only fills blanks of the first. */
  predicate Keeps(l: string, l2: string)
  {
    |l2| == |l| && forall i | 0 <= i < |l| :: l[i] != ' ' ==> l2[i] == l[i]
  }

  /** Writing a piece letter over a blank moves one count from the blanks to that letter. */
  lemma CountsStep(l: string, j: int, c: char, blanks: nat, b: nat, q: nat, n: nat, r: nat, k: nat)
    requires 0 <= j < |l| && l[j] == ' ' && blanks > 0 && Counts(l, blanks, b, q, n, r, k)
    requires c == 'B' || c == 'Q' || c == 'N' || c == 'R' || c == 'K'
    requires Lettered(l)
    ensures Counts(l[j := c], blanks - 1, if c == 'B' then b + 1 else b, if c == 'Q' then q + 1 else q,
      if c == 'N' then n + 1 else n, if c == 'R' then r + 1 else r, if c == 'K' then k + 1 else k)
    ensures Lettered(l[j := c]) && Keeps(l, l[j := c])
  {
    FillBlank(l, j, c);
  }

  /** The empty back rank: eight blanks. */
  lemma BlankLineCounts()
    ensures |BLANK_LINE| == 8 && Counts(BLANK_LINE, 8, 0, 0, 0, 0, 0) && Lettered(BLANK_LINE)
    ensures forall i | 0 <= i < 8 :: BLANK_LINE[i] == ' '
  {
    AllBlank(BLANK_LINE);
  }

  /** A line of blanks counts only blanks. */
  lemma {:induction false} AllBlank(s: string)
    requires forall i | 0 <= i < |s| :: s[i] == ' '
    ensures Counts(s, |s|, 0, 0, 0, 0, 0) && Lettered(s)
  {
    if s != [] {
      var t := s[..|s| - 1];
      assert s == t + [' '];
      AllBlank(t);
    }
  }

  /** The first bishop stands on an odd file, the second on an even one. */
  lemma BishopFiles(index: int)
    requires 0 <= index
    ensures 0 <= LightBishop(index) < 8 && LightBishop(index) % 2 == 1
    ensures 0 <= DarkBishop(index) < 8 && DarkBishop(index) % 2 == 0
  {
    var a, b := index % 4, (index / 4) % 4;
    assert 0 <= a < 4 && 0 <= b < 4;
    if a == 0 {} else if a == 1 {} else if a == 2 {} else {}
    if b == 0 {} else if b == 1 {} else if b == 2 {} else {}
  }

  /** The bishops: two on files of opposite parity, six blanks left. */
  lemma BishopStage(index: int)
    requires 0 <= index < 960
    ensures var l := BLANK_LINE[LightBishop(index) := 'B'][DarkBishop(index) := 'B'];
      |l| == 8 && Counts(l, 6, 2, 0, 0, 0, 0) && Lettered(l) &&
      l[LightBishop(index)] == 'B' && l[DarkBishop(index)] == 'B' && LightBishop(index) % 2 != DarkBishop(index) % 2
  {
    var p1, p2 := LightBishop(index), DarkBishop(index);
    BishopFiles(index);
    BlankLineCounts();
    CountsStep(BLANK_LINE, p1, 'B', 8, 0, 0, 0, 0, 0);
    CountsStep(BLANK_LINE[p1 := 'B'], p2, 'B', 7, 1, 0, 0, 0, 0);
  }

  /** The queen takes one blank and keeps every letter already placed. */
  lemma QueenStep(l: string, n: int)
    requires |l| == 8 && Counts(l, 6, 2, 0, 0, 0, 0) && Lettered(l) && 0 <= n < 6
    ensures var l2 := PlaceFrom(l, 0, 'Q', n);
      Counts(l2, 5, 2, 1, 0, 0, 0) && Lettered(l2) && Keeps(l, l2)
  {
    assert l[0..] == l;
    PlaceFromPlaces(l, 0, 'Q', n);
    CountsStep(l, NthBlank(l, 0, n), 'Q', 6, 2, 0, 0, 0, 0);
  }

  /** The bishops and the queen: two bishops on files of opposite parity, and five blanks left. */
  lemma QueenStage(index: int)
    requires 0 <= index < 960
    ensures var l := WithQueen(index);
      Counts(l, 5, 2, 1, 0, 0, 0) && Lettered(l) &&
      l[LightBishop(index)] == 'B' && l[DarkBishop(index)] == 'B' && LightBishop(index) % 2 != DarkBishop(index) % 2
  {
    BishopStage(index);
    QueenStep(BLANK_LINE[LightBishop(index) := 'B'][DarkBishop(index) := 'B'], QueenBlank(index));
  }

  /** The knights: two blanks become knights, three blanks are left. */
  lemma KnightStage(l: string, n1: int, n2: int)
    requires |l| == 8 && Counts(l, 5, 2, 1, 0, 0, 0) && Lettered(l) && 0 <= n1 < n2 <= 4
    ensures var l2 := KnightsFrom(l, 0, n1, n2);
      Counts(l2, 3, 2, 1, 2, 0, 0) && Lettered(l2) && Keeps(l, l2)
  {
    assert l[0..] == l;
    KnightsTwo(l, 0, n1, n2);
    NthBlankOrder(l, 0, n1, n2);
    var k1, k2 := NthBlank(l, 0, n1), NthBlank(l, 0, n2);
    CountsStep(l, k1, 'N', 5, 2, 1, 0, 0, 0);
    CountsStep(l[k1 := 'N'], k2, 'N', 4, 2, 1, 1, 0, 0);
  }

  /** Rook, king and rook on the three blanks a < k < b complete the pieces. */
  lemma RookKingRookFacts(l: string, a: int, k: int, b: int)
    requires |l| == 8 && Counts(l, 3, 2, 1, 2, 0, 0) && Lettered(l)
    requires 0 <= a < k < b < 8 && l[a] == ' ' && l[k] == ' ' && l[b] == ' '
    ensures var l3 := l[b := 'R'][k := 'K'][a := 'R'];
      Pieces(l3) && Counts(l3, 0, 2, 1, 2, 2, 1) && Lettered(l3) && Keeps(l, l3) &&
      l3[a] == 'R' && l3[k] == 'K' && l3[b] == 'R'
  {
    CountsStep(l, b, 'R', 3, 2, 1, 2, 0, 0);
    var l1 := l[b := 'R'];
    CountsStep(l1, k, 'K', 2, 2, 1, 2, 1, 0);
    var l2 := l1[k := 'K'];
    CountsStep(l2, a, 'R', 1, 2, 1, 2, 1, 1);
  }

  /** Rook, king and rook: no blank is left, and the king stands between the rooks. */
  lemma RookStage(l: string) returns (a: int, k: int, b: int)
    requires |l| == 8 && Counts(l, 3, 2, 1, 2, 0, 0) && Lettered(l)
    ensures 0 <= a < k < b < 8
    ensures var r := FillTypes(l);
      Pieces(r.line) && Counts(r.line, 0, 2, 1, 2, 2, 1) && Lettered(r.line) && Keeps(l, r.line) &&
      r.line[a] == 'R' && r.line[k] == 'K' && r.line[b] == 'R' &&
      r.rooks == [Letter('A', b), Letter('A', a)] && r.rooks2 == [Letter('a', b), Letter('a', a)]
  {
    a, k, b := FillsRookKingRook(l);
    RookKingRookFacts(l, a, k, b);
  }

  /**
   * Every index in 0..959 gives a legal Chess960 back rank: the pieces of
   * RNBQKBNR in some order, the bishops on squares of opposite colours, the king
   * between the rooks, and the castling field naming the two rook files.
   */
  lemma Fen960RankIsChess960(index: int)
    requires 0 <= index < 960
    ensures var r := Fen960Rank(index);
      Pieces(r.line) && (forall i | 0 <= i < 8 :: r.line[i] in "RNBQK") &&
      (exists i, j :: 0 <= i < 8 && 0 <= j < 8 && r.line[i] == 'B' && r.line[j] == 'B' && i % 2 != j % 2) &&
      (exists a, k, b :: (0 <= a < k < b < 8 && r.line[a] == 'R' && r.line[k] == 'K' && r.line[b] == 'R' &&
        r.rooks == [Letter('A', b), Letter('A', a)] && r.rooks2 == [Letter('a', b), Letter('a', a)]))
  {
    var l3 := WithQueen(index);
    QueenStage(index);
    var ns := KnightSearch(KnightIndex(index), 0, 0);
    KnightSearchFinds(KnightIndex(index));
    var l5 := KnightsFrom(l3, 0, ns.0, ns.1);
    KnightStage(l3, ns.0, ns.1);
    var a, k, b := RookStage(l5);
    var r := Fen960Rank(index);
    assert r == FillTypes(l5);
    var p1, p2 := LightBishop(index), DarkBishop(index);
    assert r.line[p1] == 'B' && r.line[p2] == 'B';
    NoBlankLetters(r.line);
  }

  /** A lettered line without blanks holds only piece letters. */
  lemma NoBlankLetters(line: string)
    requires |line| == 8 && Lettered(line) && multiset(line)[' '] == 0
    ensures forall i | 0 <= i < 8 :: line[i] in "RNBQK"
  {
    forall i | 0 <= i < 8
      ensures line[i] in "RNBQK"
    {
      assert line[i] in multiset(line);
    }
  }

  // Index 518, one loop at a time.

  lemma QueenAt518()
    ensures WithQueen(518) == "  BQ B  "
  {
    assert LightBishop(518) == 5 && DarkBishop(518) == 2 && QueenBlank(518) == 2;
    var l2 := "  B  B  ";
    assert BLANK_LINE[5 := 'B'][2 := 'B'] == l2;
    assert PlaceFrom(l2, 0, 'Q', 2) == PlaceFrom(l2, 1, 'Q', 1) == PlaceFrom(l2, 2, 'Q', 0);
    assert PlaceFrom(l2, 2, 'Q', 0) == PlaceFrom(l2, 3, 'Q', 0) == l2[3 := 'Q'];
    assert l2[3 := 'Q'] == "  BQ B  ";
  }

  lemma KnightsAt518()
    ensures KnightSearch(KnightIndex(518), 0, 0) == (1, 3)
    ensures KnightsFrom("  BQ B  ", 0, 1, 3) == " NBQ BN "
  {
    assert KnightIndex(518) == 5;
    assert KnightSearch(5, 0, 0) == KnightSearch(5, 1, 6) == (1, 3);
    var l3 := "  BQ B  ";
    assert KnightsFrom(l3, 0, 1, 3) == KnightsFrom(l3, 1, 0, 2) == KnightsFrom(l3[1 := 'N'], 2, -1, 1);
    var m := l3[1 := 'N'];
    assert KnightsFrom(m, 2, -1, 1) == KnightsFrom(m, 3, -1, 1) == KnightsFrom(m, 4, -1, 1);
    assert KnightsFrom(m, 4, -1, 1) == KnightsFrom(m, 5, -2, 0) == KnightsFrom(m, 6, -2, 0);
    assert KnightsFrom(m, 6, -2, 0) == KnightsFrom(m[6 := 'N'], 7, -3, -1);
    var l4 := " NBQ BN ";
    assert m[6 := 'N'] == l4;
    assert KnightsFrom(l4, 7, -3, -1) == KnightsFrom(l4, 8, -4, -2) == l4;
  }

  lemma RooksAt518()
    ensures FillTypes(" NBQ BN ") == BackRank("RNBQKBNR", "HA", "ha")
  {
    var l4 := " NBQ BN ";
    assert FillDown(l4, 7, 'R') == (l4[7 := 'R'], 7);
    var l5 := " NBQ BNR";
    assert l4[7 := 'R'] == l5;
    assert FillDown(l5, 7, 'K') == FillDown(l5, 6, 'K') == FillDown(l5, 5, 'K') == FillDown(l5, 4, 'K');
    assert FillDown(l5, 4, 'K') == (l5[4 := 'K'], 4);
    var l6 := " NBQKBNR";
    assert l5[4 := 'K'] == l6;
    assert FillDown(l6, 4, 'R') == FillDown(l6, 3, 'R') == FillDown(l6, 2, 'R') == FillDown(l6, 1, 'R') == FillDown(l6, 0, 'R');
    assert FillDown(l6, 0, 'R') == (l6[0 := 'R'], 0);
    var l7 := "RNBQKBNR";
    assert l6[0 := 'R'] == l7;
    assert FillDown(l7, 0, '\0') == FillDown(l7, -1, '\0') == (l7, -1);
    FilledFour(l4, l5, l6, l7, 0, 4, 7);
    assert Letter('A', 7) == 'H' && Letter('A', 0) == 'A' && Letter('a', 7) == 'h' && Letter('a', 0) == 'a';
  }

  /** Index 518 is the standard starting position, castling with the h and a rooks. */
  lemma Fen960Standard()
    ensures Fen960Spec(518) == "rnbqkbnr" + "/pppppppp/8/8/8/8/PPPPPPPP/" + "RNBQKBNR" + " w " + "HAha" + " - 0 1"
  {
    QueenAt518();
    KnightsAt518();
    RooksAt518();
    var line := "RNBQKBNR";
    assert Fen960Rank(518) == BackRank(line, "HA", "ha");
    LowerStandard();
    assert Fen960Spec(518) == "rnbqkbnr" + "/pppppppp/8/8/8/8/PPPPPPPP/" + line + " w " + "HA" + "ha" + " - 0 1";
    assert "HA" + "ha" == "HAha";
  }

  lemma LowerStandard()
    ensures Lower("RNBQKBNR") == "rnbqkbnr"
  {
    var l := Lower("RNBQKBNR");
    assert l[0] == 'r' && l[1] == 'n' && l[2] == 'b' && l[3] == 'q';
    assert l[4] == 'k' && l[5] == 'b' && l[6] == 'n' && l[7] == 'r';
  }

  // ------------------------------------------------------------- the generator

  /** The loop searching the knights' blank numbers; it stops at the first fit. */
  method SearchKnights(rest: int) returns (n1: int, n2: int)
    ensures (n1, n2) == KnightSearch(rest, 0, 0)
  {
    n1, n2 := 0, 0;
    while n1 < 4
      invariant 0 <= n1 <= 4
      invariant KnightSearch(rest, n1, n2) == KnightSearch(rest, 0, 0)
      decreases 4 - n1
    {
      n2 := rest + ((3 - n1) * (4 - n1)) / 2 - 5;
      if n1 < n2 && n2 > 0 && n2 < 5 {
        break;
      }
      n1 := n1 + 1;
    }
  }

  /** The queen loop over the eight cells, left to right. */
  method PlaceQueen(line0: string, q0: int) returns (line: string)
    requires |line0| == 8
    ensures line == PlaceFrom(line0, 0, 'Q', q0)
  {
    line := line0;
    var q := q0;
    var i := 0;
    var placed := false;
    while i < 8 && !placed
      invariant 0 <= i <= 8 && |line| == 8
      invariant !placed ==> line == line0 && PlaceFrom(line, i, 'Q', q) == PlaceFrom(line0, 0, 'Q', q0)
      invariant placed ==> line == PlaceFrom(line0, 0, 'Q', q0)
      decreases 8 - i, if placed then 0 else 1
    {
      if line[i] == ' ' {
        if q == 0 {
          line := line[i := 'Q'];
          placed := true;
        } else {
          q := q - 1;
          i := i + 1;
        }
      } else {
        i := i + 1;
      }
    }
  }

  /** The knight loop over the eight cells, left to right. */
  method PlaceKnights(line0: string, m1: int, m2: int) returns (line: string)
    requires |line0| == 8
    ensures line == KnightsFrom(line0, 0, m1, m2)
  {
    line := line0;
    var n1, n2 := m1, m2;
    var i := 0;
    while i < 8
      invariant 0 <= i <= 8 && |line| == 8
      invariant KnightsFrom(line, i, n1, n2) == KnightsFrom(line0, 0, m1, m2)
      decreases 8 - i
    {
      if line[i] == ' ' {
        if n1 == 0 || n2 == 0 {
          line := line[i := 'N'];
        }
        n1 := n1 - 1;
        n2 := n2 - 1;
      }
      i := i + 1;
    }
  }

  /** The inner loop of the last placement, for one type. */
  method PlaceType(f: Filling, typ: char) returns (r: Filling)
    requires f.i < |f.line|
    ensures r == FillStep(f, typ)
  {
    var line, i, rooks, rooks2 := f.line, f.i, f.rooks, f.rooks2;
    var found := false;
    while i >= 0 && !found
      invariant i < |line| == |f.line|
      invariant !found ==> line == f.line && FillDown(line, i, typ) == FillDown(f.line, f.i, typ)
      invariant found ==> 0 <= i && (line, i) == FillDown(f.line, f.i, typ)
      invariant rooks == (if found && typ == 'R' then f.rooks + [Letter('A', i)] else f.rooks)
      invariant rooks2 == (if found && typ == 'R' then f.rooks2 + [Letter('a', i)] else f.rooks2)
      decreases i + 1, if found then 0 else 1
    {
      if line[i] == ' ' {
        line := line[i := typ];
        if typ == 'R' {
          rooks := rooks + [Letter('A', i)];
          rooks2 := rooks2 + [Letter('a', i)];
        }
        found := true;
      } else {
        i := i - 1;
      }
    }
    r := Filling(line, i, rooks, rooks2);
  }

  /** The last placement: the types of "RKR" and its NUL, with the index carried over. */
  method PlaceRookKingRook(line: string) returns (r: BackRank)
    requires |line| == 8
    ensures r == FillTypes(line)
  {
    var f := Filling(line, 7, "", "");
    var t := 0;
    while t < 4
      invariant 0 <= t <= 4
      invariant f == FilledAfter(line, t)
      decreases 4 - t
    {
      f := PlaceType(f, RookKingRook(t));
      t := t + 1;
    }
    r := BackRank(f.line, f.rooks, f.rooks2);
  }

  /** The loop lowering every letter of the line. */
  method LowerLine(line: string) returns (lower: string)
    ensures lower == Lower(line)
  {
    lower := "";
    var k := 0;
    while k < |line|
      invariant 0 <= k <= |line|
      invariant lower == Lower(line)[..k]
      decreases |line| - k
    {
      lower := lower + [Letter(line[k], 'a' as int - 'A' as int)];
      k := k + 1;
    }
  }

  /** createFen960(index): the bishops, the knight search, the queen, the knights,
      rook - king - rook, and the text; it builds exactly what Fen960Spec describes. */
  method CreateFen960(index: int) returns (result: string)
    ensures result == Fen960Spec(index)
  {
    if index < 0 || index >= 960 {
      return "";
    }
    var line := BLANK_LINE;
    line := line[LightBishop(index) := 'B'];
    line := line[DarkBishop(index) := 'B'];
    var n1, n2 := SearchKnights(KnightIndex(index));
    line := PlaceQueen(line, QueenBlank(index));
    line := PlaceKnights(line, n1, n2);
    var rank := PlaceRookKingRook(line);
    var lower := LowerLine(rank.line);
    result := lower + "/pppppppp/8/8/8/8/PPPPPPPP/" + rank.line + " w " + rank.rooks + rank.rooks2 + " - 0 1";
  }
}
