// Piece codes, move flags and the constant tables of the 0x88 rules engine.

module Tables {

  // Piece types; a piece code is type + 8 * color.
  const PAWN := 1
  const KNIGHT := 2
  const BISHOP := 3
  const ROOK := 4
  const QUEEN := 5
  const KING := 6

  const WHITE := 0
  const BLACK := 1

  /** The value the engine stores in an int field that holds no square. */
  const EMPTY := -1

  // Move flags, one bit each; CASTLE is KSIDE | QSIDE.
  const BITS_NORMAL := 1
  const BITS_CAPTURE := 2
  const BITS_BIG_PAWN := 4
  const BITS_EP_CAPTURE := 8
  const BITS_PROMOTION := 16
  const BITS_KSIDE_CASTLE := 32
  const BITS_QSIDE_CASTLE := 64

  const SQUARE_A8 := 0
  const SQUARE_H1 := 119

  /**
   * The standard starting position, "rnbqkbnr/pppppppp/8/8/8/8/PPPPPPPP/RNBQKBNR w KQkq - 0 1",
   * spelled rank by rank and field by field so that proofs can take the text apart.
   */
  const START_PLACEMENT := "rnbqkbnr" + "/" + "pppppppp" + "/" + "8" + "/" + "8" + "/" + "8" + "/" + "8" + "/"
    + "PPPPPPPP" + "/" + "RNBQKBNR"
  const DEFAULT_POSITION := START_PLACEMENT + " " + "w" + " " + "KQkq" + " " + "-" + " " + "0" + " " + "1"

  /** Conversion of an int to the byte an uint8_t variable keeps. */
  function Byte(x: int): (r: int)
    ensures 0 <= r < 256
    ensures 0 <= x < 256 ==> r == x
  {
    x % 256
  }

  /** x & mask, tested for non-zero, for a mask with one bit set. */
  function HasBit(x: int, mask: int): (r: bool)
    requires mask > 0
  {
    (x / mask) % 2 == 1
  }

  /** Flags test `flags & BITS_CASTLE`. */
  function IsCastle(flags: int): bool
  {
    HasBit(flags, BITS_KSIDE_CASTLE) || HasBit(flags, BITS_QSIDE_CASTLE)
  }

  /** flags | BITS_PROMOTION */
  function WithPromotion(flags: int): (r: int)
    ensures HasBit(r, BITS_PROMOTION)
  {
    if HasBit(flags, BITS_PROMOTION) then flags else flags + BITS_PROMOTION
  }

  function Color(piece: int): int { piece / 8 }
  function Type(piece: int): int { piece % 8 }
  function Colorize(color: int, typ: int): int { typ + color * 8 }

  lemma ColorizeSplits(piece: int)
    ensures Colorize(Color(piece), Type(piece)) == piece
    ensures 0 <= Type(piece) < 8
  {
  }

  lemma ColorizeParts(color: int, typ: int)
    requires 0 <= typ < 8
    ensures Color(Colorize(color, typ)) == color && Type(Colorize(color, typ)) == typ
  {
  }

  /** Read of a C array: an index outside the array is read as 0. */
  function Get(s: seq<int>, i: int): (r: int)
    ensures 0 <= i < |s| ==> r == s[i]
    ensures !(0 <= i < |s|) ==> r == 0
  {
    if 0 <= i < |s| then s[i] else 0
  }

  /** Write to a C array: a write outside the array is dropped. */
  function Set(s: seq<int>, i: int, v: int): (r: seq<int>)
    ensures |r| == |s|
    ensures 0 <= i < |s| ==> r == s[i := v]
    ensures !(0 <= i < |s|) ==> r == s
  {
    if 0 <= i < |s| then s[i := v] else s
  }

  /** Write to an uint8_t board cell: the value is truncated to a byte. */
  function SetCell(b: seq<int>, i: int, v: int): (r: seq<int>)
    ensures |r| == |b|
    ensures 0 <= i < |b| ==> r == b[i := Byte(v)]
    ensures !(0 <= i < |b|) ==> r == b
  {
    Set(b, i, Byte(v))
  }

  /** Reading back after a write: the written cell gives the value, every other index
      what it gave before; a dropped write changes no read. */
  lemma ReadOverWrite(s: seq<int>, i: int, j: int, v: int)
    ensures Get(Set(s, i, v), j) == if j == i && 0 <= i < |s| then v else Get(s, j)
  {
  }

  /** The same for a board cell, whose value is the byte of the one written. */
  lemma CellOverWrite(b: seq<int>, i: int, j: int, v: int)
    ensures Get(SetCell(b, i, v), j) == if j == i && 0 <= i < |b| then Byte(v) else Get(b, j)
    ensures 0 <= Get(SetCell(b, i, v), i) < 256 || !(0 <= i < |b|)
  {
  }

  function CharAt(s: string, i: int): (c: char)
    ensures 0 <= i < |s| ==> c == s[i]
  {
    if 0 <= i < |s| then s[i] else '\0'
  }

  /** Lookup in a table laid out as rows of 16; outside the table reads 0. */
  function At(t: seq<seq<int>>, k: int): int
  {
    if 0 <= k && k / 16 < |t| && k % 16 < |t[k / 16]| then t[k / 16][k % 16] else 0
  }

  function Row(t: seq<seq<int>>, k: int): seq<int>
  {
    if 0 <= k < |t| then t[k] else []
  }

  // ATTACK_BITS[type]: the bit of ATTACKS[] that a piece of that type uses.
  const ATTACK_BITS: seq<int> := [0, 1, 2, 4, 8, 16, 32]

  /** ATTACKS[index] & ATTACK_BITS[type] != 0, one constant mask per type. */
  function AttackBit(index: int, typ: int): (r: bool)
    ensures r <==> 1 <= typ < |ATTACK_BITS| && HasBit(At(ATTACKS, index), ATTACK_BITS[typ])
  {
    var a := At(ATTACKS, index);
    if typ == PAWN then HasBit(a, 1)
    else if typ == KNIGHT then HasBit(a, 2)
    else if typ == BISHOP then HasBit(a, 4)
    else if typ == ROOK then HasBit(a, 8)
    else if typ == QUEEN then HasBit(a, 16)
    else if typ == KING then HasBit(a, 32)
    else false
  }

  const PAWN_OFFSETS: seq<seq<int>> := [[-16, -32, -17, -15], [16, 32, 17, 15]]

  const PIECE_OFFSETS: seq<seq<int>> := [
    [0, 0, 0, 0, 0, 0, 0, 0],
    [0, 0, 0, 0, 0, 0, 0, 0],
    [-18, -33, -31, -14, 18, 33, 31, 14],
    [-17, -15, 17, 15, 0, 0, 0, 0],
    [-16, 1, 16, -1, 0, 0, 0, 0],
    [-17, -16, -15, 1, 17, 16, 15, -1],
    [-17, -16, -15, 1, 17, 16, 15, -1]
  ]

  const PIECE_SCORES: seq<int> := [0, 100, 300, 300, 500, 900, 12800, 0, 0, 100, 300, 300, 500, 900, 12800, 0]
  const PROMOTE_SCORES: seq<int> := [0, 0, 200, 200, 400, 800, 11800, 0, 0, 0, 200, 200, 400, 800, 11800, 0]

  // Letters by piece code (index 15 is the string terminator).
  const PIECE_LOWER := " pnbrqk  pnbrqk"
  const PIECE_NAMES := " PNBRQK  pnbrqk"
  const PIECE_UPPER := " PNBRQK  PNBRQK"

  const PIECES: map<char, int> := map[
    'P' := 1, 'N' := 2, 'B' := 3, 'R' := 4, 'Q' := 5, 'K' := 6,
    'p' := 9, 'n' := 10, 'b' := 11, 'r' := 12, 'q' := 13, 'k' := 14]

  /** PIECES[c]: std::map's operator[] yields 0 for a letter that is not a piece. */
  function PieceCode(c: char): (r: int)
    ensures 0 <= r < 15 && r != 7 && r != 8
    ensures r != 0 <==> c in PIECES
  {
    if c in PIECES then PIECES[c] else 0
  }

  const EVAL_MODES: map<string, int> := map["hce" := 3, "mat" := 1, "mob" := 2, "nn" := 11, "null" := 0, "qui" := 7]
  const SEARCH_MODES: map<string, int> := map["ab" := 2, "mm" := 1, "rnd" := 0]

  const ATTACKS: seq<seq<int>> := [
    [ 20,   0,   0,   0,   0,   0,   0,  24,   0,   0,   0,   0,   0,   0,  20,   0],
    [  0,  20,   0,   0,   0,   0,   0,  24,   0,   0,   0,   0,   0,  20,   0,   0],
    [  0,   0,  20,   0,   0,   0,   0,  24,   0,   0,   0,   0,  20,   0,   0,   0],
    [  0,   0,   0,  20,   0,   0,   0,  24,   0,   0,   0,  20,   0,   0,   0,   0],
    [  0,   0,   0,   0,  20,   0,   0,  24,   0,   0,  20,   0,   0,   0,   0,   0],
    [  0,   0,   0,   0,   0,  20,   2,  24,   2,  20,   0,   0,   0,   0,   0,   0],
    [  0,   0,   0,   0,   0,   2,  53,  56,  53,   2,   0,   0,   0,   0,   0,   0],
    [ 24,  24,  24,  24,  24,  24,  56,   0,  56,  24,  24,  24,  24,  24,  24,   0],
    [  0,   0,   0,   0,   0,   2,  53,  56,  53,   2,   0,   0,   0,   0,   0,   0],
    [  0,   0,   0,   0,   0,  20,   2,  24,   2,  20,   0,   0,   0,   0,   0,   0],
    [  0,   0,   0,   0,  20,   0,   0,  24,   0,   0,  20,   0,   0,   0,   0,   0],
    [  0,   0,   0,  20,   0,   0,   0,  24,   0,   0,   0,  20,   0,   0,   0,   0],
    [  0,   0,  20,   0,   0,   0,   0,  24,   0,   0,   0,   0,  20,   0,   0,   0],
    [  0,  20,   0,   0,   0,   0,   0,  24,   0,   0,   0,   0,   0,  20,   0,   0],
    [ 20,   0,   0,   0,   0,   0,   0,  24,   0,   0,   0,   0,   0,   0,  20]
  ]
  const RAYS: seq<seq<int>> := [
    [ 17,   0,   0,   0,   0,   0,   0,  16,   0,   0,   0,   0,   0,   0,  15,   0],
    [  0,  17,   0,   0,   0,   0,   0,  16,   0,   0,   0,   0,   0,  15,   0,   0],
    [  0,   0,  17,   0,   0,   0,   0,  16,   0,   0,   0,   0,  15,   0,   0,   0],
    [  0,   0,   0,  17,   0,   0,   0,  16,   0,   0,   0,  15,   0,   0,   0,   0],
    [  0,   0,   0,   0,  17,   0,   0,  16,   0,   0,  15,   0,   0,   0,   0,   0],
    [  0,   0,   0,   0,   0,  17,   0,  16,   0,  15,   0,   0,   0,   0,   0,   0],
    [  0,   0,   0,   0,   0,   0,  17,  16,  15,   0,   0,   0,   0,   0,   0,   0],
    [  1,   1,   1,   1,   1,   1,   1,   0,  -1,  -1,  -1,  -1,  -1,  -1,  -1,   0],
    [  0,   0,   0,   0,   0,   0, -15, -16, -17,   0,   0,   0,   0,   0,   0,   0],
    [  0,   0,   0,   0,   0, -15,   0, -16,   0, -17,   0,   0,   0,   0,   0,   0],
    [  0,   0,   0,   0, -15,   0,   0, -16,   0,   0, -17,   0,   0,   0,   0,   0],
    [  0,   0,   0, -15,   0,   0,   0, -16,   0,   0,   0, -17,   0,   0,   0,   0],
    [  0,   0, -15,   0,   0,   0,   0, -16,   0,   0,   0,   0, -17,   0,   0,   0],
    [  0, -15,   0,   0,   0,   0,   0, -16,   0,   0,   0,   0,   0, -17,   0,   0],
    [-15,   0,   0,   0,   0,   0,   0, -16,   0,   0,   0,   0,   0,   0, -17]
  ]

  /**
   * STEPS[index]: for an entry that marks a sliding attack, the number of
   * RAYS[index] steps from the attacker to the target, (119 - index) / RAYS[index].
   */
  const STEPS: seq<seq<int>> := [
    [7, 0, 0, 0, 0, 0, 0, 7, 0, 0, 0, 0, 0, 0, 7, 0],
    [0, 6, 0, 0, 0, 0, 0, 6, 0, 0, 0, 0, 0, 6, 0, 0],
    [0, 0, 5, 0, 0, 0, 0, 5, 0, 0, 0, 0, 5, 0, 0, 0],
    [0, 0, 0, 4, 0, 0, 0, 4, 0, 0, 0, 4, 0, 0, 0, 0],
    [0, 0, 0, 0, 3, 0, 0, 3, 0, 0, 3, 0, 0, 0, 0, 0],
    [0, 0, 0, 0, 0, 2, 0, 2, 0, 2, 0, 0, 0, 0, 0, 0],
    [0, 0, 0, 0, 0, 0, 1, 1, 1, 0, 0, 0, 0, 0, 0, 0],
    [7, 6, 5, 4, 3, 2, 1, 0, 1, 2, 3, 4, 5, 6, 7, 0],
    [0, 0, 0, 0, 0, 0, 1, 1, 1, 0, 0, 0, 0, 0, 0, 0],
    [0, 0, 0, 0, 0, 2, 0, 2, 0, 2, 0, 0, 0, 0, 0, 0],
    [0, 0, 0, 0, 3, 0, 0, 3, 0, 0, 3, 0, 0, 0, 0, 0],
    [0, 0, 0, 4, 0, 0, 0, 4, 0, 0, 0, 4, 0, 0, 0, 0],
    [0, 0, 5, 0, 0, 0, 0, 5, 0, 0, 0, 0, 5, 0, 0, 0],
    [0, 6, 0, 0, 0, 0, 0, 6, 0, 0, 0, 0, 0, 6, 0, 0],
    [7, 0, 0, 0, 0, 0, 0, 7, 0, 0, 0, 0, 0, 0, 7]
  ]


  predicate Slides(a: int)
  {
    HasBit(a, 4) || HasBit(a, 8) || HasBit(a, 16)
  }

  /** A sliding attack along RAYS[index] reaches the target after STEPS[index] steps. */
  predicate RayReaches(k: int)
  {
    var r := At(RAYS, k);
    var n := At(STEPS, k);
    Slides(At(ATTACKS, k)) ==> r != 0 && n >= 1 && n * r == 119 - k
  }

  lemma RayRow0()
    ensures forall k | 0 <= k < 16 :: RayReaches(k)
  {
    forall k | 0 <= k < 16 ensures RayReaches(k) {
      if k == 0 {} else if k == 1 {} else if k == 2 {} else if k == 3 {} else if k == 4 {} else if k == 5 {} else if k == 6 {} else if k == 7 {} else if k == 8 {} else if k == 9 {} else if k == 10 {} else if k == 11 {} else if k == 12 {} else if k == 13 {} else if k == 14 {} else if k == 15 {}
    }
  }

  lemma RayRow1()
    ensures forall k | 16 <= k < 32 :: RayReaches(k)
  {
    forall k | 16 <= k < 32 ensures RayReaches(k) {
      if k == 16 {} else if k == 17 {} else if k == 18 {} else if k == 19 {} else if k == 20 {} else if k == 21 {} else if k == 22 {} else if k == 23 {} else if k == 24 {} else if k == 25 {} else if k == 26 {} else if k == 27 {} else if k == 28 {} else if k == 29 {} else if k == 30 {} else if k == 31 {}
    }
  }

  lemma RayRow2()
    ensures forall k | 32 <= k < 48 :: RayReaches(k)
  {
    forall k | 32 <= k < 48 ensures RayReaches(k) {
      if k == 32 {} else if k == 33 {} else if k == 34 {} else if k == 35 {} else if k == 36 {} else if k == 37 {} else if k == 38 {} else if k == 39 {} else if k == 40 {} else if k == 41 {} else if k == 42 {} else if k == 43 {} else if k == 44 {} else if k == 45 {} else if k == 46 {} else if k == 47 {}
    }
  }

  lemma RayRow3()
    ensures forall k | 48 <= k < 64 :: RayReaches(k)
  {
    forall k | 48 <= k < 64 ensures RayReaches(k) {
      if k == 48 {} else if k == 49 {} else if k == 50 {} else if k == 51 {} else if k == 52 {} else if k == 53 {} else if k == 54 {} else if k == 55 {} else if k == 56 {} else if k == 57 {} else if k == 58 {} else if k == 59 {} else if k == 60 {} else if k == 61 {} else if k == 62 {} else if k == 63 {}
    }
  }

  lemma RayRow4()
    ensures forall k | 64 <= k < 80 :: RayReaches(k)
  {
    forall k | 64 <= k < 80 ensures RayReaches(k) {
      if k == 64 {} else if k == 65 {} else if k == 66 {} else if k == 67 {} else if k == 68 {} else if k == 69 {} else if k == 70 {} else if k == 71 {} else if k == 72 {} else if k == 73 {} else if k == 74 {} else if k == 75 {} else if k == 76 {} else if k == 77 {} else if k == 78 {} else if k == 79 {}
    }
  }

  lemma RayRow5()
    ensures forall k | 80 <= k < 96 :: RayReaches(k)
  {
    forall k | 80 <= k < 96 ensures RayReaches(k) {
      if k == 80 {} else if k == 81 {} else if k == 82 {} else if k == 83 {} else if k == 84 {} else if k == 85 {} else if k == 86 {} else if k == 87 {} else if k == 88 {} else if k == 89 {} else if k == 90 {} else if k == 91 {} else if k == 92 {} else if k == 93 {} else if k == 94 {} else if k == 95 {}
    }
  }

  lemma RayRow6()
    ensures forall k | 96 <= k < 112 :: RayReaches(k)
  {
    forall k | 96 <= k < 112 ensures RayReaches(k) {
      if k == 96 {} else if k == 97 {} else if k == 98 {} else if k == 99 {} else if k == 100 {} else if k == 101 {} else if k == 102 {} else if k == 103 {} else if k == 104 {} else if k == 105 {} else if k == 106 {} else if k == 107 {} else if k == 108 {} else if k == 109 {} else if k == 110 {} else if k == 111 {}
    }
  }

  lemma RayRow7()
    ensures forall k | 112 <= k < 128 :: RayReaches(k)
  {
    forall k | 112 <= k < 128 ensures RayReaches(k) {
      if k == 112 {} else if k == 113 {} else if k == 114 {} else if k == 115 {} else if k == 116 {} else if k == 117 {} else if k == 118 {} else if k == 119 {} else if k == 120 {} else if k == 121 {} else if k == 122 {} else if k == 123 {} else if k == 124 {} else if k == 125 {} else if k == 126 {} else if k == 127 {}
    }
  }

  lemma RayRow8()
    ensures forall k | 128 <= k < 144 :: RayReaches(k)
  {
    forall k | 128 <= k < 144 ensures RayReaches(k) {
      if k == 128 {} else if k == 129 {} else if k == 130 {} else if k == 131 {} else if k == 132 {} else if k == 133 {} else if k == 134 {} else if k == 135 {} else if k == 136 {} else if k == 137 {} else if k == 138 {} else if k == 139 {} else if k == 140 {} else if k == 141 {} else if k == 142 {} else if k == 143 {}
    }
  }

  lemma RayRow9()
    ensures forall k | 144 <= k < 160 :: RayReaches(k)
  {
    forall k | 144 <= k < 160 ensures RayReaches(k) {
      if k == 144 {} else if k == 145 {} else if k == 146 {} else if k == 147 {} else if k == 148 {} else if k == 149 {} else if k == 150 {} else if k == 151 {} else if k == 152 {} else if k == 153 {} else if k == 154 {} else if k == 155 {} else if k == 156 {} else if k == 157 {} else if k == 158 {} else if k == 159 {}
    }
  }

  lemma RayRow10()
    ensures forall k | 160 <= k < 176 :: RayReaches(k)
  {
    forall k | 160 <= k < 176 ensures RayReaches(k) {
      if k == 160 {} else if k == 161 {} else if k == 162 {} else if k == 163 {} else if k == 164 {} else if k == 165 {} else if k == 166 {} else if k == 167 {} else if k == 168 {} else if k == 169 {} else if k == 170 {} else if k == 171 {} else if k == 172 {} else if k == 173 {} else if k == 174 {} else if k == 175 {}
    }
  }

  lemma RayRow11()
    ensures forall k | 176 <= k < 192 :: RayReaches(k)
  {
    forall k | 176 <= k < 192 ensures RayReaches(k) {
      if k == 176 {} else if k == 177 {} else if k == 178 {} else if k == 179 {} else if k == 180 {} else if k == 181 {} else if k == 182 {} else if k == 183 {} else if k == 184 {} else if k == 185 {} else if k == 186 {} else if k == 187 {} else if k == 188 {} else if k == 189 {} else if k == 190 {} else if k == 191 {}
    }
  }

  lemma RayRow12()
    ensures forall k | 192 <= k < 208 :: RayReaches(k)
  {
    forall k | 192 <= k < 208 ensures RayReaches(k) {
      if k == 192 {} else if k == 193 {} else if k == 194 {} else if k == 195 {} else if k == 196 {} else if k == 197 {} else if k == 198 {} else if k == 199 {} else if k == 200 {} else if k == 201 {} else if k == 202 {} else if k == 203 {} else if k == 204 {} else if k == 205 {} else if k == 206 {} else if k == 207 {}
    }
  }

  lemma RayRow13()
    ensures forall k | 208 <= k < 224 :: RayReaches(k)
  {
    forall k | 208 <= k < 224 ensures RayReaches(k) {
      if k == 208 {} else if k == 209 {} else if k == 210 {} else if k == 211 {} else if k == 212 {} else if k == 213 {} else if k == 214 {} else if k == 215 {} else if k == 216 {} else if k == 217 {} else if k == 218 {} else if k == 219 {} else if k == 220 {} else if k == 221 {} else if k == 222 {} else if k == 223 {}
    }
  }

  lemma RayRow14()
    ensures forall k | 224 <= k < 239 :: RayReaches(k)
  {
    forall k | 224 <= k < 239 ensures RayReaches(k) {
      if k == 224 {} else if k == 225 {} else if k == 226 {} else if k == 227 {} else if k == 228 {} else if k == 229 {} else if k == 230 {} else if k == 231 {} else if k == 232 {} else if k == 233 {} else if k == 234 {} else if k == 235 {} else if k == 236 {} else if k == 237 {} else if k == 238 {}
    }
  }

  /**
   * For every index of the attack table whose entry marks a bishop, rook or
   * queen attack, the ray offset walks from the attacker onto the target.
   */
  lemma RaysReachTarget()
    ensures forall k | 0 <= k < 239 :: RayReaches(k)
  {
    RayRow0(); RayRow1(); RayRow2(); RayRow3(); RayRow4();
    RayRow5(); RayRow6(); RayRow7(); RayRow8(); RayRow9();
    RayRow10(); RayRow11(); RayRow12(); RayRow13(); RayRow14();
  }
}
