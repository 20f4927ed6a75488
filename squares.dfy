// 0x88 square arithmetic and algebraic square names.

module Squares {
  import opened Tables

  /** FILE(square), i.e. square & 15. */
  function File(sq: int): int { sq % 16 }

  /** RANK(square), i.e. square >> 4 (an arithmetic shift rounds down). */
  function Rank(sq: int): int { sq / 16 }

  /** square & 0x88 != 0, on the two's complement form of square. */
  predicate OffBoard(sq: int) { sq % 16 >= 8 || sq % 256 >= 128 }

  /** The 64 playing squares: rank 0..7 (rank 0 is the eighth rank), file 0..7. */
  predicate OnBoard(sq: int) { 0 <= sq < 128 && sq % 16 < 8 }

  /** The 0x88 test is exact for squares at most a few steps away from the board. */
  lemma OffBoardNear(sq: int)
    requires -128 <= sq < 256
    ensures OffBoard(sq) <==> !OnBoard(sq)
  {
  }

  lemma OnBoardParts(sq: int)
    requires OnBoard(sq)
    ensures 0 <= Rank(sq) < 8 && 0 <= File(sq) < 8 && sq == File(sq) + 16 * Rank(sq)
  {
  }

  /** Character conversion of an int that the engine appends to a string. */
  function ToChar(n: int): char
  {
    (n % 256) as char
  }

  /**
   * anToSquare: file letter plus (rank digit << 4), truncated to a byte;
   * text shorter than two characters gives EMPTY as a byte (255).
   */
  function AnToSquare(an: string): (r: int)
    ensures 0 <= r < 256
    ensures |an| < 2 ==> r == 255
    ensures |an| >= 2 && 'a' <= an[0] <= 'h' && '1' <= an[1] <= '8' ==>
      OnBoard(r) && File(r) == an[0] as int - 'a' as int && Rank(r) == '8' as int - an[1] as int
  {
    if |an| < 2 then Byte(EMPTY)
    else Byte((an[0] as int - 'a' as int) + ('8' as int - an[1] as int) * 16)
  }

  /**
   * squareToAn: file letter then rank digit; with check set, a square whose
   * file or rank is outside 0..7 has no name.
   */
  function SquareToAn(sq: int, check: bool): (r: string)
    ensures r == "" <==> check && !OnBoard(sq)
    ensures r != "" ==> |r| == 2
    ensures OnBoard(sq) ==> 'a' <= r[0] <= 'h' && '1' <= r[1] <= '8'
  {
    var file := File(sq);
    var rank := Rank(sq);
    if check && (file < 0 || file > 7 || rank < 0 || rank > 7) then ""
    else [ToChar('a' as int + file), ToChar('8' as int - rank)]
  }

  /** A square name is read back as the square it names. */
  lemma NameRoundTrip(an: string)
    requires |an| == 2 && 'a' <= an[0] <= 'h' && '1' <= an[1] <= '8'
    ensures SquareToAn(AnToSquare(an), true) == an
  {
  }

  /** A playing square is named, and its name is read back as the square. */
  lemma SquareRoundTrip(sq: int)
    requires OnBoard(sq)
    ensures AnToSquare(SquareToAn(sq, true)) == sq
    ensures SquareToAn(sq, false) == SquareToAn(sq, true)
  {
  }

  lemma SquareNameExamples()
    ensures AnToSquare("c2") == 98
    ensures SquareToAn(112, true) == "a1"
    ensures AnToSquare("") == 255 && AnToSquare("e") == 255
  {
  }
}
