// The move record and the undo record kept for every ply.

module Moves {
  import opened Tables

  /** A move; every numeric field is a byte, m holds SAN or UCI text once computed. */
  datatype Move = Move(capture: int, flags: int, from: int, m: string, piece: int, promote: int, to: int)

  const NULL_MOVE := Move(0, 0, 0, "", 0, 0, 0)

  /** What makes a move undoable: the fields a move overwrites, and the move itself. */
  datatype State = State(castling: seq<int>, epSquare: int, halfMoves: int, kings: seq<int>, move: Move)

  /** A value-initialised State, as a vector grows. */
  const BLANK_STATE := State([0, 0, 0, 0], 0, 0, [0, 0], NULL_MOVE)

  datatype Option<T> = None | Some(value: T)

  /** A move as the list of moves with FEN returns it (MoveText). */
  datatype MoveText = MoveText(move: Move, fen: string, ply: int, score: int)
}
