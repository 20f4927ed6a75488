# A verified model of a 0x88 chess rules engine and its chart adapter

This project models two parts of a chess analysis front end in Dafny.

**The `Chess` class of the C++ engine.** It keeps a 128-cell 0x88 board and these fields:
- the castling rook squares and the en-passant square;
- the half-move clock and the move number;
- the king squares and the material totals;
- the side to move, the ply, and a history of undo records, one per ply.

The model covers these operations on that state:
- loading and writing FEN, the notation of section 16.1 of the PGN standard;
- generating pseudo-legal and legal moves, and attack detection;
- making and unmaking moves;
- producing and parsing SAN, the notation of section 8.2.3 of the PGN standard;
- UCI coordinate moves and square names;
- the Chess960 start-position generator;
- the `key=value` option line.

**The chart-data adapter of the web page (`js/graph.js`).** It keeps six categories of line charts (depth, eval, node, speed, tb and time). Each category has:
- a label array, indexed by move number;
- several point series, also indexed by move number.

Move records arrive one at a time from a live source, or as a batch of plies for the two players.

The model has two layers.

**Pure layer.** The rules are functions over values, one module per concern:

| module | what it holds |
|---|---|
| `Tables` | piece codes, flags and constant tables |
| `Squares` | 0x88 arithmetic and square names |
| `Moves` | the move and undo records |
| `Rules` | positions, attacks, make and unmake |
| `MoveGen` | move generation and the legal filter |
| `Fen` | FEN load and FEN writing |
| `StartFen` | the start position round trip |
| `Fen960` | the Chess960 generator |
| `San` | decorator removal |
| `Notation` | SAN and UCI |
| `Options` | the option line |
| `Play` | playing SAN, object and UCI moves, and move lists |

**Imperative layer.** `Engine.Chess` is a class:
- the board is an `array<int>`;
- the other fields are sequences and integers;
- each method follows the loops of the source;
- each method is proved to leave exactly the state that the pure layer's function describes.

`Graph.ChartAdapter` does the same for the chart data. JavaScript's sparse arrays become maps from index to value.

Out-of-range accesses are undefined behaviour in C++. The model makes them total:
- reading outside an array gives 0 (`Tables.Get` and `Tables.CharAt`);
- writing outside the board writes nothing (`Tables.SetCell`);
- undoing at a ply the history does not reach reads the value-initialised record (`Rules.RecordAt`), as after loading a position at a later move.

`EMPTY` is -1 in the `int` fields. Where the source returns it as a `uint8_t` it is 255.

The move generation and play results hold for a *consistent* position (`MoveGen.Consistent`):
- every cell holds 0 or a piece code;
- each recorded king square holds that king;
- each castling entry is EMPTY or holds that side's rook;
- the en-passant square is EMPTY, or is empty with the opponent's pawn just past it;
- no pawn of the side to move stands on its last rank.

The loaded start position is consistent (`StartFen.StartConsistent`), and every loaded board holds piece codes only (`Fen.LoadPieceCodes`). load() does not check the rest, so some loadable texts give positions the results do not cover; "## Left out" lists them.

## Model

| member | source | states |
|---|---|---|
| Tables.Byte | c++/chess.cpp:230-238 | a value stored in a `uint8_t` field lies in 0..255 and is itself when already a byte |
| Tables.WithPromotion | c++/chess.cpp:301-302 | the flags of a promotion move carry the promotion bit |
| Tables.ColorizeSplits | c++/chess.cpp:32-51 | every piece code is COLORIZE of its own COLOR and TYPE, and TYPE is below 8 |
| Tables.ColorizeParts | c++/chess.cpp:32-51 | COLOR and TYPE recover the colour and the type a piece code was built from |
| Tables.ReadOverWrite | c++/chess.cpp:271-292 | after a write, reading the written index gives the value and any other index what it gave before; a write outside the array changes no read |
| Tables.CellOverWrite | c++/chess.cpp:271-292 | after a board write, the cell reads as the byte of the value written, every other cell as before; a write off the 128 cells changes no read |
| Tables.AttackBit | c++/chess.cpp:455 | the attack-table test holds exactly when the ATTACKS entry has the bit of that piece type |
| Tables.PieceCode | c++/chess.cpp:208-221 | the PIECES lookup is non-zero exactly for the twelve piece letters and never gives 7 or 8 |
| Tables.RaysReachTarget | c++/chess.cpp:161-177 | for every ATTACKS index, stepping by the RAYS entry from the attacker reaches the target square after a whole number of steps |
| Squares.OffBoardNear | c++/chess.cpp:437 | for squares near the board, the `& 0x88` test holds exactly off the 64 playing squares |
| Squares.OnBoardParts | c++/chess.cpp:37-46 | a playing square has a file and a rank in 0..7 and equals file + 16 * rank |
| Squares.AnToSquare | c++/chess.cpp:418-426 | a name shorter than 2 gives EMPTY (255); a name a1..h8 gives the playing square of that file and rank |
| Squares.SquareToAn | c++/chess.cpp:1614-1627 | the result is empty exactly when checking is on and the square is off the board; otherwise it is a 2-letter name, a1..h8 for a playing square |
| Squares.NameRoundTrip | c++/chess.cpp:418-426 | naming the square of any name a1..h8 gives that name back |
| Squares.SquareRoundTrip | c++/chess.cpp:1618-1627 | reading the name of any playing square gives the square back, with or without the check |
| Rules.AnyFromMeans | c++/chess.cpp:434-490 | the square loop of attacked() with its 0x88 skip finds an attacker exactly when some playing square holds one |
| Rules.CastleSquares | c++/chess.cpp:1191-1200 | for a king anywhere on the board, the castling targets of the king and the rook are playing squares |
| Rules.MoveInOrderIsMakePos | c++/chess.cpp:1172-1255 | the statements of moveRaw, taken in source order, compute the position MakePos describes block by block |
| Rules.MoveBookkeeping | c++/chess.cpp:1186-1254 | after a move the turn flips and the ply grows by one; the move number grows after a Black move only; the half-move clock resets after a pawn move or a capture and otherwise grows by one; an en-passant square is set only by a double pawn push; a king move clears both of its side's castling entries and puts the king on its target |
| Rules.Grow | c++/chess.cpp:327-337 | growing the history keeps every old record and pads with blank records to the requested length |
| Rules.AddStateKeeps | c++/chess.cpp:327-337 | addState records the undo state of the move at index ply + 1 and leaves every other record as it was |
| Rules.RecordAt | c++/chess.cpp:1648 | the record read for a ply is the history's entry when the history reaches that ply, and the value-initialised record otherwise |
| Rules.UndoGame | c++/chess.cpp:1644-1692 | undoMove does nothing when the ply is negative and never changes the history; otherwise the ply steps back, the turn flips, and the castling entries and kings are those of the record read for that ply |
| Rules.CastleBoardCells | c++/chess.cpp:1191-1200 | castling empties the king and rook squares and places the king and the rook on their targets, in that order, and nothing else |
| Rules.UncastleBoardCells | c++/chess.cpp:1664-1673 | undoing a castle empties the two targets and puts the king and the rook back on the squares the undo record names |
| Rules.PlainMadeCells | c++/chess.cpp:1209-1249 | a non-castling move moves the piece, removes a pawn taken en passant, and writes the promoted piece, and changes no other cell |
| Rules.PlainUnmadeCells | c++/chess.cpp:1674-1690 | undoing a non-castling move puts the piece back, empties the target, and restores a captured piece or a pawn taken en passant |
| Rules.CastleBoardRestores | c++/chess.cpp:1664-1673 | for a castle that fits the position, undoing it gives back the board before it |
| Rules.PlainBoardRestores | c++/chess.cpp:1674-1690 | for a non-castling move that fits the position, undoing it gives back the board before it |
| Rules.BoardRestores | c++/chess.cpp:1644-1692 | for every move that fits the position, undo after make gives back the board |
| Rules.MaterialsRestore | c++/chess.cpp:1680-1690 | for a move that fits the position, make then undo gives back both material totals, through captures, en-passant captures and promotions |
| Rules.MakeUnmakeRestores | c++/chess.cpp:1644-1692 | for every move that fits the position, unmaking with the saved record gives back the whole position: board, castling, en-passant square, clocks, kings, materials, turn, move number and ply |
| Rules.MoveUndoRestores | c++/chess.cpp:1172-1255 | for a move that fits the position, at ply -1 or later, moveRaw then undoMove gives back the position, and the history with the move's record added |
| MoveGen.PromotionQuartet | c++/chess.cpp:297-308 | a pawn move to the first or last rank gives four moves promoting to Q, R, B and N, in that order, each with the promotion bit; any other move gives one move with its flags; all keep the piece and squares |
| MoveGen.PieceRowShort | c++/chess.cpp:96-104 | every PIECE_OFFSETS row holds steps of at most 33 squares |
| MoveGen.SquareTable | c++/chess.cpp:813-883 | the moves of every square, as the square loop of createMoves generates them |
| MoveGen.QuietFits | c++/chess.cpp:829-840 | a quiet move or double push onto an empty square yields moves that fit the position |
| MoveGen.CaptureFits | c++/chess.cpp:842-852 | a capture of an enemy piece yields moves that fit the position |
| MoveGen.EnPassantFits | c++/chess.cpp:848-851 | an en-passant capture next to an enemy pawn yields moves that fit the position |
| MoveGen.PawnMovesFit | c++/chess.cpp:826-852 | in a position holding piece codes only, with a consistent en-passant square, every move generated for a pawn of the side to move off its last rank fits the position |
| MoveGen.RayWalkFits | c++/chess.cpp:855-880 | every move generated along a ray fits the position |
| MoveGen.PieceRaysFit | c++/chess.cpp:853-882 | every move of a knight, bishop, rook, queen or king fits the position |
| MoveGen.SquareMovesFit | c++/chess.cpp:813-883 | in a consistent position, every move generated from one square fits the position |
| MoveGen.GenFromFit | c++/chess.cpp:813-883 | every move of the square loop fits a consistent position |
| MoveGen.CastleMovesFit | c++/chess.cpp:886-926 | in a consistent position, every castle generated fits the position, with the king and the rook on their squares and the targets free |
| MoveGen.PseudoMovesFit | c++/chess.cpp:803-934 | in a consistent position, every pseudo-legal move fits the position it was generated in, so it can be made and unmade |
| MoveGen.KeepSafe | c++/chess.cpp:939-946 | keeping the safe moves never lengthens the list |
| MoveGen.KeepSafeMeans | c++/chess.cpp:939-946 | the safe moves are a subsequence of the list, holding exactly the listed moves after which the mover's king is not attacked |
| MoveGen.FilterLegal | c++/chess.cpp:939-946 | the make, test and undo loop leaves the ply as it was and keeps at most the moves it is given |
| MoveGen.FilterLegalKeepsSafe | c++/chess.cpp:939-946 | when every move of the list fits the position, the make, test and undo loop restores the position, keeps the history up to the ply, and keeps exactly the safe moves in order |
| MoveGen.LegalMovesAreSafe | c++/chess.cpp:803-947 | in a consistent position at ply -1 or later, the legal moves are a subsequence of the pseudo-legal moves, containing exactly those after which the mover's king is not attacked; the position is restored |
| Fen.PutSpec | c++/chess.cpp:1428-1434 | put() keeps the sizes of the board, kings and materials |
| Fen.PutPlaces | c++/chess.cpp:1428-1434 | put() writes the piece on its square only; a king moves that side's king square, any other piece adds its score to its side's materials |
| Fen.ScanChar | c++/chess.cpp:1022-1064 | one character of the load loop keeps the array sizes and the turn a colour, and records a field start only at the current index |
| Fen.ScanFrom | c++/chess.cpp:1022-1064 | the load loop keeps the array sizes, the turn a colour and the field starts inside the text |
| Fen.ClearBoard | c++/chess.cpp:513-530 | clear() leaves all 128 cells empty |
| Fen.CastleLetter | c++/chess.cpp:1080-1092 | reading a castling letter keeps the four castling entries |
| Fen.CastleLetters | c++/chess.cpp:1078-1093 | reading the castling field keeps the four castling entries |
| Fen.RightRook | c++/chess.cpp:1101-1106 | a rook found by the right scan is on the king's rank, at or right of the start, within files a..h |
| Fen.LeftRook | c++/chess.cpp:1108-1113 | a rook found by the left scan, with the intended file guard, is on the king's rank, at or left of the start, within files a..h |
| Fen.AsWrittenGuardAlwaysHolds | c++/chess.cpp:1108 | the guard `FILE(i) >= 0` as written holds for every index |
| Fen.AsWrittenLeftScanLeavesRank | c++/chess.cpp:1108-1113 | on the board of "r3k3/8/8/8/8/8/R7/4K3 w K - 0 1", the as-written left scan from d1 runs past a1 and records the a2 rook (96, letter 'A', another rank), where the corrected scan finds nothing; Black's scan from d8 finds the a8 rook on its rank |
| Fen.AsWrittenLeftScanRunsOff | c++/chess.cpp:1108-1113 | on a board with the two kings only, the as-written left scan finds no rook however long it runs |
| Fen.LeftRookOnKingsRank | c++/chess.cpp:1108-1113 | the corrected scan stays on the king's rank left of the king, and stops without a rook on the kings-only board |
| Fen.FixSide | c++/chess.cpp:1101-1113 | recording a rook found by a scan keeps four castling entries |
| Fen.FixColor | c++/chess.cpp:1097-1114 | fixing one colour's castling keeps four castling entries |
| Fen.CastleFix | c++/chess.cpp:1078-1117 | the castling post-processing of load() always leaves four castling entries |
| Fen.ScannedPos | c++/chess.cpp:1068-1071 | the loaded position has ply = 2 * move number - 3 + turn; the move number read is kept when it is at least 1 and is 1 otherwise (the corrected reading in Findings), so the ply is at least -1 |
| Fen.LoadSpec | c++/chess.cpp:1007-1120 | loading any non-empty text gives a well-formed position whose ply is 2 * move number - 3 + turn, with move number at least 1 and ply at least -1; the start-of-game test that clears FRC and checks the castling rooks uses the move number as read |
| Fen.LoadPieceCodes | c++/chess.cpp:1030-1041 | whatever the text, every cell of the loaded board is 0 or a piece code below 16, since clear() empties the board and put() writes PIECES codes only |
| Fen.MoveFieldUnread | c++/chess.cpp:1022-1064 | before the fifth space the load loop never changes its move counter |
| Fen.AsWrittenNoMoveNumber | c++/chess.cpp:1014-1071 | as written, a text with fewer than five spaces keeps move number 0; White to move then gives ply -3, at which addState's size_t bound is 2^64 - 1, and Black gives ply -2, whose record index is -1 |
| Fen.KingsOnlyNoMoveField | c++/chess.cpp:1024-1031 | the text "4k3/8/8/8/8/8/8/4K3 w - -" has three spaces, so it has no move field |
| Fen.LoadLeavesRecordSlot | c++/chess.cpp:327-337 | with the corrected move number every load leaves move number at least 1 and ply at least -1, so the record index ply + 1 exists and the size_t conversion of ply + 2 changes nothing |
| Fen.EmptyRun | c++/chess.cpp:674-686 | a run of empty squares is written as one digit, with the run's value, exactly when it is non-empty |
| Fen.RookLetter | c++/chess.cpp:696-704 | an FRC castling entry is written as a letter exactly when it holds a rook square |
| Fen.Kqkq | c++/chess.cpp:706-711 | the KQkq letters are empty exactly when no castling entry is set, and never "-" |
| Fen.CastleText | c++/chess.cpp:694-715 | the castling field is never empty; in standard chess it is "-" exactly when no castling entry is set |
| Fen.EpText | c++/chess.cpp:717-723 | the en-passant field is "-" exactly for EMPTY, and the square name for a playing square |
| Fen.DigitChar | c++/chess.cpp:725 | a digit character reads back as its digit |
| Fen.NatText | c++/chess.cpp:725 | to_string of a natural number is a non-empty run of digits without a leading zero |
| Fen.IntText | c++/chess.cpp:725 | to_string of an integer is non-empty and starts with '-' exactly for negatives |
| Fen.NatTextRoundTrip | c++/chess.cpp:1058-1063 | reading back the digits written for a natural number gives the number, as the clock fields of load() do |
| Fen.ScanNumberField | c++/chess.cpp:1058-1063 | over a space-free tail, the clock steps of the load loop accumulate its decimal value into the half-move or move counter |
| StartFen.ScanPlacement | c++/chess.cpp:1034-1043 | the placement field of DEFAULT_POSITION, scanned on a clear board, builds the start board with the kings on 116 and 4 |
| StartFen.ScanFields | c++/chess.cpp:1022-1064 | the remaining fields of DEFAULT_POSITION read white to move, castling "KQkq", en passant "-", clocks 0 and 1 |
| StartFen.ScanDefault | c++/chess.cpp:1022-1064 | the whole load loop over DEFAULT_POSITION gives the start board, its kings, and the other fields |
| StartFen.ReadKqkq | c++/chess.cpp:1078-1093 | the castling letters KQkq on the start board set the rooks 119, 112, 7 and 0 with no error and no FRC |
| StartFen.LoadDefault | c++/chess.cpp:1007-1120 | loading DEFAULT_POSITION gives the start board, castling rooks 119, 112, 7 and 0, kings 116 and 4, no en-passant square, clocks 0 and 1, white to move, ply -1, no FRC, and keeps the text |
| StartFen.StartConsistent | c++/chess.cpp:35 | the position loaded from DEFAULT_POSITION is consistent: kings and the four castling rooks on their recorded squares, piece codes only, no en-passant square, no white pawn on the eighth rank |
| StartFen.PlacementText | c++/chess.cpp:666-691 | the board loop of createFen on the start board writes the placement field of DEFAULT_POSITION |
| StartFen.DefaultRoundTrip | c++/chess.cpp:35 | createFen() after load(DEFAULT_POSITION) gives DEFAULT_POSITION back |
| Fen960.FillDown | c++/chess.cpp:773-786 | the downward search stops at or below its start and keeps the rank's length |
| Fen960.FillDownMeans | c++/chess.cpp:773-786 | the downward search fills the highest blank at or below its start, or changes nothing when there is none |
| Fen960.PlaceFromPlaces | c++/chess.cpp:754-762 | the queen loop writes the piece on the n-th blank and nowhere else |
| Fen960.NthBlankOrder | c++/chess.cpp:764-771 | an earlier blank number means an earlier square |
| Fen960.KnightsTwo | c++/chess.cpp:764-771 | the knight loop writes knights on the n1-th and n2-th blanks and nowhere else |
| Fen960.KnightSearchFinds | c++/chess.cpp:748-752 | for each of the ten knight indexes the search finds two distinct blank numbers n1 < n2 <= 4 |
| Fen960.FillsRookKingRook | c++/chess.cpp:773-786 | with three blanks left, the last loop puts a rook, the king and a rook on them, from the right |
| Fen960.FillBlank | c++/chess.cpp:754-786 | filling a blank uses up one blank and adds one piece letter |
| Fen960.BishopFiles | c++/chess.cpp:743-746 | the first bishop goes on an odd file and the second on an even one |
| Fen960.QueenStage | c++/chess.cpp:754-762 | after the queen, the rank holds two bishops on opposite colours, one queen and five blanks |
| Fen960.KnightStage | c++/chess.cpp:764-771 | after the knights, the rank holds two bishops, one queen, two knights and three blanks |
| Fen960.RookStage | c++/chess.cpp:773-786 | the last loop fills a rook, the king and a rook, king between rooks, and names the rooks' files as the castling field |
| Fen960.Fen960RankIsChess960 | c++/chess.cpp:734-794 | for every index in [0, 960) the back rank is a permutation of RNBQKBNR with the bishops on opposite colours and the king between the rooks, whose files make the castling field |
| Fen960.Fen960Spec | c++/chess.cpp:735-736 | the result is empty exactly for an index outside [0, 960) |
| Fen960.Fen960Standard | c++/chess.cpp:734-794 | index 518 gives the standard start position with castling field HAha |
| Fen960.SearchKnights | c++/chess.cpp:748-752 | the knight-index loop computes the search the specification defines |
| Fen960.PlaceQueen | c++/chess.cpp:754-762 | the queen loop places the queen on the blank the spec names |
| Fen960.PlaceKnights | c++/chess.cpp:764-771 | the knight loop places the knights on the blanks the spec names |
| Fen960.PlaceRookKingRook | c++/chess.cpp:773-786 | the rook-king-rook loop gives the spec's back rank and rook files |
| Fen960.LowerLine | c++/chess.cpp:788-790 | the lowering loop gives the lower-case copy of the rank |
| Fen960.CreateFen960 | c++/chess.cpp:734-794 | createFen960 returns the FEN the specification defines for every index |
| San.UndecoratedLength | c++/chess.cpp:497-499 | everything after the cut is a decorator, and the character before it is not |
| San.LastEquals | c++/chess.cpp:500-504 | the found '=' is the rightmost one before the cut, or none |
| San.CleanSan | c++/chess.cpp:492-508 | the loops of cleanSan compute the cleaned SAN |
| San.CleanSanKeeps | c++/chess.cpp:492-508 | cleanSan drops the trailing decorators and then the rightmost '=', keeping every other character in order |
| Notation.Ambiguities | c++/chess.cpp:367-388 | the counts are zero exactly when no other same-type move reaches the target, and a zero same-file or same-rank count rules out such rivals on that file or rank |
| Notation.Disambiguation | c++/chess.cpp:390-398 | the disambiguator is empty exactly when no rival move exists, and at most two characters |
| Notation.DisambiguationIdentifies | c++/chess.cpp:390-398 | for each rival move, the disambiguator is a file or rank the rival does not share, or the whole square |
| Notation.Disambiguate | c++/chess.cpp:367-399 | the loop of disambiguate computes the disambiguator |
| Notation.MoveToSan | c++/chess.cpp:1284-1310 | moveToSan builds the SAN the specification defines |
| Notation.SanShape | c++/chess.cpp:1284-1310 | castles read O-O or O-O-O; a piece move starts with its letter and the disambiguator; a pawn capture starts with the from-file and 'x'; a promotion ends with '=' and the piece letter; otherwise the target square ends the text |
| Notation.SanCaptureMark | c++/chess.cpp:1296-1302 | the SAN has an 'x' before the target exactly for captures, and the target name follows the prefix |
| Notation.CleanSans | c++/chess.cpp:1453-1457 | the cleaned SAN of every listed move, one per move |
| Notation.FirstExact | c++/chess.cpp:1453-1457 | the exact match is the first listed move whose cleaned SAN equals the cleaned text, or none |
| Notation.FirstSloppy | c++/chess.cpp:1501-1510 | the sloppy match is the first listed move that fits the parsed target, type, file, rank and promotion, or none |
| Notation.ParseSloppy | c++/chess.cpp:1459-1499 | the backward parse of the sloppy text computes the key the specification defines |
| Notation.SanToMove | c++/chess.cpp:1450-1512 | sanToMove returns the move the specification defines |
| Notation.ExactIndex | c++/chess.cpp:1453-1457 | the exact loop finds the first exact match |
| Notation.SloppyIndex | c++/chess.cpp:1501-1510 | the sloppy loop finds the first sloppy match |
| Notation.SanRoundTrip | c++/chess.cpp:1450-1457 | parsing the SAN of a listed move gives the first listed move with the same cleaned SAN, carrying that text; when no earlier move shares it, it gives the move itself |
| Notation.FirstExactFinds | c++/chess.cpp:1453-1457 | a listed SAN is always found, at or before its own index |
| Notation.SanToMoveResult | c++/chess.cpp:1450-1512 | the result is NULL_MOVE or a listed move with its text set; with the sloppy parser off, a text matching no SAN gives NULL_MOVE |
| Notation.UciRoundTrip | c++/chess.cpp:1634-1639 | the UCI text of a move on the board is 4 or 5 letters whose squares and promotion letter read back as the move's |
| Options.WordEnd | c++/chess.cpp:545-548 | the word ends at the first white space or at the end of the text |
| Options.WordsFrom | c++/chess.cpp:545-548 | every word read is non-empty and has no white space |
| Options.WordsOfJoin | c++/chess.cpp:545-548 | splitting words joined by spaces gives them back |
| Options.AtoiRoundTrip | c++/chess.cpp:554 | atoi reads back any integer written as text |
| Options.ApplyWord | c++/chess.cpp:550-551 | a word shorter than 3 or without '=' second changes nothing |
| Options.ApplyWordsAppend | c++/chess.cpp:548-581 | applying two lists of words is applying the first, then the second |
| Options.ConfigureDefaults | c++/chess.cpp:535-545 | an option line of white space only sets the default settings, the depth only when it is not negative |
| Options.WordEffects | c++/chess.cpp:555-580 | d=n sets the depth for n >= 0 and the time -n otherwise, n= the nodes, t= the time; any other key changes nothing |
| Options.ModeWords | c++/chess.cpp:563-575 | e= and s= change the evaluation or search mode exactly when the name is in the table |
| Play.Decorate | c++/chess.cpp:952-961 | decorating keeps the ply |
| Play.DecorateMeans | c++/chess.cpp:952-961 | in a consistent position, decorating restores the position; it appends '+' when the side to move is in check and has a legal move, '#' when it has none, and nothing when the text already ends in a decorator or there is no check |
| Play.PlayFound | c++/chess.cpp:1161-1165 | the null move plays nothing; any other found move is made, with the ply up by one, and keeps its fields |
| Play.MoveSanPlaysLegal | c++/chess.cpp:1264-1273 | in a consistent position, moveSan changes nothing when no move matches; otherwise it plays a legal move of the position, and without decoration the new position is that move made |
| Play.ObjectFlags | c++/chess.cpp:1133-1139 | a castling request is recognised only in FRC and only for a move from the king of the side to move |
| Play.FirstObject | c++/chess.cpp:1141-1158 | the object match is the first legal move with the requested castle flag, or with the same squares and a compatible promotion |
| Play.MoveObjectPlaysLegal | c++/chess.cpp:1128-1167 | in a consistent position, moveObject changes nothing when no move matches; otherwise it plays a matching legal move carrying its SAN, and without decoration the new position is that move made |
| Play.SanIgnoresText | c++/chess.cpp:1284-1310 | the SAN of a move does not depend on the text it already carries |
| Play.UciSelectsMove | c++/chess.cpp:1318-1321 | in standard chess (moveUci with frc false, over the standard legal list), the UCI text of a legal move selects a move with the same squares and, when it promotes, the same promotion |
| Play.UciRequestMatches | c++/chess.cpp:1318-1321 | the request read from a move's UCI text has that move's squares and promotion |
| Play.FirstObjectFinds | c++/chess.cpp:1152-1158 | whenever a listed move matches the request, the search finds a matching move |
| Play.WordsLeftStep | c++/chess.cpp:1333-1337 | one character of the word loop: inside a word nothing is taken, at a space or the end the word is kept when it starts at 'A' or above |
| Play.MoveWordsShape | c++/chess.cpp:1333-1337 | every word the loop keeps is a space-free piece of the text starting at 'A' or above |
| Play.MoveWordsOfJoin | c++/chess.cpp:1333-1337 | splitting move words joined by spaces gives them back |
| Play.SanStep | c++/chess.cpp:1337-1349 | one word of multiSan adds an entry exactly when it plays a move, with the new ply and score 0 |
| Play.Steps | c++/chess.cpp:1333-1352 | a move list has at most one entry per word |
| Play.StepsCount | c++/chess.cpp:1333-1352 | the entries of a move list count the plies up from the starting ply, one per entry |
| Play.MultiSanSpec | c++/chess.cpp:1329-1353 | multiSan has at most one entry per word, the ply grows by the number of entries, and entry k has ply start + k + 1 |
| Play.UciStep | c++/chess.cpp:1366-1377 | one word of multiUci adds an entry exactly when it plays a move, with the new ply and score 0 |
| Play.MultiUciSpec | c++/chess.cpp:1360-1382 | multiUci has at most one entry per word, the ply grows by the number of entries, and entry k has ply start + k + 1 |
| Engine.AddStateShaped | c++/chess.cpp:327-337 | every undo record keeps four castling entries and two kings after addState |
| Engine.Chess.constructor | c++/chess.cpp:405-409 | a new engine has the default settings, an empty history, a 128-cell board, and the position load(DEFAULT_POSITION) gives, without FRC, with createFen giving DEFAULT_POSITION back |
| Engine.Chess.Start | c++/chess.cpp:405-409 | the constructor's body sets the defaults, clears, and leaves the loaded start position, its text and FRC off, with the FEN round trip |
| Engine.Chess.ClearAndLoadStart | c++/chess.cpp:407-408 | clear() then load(DEFAULT_POSITION) leaves the start position, its text, FRC off, the FEN round trip and an empty history |
| Engine.Chess.LoadStart | c++/chess.cpp:408 | load(DEFAULT_POSITION) leaves the start position, whatever the FRC flag was, with the FEN round trip |
| StartFen.LoadDefaultIgnoresFrc | c++/chess.cpp:1073-1075 | the start text is the start of a game, so what load() gives for it does not depend on the FRC flag |
| Engine.Chess.ConfigureStart | c++/chess.cpp:535-545 | configure(false, "", 4) sets evaluation 1, depth 4, 10^9 nodes, no time and search 0 |
| Engine.Chess.Write | c++/chess.cpp:271-292 | a board write changes that cell only, as a byte |
| Engine.Chess.Clear | c++/chess.cpp:513-530 | clear() gives the empty position, an empty history and an empty FEN |
| Engine.Chess.Put | c++/chess.cpp:1428-1434 | put() changes the board, kings and materials as the put specification says |
| Engine.Chess.Reset | c++/chess.cpp:1439-1442 | reset() loads DEFAULT_POSITION without FRC, and createFen would give DEFAULT_POSITION back |
| Engine.Chess.Load | c++/chess.cpp:1007-1120 | an empty text returns "" and changes nothing; any other text gives the loaded position, FRC flag and FEN of LoadSpec (the start-of-game test on the move number as read), an empty history, and returns the FEN |
| Engine.Chess.ScanFen | c++/chess.cpp:1022-1064 | the character loop of load() computes the placement, turn, field starts, clocks, castling and en-passant text of the scan specification |
| Engine.Chess.SetClocks | c++/chess.cpp:1068-1071 | the en-passant square, the half-move clock, the move number read (1 when it is below 1, the corrected reading in Findings) and ply = 2 * move number - 3 + turn |
| Engine.Chess.CastleFields | c++/chess.cpp:1073-1118 | the castling part of load() gives the castling entries, FRC flag and FEN of the castling specification |
| Engine.Chess.ReadCastling | c++/chess.cpp:1078-1093 | the letter loop gives the castling entries, error and FRC flag of the specification |
| Engine.Chess.FixRooks | c++/chess.cpp:1097-1114 | the rook scans of one colour give the castling entries and letters of the specification |
| Engine.Chess.FindRightRook | c++/chess.cpp:1101-1106 | the right scan finds the rook the specification names |
| Engine.Chess.FindLeftRook | c++/chess.cpp:1108-1113 | the left scan, with the corrected guard, finds the rook the specification names |
| Engine.Chess.CreateFen | c++/chess.cpp:666-727 | createFen stores and returns the FEN of the current position |
| Engine.Chess.BoardText | c++/chess.cpp:669-691 | the board loop writes the placement field of the current board |
| Engine.Chess.RookFiles | c++/chess.cpp:696-704 | the FRC castling loop writes the letters of the set rook squares |
| Engine.Chess.Configure | c++/chess.cpp:535-582 | configure sets the settings of the option line and the FRC flag |
| Engine.Chess.ApplyOption | c++/chess.cpp:550-580 | one option word changes the settings as the option specification says |
| Engine.Chess.Attacked | c++/chess.cpp:434-490 | attacked() answers whether the colour attacks the square on the current board |
| Engine.Chess.AttacksFromAt | c++/chess.cpp:441-484 | one square of the attack loop decides whether its piece attacks the target |
| Engine.Chess.SlideFrom | c++/chess.cpp:476-484 | the slider walk reports a clear line exactly when no cell between attacker and target is occupied |
| Engine.Chess.KingAttacked | c++/chess.cpp:996-1000 | kingAttacked answers whether the opponent attacks the king of that colour |
| Engine.Chess.AddState | c++/chess.cpp:327-337 | addState leaves the position and grows the history as the specification says |
| Engine.Chess.MoveRaw | c++/chess.cpp:1172-1255 | moveRaw leaves the position and history of the make specification |
| Engine.Chess.MoveKing | c++/chess.cpp:1189-1207 | the king block moves the king, castles the rook and clears the side's castling rights |
| Engine.Chess.MovePlain | c++/chess.cpp:1209-1249 | the non-castling block gives the position of its specification |
| Engine.Chess.MoveCapture | c++/chess.cpp:1216-1226 | the capture block lowers the opponent's materials and drops a captured castling rook |
| Engine.Chess.MovePawn | c++/chess.cpp:1234-1248 | the pawn block sets the en-passant square, removes an en-passant victim, promotes, and resets the clock |
| Engine.Chess.PawnPush | c++/chess.cpp:1235-1246 | a double push sets the en-passant square behind the pawn and resets the clock |
| Engine.Chess.PawnLands | c++/chess.cpp:1239-1246 | any other pawn move removes an en-passant victim, writes the promoted piece, adds its score, and resets the clock |
| Engine.Chess.UndoMove | c++/chess.cpp:1644-1692 | undoMove, at any ply and with any history, leaves the position of the unmake specification, and nothing when the ply is negative |
| Engine.Chess.RestoreFields | c++/chess.cpp:1648-1658 | the saved castling, en-passant square, clock and kings come back; turn, move number and ply step back |
| Engine.Chess.Uncastle | c++/chess.cpp:1664-1673 | undoing a castle writes the four cells of the specification |
| Engine.Chess.Uncapture | c++/chess.cpp:1680-1690 | undoing a capture restores the victim's cell and both materials |
| Engine.Chess.CreateMoves | c++/chess.cpp:803-947 | without the legal filter, at any ply, the result is the pseudo-legal list and the state is unchanged; with it, the result and state are those of the legal filter |
| Engine.Chess.GenerateMoves | c++/chess.cpp:813-883 | the square loop returns the pseudo-legal non-castling moves |
| Engine.Chess.PawnMovesAt | c++/chess.cpp:826-852 | the pawn moves of a square |
| Engine.Chess.PieceMovesAt | c++/chess.cpp:853-882 | the ray moves of a square |
| Engine.Chess.CastleMovesAt | c++/chess.cpp:886-926 | the castles of the side to move |
| Engine.Chess.CastleAllowed | c++/chess.cpp:903-917 | the path and attack checks decide the castle exactly as the castle gate says |
| Engine.Chess.FilterMoves | c++/chess.cpp:939-946 | the legal filter's make, test and undo loop gives the state and moves of its specification |
| Engine.Chess.TryMove | c++/chess.cpp:941-944 | a move is kept exactly when the mover's king is not attacked after it, and the move is undone |
| Engine.Chess.DecorateMove | c++/chess.cpp:952-961 | decorateMove gives the state and text of the decoration specification |
| Engine.Chess.MoveSan | c++/chess.cpp:1264-1273 | moveSan gives the state and move of its specification |
| Engine.Chess.MoveObject | c++/chess.cpp:1128-1167 | moveObject gives the state and move of its specification |
| Engine.Chess.MoveUci | c++/chess.cpp:1318-1321 | moveUci gives the state and move of its specification |
| Engine.Chess.SanFound | c++/chess.cpp:1265-1266 | the legal list, and the move the SAN names in it |
| Engine.Chess.MultiSan | c++/chess.cpp:1329-1353 | multiSan gives the state and entries of its specification, and leaves the FEN of the last entry |
| Engine.Chess.MultiUci | c++/chess.cpp:1360-1382 | multiUci gives the state and entries of its specification, and leaves the FEN of the last entry |
| Graph.ClampEval | js/graph.js:39-52 | the result lies in [-10, 10]; a number inside it is kept and one outside goes to the nearer bound; a text starting with '-' gives -10, any other text 10, and undefined 0 |
| Graph.ClampEvalOrdered | js/graph.js:39-52 | clamping keeps the order of numbers and clamps a clamped value to itself |
| Graph.Seconds | js/graph.js:535 | Round(mt / 1000) is the whole number of seconds nearest to mt milliseconds, halves rounded up |
| Graph.CategoryOf | js/graph.js:20-28 | a chart id names a category only when it is that category's name |
| Graph.CategoryOfName | js/graph.js:20-28 | each category's name selects it |
| Graph.NewCollection | js/graph.js:57-101 | a new collection has no labels and the category's number of series, each empty |
| Graph.InitialData | js/graph.js:57-101 | create_chart_data makes all six categories, each an empty collection |
| Graph.Cleared | js/graph.js:418-429 | a reset collection has no labels and keeps its number of series, each empty |
| Graph.StopBelow | js/graph.js:459-460 | the back-fill stops at the highest set label at or below num, or at -1 |
| Graph.BackFilledWrites | js/graph.js:459-460 | the back-fill writes index + 1 into exactly the slots between the stop and num, and keeps the rest |
| Graph.BackFilledPrefix | js/graph.js:459-460 | on a filled prefix of labels, the back-fill keeps it a prefix and fills every slot 0..num |
| Graph.PrimaryPoint | js/graph.js:509-537 | the point of ply p has x = p / 2 + 1 and ply p; its y is the category's value: depth d, clamped eval wv (with the raw wv kept), nodes n (also as nodes), speed s (with nodes n), tb hits, or time in seconds |
| Graph.LiveChartThrows | js/graph.js:452-463 | with an id naming no series, the live update back-fills the labels as for any id and writes no point |
| Graph.LiveChartWrites | js/graph.js:447-471 | update_live_chart writes the eval point x = num + 1, ply - 1, clamped eval into slot num of series id only; on a filled prefix it fills labels 0..num |
| Graph.PlayerBatchLabels | js/graph.js:500-507 | every batch index sets the label of its move number to that number plus one |
| Graph.PlayerBatchKeepsLabel | js/graph.js:500-507 | a label slot no batch index reaches is unchanged |
| Graph.PlayerBatchPoints | js/graph.js:509-539 | a plotted move puts its primary point in series p % 2 at slot p / 2, and for depth the selective-depth point in series p % 2 + 2 |
| Graph.PlayerBatchKeepsPoint | js/graph.js:500-539 | a series slot that no plotted move touches is unchanged, so a missing or book move writes no point |
| Graph.PlayerBatchPrefix | js/graph.js:500-539 | on a filled prefix of labels, the batch keeps it a prefix and fills every label below its last move number |
| Graph.PlayerChartPrefix | js/graph.js:482-539 | on a filled prefix of labels, update_player_chart fills every label up to the first and the last move number |
| Graph.ChartAdapter.constructor | js/graph.js:18-29 | the adapter starts with chart id "eval", no data and no charts |
| Graph.ChartAdapter.CreateChartData | js/graph.js:57-101 | create_chart_data gives the six empty collections |
| Graph.ChartAdapter.CreateCharts | js/graph.js:108-392 | create_charts makes a chart for each of the six categories |
| Graph.ChartAdapter.ResetChart | js/graph.js:418-429 | reset_chart clears a created chart's collection and changes nothing for a chart not created |
| Graph.ChartAdapter.ResetCharts | js/graph.js:433-438 | reset_charts clears the collection of every created chart and no other |
| Graph.ChartAdapter.FillLabels | js/graph.js:459-460 | the back-fill loop writes the back-filled labels of one category and nothing else |
| Graph.ChartAdapter.UpdateLiveChart | js/graph.js:447-471 | update_live_chart changes only the eval collection, as the live-chart specification says, and nothing when there is none; it throws exactly when the eval collection exists and the id names no series, after back-filling the labels |
| Graph.ChartAdapter.UpdatePlayerChart | js/graph.js:480-540 | a non-empty name replaces the chart id; the selected category's collection changes as the player-chart specification says, and an unknown id changes no data |
| Graph.ChartAdapter.PlotEntry | js/graph.js:509-537 | one move of the batch changes only the selected collection, as one player step |

## Left out

- evaluate, search, searchMoves, compareMoves, orderMoves and countMobilities, and the `mobilities` side effect of addMove, are not modelled. They are floating-point search heuristics and do not feed the rules. The `search_mode == 2` move ordering in createMoves is therefore left out, and the model's move lists are in generation order.
- The `em_*` accessors, the Emscripten bindings, print and params are not modelled. They are foreign glue and text output.
- The depth bookkeeping fields (`avg_depth`, `idepth`, `nodes`, `sel_depth`) that clear() resets are not modelled. They only serve the search.
- Out-of-range reads and writes, as noted above, are total instead of undefined. This covers board indexes off the 128 cells, `text[size - 1]` on an empty SAN in decorateMove, `clean[-1]` in the sloppy parser, and `text[4]` in moveUci.
- Engine.Chess.MoveObject: the move object the source leaves uninitialised when nothing matches is modelled as NULL_MOVE.
- Engine.Chess.MoveUci: a text shorter than 2 is excluded by a requires, because it makes `substr(2, 2)` throw `std::out_of_range` in the source.
- Engine.Chess.MultiUci: every word must have at least 2 characters, for the same reason.
- Engine.Chess.Configure: the `std::regex` split on `\s+` is modelled as a split on white-space characters. Empty tokens are dropped, which the option loop ignores anyway.
- The `frc` argument of moveSan, moveObject and moveUci selects the move list. decorateMove uses the `frc` field instead, and the model keeps the two apart.
- Engine.Chess.AddState: requires ply >= -1. Every state that the model's load(), clear() and moves reach meets it, because the model reads a missing move number as 1 (Fen.LoadLeavesRecordSlot). The source as written loads ply -3 or -2 from a text without a move field (see Findings); addState then never finishes, or writes before the start of the vector, and the model does not follow it there.
- Engine.Chess.MoveRaw: requires ply >= -1, through addState, for the same reason.
- Rules.AddState and Rules.MoveRawGame, and the members that make moves through them, require ply >= -1 for the same reason. These members are MoveGen.FilterLegal, Play's SAN, object and UCI steps, and the Engine.Chess methods FilterMoves, TryMove, DecorateMove, MoveSan, MoveObject, MoveUci, SanFound, MultiSan and MultiUci. Engine.Chess.CreateMoves needs it only with the legal filter.
- The source's strings are byte strings of signed `char`; the model's are sequences of Unicode characters. A multi-byte UTF-8 character is one character here and several bytes there. This changes, for example, multiSan's `multi[prev] >= 'A'` test (c++/chess.cpp:1337) on a word starting with a non-ASCII letter: the lead byte is negative in the source, so the source skips the word, while the model tries it as SAN. It also changes load()'s square count, which advances once per byte in the source.
- Integers are unbounded. The overflow of the 32-bit `int` that load()'s clock fields (`half * 10 + value - '0'`, c++/chess.cpp:1058-1063) and atoi in configure (c++/chess.cpp:554) hit on very long digit runs is not modelled.
- Consistent positions only: the model proves consistency for the loaded start position (StartFen.StartConsistent), not that play keeps a position consistent, and load() accepts texts that give inconsistent positions. Two examples:
  - A castling right whose rook is missing, off the start-of-game test: the source still generates the castle (c++/chess.cpp:886-922), moveRaw puts a rook on its target (c++/chess.cpp:1197-1198), and undoMove puts one on the recorded square (c++/chess.cpp:1672), so the position is not given back.
  - An en-passant square with no enemy pawn behind it: undoMove of the capture puts back a pawn and its material that were never there (c++/chess.cpp:1685-1686).
- SquareMovesFit: proved for consistent positions only (above); on inconsistent ones a generated move can fail to fit.
- GenFromFit: proved for consistent positions only (above).
- CastleMovesFit: proved for consistent positions only (above); the castle without its rook does not fit.
- PseudoMovesFit: proved for consistent positions only (above).
- LegalMovesAreSafe: proved for consistent positions only (above); on the castle without its rook the source's legal filter does not restore the board, and its later trials run on the changed board.
- PawnMovesFit: proved only with piece codes only, a consistent en-passant square and no pawn of the side to move on its last rank.
- DecorateMeans: proved for consistent positions only (above).
- MoveSanPlaysLegal: proved for consistent positions only (above). Engine.Chess.MoveSan equals its specification on every position; only the legality and restoration statements carry the hypothesis.
- MoveObjectPlaysLegal: proved for consistent positions only (above), as for MoveSanPlaysLegal.
- FenSpec's round trip is proved for DEFAULT_POSITION only (StartFen.DefaultRoundTrip), not for every loadable text.
- DEFAULT_POSITION is written as a concatenation of the same short literals. The text is unchanged.
- In js/graph.js, `chart.update()` redraws and is a no-op here. When the chart view was never created, `charts.eval.update()` (js/graph.js:470) and `charts[chart_id].update()` (js/graph.js:542) throw a TypeError after the data is written; the model writes the same data and does not report the exception.
- Play.UciSelectsMove: proved for standard chess only (moveUci with frc false). With frc true, moveObject reads a king move onto a castling rook's square or two files away as a castle request (c++/chess.cpp:1133-1139), and the move it then selects is the castle, whose squares need not be the text's; the FRC move list is not covered.
- Notation.UciOf: returns ucify's text; the source also stores it in the move's `m` field (c++/chess.cpp:1635). Its only caller is the search, which is not modelled.
- The Chart.js configuration objects, tooltip callbacks, colours and styles built by create_charts and new_dataset are not modelled. They are a third-party library schema. Only the charts' existence and each category's number of series are kept.
- init_graph, startup_graph and load_library are not modelled. They are an asynchronous library load.
- The helpers Assign, Keys, Floor, Round and Clamp from the page's common library are taken as their usual meanings.
- Graph.ClampEval: an evaluation is a number, a text, or undefined. JavaScript's coercions of other values, such as a numeric string, null or a boolean, are assigned to a case before the call.
- Graph.Seconds: `mt` is a whole number of milliseconds, and Round is half-up rounding on it.
- Graph.ChartAdapter.UpdateLiveChart: requires `move.ply >= 1`, since ply 0 would write the label and point at index -1.
- Graph.ChartAdapter.UpdatePlayerChart: a chart id that names a member of `Object.prototype` is treated as unknown.

## Findings

| source | as written | input that shows it | evidently intended | confidence | as-written member | corrected member |
|---|---|---|---|---|---|---|
| c++/chess.cpp:1108-1113 | the left rook scan of load()'s castling fix runs while `FILE(i) >= 0`, which always holds because FILE is `i & 15`, so the scan leaves the king's rank through the 0x88 gap, and on a board with no rook there it reads below `board[0]` | `r3k3/8/8/8/8/8/R7/4K3 w K - 0 1`: castling "K" names an empty h1 on the start turn, the fix runs, and the left scan from d1 passes a1 and records the a2 rook as White's queen-side rook, letter 'A', while Black's scan stops at the a8 rook on its own rank; with no rook at all (`4k3/8/8/8/8/8/8/4K3 w K - 0 1`) it runs off the board | stop at the a-file of the king's rank, as the right scan stops at the h-file | not executed | Fen.AsWrittenLeftScanLeavesRank | Fen.LeftRookOnKingsRank |
| c++/chess.cpp:1014-1071 | load() starts its move counter at 0 and keeps it when the text has no move field, so ply = move_number * 2 - 3 + turn is -3 or -2; addState (c++/chess.cpp:328) then compares the size_t size with ply + 2 converted to 2^64 - 1 and grows the vector without end, or, at -2, writes `ply_states[-1]` | `4k3/8/8/8/8/8/8/4K3 w - -` followed by createMoves(_, true, _), whose legal filter makes each move through moveRaw and addState | a missing or non-positive move number counts as move 1, so the ply is at least -1 and the record index ply + 1 exists | not executed | Fen.AsWrittenNoMoveNumber | Fen.LoadLeavesRecordSlot |
