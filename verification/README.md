# Chess server: a verified model

This project models the parts of the chess server that everything else relies on, and proves
what they promise. It is plain Dafny 4.11; `dafny verify dfyconfig.toml` checks all of it.

## What is modelled

**The rules of chess.** `Types.dfy` and `Rules.dfy` define positions, attacks, pseudo-legal
moves, the effect of a move, legality and the invariant of reachable positions, as values and
without algorithms. `Board.dfy` is the mutable 64-square board with `make_move`, `undo_move`
and the incremental Zobrist key; `MoveGen.dfy` holds the reverse attack scan, the generators,
legality by make, test and unmake, and the game status; `Perft.dfy` the move-path counter.
`Agreement.dfy`, `Reversal.dfy`, `Invariant.dfy` and `Zobrist.dfy` hold the theorems about
them. `MoveLaws.dfy`, `Geometry.dfy`, `StatusLaws.dfy` and `ZobristLaws.dfy` say what whole lines
of moves, distances, mates and keys come to, without going through the definitions they are about.

**Notation.** `San.dfy` prints and reads Standard Algebraic Notation (section 8.2.3 of the PGN
Standard), `Fen.dfy` prints and parses FEN (section 16.1), `Uci.dfy` writes the stored move
text of a game and replays it, `Text.dfy` has the words and numbers they share. `NotationLaws.dfy`
checks the texts against each other and against the standard's examples.

**Evaluation and search.** `Evaluator.dfy` computes the static evaluation in loops over the
board and proves it colour-blind, using `Mirror.dfy` (the rules commute with turning the
board) and `MoveSets.dfy` (sizes and sums); `EvalLaws.dfy` says which way it points. `Minimax.dfy` defines what a search should
compute; `Table.dfy`, `Ordering.dfy` and `Engine.dfy` are the transposition table, move
ordering and the alpha-beta search with quiescence and iterative deepening. `Clockless.dfy`
says what the same search answers, and what table it leaves, when no clock stops it;
`RootScore.dfy` has a position in which the root is worth more than a draw, and `SearchLaws.dfy`
what quiescence follows and what a mate is worth.

**The live game.** `Room.dfy` says what each operation of a game room does to its state;
`GameRoom.dfy` is the room itself, a class of about twenty operations behind one lock, proved
to do that; `RoomRuns.dfy`, `RoomClocks.dfy` and `RoomTicks.dfy` prove what every run of operations
keeps.

**Small protocols.** `Matchmaker.dfy` is the queue with its buckets, reverse index and cached
size; `RateLimiter.dfy` the token bucket with lazy sweep; `Sessions.dfy` refresh-token
rotation with a grace window (section 4.14.2 of RFC 9700); `KeyStore.dfy` the one-time key
store whose `issue` leaves its lock in the middle.

**Hashing.** `Sha2.dfy` is the streaming SHA-256/384/512 engine against sections 5.1.1 and
5.1.2 of FIPS 180-4, `Hmac.dfy` is RFC 2104, `Hkdf.dfy` is RFC 5869.

## How to read it

- Each class keeps the fields the source updates in place. A method's contract equates the new
  state with a function of the old one, and the lemmas are about those functions.
- Clocks and id sources come in as parameters: every clock reading of an operation is
  an argument, so the theorems hold for any clock unless they say otherwise. New tokens, family
  ids and key ids are assumed never used before. Zobrist key numbers are arbitrary, and the SHA-2
  compression function is a parameter.
- A move's flag byte and the castling mask are records of booleans; `sq ^ 56` is the flip of a
  square to the other side of the board; `key & mask` is the remainder modulo the table size.
- The search deadline is the index of the first clock reading that finds the time up. The ghost
  field `cut` remembers that some table probe ended a node early; a probe may answer from a
  deeper search, so equality with fixed-depth negamax is stated for runs without such a cutoff.
  What a deadline may and may not do is stated with and without cutoffs, against the search
  without a clock. The ghost field `log` records every store of a search.
- `std::sort` in the move ordering is an insertion sort with the sort's contract. The order of
  equally ranked moves is open in that contract, so the search without a clock is a relation.
- A critical section is one atomic step. In the key store the two halves of `issue` are two
  steps, and any other step may fall between them.

## Where the code differs from its comments, or from what one might expect

- The attack scan and the generator agree on squares held by an enemy. A defended man of one's
  own is attacked, but no move lands there; `Agreement.AgreementOnOccupied` gives the exact
  condition and `Agreement.DefendedManDisagrees` an example.
- The root of a search is not subject to the fifty-move test that every other node makes first,
  so its value is `RootValue`; it is plain negamax exactly when fewer than a hundred halfmoves
  have been counted or the best root move is worth a draw (`RootValueIsNegamax`), and
  `RootScore.RootIgnoresFiftyMoves` is a position where it is not.
- A FEN placement with a ninth rank is undefined in the source until the final test; it is
  modelled as refused at its first piece. No printed and no accepted text has one.
- The sweep of the matchmaker reads the clock once per pair, although its comment says once per
  sweep (`src/game/matchmaker.cpp:134-137`). Neighbours in rating order are not always the only
  acceptable pair: `Matchmaking.PickyMiddleCanHideAPair`. `Matchmaking.SweepLeavesNoPairIff`
  says exactly which waiting players can leave one.
- The limiter moves the touch time back with a rewound clock, so tokens can be minted after all
  (`src/auth/rate_limiter.cpp:14-16`): `RateLimiting.RewoundClockRefunds`. The window bound holds
  exactly where the clock is not set back (`WindowBoundIff`); on any clock the drip is bounded
  by its upward steps (`EveryClockBound`).
- The per-address cap of the key store is not compared for an address without a counter, so a
  cap of zero still lets one key through: `KeyStore.CapsHoldIff`.
- A listener registered after a room has finished hears nothing. A draw offer that is pending
  when a game ends in another way stays recorded.
- Presenting an expired token in its grace removes it but leaves its successor superseded, so
  the family then has no unrotated token, although a comment says there is still one
  (`src/auth/session.cpp:113`): `Sessions.LiveIffExchanged`, `Sessions.ExpiredRetryLeavesNone`.
- Not every mutating method of a room raises its revision, as the comment in
  `src/game/game_room.h:446-455` says: `RoomRuns.RevisionMarksChange` lists what passes unmarked.
- Only tournaments test a time control (`src/application/tournament_service.cpp:147`); the services
  that create a game, queue for one or play the engine pass on what the client sent
  (`src/application/gameplay_service.cpp:697`, `:803`, `:875`). With a negative increment the clamp
  of the clock can give time back: `RoomClocks.TimeIsConservedIff`, `RoomClocks.ClampBites`. With
  a negative base time a clock begins below zero and may stay there:
  `RoomClocks.ClocksStayNonNegative`.
- SHA-384 and SHA-512 leave the upper half of their length field zero, so from 2^61 bytes on they
  are not the standard's: `Sha2.EnginePaddingIsStandardIff`.
- The piece-square tables are read with a1 first, as their comment says, but their rows are written
  from the far side: pawns are not rewarded for advancing (`src/chess/evaluator.cpp:67`), and a
  castled king is not (`:132`): `EvalLaws.PawnsAreBestAtHome`, `EvalLaws.KingsAreBestAbroad`.
- The victim does not always dominate the move order (`src/chess/engine.cpp:99`): the king's own
  value puts its captures behind the quiet moves, and a knight may go before a bishop
  (`Ordering.CaptureBeforeQuietIff`, `Ordering.VictimDecidesIff`).

## Model

| member | source | states |
|---|---|---|
| `Agreement.AttackScansAgree` | src/chess/move_gen.cpp:91-156 | an enemy-occupied square is attacked by the side to move, by the reverse scan, exactly when the forward generator emits a move landing there |
| `Agreement.AgreementOnOccupied` | src/chess/move_gen.cpp:91-156 | on an occupied square of a well-formed position scan and generator agree exactly when it holds an enemy or nothing attacks it |
| `Agreement.DefendedManDisagrees` | src/chess/move_gen.cpp:91-156 | at the start White attacks d1 and no move lands there |
| `Invariant.LegalMoveKeepsInvariant` | src/chess/board.cpp:325-434 | every legal move of a well-formed position leads to a well-formed one: one king a side, rights backed by king and rook at home, en-passant target backed by the passed pawn, no pawn on an end rank, the side not to move not in check |
| `Invariant.StartSatisfiesInvariant` | src/chess/board.cpp:116-120 | the initial array satisfies the invariant |
| `Invariant.ReachablePositionsSatisfyInvariant` | src/chess/move_gen.cpp:335-355 | so does every position reached by any sequence of legal moves |
| `Invariant.LegalIffKingCannotBeTaken` | src/chess/move_gen.cpp:335-355 | a generated move is kept as legal exactly when no generated reply captures the king of the side that made it |
| `Reversal.PseudoLegalShape` | src/chess/move_gen.cpp:162-329 | every generated move meets the assumptions under which making and unmaking are defined |
| `Reversal.RetractUndoesApply` | src/chess/board.cpp:436-491 | taking a playable move back restores every field of the position |
| `Zobrist.KeyFollowsMove` | src/chess/board.cpp:325-434 | the incrementally updated key of a playable move is the from-scratch hash of the new position |
| `BoardState.Board.constructor` | src/chess/board.cpp:112-130 | an empty board whose stored key is its hash |
| `BoardState.Board.StartingPosition` | src/chess/board.cpp:116-120 | the board of the initial array, with its key |
| `BoardState.Board.ComputeHash` | src/chess/zobrist.cpp:63-98 | the loop of exclusive ors is the hash of the position on the board |
| `BoardState.Board.LocateKing` | src/chess/board.cpp:302-315 | the first square holding the king of a colour, or 64 |
| `BoardState.Board.UpdateCastlingRights` | src/chess/board.cpp:494-516 | a move from a king's or rook's home square, or onto a rook's, loses exactly the rights of that king or that rook, as RightsOverLine says of whole lines |
| `MoveLaws.RightsOverLine` | src/chess/board.cpp:494-516 | after any line from the start each of the four rights is held exactly while no move has left the king's square or left or reached that rook's; the other rook does not matter |
| `BoardState.Board.MakeMove` | src/chess/board.cpp:325-434 | the in-place steps produce the new position, the undo record of the old one, and a key that is still the hash |
| `MoveLaws.MenAfter` | src/chess/board.cpp:325-434 | the men on the board after a legal move: unchanged by an ordinary move or castling, one enemy fewer after a capture, a pawn exchanged for the chosen piece after a promotion |
| `MoveLaws.SquaresAfter` | src/chess/board.cpp:325-434 | which squares a legal move changes and to what, the pawn taken in passing included |
| `MoveLaws.CastlingAfter` | src/chess/board.cpp:354-374 | the king goes two squares towards the rook and the rook jumps to the square it crossed |
| `MoveLaws.TurnOverLine` | src/chess/board.cpp:325-434 | over every line the sides alternate and the move number counts Black's moves |
| `MoveLaws.CountOverLine` | src/chess/board.cpp:325-434 | over every game the halfmove clock is the number of moves since a pawn moved or a man disappeared |
| `MoveLaws.TargetAfter` | src/chess/board.cpp:325-434 | there is an en-passant target exactly after a pawn's two-step, and it is the square passed over |
| `MoveLaws.FourPromotions` | src/chess/move_gen.cpp:162-190 | a pawn reaching the last rank always promotes, and if one of the four promotions is legal so are all |
| `ZobristLaws.KeysTellApart` | src/chess/zobrist.cpp:63-98 | two positions share their key under every key table exactly when men, turn, rights and target file are the same |
| `BoardState.Board.UndoMove` | src/chess/board.cpp:436-491 | the in-place steps produce the retracted position and the recorded key |
| `MoveGen.KnightTargets` | src/chess/move_gen.cpp:20-80 | the precomputed row holds exactly the squares a knight step away, once each |
| `MoveGen.KingTargets` | src/chess/move_gen.cpp:20-80 | the precomputed row holds exactly the squares a king step away, once each |
| `MoveGen.RayAttacked` | src/chess/move_gen.cpp:118-150 | a hit on a ray is an attack, and no hit means no slider attacks along it |
| `MoveGen.IsSquareAttacked` | src/chess/move_gen.cpp:91-150 | the scan from the square answers whether some man of the colour attacks it |
| `MoveGen.IsInCheck` | src/chess/move_gen.cpp:152-156 | whether the king of the colour is attacked |
| `MoveGen.GeneratePawnPushes` | src/chess/move_gen.cpp:162-190 | exactly the single and double advances of a pawn, promotions included, without duplicates |
| `MoveGen.GeneratePawnCapture` | src/chess/move_gen.cpp:190-210 | exactly the captures to one side, en passant included |
| `MoveGen.GeneratePawnMoves` | src/chess/move_gen.cpp:162-210 | exactly the moves of the pawn |
| `MoveGen.GenerateKnightMoves` | src/chess/move_gen.cpp:212-224 | exactly the moves of the knight |
| `MoveGen.GenerateRay` | src/chess/move_gen.cpp:226-253 | exactly the squares of one ray up to the first man, that man included when it is an enemy |
| `MoveGen.GenerateRayMoves` | src/chess/move_gen.cpp:226-253 | exactly the moves of a rook, bishop or queen |
| `MoveGen.GenerateCastling` | src/chess/move_gen.cpp:266-305 | exactly the castling moves: right held, way empty, king square and crossed square not attacked |
| `MoveGen.GenerateKingMoves` | src/chess/move_gen.cpp:255-305 | exactly the moves of the king |
| `MoveGen.GeneratePseudoLegalMoves` | src/chess/move_gen.cpp:307-329 | exactly the pseudo-legal moves, each once, as many as the mobility count says |
| `Geometry.StepsMeasured` | src/chess/move_gen.cpp:20-80 | knights go to squared distance five and kings to one or two; no line runs to a knight's square |
| `Geometry.ClearMeansEmptyBetween` | src/chess/move_gen.cpp:226-253 | a line is clear exactly when every square between its ends is empty |
| `Geometry.CastlingRule` | src/chess/move_gen.cpp:266-305 | castling is generated exactly when the right is held, nothing stands between king and rook, and the king is not attacked where it stands or crosses |
| `Geometry.TwentyFirstMoves` | src/chess/move_gen.cpp:307-355 | White has exactly the twenty known first moves |
| `MoveGen.LeavesKingSafe` | src/chess/move_gen.cpp:340-352 | make, test, unmake: answers whether the mover is left in check and gives the board back, key included |
| `MoveGen.GenerateLegalMoves` | src/chess/move_gen.cpp:335-355 | exactly the legal moves, each once |
| `MoveGen.GetGameStatus` | src/chess/move_gen.cpp:357-373 | the status of the position, the fifty-move count first; which side of mate and stalemate is said by MateIff |
| `StatusLaws.MateIff` | src/chess/move_gen.cpp:357-373 | below a hundred halfmoves a side without a legal move is mated exactly when, were the turn passed, a generated move would land on its king, and stalemated otherwise |
| `StatusLaws.QueenMatesOnTheBackRank` | src/chess/move_gen.cpp:357-373 | king g6 and queen a8 against king g8 to move is checkmate |
| `Perft.Count` | src/chess/move_gen.cpp:380-397 | the counter returns the number of legal lines of the given length and gives the board back |
| `Perft.LinesAreLegalLines` | src/chess/move_gen.cpp:380-397 | the lines counted are exactly the sequences of that many legal moves |
| `San.MoveToSan` | src/chess/notation.cpp:39-104 | the printed text is the one the disambiguation and check rules prescribe |
| `San.Disambiguate` | src/chess/notation.cpp:52-78 | file and rank are printed exactly when a rival of the same kind requires them |
| `San.CheckSignAfter` | src/chess/notation.cpp:92-101 | "+" for check, "#" for mate, nothing otherwise |
| `NotationLaws.SanLetters` | src/chess/notation.cpp:39-104 | a text begins with the diagram letter of its man or a file, has an x exactly when the board loses a man, and an = exactly when it promotes |
| `NotationLaws.SanSign` | src/chess/notation.cpp:39-104 | a hash exactly when the other king could be taken were the turn passed and there is no legal reply, a plus when there is one, else neither |
| `NotationLaws.SanCastling` | src/chess/notation.cpp:39-104 | castling is written by the side the king goes to |
| `NotationLaws.PromotionLetter` | src/chess/notation.cpp:39-104 | after the = comes the diagram letter of the chosen piece |
| `San.ReadSan` | src/chess/notation.cpp:110-200 | the cursor-driven reader yields the query its declarative parse defines |
| `San.SanToMove` | src/chess/notation.cpp:110-232 | the move found is one the query denotes in the position |
| `San.SanRoundTrip` | src/chess/notation.cpp:39-232 | the text printed for a legal move denotes that move, flags and promotion included, and no other |
| `San.SanTextIsInjective` | src/chess/notation.cpp:39-104 | different legal moves of a position print differently |
| `Uci.UciRoundTrip` | src/chess/board.cpp:56-106 | reading printed UCI text gives back squares and promotion |
| `NotationLaws.SuffixIsLowerCase` | src/chess/board.cpp:56-106 | the promotion letter is the diagram letter of that black man |
| `NotationLaws.StoredMovesNamed` | src/chess/board.cpp:56-106 | e2e4, e7e8q and e7e8n name the moves they should |
| `NotationLaws.SquaresAreNamed` | src/chess/board.cpp:542-548 | a1, h1, a8 and h8 are the corners, and letters and digits rise with file and rank |
| `Uci.ResolveLegal` | src/application/game_query_service.cpp:64-76 | the answer is a legal move matching the probe, or the default move when there is none |
| `Uci.ProbeFindsMove` | src/application/game_query_service.cpp:64-76 | the probe of a legal move is answered by that move, flags included, and by nothing else |
| `Text.Split` | src/application/game_query_service.cpp:78-84 | splitting yields the whitespace-separated words of the text |
| `Text.SplitUndoesJoin` | src/application/game_completion_service.cpp:61-64 | splitting words joined by single blanks gives the words back |
| `Uci.WriteGame` | src/application/game_completion_service.cpp:61-72 | the stored text is the UCI words of the moves joined by blanks |
| `Uci.ReplayGame` | src/application/game_query_service.cpp:285-311 | the loop either answers every word with a legal move and records the position after every ply, or stops at the first word nothing answers |
| `Uci.StoredGameReplays` | src/application/game_query_service.cpp:285-311 | every game of legal moves, stored and replayed, yields the same moves and the same position after every ply |
| `Fen.WriteFen` | src/chess/board.cpp:231-279 | the printed text is the six fields of the position |
| `Fen.SetFromFen` | src/chess/board.cpp:148-225 | the parser accepts exactly the texts the declarative reading accepts, sets every field to what it reads and recomputes the key |
| `Fen.FenRoundTrip` | src/chess/board.cpp:148-279 | reading the text printed for a position succeeds and gives every field back, clocks included |
| `Fen.FenTextIsInjective` | src/chess/board.cpp:231-279 | different positions print differently |
| `Fen.PrintedIsNormalForm` | src/chess/board.cpp:148-279 | whatever text a board was read from, printing it gives a text that reads back as the same board |
| `Fen.SameBoardSameNormalForm` | src/chess/board.cpp:148-279 | two accepted texts describe one board exactly when they print alike |
| `Fen.CopyThroughText` | src/chess/board.cpp:148-279 | printing one board and parsing into another copies it, key included |
| `Fen.StartingFenIsStart` | src/chess/board.h:29-29 | the starting FEN constant reads as the initial array |
| `NotationLaws.StandardExamples` | src/chess/board.cpp:231-279 | making 1. e4 c5 2. Nf3 from the array and printing gives the three records of section 16.1 of the PGN Standard |
| `NotationLaws.CastlingLettersMean` | src/chess/board.cpp:256-264 | each right is printed with the diagram letter of the king or queen it castles towards |
| `Mirror.AttackedByFlipped` | src/chess/move_gen.cpp:91-150 | attack detection commutes with exchanging the colours and turning the board |
| `Mirror.PseudoLegalFlipped` | src/chess/move_gen.cpp:162-329 | so does move generation |
| `Mirror.MoveCountFlipped` | src/chess/evaluator.cpp:359-374 | a side has as many pseudo-legal moves as its mirror image |
| `Evaluator.EvaluateKingSafety` | src/chess/evaluator.cpp:198-235 | the in-place sum is the shield and open-file terms of the king |
| `Evaluator.EvaluatePawnStructure` | src/chess/evaluator.cpp:261-338 | the loops compute, pawn by pawn, the doubled, isolated and passed terms as defined over the whole board |
| `Evaluator.CountMobility` | src/chess/evaluator.cpp:359-374 | flipping the side and generating counts the moves of the colour, and the board is given back |
| `Evaluator.EvaluateDetailed` | src/chess/evaluator.cpp:391-455 | every component is the sum its definition gives |
| `Evaluator.Evaluate` | src/chess/evaluator.cpp:359-461 | the breakdown as the side to move sees it: its own share less the opponent's, by EvaluationIsDifference |
| `EvalLaws.EvaluationIsDifference` | src/chess/evaluator.cpp:359-461 | the score is what the men of the side to move contribute less what the opponent's do |
| `EvalLaws.LoneKingIsBehind` | src/chess/evaluator.cpp:359-461 | a side with a king and any piece, whatever else, is ahead of a lone king: above zero when it is to move, below when the lone king is |
| `EvalLaws.QueenAgainstKing` | src/chess/evaluator.cpp:359-461 | so in every position with king and queen against king |
| `EvalLaws.TakingRaisesMaterial` | src/chess/evaluator.cpp:398-414 | taking an enemy man off the board raises the mover's material by that man's value |
| `EvalLaws.FellowPawns` | src/chess/evaluator.cpp:261-338 | a new fellow pawn beside never costs a pawn anything, one on its file never brings it anything |
| `EvalLaws.FewerOpponentsHelp` | src/chess/evaluator.cpp:261-338 | no pawn is worth less for the loss of an enemy pawn |
| `EvalLaws.PawnsShelterTheKing` | src/chess/evaluator.cpp:190-235 | a new pawn of its own never makes a king less safe |
| `EvalLaws.BonusesRise` | src/chess/evaluator.cpp:132-160 | a passed pawn is worth more the further it has come, and mobility and the bishop pair are worth something |
| `EvalLaws.PawnsAreBestAtHome` | src/chess/evaluator.cpp:62-79 | against the comment, a pawn's table bonus is greatest exactly on the rank it starts from |
| `EvalLaws.KingsAreBestAbroad` | src/chess/evaluator.cpp:132-143 | against the comment, a king on its own castled square gets less than on the opponent's |
| `Evaluator.EvaluationIsColorBlind` | src/chess/evaluator.cpp:391-461 | turning the board and exchanging the colours negates the white-minus-black total and leaves the side-to-move score unchanged, for any board with at most one king a side |
| `Evaluator.EvaluationBound` | src/chess/evaluator.cpp:391-461 | no position reaches a mate score |
| `Minimax.NegamaxIsFinite` | src/chess/engine.cpp:182-278 | the unpruned value lies strictly inside the infinite window at every depth and ply the search uses |
| `Minimax.QuietUnfolds` | src/chess/engine.cpp:154-180 | an expanded quiescence node is worth its best followed move, or standing pat when not in check |
| `Minimax.NegamaxUnfolds` | src/chess/engine.cpp:182-278 | an expanded node is worth its best legal move |
| `SearchLaws.MateScore` | src/chess/engine.cpp:215-223 | a node has the losing mate score of its distance exactly when its status is checkmate, and never more than mate at the next move |
| `SearchLaws.MateInOneIff` | src/chess/engine.cpp:311-351 | the root is worth mate in one exactly when some legal move mates, and never more |
| `TranspositionTable.RootValueIsNegamax` | src/chess/engine.cpp:311-351 | the root value is plain negamax exactly when fewer than a hundred halfmoves have been counted or the best root move is worth a draw |
| `RootScore.LateRootValue` | src/chess/engine.cpp:311-351 | from a hundred halfmoves on: with no legal pawn move and no legal capture the root is worth a draw at every depth, as any other node; with some other move it is worth at least that |
| `RootScore.RootIgnoresFiftyMoves` | src/chess/engine.cpp:191-194 | a position with a hundred halfmoves behind it in which the root is worth a mate, at every depth, and an ordinary node a draw |
| `TranspositionTable.ScoreRoundTrip` | src/chess/transposition_table.cpp:40-58 | adjusting a score for storage and back at the same ply changes nothing |
| `SearchLaws.MateScoreTransposes` | src/chess/transposition_table.cpp:40-58 | a mate n plies below a node, stored at one distance from the root and met at another, is the mate n plies below where it is met |
| `SearchLaws.HitAnswers` | src/chess/transposition_table.cpp:100-132 | a hit on a true entry of the same node is a sound answer for the window |
| `SearchLaws.DeeperStays` | src/chess/transposition_table.cpp:60-98 | of two results of one search that share a slot the first stays exactly if it is deeper |
| `TranspositionTable.Table.Store` | src/chess/transposition_table.cpp:60-98 | only the slot of the key changes, by the replacement rule, and a table of true bounds stays one when the stored bound is true |
| `TranspositionTable.Table.Probe` | src/chess/transposition_table.cpp:100-132 | a hit needs the key, enough depth and a bound that decides the window; the stored move comes back for ordering |
| `TranspositionTable.MoveAfterStore` | src/chess/transposition_table.cpp:60-145 | after a store a probe for the best move answers, for every key, the stored move if the replacement rule let it in, nothing for a key whose slot it took, and what it answered before otherwise |
| `TranspositionTable.StoredScoreComesBack` | src/chess/transposition_table.cpp:60-132 | a result that was let in ends a later search of its node exactly when the stored depth byte is deep enough and the bound decides the window, and then with its own score |
| `Ordering.OrderMoves` | src/chess/engine.cpp:107-148 | the same moves, in order of falling priority |
| `Ordering.TableMoveFirst` | src/chess/engine.cpp:108-148 | the table's move is ranked before every other |
| `Ordering.CaptureBeforeQuietIff` | src/chess/engine.cpp:96-136 | a capture is ranked before a quiet move exactly when the king does not make it |
| `Ordering.VictimDecidesIff` | src/chess/engine.cpp:96-101 | the dearer victim decides except for captures by the king, and for a bishop against a knight taken by something a pawn dearer |
| `Ordering.CheaperAttackerFirst` | src/chess/engine.cpp:96-101 | of two captures of one man the cheaper attacker's goes first |
| `Engine.Search.TimeUp` | src/chess/engine.cpp:87-94 | once the deadline has been read as passed it stays passed |
| `Engine.Search.Quiescence` | src/chess/engine.cpp:154-180 | without an abort the result brackets the unpruned quiescence value for the window; the board comes back on every path |
| `SearchLaws.QuietMovesChangeMen` | src/chess/engine.cpp:167-172 | out of check quiescence follows exactly the legal moves that change the men on the board: every capture, en passant and promotion, and no other |
| `SearchLaws.QuietSeesChanges` | src/chess/engine.cpp:154-180 | so below a hundred halfmoves and ply 64 its value is at least what any of them leads to; in check, any legal move |
| `Engine.Search.AlphaBeta` | src/chess/engine.cpp:182-278 | for every window, without an abort or a table cutoff, the result brackets unpruned negamax; cutoffs or not, without an abort result and table are an outcome of the search without a clock; on every path board and key come back, true table entries stay true, every store made is of a completed node, and a search entered after the deadline leaves the table alone |
| `Engine.Search.SearchMoves` | src/chess/engine.cpp:227-278 | unless the time is up the node leaves its score with the type its window gives it: lower bound from beta up, exact above the first alpha, upper bound otherwise; after an abort nothing is stored, cutoffs or not |
| `Engine.Search.StoreNode` | src/chess/engine.cpp:260-273 | every store is made while no reading has found the time up and files a node whose replies were all searched to their end, so the table is always the one at the start with exactly those stores made in turn |
| `Engine.Search.SearchRoot` | src/chess/engine.cpp:316-341 | the best root score is the root value and its move attains it |
| `Engine.Search.Deepen` | src/chess/engine.cpp:311-351 | a depth cut short is discarded, cutoffs or not: the last result stands and no root is stored; a finished depth is one complete iteration of the search without a clock, adopted and stored as the root |
| `Engine.Search.Run` | src/chess/engine.cpp:284-360 | whenever the deadline falls, cutoffs or not, a legal move is returned if one exists; move, score and depth are an outcome of deepening without a clock to that depth from the same table, the depth is that of the last root stored, the table holds only stores of completed nodes made before the deadline, and the board is handed back; without a table cutoff score and move are exact |
| `Room.RequestNamesOneMove` | src/game/game_room.cpp:486-509 | squares and promotion, a queen by default, name at most one legal move |
| `GameRooms.GameRoom.Open` | src/game/game_room.cpp:77-94 | a room waiting for its second player |
| `GameRooms.GameRoom.OpenAgainstAi` | src/game/game_room.cpp:96-129 | a room against the AI, live at once |
| `GameRooms.GameRoom.Reserve` | src/game/game_room.cpp:131-152 | a tournament room with two reserved seats |
| `GameRooms.GameRoom.Unlock` | src/game/game_room.cpp:163-200 | a queued completion is delivered exactly once, after the lock is free: commit callback, then each listener in order |
| `GameRooms.GameRoom.EmitStarted` | src/game/game_room.cpp:262-283 | every registered listener is told of the start once |
| `GameRooms.GameRoom.Join` | src/game/game_room.cpp:308-342 | the second player is seated as Black and the game goes live, only from a waiting unreserved room |
| `GameRooms.GameRoom.BindReserved` | src/game/game_room.cpp:344-406 | refusals in order, seat takeover, and start when the room is open and both seats are connected |
| `GameRooms.GameRoom.AllowReserved` | src/game/game_room.cpp:408-420 | check-in of a reserved player |
| `GameRooms.GameRoom.OpenReserved` | src/game/game_room.cpp:422-445 | opening starts the game exactly when both seats are connected |
| `GameRooms.GameRoom.FindMatch` | src/game/game_room.cpp:486-509 | the scan of the legal list finds the move the request names, or nothing |
| `GameRooms.GameRoom.PlayMatched` | src/game/game_room.cpp:516-572 | the move is recorded with its text and think time, the clocks switch, and a decided position finishes the game |
| `GameRooms.GameRoom.SubmitMove` | src/game/game_room.cpp:451-574 | checks in order, a fallen flag ends the game, otherwise the named move is played and reported; a move by the offeree declines a draw offer |
| `GameRooms.GameRoom.SubmitMoveAi` | src/game/game_room.cpp:580-684 | the same for the AI, whose fallen clock is set to zero |
| `GameRooms.GameRoom.Resign` | src/game/game_room.cpp:690-703 | the resigning side loses; the commit callback precedes the listeners |
| `GameRooms.GameRoom.OfferDraw` | src/game/game_room.cpp:705-735 | one offer at a time, to a connected human opponent of a live game |
| `GameRooms.GameRoom.RespondToDraw` | src/game/game_room.cpp:737-758 | only the opponent may answer; accepting is a draw by agreement |
| `GameRooms.GameRoom.ExpireDrawOffer` | src/game/game_room.cpp:760-772 | an offer is removed once its lifetime is over, and its author reported |
| `GameRooms.GameRoom.OfferRematch` | src/game/game_room.cpp:774-809 | rematches only after an ordinary human game |
| `GameRooms.GameRoom.RespondToRematch` | src/game/game_room.cpp:811-835 | only the opponent may answer, and learns who offered |
| `GameRooms.GameRoom.ExpireRematchOffer` | src/game/game_room.cpp:837-849 | a rematch offer is removed once its lifetime is over |
| `GameRooms.GameRoom.ExpireOnTime` | src/game/game_room.cpp:851-862 | a fallen flag of the side to move ends the game, once |
| `GameRooms.GameRoom.OnDisconnect` | src/game/game_room.cpp:868-898 | the seat is detached; only a waiting unreserved room ends |
| `GameRooms.GameRoom.OnReconnect` | src/game/game_room.cpp:921-949 | an older connection generation cannot take a seat back |
| `GameRooms.GameRoom.ExpireDisconnected` | src/game/game_room.cpp:951-979 | the seat that left first forfeits after the grace; a tie is a draw |
| `GameRooms.GameRoom.AddListener` | src/game/game_room.cpp:206-210 | a registration is appended |
| `GameRooms.GameRoom.RemoveListener` | src/game/game_room.cpp:212-221 | the first matching registration goes |
| `GameRooms.GameRoom.AddSpectator` | src/game/game_room.cpp:1209-1234 | only in a live game, never a player, idempotent |
| `GameRooms.GameRoom.RemoveSpectator` | src/game/game_room.cpp:1236-1246 | the spectator is removed if present |
| `GameRooms.GameRoom.FinishGame` | src/game/game_room.cpp:1274-1288 | terminal state, and a completion queued with the snapshot and the listeners of that moment |
| `GameRooms.GameRoom.StopAndSwitch` | src/game/game_room.cpp:1290-1318 | the mover is charged and given the increment, clamped, and the opponent's clock is started at this reading, as ClocksFollowTicks says of whole runs |
| `RoomTicks.ClocksFollowTicks` | src/game/game_room.cpp:514-535 | over every run, whatever the readings: the clock of the side to move was started at the stop reading of the last recorded move, or at the start of the game, and each recorded think time runs from the stop of the move before to its own reading |
| `RoomTicks.TicksAreReadings` | src/game/game_room.cpp:514-535 | with one reading per operation both are that reading |
| `RoomTicks.ReplyIsCountedFromMove` | src/game/game_room.cpp:1290-1318 | after White's first move Black's clock counts from that move, not from the start |
| `GameRooms.GameRoom.CheckFlag` | src/game/game_room.cpp:1320-1333 | whether the side to move has used up its time |
| `GameRooms.GameRoom.GetRemainingTimes` | src/game/game_room.cpp:1093-1116 | the running clock is shown charged for the time since it started |
| `RoomRuns.StepKeepsSound` | src/game/game_room.h:8-17 | every operation keeps the room invariant: history legal from the start, a live game ongoing on the board, a finished one with the result its status entails, seats and offers consistent |
| `RoomRuns.BoardFollowsHistory` | src/game/game_room.cpp:510-524 | after every run the board is the recorded game replayed from the start, every recorded move was legal when made, and the chess invariant holds |
| `RoomRuns.FinishedIsFinal` | src/game/game_room.cpp:1274-1288 | a finished room never changes board, history, result, status or calls again |
| `RoomRuns.EachListenerIsToldOnce` | src/game/game_room.cpp:163-200 | exactly one operation finishes a room; each registration of that moment got exactly one completion call with the terminal snapshot, and there are no others |
| `RoomRuns.LiveRoomHasToldNobody` | src/game/game_room.cpp:1274-1288 | no completion call precedes the finish |
| `RoomRuns.RevisionMarksChange` | src/game/game_room.h:436-455 | the revision never falls, and stays the same exactly when the operation changed nothing, or only a check-in, the open flag of a reserved room that does not start, the generation of a seat bound again by its own connection, or the listeners; whether it does can be told from the room before the operation; every other change raises it, every change of board, history, phase, result or status among them |
| `RoomRuns.RevisionIsForeseen` | src/game/game_room.cpp:376-436 | the refusals, guards and held seats, looked up before the operation, under which it leaves the revision alone |
| `RoomRuns.ChangesWithoutRevision` | src/game/game_room.cpp:376-436 | a tournament room in which check-in, opening and binding again each change the room without raising the revision |
| `RoomRuns.EveryEndingIsCaused` | src/game/game_room.cpp:451-979 | a timeout needs a fallen flag of the side to move, a draw by agreement an offer accepted by the other seat, an abandonment a seat gone for the grace and gone first, a board status the move that brought it about |
| `RoomRuns.EndsExactlyWhen` | src/game/game_room.cpp:451-684 | told from a live room and the request: the operations that end the game, and no others do |
| `StatusLaws.DecidedByMove` | src/game/game_room.cpp:537-560 | a game ended by a move is won for the mover exactly when the other king could be taken were the turn passed and the fifty-move count has not run out, else drawn |
| `StatusLaws.BoardDecidesRuns` | src/game/game_room.cpp:537-560 | over every run a room with mate, stalemate or the fifty-move rule as its status has the result the board calls for |
| `RoomRuns.MovingDeclines` | src/game/game_room.cpp:525-530 | a recorded move declines the opponent's offer and leaves the mover's own standing |
| `RoomRuns.StoredRoomReplays` | src/application/game_completion_service.cpp:61-72 | the text stored for any room replays to the moves and the board the room holds |
| `RoomClocks.ClocksStayAboveFloor` | src/game/game_room.cpp:1290-1333 | whatever the readings, no remaining time falls below zero, or below a base time that is itself negative |
| `RoomClocks.ClocksStayNonNegative` | src/game/game_room.cpp:1290-1333 | the clocks of a room stay at or above zero over all its runs exactly when its base time is not negative |
| `RoomClocks.TimeIsConserved` | src/game/game_room.cpp:1290-1318 | with one reading per operation and an increment of at least minus one millisecond, each side's time is base plus increments minus its recorded think times; after a timeout still so for the winner |
| `RoomClocks.TimeIsConservedIff` | src/game/game_room.cpp:1290-1318 | for every base time and kind of room: time is conserved over all runs with one reading per operation exactly when the increment is at least minus one millisecond |
| `RoomClocks.ClampBites` | src/game/game_room.cpp:1310-1314 | one millisecond and an increment of minus two or less: White moves at once, is left with nothing, and its budget is below that |
| `RoomClocks.ShownZeroIffFlagged` | src/game/game_room.cpp:1319-1333 | the time shown to the side to move is nothing exactly when its flag has fallen |
| `Matchmaking.Matchmaker.Enqueue` | src/game/matchmaker.cpp:38-73 | a new connection goes behind its equals in the bucket of its time control; buckets, index and size stay in agreement; a queued one is refused |
| `Matchmaking.InsertedBehindEquals` | src/game/matchmaker.cpp:60-62 | a newcomer stands behind everybody of its rating or less and before all others |
| `Matchmaking.RangeGrows` | src/game/matchmaker.h:74-82 | a range is 200 at first, never shrinks, and grows by 50 with every ten seconds |
| `Matchmaking.Matchmaker.Dequeue` | src/game/matchmaker.cpp:79-107 | exactly that connection's entry leaves bucket, index and size |
| `Matchmaking.Matchmaker.SweepBucket` | src/game/matchmaker.cpp:120-184 | the erasing loop makes the matches and leaves the rest the recursive sweep defines, index and size in step |
| `Matchmaking.Matchmaker.TryMatch` | src/game/matchmaker.cpp:113-187 | every bucket is swept once, on its own; index and size lose exactly the matched connections |
| `Matchmaking.SweepPartitions` | src/game/matchmaker.cpp:126-182 | every entry of a bucket is matched exactly once or still waiting |
| `Matchmaking.MatchesShareNobody` | src/game/matchmaker.cpp:126-182 | no connection is in two matches or twice in one |
| `Matchmaking.SweptPairsAreCompatible` | src/game/matchmaker.cpp:132-142 | each match was acceptable to both sides at the reading that made it |
| `Matchmaking.SweepLeavesNoPairIff` | src/game/matchmaker.cpp:126-182 | given who waits, in rating order, a sweep leaves no acceptable pair whatever the ratings exactly when no two of them accept the least distance a sweep can put between them, a number computed from the ranges alone |
| `Matchmaking.SweepLeavesNoPair` | src/game/matchmaker.h:74-82 | under that condition no acceptable pair is left |
| `Matchmaking.NoPickyMiddleHidesNothing` | src/game/matchmaker.h:74-82 | the condition holds when no waiting entry is pickier than both a weaker and a stronger one |
| `Matchmaking.ThreeCanHideIff` | src/game/matchmaker.cpp:126-182 | three ranges can hide a pair exactly when twice the least gap the middle one refuses is within both others |
| `Matchmaking.FourCanHideWhereThreeCannot` | src/game/matchmaker.cpp:126-182 | ranges 250, 200, 200, 250 can hide a pair, 250, 200, 250 cannot |
| `Matchmaking.EqualRangesHaveNoPickyMiddle` | src/game/matchmaker.h:74-82 | equal ranges are such a case |
| `Matchmaking.PickyMiddleCanHideAPair` | src/game/matchmaker.cpp:126-182 | a newcomer between two long-waiting players can leave them unmatched |
| `RateLimiting.RateLimiter.Sweep` | src/auth/rate_limiter.cpp:26-37 | exactly the buckets untouched for longer than the time to live go, and their number is returned |
| `RateLimiting.RateLimiter.Refill` | src/auth/rate_limiter.cpp:11-24 | the drip since the last touch, capped; nothing for a rewound clock |
| `RateLimiting.RateLimiter.TryTake` | src/auth/rate_limiter.cpp:39-69 | sweep, refill or start full, and take the cost only when it is there |
| `RateLimiting.EveryClockBound` | src/auth/rate_limiter.cpp:11-69 | whatever the clock does, in any window of any run a key is granted at most the capacity plus the drip over the upward steps of the clock |
| `RateLimiting.WindowBound` | src/auth/rate_limiter.cpp:11-69 | in any window in which the clock is not set back a key is granted at most the capacity plus the drip from end to end |
| `RateLimiting.WindowBoundIff` | src/auth/rate_limiter.cpp:11-69 | for given readings the end-to-end bound holds of a window, for every limit, run and key, exactly when the clock is not set back inside the window |
| `RateLimiting.RunBoundIff` | src/auth/rate_limiter.cpp:11-69 | for given readings it holds of every window with its ends in order exactly when none of them contains a step back |
| `RateLimiting.LazyEveryClockBound` | src/auth/rate_limiter.cpp:26-69 | the bound for every clock holds of the sweeping limiter when an idle bucket fills within the time to live |
| `RateLimiting.LazyWindowBound` | src/auth/rate_limiter.cpp:26-69 | so does the end-to-end bound where the clock is not set back |
| `RateLimiting.LazyWindowBoundIff` | src/auth/rate_limiter.cpp:26-69 | the sweep does not move the boundary: over such limits the bound holds exactly in the windows without a step back |
| `RateLimiting.ForgettingIsHarmlessIff` | src/auth/rate_limiter.cpp:26-37 | sweeping changes no decision of any monotone run exactly when refill times time-to-live reaches the capacity |
| `RateLimiting.PresetsForgetHarmlessly` | src/auth/rate_limiter.h:124-131 | every preset with the default hour meets that condition |
| `RateLimiting.RewoundClockRefunds` | src/auth/rate_limiter.cpp:14-23 | a clock set back and forth refunds tokens, because the touch time follows it back |
| `Sessions.SessionStore.IssueSession` | src/auth/session.cpp:43-64 | a login starts a family with one unrotated token |
| `Sessions.SessionStore.RefreshSession` | src/auth/session.cpp:66-177 | late reuse deletes the family, a retry in the grace supersedes the live successor, an expired token is removed, otherwise token and successor are exchanged |
| `Sessions.SessionStore.Logout` | src/auth/session.cpp:179-191 | the family of the token goes; an unknown token changes nothing |
| `Sessions.SessionStore.LogoutAll` | src/auth/session.cpp:193-206 | the player's rows go and the epoch rises |
| `Sessions.RunIsSound` | src/auth/session.cpp:99-113 | over every run a family has at most one unrotated token |
| `Sessions.IssuedTokenWorks` | src/auth/session.cpp:60-135 | a token is exchanged from its issue until thirty days later, and then expires |
| `Sessions.SuccessorWorks` | src/auth/session.cpp:142-176 | so is the successor of an exchange |
| `Sessions.RetryWorksInGrace` | src/auth/session.cpp:96-119 | a token exchanged once is exchanged again exactly within the grace and before its own expiry |
| `Sessions.GrantedAccessIsAdmitted` | src/auth/session.cpp:215-235 | a granted access token is admitted, and no longer after logging out everywhere |
| `Sessions.ExchangeLeavesOnlySuccessor` | src/auth/session.cpp:142-176 | after an exchange the new token is the only unrotated one of its family |
| `Sessions.LiveIffExchanged` | src/auth/session.cpp:93-176 | after a known token has been presented its family has an unrotated token exactly when an exchange was made |
| `Sessions.ExpiredRetryLeavesNone` | src/auth/session.cpp:107-135 | an expired token retried in its grace leaves its family without an unrotated token, although there was one before |
| `Sessions.FirstRotationStands` | src/auth/session.cpp:150-156 | the first rotation time of a token is never moved |
| `Sessions.GraceIsNeverExtended` | src/auth/session.cpp:86-96 | no token is exchanged later than the grace after its first rotation, however often it was retried |
| `Sessions.LateReuseKillsFamily` | src/auth/session.cpp:90-96 | after late reuse no token of the family is ever exchanged again |
| `Sessions.DeadFamilyStaysDead` | src/auth/session.cpp:90-96 | a family without rows never gets another |
| `Sessions.LogoutKillsFamily` | src/auth/session.cpp:179-191 | the same after a logout |
| `Sessions.LogoutAllIsFinal` | src/auth/session.cpp:193-206 | after signing out everywhere neither old refresh tokens nor old access tokens work again |
| `KeyStore.SealedKeyStore.Sweep` | src/crypto/sealed_key_store.cpp:21-36 | the new state is the old one with the expired keys erased, in whatever order, each with its count; the counters stay exact |
| `KeyStore.SealedKeyStore.Erase` | src/crypto/sealed_key_store.cpp:38-46 | one key goes, with its count |
| `KeyStore.SealedKeyStore.IssueCheck` | src/crypto/sealed_key_store.cpp:54-62 | the swept state, and the two cap tests on it |
| `KeyStore.SealedKeyStore.IssueCommit` | src/crypto/sealed_key_store.cpp:74-90 | the tests again, then the key stored and counted |
| `KeyStore.SealedKeyStore.Consume` | src/crypto/sealed_key_store.cpp:96-116 | the key is removed in any case and handed out only before its expiry |
| `KeyStore.StoringOne` | src/crypto/sealed_key_store.cpp:84-90 | an admitted store keeps the counters exact precisely when the id was not in use |
| `KeyStore.SweptStaysExact` | src/crypto/sealed_key_store.cpp:21-36 | erasing the expired keys leaves exact counters exact |
| `KeyStore.ExactCountersAgree` | src/crypto/sealed_key_store.cpp:21-36 | exact counters are determined by the keys, so the order of a sweep is of no account |
| `KeyStore.CountersStayExact` | src/crypto/sealed_key_store.cpp:21-90 | at every step of every interleaving the counter of an address equals the keys held for it |
| `KeyStore.CapsHoldIff` | src/crypto/sealed_key_store.cpp:54-90 | both caps hold over every interleaving exactly when the per-address cap is at least one, or nothing is stored at all |
| `KeyStore.HandedOutOnce` | src/crypto/sealed_key_store.cpp:96-116 | no key is handed out twice |
| `KeyStore.HandedOutInTime` | src/crypto/sealed_key_store.cpp:96-116 | a key is handed out as it was stored and strictly before its lifetime is over |
| `KeyStore.HandedOutWhenAsked` | src/crypto/sealed_key_store.cpp:96-116 | a stored key is handed out to the first who asks exactly before its expiry, however other operations come between |
| `Sha2.PaddingIsLeast` | src/crypto/sha256.cpp:154-170 | the padded message is the least whole number of blocks that holds message, marker and length |
| `Sha2.PaddedAbc` | src/crypto/sha256.cpp:155-180 | the message abc is padded as in the example of section 5.1.1 of FIPS 180-4 |
| `Sha2.AbsorbedAppend` | src/crypto/sha256.cpp:117-148 | whole blocks may be absorbed ahead of the rest |
| `Sha2.Hasher.Fill` | src/crypto/sha256.cpp:121-135 | topping up keeps state and buffer standing for all bytes so far |
| `Sha2.Hasher.Update` | src/crypto/sha256.cpp:117-148 | feeding data extends the message the engine stands for |
| `Sha2.Hasher.PadBytes` | src/crypto/sha256.cpp:154-172 | marker, zeros and length computed from the buffered bytes |
| `Sha2.Hasher.Finish` | src/crypto/sha512.cpp:150-189 | the digest is the standard's: the compression folded over the padded message, truncated |
| `Sha2.PadMakesPadded` | src/crypto/sha512.cpp:150-172 | the padding computed from the buffered bytes is the one of the standard |
| `Sha2.EnginePaddingIsStandardIff` | src/crypto/sha512.cpp:140-156 | among all lengths the standard allows, the engine pads as the standard does exactly below 2^61 bytes |
| `Sha2.HashChunks` | src/crypto/sha256.cpp:117-194 | every way of cutting a message gives the same digest |
| `Hmac.KeyPads` | src/crypto/hmac.h:102-125 | the two padded key blocks, a long key hashed first |
| `Hmac.Keyed.constructor` | src/crypto/hmac.h:54-54 | a keyed hash primed with its inner pad |
| `Hmac.Keyed.Update` | src/crypto/hmac.h:56-57 | data extends the authenticated text |
| `Hmac.Keyed.Finish` | src/crypto/hmac.h:59-71 | the MAC of section 2 of RFC 2104 |
| `Hmac.LongKeyIsItsDigest` | src/crypto/hmac.h:106-110 | a key longer than a block and its digest give the same MAC |
| `Hkdf.Extract` | src/crypto/hkdf.h:54-62 | an empty salt is a digest's length of zeros |
| `Hkdf.Expand` | src/crypto/hkdf.h:65-102 | the output of section 2.3 of RFC 5869; nothing when the counter byte cannot count the blocks |
| `Hkdf.ShorterIsPrefix` | src/crypto/hkdf.h:65-102 | outputs have the length asked for, and shorter ones are prefixes of longer ones |

## Left out

- Sockets, WebSocket framing, HTTP, mail, the database driver, JSON, logging, configuration and the frontend: input and output around the modelled logic.
- Key encapsulation, signatures, Argon2id, randomness, constant-time comparison and memory wiping: foreign calls, or not functional properties. The SHA-2 round function is a parameter.
- AES, base64, JWT and PHC codecs, PGN files, tournaments and the anti-cheat statistics: other components.
- Strength of play and the choice of evaluation weights; threefold repetition and insufficient material, which the source never reports.
- The room operation `on_reconnect(PlayerId, int)` and `get_board()` without the lock: no service uses the first, and the second is a race by its own comment. Display names, ratings, wall-clock times and UUIDs of a room are opaque and not carried.
- What a listener does with its call, exceptions it throws, and null listeners. The start of a game is announced in the same step as the start itself.
- Fixed-width integers: counters, node counts, clocks and scores are unbounded, except the byte counter of the hashes, the table's depth byte and age, and the Zobrist key.
- Failing database statements: a transaction that fails leaves the tables as they were.
- Floating-point rounding in the limiter: token counts are real numbers.
- A clock that crosses a ten-second step in the middle of a matchmaking sweep: what a sweep leaves is stated for ranges that stand still meanwhile.
- StoredGameReplays: about games from the standard initial array, which is where every room starts.
- FenRoundTrip: for clocks that fit the parser's integers.
- AttackScansAgree: about enemy-occupied squares; AgreementOnOccupied covers the others.
- Clock readings that differ within one operation: conservation is stated for one reading per operation, what holds whatever the readings is ClocksStayAboveFloor.
- CountersStayExact: for ids never used before, as StoringOne shows to be necessary.
- LateReuseKillsFamily: tokens are identified with their hashes; collisions are not modelled.
- Engine.Search.Run: for depth limits below 1,900,000, where mate scores still fit the search window; the default limit is 64. Equality with a run without a clock is up to the order of equally ranked moves, which the sort leaves open.
- PseudoLegalFlipped: stated move by move; the counts are in MoveCountFlipped.
