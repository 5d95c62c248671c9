# A model of the chess application, with proofs

This project models the parts of the chess application in which many parties change shared state,
and proves what they keep. The paths below are relative to the root of the repository.

**Multiplayer rooms** (`GameTables`, `GameStore`, `RoomProtocol`, `RoomInvariant`, `RoomSteps`,
`RoomRematch`, `RoomSettle`, `RoomTheorems`, `RoomExactly`, `RoomEndings`, `RoomWitness`,
`RoomUndercount`, `Elo`, `RematchVotes`). Any number of replicas keep disposable room objects over
one database. A handler reads the database into a room object, is suspended, and later runs one
transaction with whatever object it still holds, so every read can be arbitrarily stale.
`GameTables` gives each transaction as a function from tables to a committed result or a rollback;
the class `GameStore.Database` runs the same transactions statement by statement and is proved
equal to those functions. `RoomProtocol` is the transition system (register, create, hydrate,
refresh, join, reconnect, move, finalize, resign or leave, detach, vote, count votes, rematch,
evict, crash); `RoomInvariant` is what every step keeps; `RoomTheorems` states what holds in every
run, `RoomExactly` when each step is accepted in a reachable state and every field it then writes,
`RoomEndings` how much of what an ending records is true of the game, and `RoomWitness` and
`RoomUndercount` hold concrete runs. The per-room promise chain is not used there: the database is
safe without it.

**The browser chess engine and game hook** (`ChessBoard`, `MoveGeneration`, `ChessRules`,
`Castling`, `ChessPosition`, `Notation`, `Play`, `PlayInvariant`, `PlayMoves`, `RemotePlay`,
`Engine`, `ChessGame`, `Fen`). Move generation is proved equal to an attack relation that speaks
of aligned squares and nothing in between, not of the generator's direction lists; a move is legal
exactly when the piece goes that way and its king is not attacked afterwards; clicks, promotions
and undos are described square by square and field by field. Every sequence of clicks, promotions,
undos and restarts keeps the position well formed, replaying the move log reproduces the live
boards, a browser that is only told the moves stays in step, and a printed FEN record (section
16.1 of the PGN Standard) loads back. `Engine` and `ChessGame` are the source's loops and its
object with in-place updates.

**Tournaments** (`Shuffle`, `Bracket`, `BracketInvariant`, `BracketTheorems`, `BracketExactly`,
`BracketStore`, `BracketLocks`). The shuffle, the padding, the rounds, when each transaction is
accepted and what it then writes, and exactly which tournaments can finish; then concurrent
reports at the level of their row locks, which are shown to be runs of the atomic transactions in
commit order, deadlocks and aborts included.

**Shutdown and room drain** (`ShutdownMachine`, `ShutdownBudget`, `RoomDrain`). The controller
under any order of triggers, signals, crashes and watchdog; the time budgets; the promise chain of
one room entry.

**Refresh tokens** (`RefreshTokens`, `TokenEffects`). Rotation with reuse detection, the pattern
of section 5.2.2.3 of RFC 6819.

chess.js appears as a record of functions on FEN strings; `GameTables.Rules.Valid` lists the few
facts about it that the server relies on (playing a move flips the turn and gives a loadable
position, a canonical move replays to the same position, a mated side has no move). The
expected-score curve of the rating system is any function strictly between 0 and 1. The unique
constraints on `games.room_id`, `moves(game_id, move_number)` and `scores(game_id, user_id)` and
the constraint `scores.moves > 0` are those of `Database/migrations`.

## What is not true of the code

Some properties one might expect do not hold. Each is stated with the exact condition and a
concrete input or run that shows it.

- A resignation or departure before the first move never settles: the score rows would hold zero
  moves, which `scores.moves > 0` refuses, so the whole transaction rolls back and the game stays
  in progress (`RoomTheorems.SettlesExactlyWhen`, `RoomWitness.ResignationWithoutMoves`).
- A game recorded as drawn need not be drawn on its final board: chess.js reports draws but still
  plays on, and another replica's move can commit between the drawn move and its finalization.
  Some position of the game was drawn (`RoomTheorems.VerdictMatchesBoard`). The final board is the
  one the settlement locked, so it is drawn exactly when that one is
  (`RoomEndings.DrawIsFinalExactlyWhen`, `RoomWitness.DrawOvertaken`). The rules of that run are
  made up; in chess the same happens when a position drawn by the fifty-move rule is followed by a
  capture or a pawn move, which starts the count again. A recorded mate is always the final board.
- The score rows of a settled game need not carry its number of moves: they carry what the
  handler's room object showed, which is too small exactly when that object missed a move
  (`RoomEndings.ScoreMovesExactlyWhen`, `RoomWitness.DrawOvertaken`, and
  `RoomUndercount.StaleResignation` for every pair of numbers). So a quick-win badge can be granted
  for a win in more than 15 moves and a marathon badge missed after 60
  (`RoomEndings.QuickBadgeExactlyWhen`, `RoomEndings.MarathonBadgeExactlyWhen`,
  `RoomUndercount.QuickWinForLongGame`, `RoomUndercount.MarathonMissed`); the reverse never happens.
- Tournaments with 5, 6 or 9 to 14 players - in general those with two or more empty seats in the
  padded bracket - never finish, because all empty seats sit at the end and two of them meet in a
  match nobody can report (`BracketTheorems.FinishableExactlyWhen`,
  `BracketTheorems.FiveNeverFinish`).
- `getLegal` lets a king castle out of check, against Article 3.8 of the FIDE Laws of Chess, and
  disagrees with that article about castling in no other case
  (`Castling.AgreesWithLawsExactlyWhen`, `Castling.CastlesOutOfCheck`).
- The shutdown sequence can exceed its global budget, and the socket phase its own, when
  `socketRace` is overridden with a negative number and `socketSettle` is large
  (`ShutdownBudget.SequenceWithinBudget`, `ShutdownBudget.SequenceOverrun`,
  `ShutdownBudget.SocketWithinBudget`, `ShutdownBudget.SocketOverrun`).
- A printed FEN record does not count moves for the fifty-move rule: its clock is always 0
  (`Fen.MoveFields`).
- A room's promise chain serialises its tasks only while every link is made on the live room
  object; a link on an older object forks it (`RoomDrain.LinkKeepsCover`,
  `RoomDrain.StaleLinkForks`).
- Replaying a consumed refresh token goes unnoticed when that token has expired or was itself
  revoked (`RefreshTokens.ReplayDetectedExactlyWhen`, `RefreshTokens.ReplaysUnnoticed`).

## Model

| member | source | states |
|---|---|---|
| RoomTheorems.InvStep | Chess-Backend/src/socket/gameSocket.js:399-732 | every step of every replica, on however stale a room object, keeps the whole invariant and never shortens, reassigns or reverses anything recorded |
| RoomTheorems.RunInv | Chess-Backend/src/socket/gameSocket.js:17-24 | the invariant holds in every state of every run, for any number of replicas |
| RoomTheorems.RunExtends | Chess-Backend/src/models/Game.js:18-45 | across any stretch of a run, seats are never reassigned, moves only appended and only to games in progress, score rows never changed, rematch lines and votes only extended |
| RoomTheorems.BoardIsFoldOfMoves | Chess-Backend/src/socket/gameSocket.js:342-368 | every game's stored board is the replay of its moves; moves are numbered 1..n, alternate from white, were sent by the user seated in that colour, and each stored position is the replay so far |
| RoomTheorems.RecoveryPathsAgree | Chess-Backend/src/socket/gameSocket.js:88-128 | checkpoint, last move and full replay recover the same position, and recovery never abandons a game |
| RoomTheorems.VerdictIsFinal | Chess-Backend/src/socket/gameSocket.js:282-290 | once finished, a game keeps its verdict and its moves in every later state, as score rows keep what was written; only its room can be released |
| RoomTheorems.SettledExactlyOnce | Chess-Backend/src/socket/gameSocket.js:282-340 | a finished game has two distinct seated users, exactly their two score rows and exactly one rating entry; an unfinished one has none |
| RoomTheorems.VerdictMatchesBoard | Chess-Backend/src/socket/gameSocket.js:514-520 | a recorded mate is mate on the final board won by the last mover, a recorded draw occurred in the game without mate, a resignation has a winner |
| RoomEndings.DrawIsFinalExactlyWhen | Chess-Backend/src/socket/gameSocket.js:282-290 | a draw is recorded only off a room object in a drawn position; the final board, for good, is the one the transaction locked, so it is drawn if and only if the locked board is, and in particular when the object showed that board |
| RoomEndings.EndsBySettling | Chess-Backend/src/socket/gameSocket.js:282-290 | no step but a settlement finishes a game, and a settlement changes only status, result and winner of the row |
| RoomEndings.ResignationNamesOpponent | Chess-Backend/src/socket/gameSocket.js:563-580 | the recorded winner of a resignation or departure, for good, is the opponent of the seat whose socket asked for it, and the losing seat is that socket's user |
| RoomEndings.ScoreMovesExactlyWhen | Chess-Backend/src/socket/gameSocket.js:308-315 | both score rows of an ending, for good, carry the number of moves the settling room object showed, never more than were made, and the game's number of moves if and only if that object missed none |
| RoomEndings.QuickBadgeExactlyWhen | Chess-Backend/src/socket/gameSocket.js:316-324 | the quick-win badge is never withheld from a winner within 15 moves, and is right if and only if there is such a win or no won game was counted short across 15 |
| RoomEndings.MarathonBadgeExactlyWhen | Chess-Backend/src/socket/gameSocket.js:325-330 | the marathon badge is never given without a finished game of 60 moves, and is right if and only if there is none or one of them was counted as such |
| RoomUndercount.StaleResignation | Chess-Backend/src/socket/gameSocket.js:563-580 | for all 0 < k <= n, a run in which a game of n moves is settled as one of k |
| RoomUndercount.QuickWinForLongGame | Chess-Backend/src/socket/gameSocket.js:316-324 | a run that grants a quick-win badge for a game of sixteen moves |
| RoomUndercount.MarathonMissed | Chess-Backend/src/socket/gameSocket.js:325-330 | a run in which a finished game of sixty moves earns no marathon badge |
| RoomWitness.DrawOvertaken | Chess-Backend/src/socket/gameSocket.js:514-529 | a run of two replicas in which a recorded draw is not one of the final board and the score rows count one of two moves |
| RoomWitness.ResignationWithoutMoves | Chess-Backend/src/socket/gameSocket.js:563-580 | a run in which a seated, present player resigns before the first move and the game stays in progress |
| RoomTheorems.SettlesExactlyWhen | Chess-Backend/src/socket/gameSocket.js:282-340 | a finalization settles if and only if the row is in progress, both users exist and the room object shows at least one move; otherwise it is a no-op or rolls back |
| RoomTheorems.OneHolderPerRoom | Chess-Backend/src/socket/gameSocket.js:626-632 | at every moment exactly one game holds each created room, the last of its line, and every game stands at exactly one place of exactly one line |
| RoomTheorems.HoldersStayInLine | Chess-Backend/src/socket/gameSocket.js:626-632 | a game that ever held a room stays in that room's line for good |
| RoomTheorems.RematchChain | Chess-Backend/src/socket/gameSocket.js:614-632 | consecutive games of a room: the earlier finished and released, same two users with colours swapped, both with a counted vote on the earlier game |
| RoomTheorems.RatingConservation | Chess-Backend/src/socket/gameSocket.js:296-305 | the rating total never falls below the registered total and exceeds it by at most one point per settled game; each rating is the sum of its user's entries; each entry is the change nearest to 32 times score minus expected score for the two users' ratings at that moment, and none exceeds 32, lowers a winner or raises a loser |
| RoomTheorems.RatingsNearest | Chess-Backend/src/socket/gameSocket.js:299-305 | in every run every settled game changed white's rating by the integer nearest to 32(1-e), 32(0-e) or 32(1/2-e), as white won, black won or nobody did, with e white's expected score before it, halves up, and black's by the integer nearest to the opposite; no draw moves a rating by more than 16, and a draw at e = 1/2 moves neither |
| RoomTheorems.RatingTotalGrows | Chess-Backend/src/socket/gameSocket.js:282-305 | between any two moments of a run the rating total grows by exactly 1200 per registration and one point per game settled in between whose unrounded change was an exact half, so games never lower it and add at most one point each |
| RoomTheorems.WinBadgesExact | Chess-Backend/src/socket/gameSocket.js:308-331 | in every run a user holds the 1, 5, 10 and 25 win achievements exactly when that many wins were settled for them |
| RoomTheorems.WinsAreFinishedGames | Chess-Backend/src/socket/gameSocket.js:308-315 | the winning score rows of a user are exactly the finished games that user won |
| RoomInvariant.RoomKept | Chess-Backend/src/socket/gameSocket.js:215-224 | a stale room object stays truthful when others commit: its seats, the occurrence of its position and a recorded ending survive any extension of the database |
| RoomInvariant.ReplayIsPos | Chess-Backend/src/socket/gameSocket.js:96-100 | replaying any prefix of legal stored moves succeeds and gives the stored position |
| RoomInvariant.MaxIsLength | Chess-Backend/src/socket/gameSocket.js:358-361 | MAX(move_number) of a well formed game is its number of moves, so the next number is free |
| RoomSteps.BuiltRoomOk | Chess-Backend/src/socket/gameSocket.js:225-256 | a room object built from any reachable row, with whichever sockets of their own users, is truthful: seats, position, moves and verdict are those of the game |
| RoomSteps.JoinKeeps | Chess-Backend/src/socket/gameSocket.js:429-445 | a claim of the black seat from a stale object keeps the invariant whether it commits, finds the seat taken or rolls back |
| RoomSteps.MoveKeeps | Chess-Backend/src/socket/gameSocket.js:483-508 | a move decided on a stale object keeps the invariant: the transaction judges it on the locked row |
| RoomExactly.MoveAcceptedExactlyWhen | Chess-Backend/src/socket/gameSocket.js:342-368 | a submitted move is recorded if and only if the row is in progress, it is the mover's turn on the stored board and the request is legal there; the new row then has the next number, the mover's colour and user, the canonical move and the position it leads to, that position becomes the board, and nothing else changes; otherwise nothing changes |
| RoomExactly.RefreshExactly | Chess-Backend/src/socket/gameSocket.js:225-256 | a refresh puts into the cache an object with the seats, colours, position, moves, verdict and status of the row, in which a seat has a socket if and only if the live entry has it for that user, and changes nothing else |
| RoomExactly.RefreshedMoverPlays | Chess-Backend/src/socket/gameSocket.js:483-508 | whatever the old object showed, before a rematch or after it, the attached player to move has their socket on the right seat after the refresh and can then have any legal move recorded |
| RoomExactly.HydrateExactly | Chess-Backend/src/socket/gameSocket.js:155-177 | a cache miss installs an object that shows the row and has no sockets |
| RoomExactly.JoinAcceptedExactlyWhen | Chess-Backend/src/socket/gameSocket.js:420-445 | a claim is accepted if and only if the game is in progress and the black seat free; it seats the socket's own user, who is never the one playing white, and changes nothing else |
| RoomExactly.CreatesExactlyWhen | Chess-Backend/src/socket/gameSocket.js:397-418 | a room is created if and only if no game holds its id, with one new row, seat and object and nothing else |
| RoomExactly.SettlesExactly | Chess-Backend/src/socket/gameSocket.js:282-340 | a finalization step settles if and only if the row is in progress between two existing users and the object shows a move; it then writes the verdict, the two score rows, the two rating changes and one ledger entry; otherwise nothing changes |
| RoomExactly.GameOverEnds | Chess-Backend/src/socket/gameSocket.js:538-561 | game_over from an attached player off a finished position does end the game: mate for the side not to move, else a draw |
| RoomExactly.ResignationEnds | Chess-Backend/src/socket/gameSocket.js:563-580 | an attached player who resigns a game that shows a move does lose it |
| RoomExactly.OnlyPlayersEnd | Chess-Backend/src/socket/gameSocket.js:538-581 | only a player of the game ends it, off an object that does not show it ended: by game_over in a finished position, by resigning or leaving while it is played |
| RoomExactly.VoteIsTheSenders | Chess-Backend/src/socket/gameSocket.js:591-613 | a vote is added for the user whose socket sent it, on the finished game shown, and changes nothing else |
| RoomExactly.QuorumCountedExactlyWhen | Chess-Backend/src/socket/gameSocket.js:614-622 | a handler counts a quorum if and only if both seated users have a vote on the game in its store |
| RoomExactly.RematchStarts | Chess-Backend/src/socket/gameSocket.js:614-646 | two votes on the game that holds the room do start its rematch |
| RoomExactly.RematchExactlyWhen | Chess-Backend/src/socket/gameSocket.js:622-646 | a rematch starts if and only if the finished game still holds the room; the room passes to one new game with the same two users, colours swapped and sockets kept, and nothing else changes |
| RoomSettle.FinalizeEffect | Chess-Backend/src/socket/gameSocket.js:282-340 | a finalization either changes nothing or writes verdict, both ratings with the changes nearest to 32 times score minus expected score, both score rows and the badges, and the badges stay exact |
| RoomSettle.ScoreBadges | Chess-Backend/src/socket/gameSocket.js:309-331 | counting wins right after the insert keeps every badge equivalent to the settled scores |
| RoomSettle.VerdictHolds | Chess-Backend/src/socket/gameSocket.js:545-549 | a verdict read off a stale room object still describes the game when it is written |
| RoomSettle.SettleKeeps | Chess-Backend/src/socket/gameSocket.js:518-580 | resigning, leaving, game_over and automatic finalization keep the invariant |
| RoomRematch.RematchOnlyFromHolder | Chess-Backend/src/socket/gameSocket.js:626-632 | a rematch of a finished game commits if and only if that game is the current holder of the room; a second release conflicts on the unique room id and rolls back |
| RoomRematch.QuorumIsUnanimous | Chess-Backend/src/socket/gameSocket.js:41-43 | two counted votes on a two-player game are both players' votes |
| RoomRematch.StartRematchKeeps | Chess-Backend/src/socket/gameSocket.js:622-646 | starting a rematch keeps the invariant, whoever else starts one at the same time |
| RematchVotes.VotersAreStanding | Chess-Backend/src/services/rematchVotes.js:47-127 | after any commands in any interleaving a game's set holds exactly the users with a vote that nothing later withdrew, cleared or expired |
| RematchVotes.QuorumExactlyWhen | Chess-Backend/src/services/rematchVotes.js:81-100 | with only two users voting, a count of two is read if and only if both votes stand at that moment |
| RematchVotes.LocalBackend.AddVote | Chess-Backend/src/services/rematchVotes.js:51-61 | ids that are not positive are refused and change nothing; otherwise the count is the number of standing voters |
| RematchVotes.LocalBackend.RemoveVote | Chess-Backend/src/services/rematchVotes.js:62-69 | withdraws exactly that vote; false for an invalid game id |
| RematchVotes.LocalBackend.ClearVotes | Chess-Backend/src/services/rematchVotes.js:70-77 | withdraws every vote on the game; false for an invalid game id |
| GameStore.Database.CreateGame | Chess-Backend/src/models/Game.js:9-16 | inserts the row, or throws and changes nothing when some game holds the room |
| GameStore.Database.ClaimBlackSeat | Chess-Backend/src/models/Game.js:18-30 | lock, decide, update equals the atomic claim, in all three outcomes |
| GameStore.Database.AbandonMany | Chess-Backend/src/models/Game.js:99-106 | marks exactly the listed games that are in progress as abandoned by a process failure, leaves every other row, and returns their number |
| GameStore.Database.PersistMoveAtomic | Chess-Backend/src/socket/gameSocket.js:342-368 | statement by statement equals the atomic move, refusals included, of which RoomExactly.MoveAcceptedExactlyWhen says what is recorded |
| GameStore.Database.InsertScore | Chess-Backend/src/socket/gameSocket.js:309-331 | one pass of the score loop, with the conflict and the refused zero |
| GameStore.Database.FinalizeGameAtomic | Chess-Backend/src/socket/gameSocket.js:282-340 | the statements and the loop over both players equal the atomic settlement, of which RoomExactly.SettlesExactly says what is written, and every exception restores the state at BEGIN |
| GameStore.Database.RematchAtomic | Chess-Backend/src/socket/gameSocket.js:626-632 | release, create and seat equal the atomic rematch, with rollback on a conflict |
| GameStore.HighestNumber | Chess-Backend/src/socket/gameSocket.js:358-361 | the highest move number, zero for none |
| Elo.RoundOpposite | Chess-Backend/src/utils/elo.js:13-14 | rounding a change and its opposite loses nothing except one point on an exact half |
| Elo.PairTotal | Chess-Backend/src/utils/elo.js:9-16 | one game leaves the pair's total unchanged, or adds one point exactly on a half; no rating moves by more than 32 |
| Elo.OutcomeDirection | Chess-Backend/src/utils/elo.js:9-16 | a winner never loses points, a loser never gains any, a draw moves at most 16 |
| Elo.NearestGains | Chess-Backend/src/utils/elo.js:9-16 | each rating changes by the integer nearest to 32 times score minus expected score |
| MoveGeneration.RayMembers | Chess-Frontend/src/engine/chessEngine.js:23-30 | the slider loop yields exactly the squares of the open ray that hold no own piece |
| MoveGeneration.RawMembers | Chess-Frontend/src/engine/chessEngine.js:20-62 | rawMoves yields exactly the pseudo-legal targets, declared per piece in terms of squares: sliders go to aligned squares with nothing in between, whichever direction lists the loops use, and pushes, captures, en passant and castling are spelled out |
| MoveGeneration.SliderAttacks | Chess-Frontend/src/engine/chessEngine.js:46-47 | bishop, rook and queen attack along their open rays exactly the squares on a common diagonal, a common line, or either, with every square between empty |
| ChessRules.CheckIsAttack | Chess-Frontend/src/engine/chessEngine.js:70-78 | with one king, inChk holds if and only if an enemy piece attacks it; pawn pushes never count |
| ChessRules.SameCheck | Chess-Frontend/src/hooks/useChessGame.js:148-155 | exchanging an own piece, as a promotion does, never changes check against oneself |
| ChessRules.LegalMembers | Chess-Frontend/src/engine/chessEngine.js:80-94 | getLegal keeps exactly the raw moves that pass the king-safety filter |
| ChessPosition.LegalExactlyWhen | Chess-Frontend/src/engine/chessEngine.js:80-94 | in a well formed position a move is legal if and only if the piece goes that way and its king is attacked neither on the board the move leaves nor, castling, on the square it crosses |
| Castling.CastlingExactlyWhen | Chess-Frontend/src/engine/chessEngine.js:86-92 | castling is legal if and only if the right is held, the way is empty and neither crossed nor reached square is attacked, whether or not the king is in check |
| Castling.AgreesWithLawsExactlyWhen | Chess-Frontend/src/engine/chessEngine.js:80-94 | with one king and truthful rights, Article 3.8 allows a castling move if and only if getLegal does and the king is not in check; the two disagree if and only if the king is attacked while right, way, crossed and reached square are in order |
| Castling.CastlesOutOfCheck | Chess-Frontend/src/engine/chessEngine.js:86-92 | a well formed position in which a checked king may castle |
| ChessPosition.NeverTakesKing | Chess-Frontend/src/engine/chessEngine.js:80-94 | in a well formed position no raw move takes the enemy king |
| ChessPosition.CommittedCells | Chess-Frontend/src/hooks/useChessGame.js:111-168 | what stands on every square after a committed move: the mover or its promotion on the target, nothing where it came from, the pawn taken en passant gone, the castled rook beside the king, everything else as it was |
| ChessPosition.CommitKeeps | Chess-Frontend/src/hooks/useChessGame.js:111-184 | committing a legal move, with any offered promotion, keeps the position well formed: one king each, the mover out of check, no right without king and rook at home, no en-passant square without its pawn, no pawn on a last rank; PlayMoves.ClickPlaysMove says which rights and square are left |
| ChessPosition.InitOk | Chess-Frontend/src/engine/chessEngine.js:8-14 | the initial position is well formed and nobody is in check |
| Notation.NameRoundTrip | Chess-Frontend/src/engine/chessEngine.js:108-111 | squareToRC inverts the printed square name |
| Notation.NameIs | Chess-Frontend/src/hooks/useChessGame.js:30 | files run from a to h with the columns, ranks from 8 down to 1 with the rows |
| PlayInvariant.ReplayMatches | Chess-Frontend/src/engine/chessEngine.js:117-140 | one replay step of a log entry gives the committed board, although en passant is inferred from the entry |
| PlayInvariant.AfterOk | Chess-Frontend/src/hooks/useChessGame.js:32-199 | the invariant of board, selection, status, log and undo stack holds after every sequence of events |
| PlayInvariant.ReachablePositions | Chess-Frontend/src/hooks/useChessGame.js:111-199 | after any clicks, promotions, undos and restarts: one king each, the side that just moved not in check, rights and en-passant square truthful, no pawn on a last rank |
| PlayInvariant.ReplayReproducesPlay | Chess-Frontend/src/engine/chessEngine.js:113-142 | after any events the k-th replay snapshot of the log is the board after k moves, for every k |
| PlayInvariant.StatusIsExact | Chess-Frontend/src/hooks/useChessGame.js:70-97 | before the first move the status is ongoing; after any committed move it says check, mate, stalemate or none exactly when check and the legal moves say so |
| PlayInvariant.UndoReverts | Chess-Frontend/src/hooks/useChessGame.js:58-68 | undo right after a move restores the complete state before it |
| PlayInvariant.UndoRevertsPromotion | Chess-Frontend/src/hooks/useChessGame.js:58-68 | undo right after a promotion restores the state before the pawn moved |
| PlayMoves.StartsFresh | Chess-Frontend/src/hooks/useChessGame.js:32-36 | a new or restarted game is ongoing with nothing selected, taken or to undo, in the position new games are stored with |
| PlayMoves.ClickPlaysMove | Chess-Frontend/src/hooks/useChessGame.js:111-199 | a click on a legal target of the selected piece plays that move: board square by square, side to move, en-passant square set if and only if a pawn moved two rows and then the one it passed, each castling right kept if and only if it was held and neither its king moved nor its corner was touched, captures, log and undo stack; a pawn on a last rank waits for the choice, which completes the same move |
| PlayMoves.ClickElsewhere | Chess-Frontend/src/hooks/useChessGame.js:186-199 | any other click does nothing once the game is over or a promotion pending, selects an own piece with exactly its legal targets, or deselects |
| PlayMoves.TwoClicksPlay | Chess-Frontend/src/hooks/useChessGame.js:186-199 | every legal move can be played with two clicks, whatever was selected |
| PlayMoves.UndoExactly | Chess-Frontend/src/hooks/useChessGame.js:61-68 | undo takes back the last committed move and does nothing at the start or while a promotion is pending |
| PlayMoves.RightsTellTheLog | Chess-Frontend/src/hooks/useChessGame.js:118-135 | after any events each castling right is held if and only if no committed move started or ended on the home square of its king or rook |
| RemotePlay.FollowerInStep | Chess-Frontend/src/hooks/useChessGame.js:170-175 | after any events, a browser that starts a new game and is given from, to and promotion of each move in the log has the same board, side to move, rights, en-passant square, status and log |
| Engine.Slide | Chess-Frontend/src/engine/chessEngine.js:23-30 | the loop computes the ray |
| Engine.RawMoveList | Chess-Frontend/src/engine/chessEngine.js:20-62 | the pushed list is the specified one, and its members are the pseudo-legal targets |
| Engine.InCheck | Chess-Frontend/src/engine/chessEngine.js:70-78 | the two board scans decide check |
| Engine.IsSafe | Chess-Frontend/src/engine/chessEngine.js:83-93 | editing a copied board decides king safety |
| Engine.LegalMoveList | Chess-Frontend/src/engine/chessEngine.js:80-94 | the filtered list holds exactly the legal targets, in order |
| Engine.HasAnyMove | Chess-Frontend/src/engine/chessEngine.js:96-100 | true if and only if some piece of the colour has a legal move |
| Engine.ReplayToSnapshots | Chess-Frontend/src/engine/chessEngine.js:113-142 | one board more than log entries, each the replay of that prefix; a malformed entry is found |
| ChessGame.Hook.Restart | Chess-Frontend/src/hooks/useChessGame.js:32-36 | back to the initial state |
| ChessGame.Hook.FinishMove | Chess-Frontend/src/hooks/useChessGame.js:70-97 | the setters leave the specified state and status |
| ChessGame.Hook.Commit | Chess-Frontend/src/hooks/useChessGame.js:111-168 | the in-place edits of board and rights leave the specified state, pending promotion included, of which PlayMoves.ClickPlaysMove says every field |
| ChessGame.Hook.ChoosePromotion | Chess-Frontend/src/hooks/useChessGame.js:177-184 | completes the pending move and keeps the invariant |
| ChessGame.Hook.ClickSquare | Chess-Frontend/src/hooks/useChessGame.js:186-199 | select, move, reselect or deselect as specified, keeping the invariant |
| ChessGame.Hook.UndoMove | Chess-Frontend/src/hooks/useChessGame.js:61-68 | pops the last snapshot, keeping the invariant; nothing while a promotion is pending |
| Fen.SplitJoin | Chess-Frontend/src/hooks/useChessGame.js:38-40 | splitting undoes joining when no part holds the separator |
| Fen.RankRoundTrip | Chess-Frontend/src/engine/chessEngine.js:152-163 | the text of every rank of eight cells reads back as the marks of its pieces |
| Fen.FenRoundTrip | Chess-Frontend/src/engine/chessEngine.js:150-173 | loading a printed record stores exactly that board, turn, castling rights and en-passant square, for every board |
| Fen.InitialFen | Chess-Backend/src/models/Game.js:11-14 | the initial position is printed as the record every new game is stored with |
| Fen.MoveFields | Chess-Frontend/src/engine/chessEngine.js:170-172 | a record has six fields; the fifty-move clock is always 0 and the move number is one more than the number of black's moves |
| Fen.FourFieldsSuffice | Chess-Frontend/src/hooks/useChessGame.js:38-51 | the first four fields of a record load the same position, fewer load nothing |
| Fen.StoredInjective | Chess-Frontend/src/hooks/useChessGame.js:40-51 | what is stored determines the position |
| Fen.FenInjective | Chess-Frontend/src/engine/chessEngine.js:150-173 | different positions have different records, whatever the move counts |
| Fen.BoardToFen | Chess-Frontend/src/engine/chessEngine.js:150-173 | the loops print the specified record, which loads back |
| Fen.ReadPlacement | Chess-Frontend/src/hooks/useChessGame.js:38-48 | the loops read the specified ranks of any text, storing every symbol that is no digit as loadFEN does, piece or not |
| Fen.Load | Chess-Frontend/src/hooks/useChessGame.js:38-51 | the specified record for any text, with nothing but the size of the board and the number of fields refused |
| Shuffle.ShufflePermutes | Chess-Backend/src/models/Tournament.js:4-11 | the shuffle loses and duplicates nobody |
| Shuffle.ShuffleInjective | Chess-Backend/src/models/Tournament.js:4-11 | different random choices give different orders |
| Shuffle.ShuffleSurjective | Chess-Backend/src/models/Tournament.js:4-11 | every order comes from some choices |
| Shuffle.ShuffleBijection | Chess-Backend/src/models/Tournament.js:4-11 | choices and orders correspond one to one, so uniform choices give uniform brackets |
| Shuffle.ShuffleInPlace | Chess-Backend/src/models/Tournament.js:4-11 | the swapping loop on an array computes the shuffle |
| Bracket.NextPow2IsLeast | Chess-Backend/src/models/Tournament.js:3 | nextPow2(n) is the least power of two not below n, and less than 2n |
| Bracket.NextPow2Loop | Chess-Backend/src/models/Tournament.js:3 | the doubling loop computes it |
| Bracket.Pad | Chess-Backend/src/models/Tournament.js:125 | the padding loop, which asks nextPow2 of the growing length, ends at nextPow2 of the original length with all empty seats last |
| BracketInvariant.RunKeeps | Chess-Backend/src/models/Tournament.js:93-162 | every sequence of joins, starts, reports and advances keeps the bracket well formed |
| BracketInvariant.AdvanceIsIdempotent | Chess-Backend/src/models/Tournament.js:25-49 | in every reachable state advanceRound, for any round, changes nothing more |
| BracketTheorems.RoundSizes | Chess-Backend/src/models/Tournament.js:42-48 | round r has exactly P / 2^r matches, P the padded size |
| BracketTheorems.RoundsFollow | Chess-Backend/src/models/Tournament.js:32-48 | a next round exists only when the previous one is resolved, and its seats are the pairwise winners in order |
| BracketTheorems.NoPlayerTwice | Chess-Backend/src/models/Tournament.js:124-135 | no player has two seats in a round |
| BracketTheorems.LosersAreOut | Chess-Backend/src/models/Tournament.js:32-48 | who loses a played match is in no later round |
| BracketTheorems.FinishedPlays | Chess-Backend/src/models/Tournament.js:34-41 | a finished bracket of n players has played exactly n - 1 matches and its winner is one of the players |
| BracketTheorems.EmptyMatch | Chess-Backend/src/models/Tournament.js:125-135 | with two or more empty seats the last match of round 1 is pending without players |
| BracketTheorems.NeverFinishes | Chess-Backend/src/models/Tournament.js:145-157 | then no sequence of transactions moves the tournament past round 1 |
| BracketTheorems.FinishableExactlyWhen | Chess-Backend/src/models/Tournament.js:125-157 | a started tournament of n players can finish if and only if nextPow2(n) - n is at most one |
| BracketTheorems.FiveNeverFinish | Chess-Backend/src/models/Tournament.js:112-143 | a started tournament of five players that no sequence of transactions ends |
| BracketExactly.JoinExactlyWhen | Chess-Backend/src/models/Tournament.js:93-110 | a join is accepted if and only if the tournament is open, the user not in it and a place left, with the first reason against it as the answer; it appends the user and nothing else |
| BracketExactly.PlayersWithinLimit | Chess-Backend/src/models/Tournament.js:52-110 | after any transactions the creator comes first, nobody is in twice, and the limit is kept, except that the creator is in even at a limit of zero |
| BracketExactly.StartExactlyWhen | Chess-Backend/src/models/Tournament.js:112-143 | a start is accepted if and only if the creator asks, the tournament is open and two have joined; it writes round 1 only, filled in the order of the shuffle: pairs pending, a single player with a bye, the rest empty |
| BracketExactly.ReportExactlyWhen | Chess-Backend/src/models/Tournament.js:145-161 | a report is accepted if and only if the match exists, is pending, and winner and reporter both play in it; it records that winner, and the last one of a round ends the tournament with that winner or seats the winners pairwise in a new round; a refused one changes nothing |
| BracketStore.TournamentRows.JoinTournament | Chess-Backend/src/models/Tournament.js:93-110 | equals the atomic join in all outcomes |
| BracketStore.TournamentRows.AdvanceRound | Chess-Backend/src/models/Tournament.js:25-49 | the insert loop with ON CONFLICT DO NOTHING equals the atomic advance |
| BracketStore.TournamentRows.StartTournament | Chess-Backend/src/models/Tournament.js:112-143 | shuffle, pad, insert, advance equal the atomic start |
| BracketStore.TournamentRows.ReportResult | Chess-Backend/src/models/Tournament.js:145-161 | equals the atomic report in all outcomes |
| BracketLocks.AnswerIsAtomic | Chess-Backend/src/models/Tournament.js:145-161 | the statement that commits a report, working on the rows it locked and read earlier, answers and writes what the atomic report would on the rows committed by then |
| BracketLocks.NextKeeps | Chess-Backend/src/models/Tournament.js:25-32 | no two transactions ever share a row lock, and what a lock holder has read stays true until it commits or aborts |
| BracketLocks.CommitOrderSerialises | Chess-Backend/src/models/Tournament.js:145-161 | in every interleaving, the rows and all answers are those of the committed transactions run one after another in commit order; aborted ones leave no trace |
| BracketLocks.ConcurrencyAddsNoStates | Chess-Backend/src/models/Tournament.js:12-23 | concurrent reports reach only states the atomic transactions reach |
| BracketLocks.OnlyAbortResolves | Chess-Backend/src/models/Tournament.js:25-31 | two reports of one round that wait for each other stay stuck until one of them is aborted |
| BracketLocks.DeadlockReachable | Chess-Backend/src/models/Tournament.js:147-158 | two reports on the first two open matches of a round do reach that deadlock |
| ShutdownMachine.MonotoneAndOrdered | Chess-Backend/src/services/shutdown.js:145-153 | for every order of events the states pass from running over draining and stopping to stopped without skipping, and the phases their fixed order |
| ShutdownMachine.AtMostOnce | Chess-Backend/src/services/shutdown.js:400-508 | io.close and closePool are called once each, in the socket and the pg phase, exit at most once; STOPPED is reached only if the watchdog did not fire, after all six phases or an internal error |
| ShutdownMachine.ExitCodeExact | Chess-Backend/src/services/shutdown.js:466-508 | the process exits with the code of the first complete request if its sequence ran through, with 1 if the watchdog fired or the sequence broke, and not at all before a request; duplicates change nothing |
| ShutdownMachine.PreStopOnlyDrains | Chess-Backend/src/services/shutdown.js:271-280 | a preStop trigger alone never runs a phase, and drains and is remembered exactly when it came from loopback |
| ShutdownMachine.Process.TriggerDrain | Chess-Backend/src/services/shutdown.js:145-153 | idempotent; true exactly on the transition |
| ShutdownMachine.Process.Accept | Chess-Backend/src/services/shutdown.js:436-463 | the first complete request is accepted, all others ignored |
| ShutdownMachine.Process.RunSequence | Chess-Backend/src/services/shutdown.js:482-505 | an undisturbed sequence ends STOPPED after all six phases, one io.close, one closePool and one exit |
| ShutdownBudget.SequenceWithinBudget | Chess-Backend/src/services/shutdown.js:468-491 | for arbitrary budgets, the six phases composed - wait, polling loop, and races with anything settling at any time or never - stay within the global budget in every case if and only if the race is not negative, or the settle time or the negative race still fits when the socket phase starts last |
| ShutdownBudget.SequenceWithinCaps | Chess-Backend/src/services/shutdown.js:313-416 | unless the race is negative, any first phases together stay within the sum of their caps |
| ShutdownBudget.SequenceOverrun | Chess-Backend/src/services/shutdown.js:447-491 | overrides for which a sequence takes 111 s of its 22 |
| ShutdownBudget.PhaseHttp | Chess-Backend/src/services/shutdown.js:319-346 | the polling loop ends on its deadline measure, never overshoots it, polls every 25 ms while requests are in flight, and reports a timeout exactly when some are left |
| ShutdownBudget.HttpExactly | Chess-Backend/src/services/shutdown.js:319-333 | the loop looks every 25 ms and once more at the deadline, and ends at the first look that finds nothing in flight |
| ShutdownBudget.SocketExactly | Chess-Backend/src/services/shutdown.js:369-384 | completed if and only if io.close settles within the race; otherwise forced, after exactly the race and then the settle time or the rest of io.close |
| ShutdownBudget.PhaseTimes | Chess-Backend/src/services/shutdown.js:313-416 | the settle phase takes its budget; the room, cache and pool phases end when their call settles or their budget is over, the budget being the cap or what is left of the global one |
| ShutdownBudget.ShippedWorstCase | Chess-Backend/src/services/shutdown.js:53-71 | with nothing settling the six phases take 2, 3, 6, 2, 5 and 3 seconds one after the other |
| ShutdownBudget.SocketWithinBudget | Chess-Backend/src/services/shutdown.js:369-384 | race plus forced settle keep to the budget if and only if the race is not negative or the settle alone fits |
| ShutdownBudget.SocketOverrun | Chess-Backend/src/services/shutdown.js:369-384 | an override for which they do not |
| ShutdownBudget.ShippedBudgets | Chess-Backend/src/services/shutdown.js:53-71 | with the shipped caps every sequence stays within 21 of the 22 seconds, and the socket phase within its two |
| RoomDrain.CoveredIsChained | Chess-Backend/src/socket/gameSocket.js:65-77 | the live tail covers every linked task if and only if the tasks form one chain in link order |
| RoomDrain.LinkKeepsCover | Chess-Backend/src/socket/gameSocket.js:65-77 | a link keeps the live tail covering every task if and only if it is rejected or made on the live object |
| RoomDrain.OneAtATime | Chess-Backend/src/socket/gameSocket.js:245-253 | tasks linked on the live object run one at a time in link order, whatever fails and however often the object is swapped; the live tail settles after all of them |
| RoomDrain.StartsExactlyWhen | Chess-Backend/src/socket/gameSocket.js:65-77 | a linked task can start if and only if every task linked before it has settled, failed or not |
| RoomDrain.DrainCoversAll | Chess-Backend/src/socket/gameSocket.js:746-752 | once draining nothing is linked, whichever room object a handler still holds, and when the snapshot's tail has settled no task of the room runs or will run |
| RoomDrain.DrainedRoomsAreIdle | Chess-Backend/src/socket/gameSocket.js:746-772 | draining any number of rooms that keep running without timing out means that from then on no task of any of them runs or will run |
| RoomDrain.DrainTimesOutExactlyWhen | Chess-Backend/src/socket/gameSocket.js:751-772 | the drain times out if and only if there are rooms and no budget, or some room's tail does not settle within it |
| RoomDrain.StaleLinkForks | Chess-Backend/src/socket/gameSocket.js:423-426 | one link on an older object lets two tasks run together behind a settled tail |
| RoomDrain.DrainRoomOperations | Chess-Backend/src/socket/gameSocket.js:751-772 | computes the specified outcome: it times out exactly when some tail settles too late or no budget is left; otherwise all tails have settled |
| RoomDrain.DrainExactly | Chess-Backend/src/socket/gameSocket.js:751-772 | the drain counts exactly the tails that settle within the budget and returns when the last of them does, or at the end of the budget if one is late |
| RoomDrain.RoomEntry.RoomTask | Chess-Backend/src/socket/gameSocket.js:65-77 | links behind the live tail, or is rejected while draining |
| RoomDrain.RoomEntry.Refresh | Chess-Backend/src/socket/gameSocket.js:245-253 | a swapped object takes over the live tail |
| RefreshTokens.AfterKeeps | Chess-Backend/src/models/AuthToken.js:44-107 | every sequence of transactions keeps each family one replacement chain of one user, and revocation marks never come off |
| RefreshTokens.OneLiveTokenPerFamily | Chess-Backend/src/models/AuthToken.js:54-90 | at any time a family has at most one unconsumed, unrevoked token, the last of its chain, and every earlier one names its successor |
| RefreshTokens.ReuseEndsFamily | Chess-Backend/src/models/AuthToken.js:67-71 | once an unexpired consumed token is presented, no token of its family is ever accepted again, whatever follows |
| RefreshTokens.ReplayDetectedExactlyWhen | Chess-Backend/src/models/AuthToken.js:63-71 | replaying a consumed token leaves its family without a live token if and only if that token is neither expired nor itself revoked, or none was live |
| RefreshTokens.ReplaysUnnoticed | Chess-Backend/src/models/AuthToken.js:63-71 | two sequences, one with an expired and one with a revoked token, in which the replay is refused unnoticed and the successor still rotates |
| RefreshTokens.RotationSucceedsExactlyWhen | Chess-Backend/src/models/AuthToken.js:54-90 | a rotation succeeds if and only if the token is live and unexpired and its user exists, and throws if and only if that user is gone; the new token is then the only live one of the family |
| TokenEffects.RotateExactly | Chess-Backend/src/models/AuthToken.js:54-95 | an accepted rotation marks the token consumed and replaced and inserts one of the same user and family for 30 days; a detected reuse revokes exactly the family; anything else writes nothing |
| TokenEffects.AcceptedWithin30Days | Chess-Backend/src/models/AuthToken.js:44-90 | whatever happens, a token is accepted only within 30 days of its insertion, and only for the user who logged in or who owned the token it replaced |
| TokenEffects.RevokesExactly | Chess-Backend/src/models/AuthToken.js:94-107 | a revocation marks exactly that token, or exactly that user's tokens |
| TokenEffects.RevokedForGood | Chess-Backend/src/models/AuthToken.js:94-107 | a token revoked on its own or with all of its user's is refused ever after |
| TokenEffects.OthersStayLive | Chess-Backend/src/models/AuthToken.js:54-107 | no transaction on another family, token or user ends a live token |
| RefreshTokens.TokenTable.RotateRefreshToken | Chess-Backend/src/models/AuthToken.js:54-95 | the statements equal the atomic rotation, with rollback on every exception |

## Left out

- RoomTheorems.VerdictMatchesBoard: places a draw on some position of the game and gives a resignation some winner, which is all the state alone shows; the steps that record them are in RoomEndings.DrawIsFinalExactlyWhen and RoomEndings.ResignationNamesOpponent.
- RoomTheorems.SettledExactlyOnce: says nothing about `scores.moves`; RoomEndings.ScoreMovesExactlyWhen does.
- RoomTheorems.RatingConservation: ratings are integers and the expected score is a real strictly between 0 and 1; floating-point rounding and `Math.pow` are not modelled.
- ChessRules.CheckIsAttack: requires exactly one king of that colour, which every reachable position has.
- Fen.ReadPlacement: `toUpperCase` is modelled on the letters a to z; other symbols stay as they are.
- Fen.Load: what the hook had already stored when a record of fewer than four fields makes loadFEN throw half way.
- RefreshTokens.OneLiveTokenPerFamily: a new family id is assumed to be unused (a random UUID), and the lifetime is the default of 30 days.
- BracketLocks.CommitOrderSerialises: reports run statement by statement; join, start and maybeAdvanceRound are single steps that wait for the locks they need.
- Statement-level snapshot anomalies of PostgreSQL in the game and token transactions: each is one atomic step.
- chess.js itself, and threefold repetition, which the server cannot see because it rebuilds positions from FEN.
- Presence lookup, Socket.IO rooms, emitted events, chat, metrics and rate limits: a rematch in the model needs only the counted votes, so the presence test can only forbid more.
- The Redis commands of the vote store beyond their effect on the sets (failures surface as an error to the voter), and its one-hour expiry, which is a step that may drop any votes at any time.
- Room id format and normalisation; user names, which the model merges with user ids; deleted users.
- Ids of rolled-back inserts, which the database skips and the model may use again.
- Sounds, dates, durations, the move timer (`forceEnd`), SAN text and the `hist` list of the hook.
- RemotePlay.FollowerInStep: covers the moves another browser committed; `applyRemoteMove` validates nothing, and the king-safety and replay properties do not extend to other input, nor to positions loaded by `loadFEN`.
- The metrics, the evictions and the `hydrating` map around the promise chain in the drain model.
- ShutdownBudget.SequenceWithinBudget: timers are ideal, and budgets are integers; the watchdog, which would cut an overlong sequence off with exit code 1, is in ShutdownMachine.
- Tournament rows are kept as rounds of consecutive positions; tournament and match ids, listing queries and deleted users are not modelled.
- Account tokens (`issueAccountToken`, `consumeAccountToken`): one conditional update.
- Mail, cookies, avatars, themes, deployment files and scripts.
