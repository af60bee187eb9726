# A verified model of the Tic Tac Toe server

The project models the rules, the live-game service, the matchmaking queue, the stores and the session registry of a
multiplayer Tic Tac Toe server, and proves what they keep: for every sequence of calls, for every stored text, and for
every interleaving of the server's lock-held sections with the store writes and notifications it makes after unlocking.

## How it is laid out

| file | models |
|---|---|
| `Base.dfy` | identifiers, marks, error codes |
| `Board.dfy` | the nine cells, the three winner scans, and the order-free eight-line rule |
| `Match.dfy` | the match aggregate: its rules on values, and the object that carries them out in place |
| `History.dfy` | which move lists are legal games and the position each leads to, in closed form |
| `Encoding.dfy` | the stored text `X0,O3,X1`: printing, parsing, signed 64-bit decimals |
| `MatchStore.dfy` | the in-memory match store and the matches table with its upsert |
| `PlayerStore.dfy` | players, the name index, registration |
| `Ranking.dfy` | the leaderboard order, `Top`, the clamped standings |
| `Recording.dfy` | results being added to player stats by overlapping load-and-save calls |
| `Games.dfy` | the live games: two maps and the matches behind one mutex |
| `Matchmaking.dfy` | the queue, and joins split at their lock boundaries |
| `Service.dfy` | everything together under concurrent callers, as runs of atomic steps, and the invariant of every run |
| `Effects.dfy` | what each action of a run does, told by what is seen afterwards |
| `Persistence.dfy` | over whole runs: what is in the match stores, and when a stored match is the latest |
| `Announcing.dfy` | over whole runs: the order of events, and who is told what |
| `Books.dfy` | over whole runs: results conserved, in total and for each player |
| `Scenarios.dfy` | two complete runs in which overlapping calls do harm |
| `Hub.dfy` | one live socket per player, with replacement |

Each part has a specification on values (what one call, or one lock-held section, does) and, where the code changes
things in place, a class whose methods are proved to do exactly that. The theorems are about the specification. What the
specification itself means is stated in terms that do not call it: the winning lines by rows and columns of the grid, a
player's view by the moves played, the ranking by the figures shown, names by their letters, texts by their bytes, and
each action of a run by its whole effect.

## How concurrency is modelled

`Services.Next` takes one atomic step for any caller: a section run under a mutex, or one store call or notification
made with no mutex held. Work that a call leaves for after its unlock (saving the match, recording two results, notifying
two players) becomes pending items that may be taken at any later moment, in any order, and every store call may fail.
A step that is not enabled does nothing, so every list of actions is a run, and a theorem over all lists covers all
interleavings. This allows more orders than the code does (one call handles its own items in sequence); what is proved
holds for all of them. Match IDs and player IDs are drawn new, as the ID generator promises. `Start` reads both players
before it takes the lock; the model reads them at the moment of entry, which gives the same answer because no step
removes or renames a stored player (`Recording.StepKeepsNames`).

The repository's README says that events are delivered after the lock is released. `Move` and `Abandon` do so, and
their notices are pending items here. `Start` saves and notifies while it still holds the games' lock; the model follows
the code and makes that one step, which is what makes `Announcing.StartIsHeardFirst` provable.

Fields such as `history`, `log`, `pairs`, `ideal` and `overwritten` record the past for the theorems to talk about; no
step reads them to decide anything, except to recognise a used match ID.

## What turned out not to hold

* **Stats can be lost.** Recording a result loads a player, adds one outcome and saves it with no lock in between, so two
  overlapping calls for one player lose an update. `Scenarios.OverlappingFinishesLoseADefeat` is a complete run, for any
  three known players: one loses two matches, the two winners' calls record both, and the store ends up with one defeat. For every run, once nothing is owed to a
  player, the stored stats are what that player's finished matches earned if and only if no call for that player saved
  after another one had saved since its load (`Books.PlayerStatsAreRightIffNotOverwritten`), whatever else interleaves
  or fails; a player whose calls never overlap loses nothing (`Books.NothingOverwrittenWithoutOverlap`).
* **A waiting player can be dropped.** `Join` tests for a running match before it takes the queue's lock, and starts the
  match after releasing it. With overlapping joins a player who was told to wait can be popped against someone who is
  already playing and then be nowhere (`Matchmakers.OverlappingJoinsDropAWaiter`). A popped pair plays if and only if
  both players are known and neither is in a match by then (`Matchmakers.StartOfPairVerdict`); with requests served one
  at a time nobody is dropped (`Matchmakers.WaitersAreNeverDropped`, `Matchmakers.SerialServiceStaysQuiet`).
* **A stored match need not be the latest.** Saves of one match may land out of order, so a row can go back to an older
  snapshot: `Scenarios.OlderSaveCanLandLast` is a complete run, for any two known players, that ends with both saves
  taken and a row one move behind the match. For every run, the row is the latest snapshot if and only if the save of
  that snapshot is neither pending nor failed and the save that landed last did not come after that of a longer one
  (`Persistence.RowIsLatestIffNotOvertaken`). What always holds is that it is a legal prefix (`Persistence.EveryRowReplays`).
* **The two match stores differ on one input.** Saving a known ID with other players replaces them in memory and keeps the
  first ones in the table (`MatchStores.SavingOtherPlayersSeparatesStores`). They stay interchangeable exactly while an ID
  keeps its players and moves carry real marks (`MatchStores.SavesKeepStoresInterchangeable`), as every run of the service
  does (`Persistence.StoresStayInterchangeable`).
* **Saving a renamed player breaks the in-memory name index** (`PlayerStores.RenamingSaveLosesPlayer`); the exact
  condition is `PlayerStores.SaveKeepsIndex`, and the service never renames anybody.

## Model

| member | source | states |
|---|---|---|
| Boards.LinesOfTheGrid | internal/domain/board.go:20-72 | the winning lines, said by row c / 3 and column c % 3 of a cell: three columns, three rows, two diagonals, scanned in that order, and no others |
| Boards.WinnerOwnsALine | internal/domain/board.go:75-85 | the scan names a winner only if that mark owns one of the eight lines, and names nobody exactly when neither does |
| Boards.ScanOrderIrrelevant | internal/domain/board.go:75-85 | the column, row, diagonal order matters exactly on boards where both marks own a line; on all others the winner is the owner of a line |
| Boards.Board.Set | internal/domain/board.go:88-99 | in place: out of bounds and occupied cells are refused with the board unchanged, otherwise only that cell changes |
| Boards.Board.IsFull | internal/domain/board.go:102-110 | true exactly when no cell is empty |
| Boards.Board.WinnerInColumns | internal/domain/board.go:20-33 | the loop finds the first filled column |
| Boards.Board.WinnerInRows | internal/domain/board.go:59-72 | the loop finds the first filled row |
| Boards.Board.WinnerInDiagonals | internal/domain/board.go:36-56 | the first filled diagonal |
| Boards.Board.Winner | internal/domain/board.go:75-85 | the mark of the first filled line in scan order, Empty if none |
| Matches.Match.New | internal/domain/match.go:66-77 | two equal players are refused; otherwise a new match: X to move, nothing played |
| Matches.Match.SideOf | internal/domain/match.go:147-155 | whatever order the player map is walked in, the side p plays or that p plays none |
| Matches.Match.Opponent | internal/domain/match.go:161-168 | the other player, the empty ID for an outsider |
| Matches.Match.OutcomeOf | internal/domain/match.go:172-191 | the result from p's side |
| Matches.Match.Apply | internal/domain/match.go:103-124 | in place, exactly the move rule; a refused move changes nothing |
| Matches.Match.SettleResult | internal/domain/match.go:128-144 | in place, the win, draw or passing of the turn that follows a move |
| Matches.Match.ApplyAll | internal/domain/match.go:92-97 | the replay loop stops at the first refused move and otherwise applies them all |
| Matches.Match.Restore | internal/domain/match.go:85-98 | the whole of RestoreMatch, object and errors |
| Matches.MoveCases | internal/domain/match.go:103-124 | on any match whatever the most general objection wins: over, outsider, out of turn, off the board, taken; with none the mark of the side to move is placed and recorded |
| Matches.OutcomeCases | internal/domain/match.go:172-191 | a win or a loss for the players of a won match, a draw for everybody, nothing while it runs |
| Matches.OpponentCases | internal/domain/match.go:161-168 | the players face each other, an outsider nobody |
| Histories.ApplyMoveVerdict | internal/domain/match.go:103-144 | on any reachable match a move is refused for exactly the offence its history shows, most general first, and otherwise leads to the closed-form position of the longer history |
| Histories.AcceptedMovesAppend | internal/domain/match.go:103-144 | an accepted move appends one entry with the mover's mark; the turn passes unless the match is over |
| Histories.FirstOffenceMeaning | internal/domain/match.go:103-124 | a move list is legal (alternating from X, cells on the board and distinct, nothing after a line) exactly when no move offends; otherwise the error is that of the first offending move |
| Histories.RestoreVerdict | internal/domain/match.go:80-98 | for every input RestoreMatch succeeds exactly on two different players and a legal history, giving the position that history determines, and fails with the error of the first offending move |
| Histories.EffectiveCases | internal/domain/match.go:92-96 | a replayed move is made by whoever plays its mark, and one without a mark by the empty ID |
| Histories.GenuineReplays | internal/domain/match.go:80-98 | a match is one legal play can reach exactly when it replays from its own move list into itself |
| Histories.AtMostNineMoves | internal/domain/match.go:103-124 | a legal game has at most nine moves, nine exactly when all cells are taken |
| Histories.WinnerMovedLast | internal/domain/match.go:128-144 | the winner made the last move, each of its lines runs through that cell, and the other side owns none |
| Histories.BoardShowsHistory | internal/domain/match.go:103-124 | the board is the fold of the moves: each side's cells are those it played |
| Histories.AnyPlayIsLegal | internal/domain/match.go:103-144 | after any calls by anybody with any cells the match is the position of a legal history of at most nine moves, both marks never own a line, and the status is X won, O won or drawn exactly by the eight-line rule and the full board |
| Encoding.AtoiInvertsItoa | internal/adapter/sqlite/encoding.go:37-40 | every 64-bit cell, negative ones included, is parsed back from its decimal text |
| Encoding.AtoiAccepts | internal/adapter/sqlite/encoding.go:37-40 | a number text is an optional sign and digits in 64-bit range, and is read as what it spells |
| Encoding.MagnitudeIsDecimal | internal/adapter/sqlite/encoding.go:37-40 | digits count by their place, in tens |
| Encoding.ItoaInvertsAtoi | internal/adapter/sqlite/encoding.go:12-19 | of the texts of a number only the one without leading zero, plus sign or minus zero is written |
| Encoding.ParseMoveAccepts | internal/adapter/sqlite/encoding.go:28-43 | a part is accepted exactly when it is a mark and a number text, and is read as those |
| Encoding.PartRefusals | internal/adapter/sqlite/encoding.go:28-41 | a part is refused as too short, else for its mark, else for its number |
| Encoding.DecodeInvertsEncode | internal/adapter/sqlite/encoding.go:12-47 | decoding an encoded list of any length gives it back exactly when every move carries X or O; otherwise the error is the unknown mark |
| Encoding.DecodeAccepts | internal/adapter/sqlite/encoding.go:21-47 | decoding succeeds exactly on the empty text and on comma-separated move texts |
| Encoding.DecodeReportsFirstBadPart | internal/adapter/sqlite/encoding.go:28-43 | a failed decoding reports the error of the first bad part |
| Encoding.ReencodingIsNormalForm | internal/adapter/sqlite/encoding.go:12-47 | re-encoding an accepted text decodes to the same moves |
| Encoding.ReencodingIsIdentity | internal/adapter/sqlite/encoding.go:12-47 | re-encoding an accepted text gives that very text exactly when all its numbers are canonical |
| Encoding.WrittenMoves | internal/adapter/sqlite/encoding.go:12-19 | the moves X5, O3 are stored as "X5,O3", and negative cells with their sign |
| Encoding.SplitThenJoin | internal/adapter/sqlite/encoding.go:18-26 | splitting at commas and joining gives the text back, with no comma in any part |
| Encoding.JoinThenSplit | internal/adapter/sqlite/encoding.go:18-26 | joining comma-free parts and splitting gives the parts back |
| Encoding.StatusTextParses | internal/adapter/sqlite/encoding.go:60-77 | each status is read back from its text, and from no other text |
| Encoding.WrittenStatuses | internal/domain/match.go:21-32 | the four status texts |
| Encoding.EncodeMoves | internal/adapter/sqlite/encoding.go:12-19 | the loop prints every move and joins them |
| Encoding.DecodeMoves | internal/adapter/sqlite/encoding.go:21-47 | the loop parses part by part with early error returns, as specified |
| MatchStores.WrittenRow | internal/adapter/sqlite/match_store.go:23-37 | a row and its update, column by column as stored |
| MatchStores.StoredMatchReplays | internal/adapter/sqlite/match_store.go:39-80 | for every reachable match: snapshot, print, parse and replay give the same board, turn, status, players and history |
| MatchStores.RowParses | internal/adapter/sqlite/match_store.go:23-80 | a saved row loads as the record saved exactly when its moves carry real marks |
| MatchStores.SavesKeepStoresInterchangeable | internal/adapter/sqlite/match_store.go:23-37 | a save keeps the table and the in-memory store answering alike exactly when marks are real and a known ID keeps its players |
| MatchStores.SavingOtherPlayersSeparatesStores | internal/adapter/sqlite/match_store.go:23-37 | a concrete second save, naming another opponent, after which the two stores disagree on who plays |
| MatchStores.MatchStore.Save | internal/adapter/memory/match_store.go:20-32 | stores a copy: the map gains the record's content and the caller's buffer stays outside the store |
| MatchStores.MatchStore.ByID | internal/adapter/memory/match_store.go:34-40 | the stored record, or that there is none |
| PlayerStores.LookupIsLinearScan | internal/adapter/memory/player_store.go:44-54 | the indexed lookup finds exactly the player a scan by key would, and no two players share a key |
| PlayerStores.KeysIgnoreCase | internal/adapter/memory/player_store.go:118-122 | two names have one key exactly when, surrounding white space off, they differ at most in the case of letters |
| PlayerStores.CreateCases | internal/adapter/memory/player_store.go:30-42 | a creation is refused exactly when somebody has the name in some capitalisation; otherwise the player is stored and found under it |
| PlayerStores.CreateKeepsIndex | internal/adapter/memory/player_store.go:30-42 | a creation keeps index and table in agreement exactly when the ID is new |
| PlayerStores.SaveCases | internal/adapter/memory/player_store.go:63-73 | only a stored player can be saved, and only that entry changes |
| PlayerStores.SaveKeepsIndex | internal/adapter/memory/player_store.go:63-73 | a save keeps them in agreement exactly when it does not change the key of the name |
| PlayerStores.RenamingSaveLosesPlayer | internal/adapter/memory/player_store.go:63-73 | a concrete renaming save after which the new name finds nobody |
| PlayerStores.PlayerStore.Create | internal/adapter/memory/player_store.go:30-42 | in place: a taken name is refused with nothing changed, otherwise table and index both gain the player |
| PlayerStores.PlayerStore.ByName | internal/adapter/memory/player_store.go:44-54 | the player under the name's key |
| PlayerStores.PlayerStore.Save | internal/adapter/memory/player_store.go:63-73 | in place: an unknown player is refused, otherwise only the table entry changes |
| PlayerStores.TrimSpaceCuts | internal/domain/player.go:23-32 | trimming takes off the surrounding white space, all of it and nothing else |
| PlayerStores.NormalizedNameKeepsKey | internal/domain/player.go:23-32 | normalising is idempotent and does not change a name's key, so the check and the creation look at the same key |
| PlayerStores.RegistrationVerdict | internal/usecase/auth.go:28-50 | which error a registration gets, in this order: empty name, name over 32 bytes, password under 8, over 72, name taken in some capitalisation; with none it passes under the trimmed name |
| PlayerStores.Register | internal/usecase/auth.go:28-66 | run undisturbed: an error of the checks or of the hasher and nothing changed, or one new account with no games, found under its name, index sound, and then whatever the token issuer answers, an error included |
| Rankings.OutranksTotal | internal/adapter/memory/player_store.go:88-98 | between players of different names exactly one outranks the other |
| Rankings.OutranksTransitive | internal/adapter/memory/player_store.go:88-98 | the comparison is transitive |
| Rankings.PlaceIsOutrankers | internal/adapter/memory/player_store.go:75-105 | a player's place is the number of players who outrank it |
| Rankings.RankingIsUnique | internal/adapter/memory/player_store.go:75-105 | a set of players has only one ranking, whatever order they are visited in |
| Rankings.TopIsBestFirst | internal/adapter/memory/player_store.go:88-104 | in a top of the table more wins come first, then fewer losses, then the name that is smaller at the first differing byte or is a proper prefix; whoever is left out comes after everybody listed |
| Rankings.TopIsDetermined | internal/adapter/memory/player_store.go:75-105 | a shorter top is a prefix of a longer one, the length is the limit or everybody, and nobody left out outranks anybody listed |
| Rankings.Collect | internal/adapter/memory/player_store.go:79-83 | the loop over the map, in any order, gathers every player once |
| Rankings.Top | internal/adapter/memory/player_store.go:75-105 | the ranking of all players cut to the limit, best first, nobody better left out |
| Rankings.Leaderboard | internal/usecase/leaderboard.go:28-56 | for any limit, 10 for those below 1 and at most 100: ranks 1, 2, 3, ..., players' own figures, more wins first, then fewer losses, then the earlier name, and nobody better left out |
| Recording.StepKeepsSound | internal/usecase/games.go:248-258 | every step of overlapping recordings keeps stored stats equal to the ideal ones until a stale save lands, and short of them ever after |
| Recording.StatsExactIffNotOverwritten | internal/usecase/games.go:248-258 | in every interleaving, with any store failures, a player's stored stats are what indivisible recording of the same calls would leave if and only if no stale save landed for that player |
| Recording.StoredTotalsExactIffNothingOverwritten | internal/usecase/games.go:248-258 | the whole table never holds more games than the ideal, and as many exactly when no stale save has landed |
| Recording.StepKeepsBalance | internal/usecase/games.go:114-119 | outcomes in the ideal stats plus those pending change only when results are handed over, and by exactly those |
| Recording.StepKeepsCredit | internal/usecase/games.go:248-258 | one player's outcomes in the ideal stats plus those owed to that player change only when results are handed over, and by that player's own results alone |
| Recording.StepKeepsUnharmed | internal/usecase/games.go:248-258 | a call that is the only one of its player between load and save overwrites nothing |
| Recording.StepKeepsNames | internal/usecase/games.go:248-258 | no step removes a player or changes a name, although a save writes back the whole player it loaded |
| Recording.OverlappingRecordsLoseADefeat | internal/usecase/games.go:217-258 | from any opening books: two matches lost by one player to two others, the two calls recording the defeats overlap, and one defeat is missing while both wins are stored |
| LiveGames.StartVerdict | internal/usecase/games.go:52-73 | Start is refused exactly for equal or busy players, and keeps the two maps mirrored exactly when the match ID is not in use |
| LiveGames.MoveVerdict | internal/usecase/games.go:91-112 | a move fails with exactly one of four errors decided by the mover's own match, never with match finished or not a participant, and otherwise appends that move |
| LiveGames.MoveKeepsMirror | internal/usecase/games.go:91-112 | an accepted move, finishing or not, keeps the two maps mirrored |
| LiveGames.MoveKeepsInPlay | internal/usecase/games.go:99-112 | an accepted move leaves only unfinished matches that legal play can reach |
| LiveGames.AbandonVerdict | internal/usecase/games.go:148-164 | only a player in a match gives it up; the one notice goes to the other player with that player's undecided view; both are free again and no other match is touched |
| LiveGames.AbandonKeepsMirror | internal/usecase/games.go:148-164 | giving a match up keeps the two maps mirrored |
| LiveGames.LookupNeverMisses | internal/usecase/games.go:166-174 | the second map read never misses after the first hits |
| LiveGames.TwoPlayersPerMatch | internal/usecase/games.go:65-79 | exactly two players are listed per match, so nobody is in two |
| LiveGames.ResultsArePaired | internal/usecase/games.go:217-224 | the results of a finished match are win and loss in the winner's favour, or two draws |
| LiveGames.StateShowsThePlay | internal/usecase/games.go:184-196 | what a player is shown, said by the moves: every mark where it was placed, the status by the lines and the full board, whose turn it is, the player's own mark and outcome, and the other's name |
| LiveGames.NoticesShowThePlay | internal/usecase/games.go:198-205 | each of the two players is sent one notice with that player's own view of the play |
| LiveGames.MoverSeesTheMove | internal/usecase/games.go:99-124 | the mover is shown the match with the move made |
| LiveGames.FarewellShowsThePlay | internal/usecase/games.go:156-163 | the player who stays is shown the match as it was left |
| LiveGames.StatesMirrorEachOther | internal/usecase/games.go:184-205 | both players get the same match with their own mark, the other's name and the mirrored outcome |
| LiveGames.Games.Start | internal/usecase/games.go:52-86 | in place, from the two loaded names and the drawn ID: equal or busy players refused, otherwise the section held under the lock, with the snapshot and the notices it produces |
| LiveGames.Games.Move | internal/usecase/games.go:91-125 | in place, the section held under the lock: the new maps and match, the mover's view, the snapshot, the results and the notices |
| LiveGames.Games.Abandon | internal/usecase/games.go:148-164 | in place, the match dropped and the notice to send |
| LiveGames.Games.State | internal/usecase/games.go:127-137 | the caller's view of the caller's match |
| LiveGames.Games.Find | internal/usecase/games.go:166-174 | the two-step lookup |
| LiveGames.Games.Drop | internal/usecase/games.go:176-180 | removes the match and both players, in place |
| LiveGames.ActiveMatch.State | internal/usecase/games.go:184-196 | one player's view of the live match |
| LiveGames.ActiveMatch.Notices | internal/usecase/games.go:198-205 | one notice to each player, X first |
| LiveGames.ActiveMatch.Results | internal/usecase/games.go:217-224 | the result of each player |
| Matchmakers.StepKeepsOrder | internal/usecase/matchmaking.go:28-57 | every step keeps at most one player waiting, pairs distinct, and the joins that stand equal to the popped pairs followed by the queue |
| Matchmakers.QuitTakesOut | internal/usecase/matchmaking.go:50-57 | after leaving a player does not wait; nobody else is touched, and the withdrawal counts exactly when the player waited |
| Matchmakers.VisitCases | internal/usecase/matchmaking.go:28-42 | a visit to the queue waits, pairs with the one who waits, who is X, or changes nothing for a player already waiting |
| Matchmakers.EveryInterleavingIsOrderly | internal/usecase/matchmaking.go:23-64 | over every interleaving of joins, leaves, starts, moves and abandons: first come first paired with the longer waiter as X, and the live games mirrored and legal |
| Matchmakers.StartOfPairVerdict | internal/usecase/games.go:41-79 | a popped pair plays exactly when both are known and neither is busy; otherwise the error is player not found if somebody is unknown and already in match if not, never same player |
| Matchmakers.JoinAloneVerdict | internal/usecase/matchmaking.go:23-48 | a join with nothing in between is refused and changes nothing, or waits, or plays O against the one who waited |
| Matchmakers.SerialServiceStaysQuiet | internal/usecase/matchmaking.go:23-57 | served one at a time, requests never leave anyone both waiting and playing, nor a call half done |
| Matchmakers.WaitersAreNeverDropped | internal/usecase/matchmaking.go:23-57 | served one at a time, whoever waits goes on waiting until leaving or until somebody joins, and then plays that player; whoever joins, known and free, is then waiting or playing |
| Matchmakers.OverlappingJoinsDropAWaiter | internal/usecase/matchmaking.go:23-48 | for any three players, an interleaving that leaves one who was told to wait neither waiting, starting nor playing |
| Matchmakers.JoinCallIsThreeSteps | internal/usecase/matchmaking.go:23-48 | the whole call and the three steps it is split into have the same effect when nothing comes between |
| Matchmakers.JoinCallCases | internal/usecase/matchmaking.go:23-48 | what a join on its own does and tells, error by error |
| Matchmakers.LeaveSkips | internal/usecase/matchmaking.go:50-57 | leaving takes out the first occurrence, or nothing |
| Matchmakers.Matchmaking.Visit | internal/usecase/matchmaking.go:28-42 | in place, the section of Join held under the queue's lock |
| Matchmakers.Matchmaking.Withdraw | internal/usecase/matchmaking.go:50-57 | in place, the first occurrence removed |
| Matchmakers.Matchmaking.Join | internal/usecase/matchmaking.go:23-48 | the whole call undisturbed: new games, new queue and the error told |
| Matchmakers.Matchmaking.StartPopped | internal/usecase/games.go:41-86 | in place, the whole of Start for a popped pair: unknown players are reported, otherwise the section above |
| Services.EveryRunIsConsistent | internal/usecase/games.go:41-164 | in every state of every run: maps mirrored, histories legal and in step with the live matches, every pending or stored record a faithful snapshot, start notices first, stats tracked, names indexed |
| Effects.LeaveEffect | internal/usecase/matchmaking.go:50-57 | at any moment of any run a leave takes the player off the queue and changes nothing else |
| Effects.JoinCheckEffect | internal/usecase/matchmaking.go:23-26 | the first test of a join passes exactly a player in no match |
| Effects.JoinQueueEffect | internal/usecase/matchmaking.go:28-42 | the queue section of a join in a run, case by case |
| Effects.StartEffect | internal/usecase/games.go:41-86 | a popped pair begins its match exactly when both are known and free, with board, store and notices as at the start; otherwise nothing happens |
| Effects.MoveEffect | internal/usecase/games.go:91-125 | a move by the player whose turn it is on a free cell is made, with everything that follows from it; any other move does nothing at all |
| Effects.AbandonEffect | internal/usecase/games.go:148-164 | giving up frees both players, closes the history and leaves one notice for the other; from anybody else it does nothing |
| Effects.SaveEffect | internal/usecase/games.go:242-246 | a save call makes its snapshot the one the match loads as, or nothing if the store fails, and touches no other match |
| Effects.SendEffect | internal/usecase/games.go:236-240 | sending appends the notice to what has been heard of its match |
| Effects.LoadEffect | internal/usecase/games.go:248-253 | a recording call reads the player as stored at that moment, or gives up |
| Effects.RecordEffect | internal/usecase/games.go:255-257 | it then saves what it read with one more win, loss or draw, or gives up |
| Effects.SignUpEffect | internal/usecase/auth.go:28-66 | a sign-up that passes its checks and is created undisturbed adds one account with no games, found under its name; otherwise nothing |
| Effects.CreateEffect | internal/adapter/memory/player_store.go:30-42 | created later, a sign-up becomes an account exactly when nobody has taken its name meanwhile |
| Persistence.EveryRowReplays | internal/usecase/games.go:114-118 | at any moment, although saves land late and out of order, every row loads and replays through the live rules to exactly its stored status, and its moves are a prefix of those committed |
| Persistence.EveryPendingRecordReplays | internal/usecase/games.go:112-114 | the same for every snapshot whose save has not reached the store |
| Persistence.EverySnapshotIsSavedOnce | internal/usecase/games.go:81-121 | the position at the start and after each move is saved exactly once: its save has landed, or failed, or is pending |
| Persistence.RowIsLatestIffNotOvertaken | internal/usecase/games.go:81-121 | at every moment the row is the snapshot whose save landed last; it is the latest exactly when the save of the latest snapshot is neither pending nor failed and the last save to land did not come after that of a longer snapshot |
| Scenarios.OlderSaveCanLandLast | internal/usecase/games.go:112-114 | a complete run, for any two known players: both made a move, both calls ended without a failure, and the row is one move behind |
| Persistence.StoresStayInterchangeable | internal/adapter/memory/match_store.go:20-40 | over every run the matches table and the in-memory store, given the same calls, answer every lookup alike |
| Services.ClosedMatchesStayClosed | internal/usecase/games.go:106-111 | histories only grow; a match that ended or was left never changes again, so it settles at most once and its ID is never live again |
| Announcing.EventsAreOrdered | internal/usecase/games.go:101-112 | the events of a match in lock order are match_started, at most eight state_changed, then at most one of match_ended and opponent_left; its results come with match_ended and only then |
| Announcing.StartIsHeardFirst | internal/usecase/games.go:81-85 | both start notices are delivered before any other notice of the match, and no notice of a match is delivered before it has started |
| Announcing.EveryEventIsToldOnce | internal/usecase/games.go:106-164 | at every moment the notices delivered and pending of a match are exactly those its history announces, each once: a round for the start and for each move to both players, each showing its recipient the play so far, and opponent_left to the one who stays |
| Announcing.AnnouncementsTellThePlay | internal/usecase/games.go:184-205 | the notice of every round, by position: its recipient, its event, and the match after that many moves as that recipient sees it |
| Announcing.AnnouncementsTellEvents | internal/usecase/games.go:148-205 | read player by player the announcements are the history's events in order, less opponent_left for the one who left; outsiders get none |
| Books.ResultsAreConserved | internal/usecase/games.go:106-121 | over every run, ideal stats plus pending results grow in total by one win and one loss per decided match and two draws per drawn one, and by nothing else |
| Books.PlayerResultsAreConserved | internal/usecase/games.go:106-121 | over every run and for each player, ideal wins, losses and draws plus those owed to that player grow by exactly the matches that player won, lost or drew, read off the moves |
| Books.PlayerStatsAreRightIffNotOverwritten | internal/usecase/games.go:248-258 | a player to whom nothing is owed has exactly the stats its finished matches earned, on top of those at the start, if and only if no stale save landed for that player |
| Books.NothingIsDroppedWithoutFailure | internal/usecase/games.go:248-258 | as long as the player store takes every call, no result is given up |
| Books.NothingOverwrittenWithoutOverlap | internal/usecase/games.go:248-258 | a player whose recording calls never overlap has nothing overwritten, whatever happens to the others |
| Books.StoredAndOwedAreRightWhileNothingOverwritten | internal/usecase/games.go:106-121 | while nothing has been overwritten, stored totals plus pending results are right at every moment |
| Books.ResultsAreEarned | internal/usecase/games.go:217-224 | a finished match hands each player the result the moves earned that player, once, and nobody else any |
| Scenarios.OverlappingFinishesLoseADefeat | internal/usecase/games.go:114-119 | a complete run, for any three known players: one loses two matches, every call ends without a failure, and the store shows one defeat |
| Books.StoredTotalsAreRightIffNothingOverwritten | internal/usecase/games.go:248-258 | with nothing pending and no failed write, the stored totals have grown by exactly two games per finished match if and only if no record was overwritten, and then wins, losses and draws are each right |
| Services.AccountsStaySound | internal/usecase/auth.go:44-66 | in every run, however registrations interleave, no two accounts have the same name in any capitalisation and the lookup agrees with a scan |
| Services.MovesFailOnlyFairly | internal/usecase/games.go:91-104 | in every run a move fails only for one of the four reasons a player can cause, and two players are listed per live match |
| Hubs.EverySessionIsAccountedFor | internal/adapter/transport/hub.go:44-65 | in every interleaving a player's entry is the client that arrived last until that client unregisters, and every other client is past its unregister or displaced with its close pending or done |
| Hubs.LateUnregisterEvictsNobody | internal/adapter/transport/hub.go:56-65 | an unregister removes the entry exactly when the player has not connected again since, and touches no other player |
| Hubs.Hub.Register | internal/adapter/transport/hub.go:44-54 | in place: the entry is swapped and the displaced client closed |
| Hubs.Hub.Unregister | internal/adapter/transport/hub.go:58-65 | in place: a no-op for a client that has been replaced |
| Hubs.Hub.Notify | internal/adapter/transport/hub.go:27-40 | the player's current client gets the frame, or is closed when it cannot take it; no other client is touched |
| Hubs.Client.Push | internal/adapter/transport/conn.go:51-64 | queues the frame unless closed or full, never more than the buffer holds |
| Hubs.Client.Close | internal/adapter/transport/conn.go:42-47 | closing is idempotent and drops nothing queued |

## Left out

- HTTP handlers, the router, JSON, WebSocket pumps, timers, the command-line client and start-up: plumbing around what is modelled.
- Password hashing, tokens, login and authentication: the work is in libraries that are not part of this model; a hash is a parameter.
- SQL text, driver, schema and the table-backed player store: the matches table is a map of text rows; the players table is not modelled.
- Which of the two errors the decimal parser gives (syntax or range), and error message texts: both are one error here.
- Unicode: text is bytes; trimming and lower-casing cover ASCII only.
- PlayerStores.TrimSpaceCuts: the white space is that of ASCII, not all of Unicode's.
- PlayerStores.KeysIgnoreCase: the letters whose case is ignored are those of ASCII.
- Accessors that only hand out a field or its size (`Winner`, `ID`, `Board`, `Turn`, `Cell`, `Waiting`, `Online`).
- LiveGames.Games.Start: the loads of the two players and the draw of the ID come before it; the loads and their not-found errors are in Matchmakers.Matchmaking.StartPopped, the ID is a parameter.
- Overflow of the win, loss and draw counters: they are unbounded here.
- The library sort inside `Top`: an insertion sort stands in for it, since any sort by this order gives the same list.
- Marks other than X, O and Empty: the code's mark is a byte, but no code path makes another value.
- Liveness: that a waiting player eventually plays, a pending save or close eventually happens.
- The teardown of a socket, which leaves the queue and abandons the match of its player even when the socket had been replaced: so no claim is made that reconnecting keeps a match.
- Draining a client's buffer: only what is pushed and when a push is refused.
