# Telefunken backend — a verified model of its game core

BackedTelefunken is the server of an online Telefunken (a rummy-style card game played
over seven rounds). This project models its game core in Dafny:

- **Waiting rooms** (`schemas/WaitingRoom.js`, `services/waitingRoomService.js`). Players
  gather in a lobby room, join and leave it, and the room is started once enough players
  are active.
- **Games** (`schemas/Game.js` and `createGame`, `joinGame` and `generateGameCode` in
  `services/gameService.js`). A game is created by its first player under a six-character
  code, and other players join it by that code.
- **Game sessions** (`schemas/GameSession.js`, `services/gameSessionService.js`). This is
  the round-by-round state machine: pick the dealer and starter, claim a round with chips
  (at most 12 over a game), declare the cards left in hand, approve or reject the claim
  (which scores the round with the card-value table), pass the turn, and at the end sum
  the points and pick the winner (the fewest points).
- **Score ledgers** (`schemas/GameMatch.js`, `services/gameScoreService.js`). A per-player
  ledger of round scores is kept, and the match is completed once somebody reaches 1000.

Values (records, rosters, declarations, round data) are datatypes, and schema
constructors are functions returning a `Result`. The three documents that the services
update field by field are classes: `GameSession`, `WaitingRoom` and `GameMatch`. Each
service operation is a method on the stored object that changes only the fields its
update writes. Loops in the source are methods with loop invariants, proved against
specification functions: `calculatePoints`, `determineWinner`, the scoring loops of
`approveRound`, the summing loops of `endGameSession` and `generateGameCode`.

Modules:

- `Common`: `Option`, `Result`, `Outcome` and JavaScript's `||` defaults.
- `Objects`: JavaScript plain objects as sequences of key/value pairs in insertion order.
- `SessionScoring`: the value table, `calculatePoints` and `determineWinner`.
- `SessionRotation`: dealer choice and turn order.
- `GameSessionSchema` and `GameSessionService`: the session record and its operations.
- `WaitingRoomSchema` and `WaitingRoomService`: the room record and the lobby operations.
- `GameSchema` and `GameService`: the game record and creating or joining a game.
- `GameMatchSchema` and `GameScoreService`: the ledger record and score recording.

The document store, the clock, uuids and `Math.random` are replaced by parameters:

- what a query found, as an `Option` or a possibly-null object;
- `now`;
- `uuid`, `guestUuid` and `gameUuid`;
- `dealerIndex`, `picks` and `guestNumber`.

Where the model departs from the code on purpose:

- The GameSession schema keeps neither `rounds`, `currentRound`, `tokensUsed` nor
  `gameCode`. Yet the service reloads each session with `new GameSession(doc.data())` and
  then reads `session.rounds[session.currentRound]`. Run as written, that read fails.
  The model gives the session object the fields the service reads, and it requires
  (`Valid`) the seven rounds to be in place.

Behaviour of the code that the model keeps as written:
- `claimRound` never moves the round out of `pending`. A second claim therefore passes
  the same gate and replaces the first claimant. Declarations are still accepted after a
  claim, and a player may declare before claiming.
- `approveRound` checks `claimedBy`, not the round status. A claim by the empty username
  counts as no claim.
- `endGameSession` writes results but never changes `status`.
- `claimRound` does not check the sign of `tokenCount`. A negative claim lowers the
  claimant's chip count (`NegativeClaimRefunds`).
- Compared with `joinWaitingRoom`, `joinGame` has no capacity check and does not
  reactivate a player who left. Its room query also does not exclude started rooms.
- The capacity check of `joinWaitingRoom` compares the stored `activePlayers` with
  `maxPlayers`.
- A round's points object may hold a key that is not a seated player. `endGameSession`
  then adds to an undefined total, which gives NaN. NaN never wins, so `Num` models it.
- Round data without `points` passes `validateTelefunkenRules` (`undefined < 0` is
  false) and turns the player's `totalScore` into NaN. From then on `Math.max` over the
  totals is NaN, so the match is never completed (`MissingPointsBlocksCompletion`,
  `NaNTotalStays`).
- `startGame` rebuilds the room through the schema, whose `validatePlayers` sets each
  entry's `id` and `username` to the entry's `username`. The players added by
  `joinWaitingRoom` have no `username`, so in the code the started room's roster loses
  their ids. See the `WaitingRoomService.StartGame` line under "Left out".

## Model

| member | source | states |
|---|---|---|
| Common.Decimal | services/gameService.js:20 | the printed random number is a nonempty string of digits |
| Objects.Get | services/gameSessionService.js:177 | reading `o[k]` is undefined exactly when the object has no key `k` |
| Objects.Set | services/gameSessionService.js:92 | `o[k] = v`: existing keys keep their positions, a new key is appended, `k` now reads `v` and every other key reads as before |
| Objects.SetKeepsUnique | services/gameSessionService.js:242 | assigning a key never duplicates a key |
| Objects.GetFound | services/gameSessionService.js:177 | a value read under `k` is stored at some position under `k` |
| Objects.GetAt | services/gameSessionService.js:96-98 | with distinct keys, the entry at a position is what reading its key returns |
| SessionScoring.FirstInvalidCard | services/gameSessionService.js:249-265 | names the first rank in enumeration order that the value table does not know; none exactly when every rank is known |
| SessionScoring.CalculatePoints | services/gameSessionService.js:247-268 | succeeds exactly when every rank is known, returning the sum of count times value; otherwise it throws on the first unknown rank |
| SessionScoring.AcesAndJoker | services/gameSessionService.js:251-262 | two aces (15 each) and a joker (50) are worth 80 |
| SessionScoring.EmptyHandScoresZero | services/gameSessionService.js:248 | an empty declaration scores 0 |
| SessionScoring.DeclaredTotalAppend | services/gameSessionService.js:249-266 | the score of two hands put together is the sum of their scores |
| SessionScoring.ScorablePermutation | services/gameSessionService.js:249-265 | reordering a hand keeps every rank known |
| SessionScoring.DeclaredTotalPermutation | services/gameSessionService.js:249-266 | a hand's score does not depend on the order its ranks are enumerated |
| SessionScoring.RemoveEntryTotal | services/gameSessionService.js:264 | a hand scores one entry's count times value plus the rest of the hand |
| SessionScoring.DeclaredTotalBounds | services/gameSessionService.js:251-262 | with non-negative counts each card is worth between 5 and 50 points |
| SessionScoring.FirstMinimumUnique | services/gameSessionService.js:42-44 | at most one entry is the first strict minimum, so the winner is determined |
| SessionScoring.DetermineWinner | services/gameSessionService.js:38-48 | returns null exactly when no total is a number, otherwise the first player holding the smallest numeric total |
| SessionRotation.FindSeat | services/gameSessionService.js:21 | `findIndex`: the first seat holding the user, or -1 exactly when nobody does |
| SessionRotation.NextTurn | services/gameSessionService.js:20-23 | an empty roster fails; an unseated user passes the turn to seat 0; otherwise the turn goes to the seat after the user's first seat, wrapping around |
| SessionRotation.AssignDealerAndStarter | services/gameSessionService.js:5-12 | an empty roster fails; otherwise the dealer is the drawn seat and the starter the seat after it |
| SessionRotation.StarterFollowsDealer | services/gameSessionService.js:5-12 | with distinct usernames, the starter is whoever `nextTurn` gives after the dealer |
| SessionRotation.NextOfSeat | services/gameSessionService.js:20-23 | with distinct usernames, the turn passes from seat i to seat (i+1) mod n |
| SessionRotation.TurnRotation | services/gameSessionService.js:20-23 | k turns after seat i, it is seat (i+k) mod n's turn |
| SessionRotation.TurnsComeBack | services/gameSessionService.js:20-23 | n turns bring the turn back to the player it started from |
| SessionRotation.EveryPlayerGetsATurn | services/gameSessionService.js:20-23 | within n turns from any seat, every seated player gets the turn |
| GameSessionSchema.ValidatePlayers | schemas/GameSession.js:19-29 | a non-array throws; otherwise each entry keeps its username, with status defaulting to `active` and the join time to now |
| GameSessionSchema.ValidatePlayersIdempotent | schemas/GameSession.js:19-29 | formatting an already formatted roster again changes nothing |
| GameSessionSchema.NewSession | schemas/GameSession.js:5-16 | a roster that is not an array throws; otherwise identifying fields are copied, and status, actions, joker uses, results and creation time are kept when given, else default to `in_progress`, empty logs, `{}` and now (an empty status or creation time also falls back); the update time is now |
| GameSessionSchema.GameSession.constructor | schemas/GameSession.js:5-16 | the object holds the record and the fields the service keeps beside it |
| GameSessionSchema.GameSession.Update | schemas/GameSession.js:55-64 | the record becomes the patch merged over `toJSON()`, stamped now |
| GameSessionSchema.EmptyPatchKeepsRecord | schemas/GameSession.js:57 | an empty patch leaves the record as it was |
| GameSessionSchema.OverriddenIdempotent | schemas/GameSession.js:57 | applying the same patch twice equals applying it once |
| GameSessionService.StartGameSession | services/gameSessionService.js:58-79 | an empty roster fails; otherwise a fresh, valid session in progress, with the drawn dealer and the next seat as current turn, no actions or results, zero chips for every seated player and the first round current |
| GameSessionService.ClaimRound | services/gameSessionService.js:129-146 | a round no longer pending fails, and so does a claim past 12 chips; it succeeds exactly when neither applies; on failure nothing changes; otherwise chips are added and the claimant recorded; the cap is kept for non-negative claims |
| GameSessionService.ClaimStaysUnderCap | services/gameSessionService.js:138-143 | an accepted claim leaves the claimant at most at the cap and nobody else's count changed |
| GameSessionService.NegativeClaimRefunds | services/gameSessionService.js:138-143 | a negative chip count passes the gate and lowers the claimant's count |
| GameSessionService.DeclareCards | services/gameSessionService.js:228-244 | a round no longer pending fails; a declaration by the claimant fails; it succeeds exactly when neither applies; otherwise only the declarant's hand in the current round is replaced |
| GameSessionService.DeclarationKeepsRoundsWellFormed | services/gameSessionService.js:241-243 | writing a declaration keeps every round's keys distinct |
| GameSessionService.DeclarationReplacesOnlyOwnHand | services/gameSessionService.js:242 | the declarant's hand becomes the new one and every other hand reads as before |
| GameSessionService.FirstScoringError | services/gameSessionService.js:166-209 | the unknown rank scoring throws on first, in seat order; none exactly when every non-claimant's hand is scorable |
| GameSessionService.PointsFromContents | services/gameSessionService.js:175-184 | the scoring loop gives every seated non-claimant their hand's value with no penalty, and leaves other keys as they were |
| GameSessionService.RoundPointsContents | services/gameSessionService.js:166-209 | the round's points hold the claimant's entry (0 if approved, a 50 penalty if rejected) and every seated player's hand value, and no other keys |
| GameSessionService.ScoreRound | services/gameSessionService.js:166-209 | the scoring loops succeed exactly when every hand is scorable, yielding the specified points object, and otherwise throw the first unknown rank |
| GameSessionService.ResolvedKeepsRoundsWellFormed | services/gameSessionService.js:211-215 | writing a scored round back keeps every round's keys distinct |
| GameSessionService.ApproveRound | services/gameSessionService.js:150-225 | no claim (or an empty claimant) fails; approval by the claimant fails; an unscorable hand fails with its rank; it succeeds exactly when there is a nonempty claimant other than the approver and every other hand is scorable; on failure nothing changes; otherwise the round is completed or penalised with its points, and play advances to the next round under the dealer, or after the last round the final results are written |
| GameSessionService.AdvanceRound | services/gameSessionService.js:217-224 | before the last round: next round, dealer's turn, results untouched; after it: round and turn kept and the final results written |
| GameSessionService.EndTurn | services/gameSessionService.js:120-125 | the turn passes to the given player and the session is stamped |
| GameSessionService.RecordAction | services/gameSessionService.js:25-34 | the action log grows by exactly this stamped action |
| GameSessionService.SumTotals | services/gameSessionService.js:90-99 | the summing loops produce the specified totals object |
| GameSessionService.AddRoundPoints | services/gameSessionService.js:95-99 | the inner summing loop adds each entry's total (or 0) to the entry's user |
| GameSessionService.WriteFinalResults | services/gameSessionService.js:88-113 | the stored results are the totals, the winner `determineWinner` picks, the end time and the round details |
| GameSessionService.EndGameSession | services/gameSessionService.js:83-118 | a missing session fails and any existing one succeeds; the final results are stored and no other field changes, the status included |
| GameSessionService.InitTotalsContents | services/gameSessionService.js:92 | every seated player starts at 0 and other keys are unchanged |
| GameSessionService.AddPointsContents | services/gameSessionService.js:95-99 | one round adds its entry's total to that user's numeric total; an untouched user keeps theirs; a non-number stays a non-number |
| GameSessionService.AddRoundsContents | services/gameSessionService.js:94-99 | over all rounds, a numeric total grows by the user's points in each round |
| GameSessionService.TotalsContents | services/gameSessionService.js:90-99 | every seated player's total is the sum of their points over the rounds; anyone else's is not a number |
| GameSessionService.SeatedEntry | services/gameSessionService.js:92-99 | every seated player has an entry holding their summed points |
| GameSessionService.NumericEntry | services/gameSessionService.js:92-99 | an entry holding a number belongs to a seated player and holds their summed points |
| GameSessionService.WinnerIsSeatedMinimum | services/gameSessionService.js:101 | there is a winner exactly when someone is seated; the winner is seated and has no more points than any seated player |
| WaitingRoomSchema.ValidateStatus | schemas/WaitingRoom.js:24-30 | accepts exactly `waiting`, `ready` and `started`, and otherwise throws naming the status |
| WaitingRoomSchema.ValidatePlayers | schemas/WaitingRoom.js:32-42 | a non-array throws; otherwise each entry is keyed by its username, with status defaulting to `active` and the join time to now |
| WaitingRoomSchema.CountActive | schemas/WaitingRoom.js:44-46 | counts the active entries: 0 exactly when none is active, all exactly when every one is |
| WaitingRoomSchema.CountActiveAppend | schemas/WaitingRoom.js:44-46 | the active count of two rosters put together is the sum |
| WaitingRoomSchema.NewRoom | schemas/WaitingRoom.js:7-22 | missing data or code, then an unknown status, then a non-array roster throw, in that order; otherwise the defaults for absent or empty fields apply and the active count matches the roster |
| WaitingRoomSchema.DefaultRoom | schemas/WaitingRoom.js:7-22 | a room with only a code is waiting, empty, and holds 2 to 6 players |
| WaitingRoomSchema.WaitingRoom.IsReadyToStart | schemas/WaitingRoom.js:48-50 | in a consistent room, ready exactly when at least `minPlayers` entries are active |
| WaitingRoomSchema.WaitingRoom.constructor | schemas/WaitingRoom.js:7-22 | the object holds the record |
| WaitingRoomSchema.WaitingRoom.Update | schemas/WaitingRoom.js:76-85 | the record becomes the patch merged over `toJSON()`, stamped now |
| WaitingRoomSchema.StatusPatchChangesOnlyStatus | services/waitingRoomService.js:172 | a status-only update changes the status and the time stamp and nothing else |
| WaitingRoomService.FindById | services/waitingRoomService.js:49 | `find`: none exactly when no entry has the id, otherwise the first entry that does |
| WaitingRoomService.Reactivated | services/waitingRoomService.js:62-64 | entries with the id become active with a rejoin time; every other entry is unchanged |
| WaitingRoomService.MarkedInactive | services/waitingRoomService.js:105-109 | entries with the id become inactive with a leave time; every other entry is unchanged |
| WaitingRoomService.JoinAddsOne | services/waitingRoomService.js:51-60 | appending a newcomer raises the active count by one |
| WaitingRoomService.ReactivateCount | services/waitingRoomService.js:62-66 | reactivating never lowers the active count, and a present player ends up counted |
| WaitingRoomService.LeaveCount | services/waitingRoomService.js:105-112 | leaving never raises the active count, leaves the player inactive, and an absent id changes nothing |
| WaitingRoomService.JoinThenLeave | services/waitingRoomService.js:49-112 | a newcomer who joins and then leaves restores the active count |
| WaitingRoomService.StoreRoster | services/waitingRoomService.js:69-74 | the room stores the roster, its active count, the matching status and now, and nothing else changes |
| WaitingRoomService.JoinedRosterEffect | services/waitingRoomService.js:49-66 | after a join the player is active; a newcomer is appended (count +1); a returning player keeps the roster length and nobody else's entry changes |
| WaitingRoomService.JoinName | services/waitingRoomService.js:47 | the joining name is nonempty |
| WaitingRoomService.JoinRoster | services/waitingRoomService.js:49-64 | computes the joined roster, and the roster written to the game only for a newcomer |
| WaitingRoomService.JoinWaitingRoom | services/waitingRoomService.js:30-86 | game not found, no open room and a full room fail, in that order, changing nothing; it succeeds exactly when none applies; otherwise the room stores the joined roster, count and status, and returns the room as read with the new roster and the game roster for a newcomer |
| WaitingRoomService.LeaveWaitingRoom | services/waitingRoomService.js:89-132 | fails exactly when no open room matched, and succeeds for every matched room; the player is marked inactive and the new count and status are stored and returned |
| WaitingRoomService.StartGame | services/waitingRoomService.js:153-177 | no ready room fails; an invalid stored room fails with the schema's error; too few active players fail; otherwise the rebuilt room is marked started |
| GameSchema.ValidatePlayers | schemas/Game.js:22-32 | a non-array throws; otherwise each entry keeps its username (also as id), with status defaulting to `active` and the join time to now |
| GameSchema.ValidatePlayersIdempotent | schemas/Game.js:22-32 | formatting an already formatted roster again changes nothing |
| GameSchema.NewGame | schemas/Game.js:11-20 | fails exactly when the roster is present but not an array; the roster is formatted (absent is empty); temporary only if asked; other fields copied; creation time defaults to now |
| GameSchema.EmptyGame | schemas/Game.js:11-20 | a game built from nothing has no players, is not temporary, and was created now |
| GameService.GenerateGameCode | services/gameService.js:129-136 | the code is the six drawn alphabet characters |
| GameService.CodeForChars | services/gameService.js:129-136 | each position of a code is the character drawn for it |
| GameService.AlphabetPositions | services/gameService.js:130 | the alphabet is A to Z then 0 to 9, each character at its own position |
| GameService.CodeRoundTrip | services/gameService.js:129-136 | reading a code back recovers the draws |
| GameService.CodesDetermineDraws | services/gameService.js:129-136 | distinct draws give distinct codes |
| GameService.CreatorName | services/gameService.js:18-20 | a registered creator is named by their email or a placeholder, anyone else `Invitado_` followed by decimal digits only; never empty |
| GameService.CreateGame | services/gameService.js:9-51 | fails exactly for a registered creator who is not stored; otherwise a lobby game whose only player is the creator, under the given or a generated nonempty code, titled after it |
| GameService.GeneratedCodeShape | services/gameService.js:25 | a generated code has six characters from the alphabet |
| GameService.JoinGame | services/gameService.js:56-114 | fails exactly when no game has the code; with no room nothing is written; a player already in the room changes nothing; otherwise the newcomer is appended active, the count goes up one, the status is recomputed, and the same roster is returned for the game |
| GameMatchSchema.InitializePlayers | schemas/GameMatch.js:22-32 | one fresh ledger per entry, in order: id and name copied, zero totals, no rounds, active |
| GameMatchSchema.NewMatch | schemas/GameMatch.js:6-20 | a missing game id or a non-array roster fails; stored ledgers are kept, fresh ones opened otherwise; status and round default only when absent |
| GameMatchSchema.RebuildKeepsMatch | schemas/GameMatch.js:79-87 | rebuilding a stored match that holds ledgers gives back the same record |
| GameMatchSchema.NewMatchOpensLedgers | services/gameScoreService.js:8 | a new match over a game's roster is in progress at round 1 with one fresh ledger per player |
| GameMatchSchema.GameMatch.constructor | schemas/GameMatch.js:6-20 | the object holds the record |
| GameScoreService.ValidateTelefunkenRules | services/gameScoreService.js:77-85 | passes exactly when the points and the chip count are each absent or non-negative; negative points are reported first |
| GameScoreService.MaxTotalScore | services/gameScoreService.js:88 | `Math.max` over totals: -Infinity for none; NaN if any entry lacks a ledger or holds a NaN total; otherwise the largest total, which some entry holds |
| GameScoreService.CheckGameStatus | services/gameScoreService.js:87-93 | completed exactly when every entry has a ledger with a numeric total and some total reached 1000, else in progress |
| GameScoreService.FindPlayer | services/gameScoreService.js:30-34 | the first ledger of the player, or -1 exactly when there is none |
| GameScoreService.RecordedGrows | services/gameScoreService.js:43-52 | a valid round adds one logged round and never lowers a numeric score or the chips; missing points or a NaN total give NaN; telefunkens grow by one exactly for a telefunken |
| GameScoreService.CompletionIsStable | services/gameScoreService.js:50-55 | a completed match stays completed after another valid round with points |
| GameScoreService.MissingPointsBlocksCompletion | services/gameScoreService.js:50-55 | round data without points passes validation when its chips do, makes the player's total NaN, and leaves the match in progress |
| GameScoreService.NaNTotalStays | services/gameScoreService.js:50-55 | once a total is NaN it stays NaN whatever is recorded, and the match stays in progress |
| GameScoreService.RecordRoundScore | services/gameScoreService.js:19-74 | a missing match, a missing player, and invalid data fail in that order, changing nothing; it succeeds exactly when none applies; otherwise the ledger records the round, the status is recomputed and the round advances unless completed |

## Left out

- Firestore reads, writes and queries: each query's result is a parameter, and each write is an update of the object.
- Concurrency between requests and the lack of transactions: out of scope for a sequential model.
- Routers, middleware, `services/userService.js`, `index.js`, the Firebase set-up and the player-history schema: these are not part of this model.
- `assignGameChooser`: its only logic is a random draw of a player.
- `createWaitingRoom`, `getWaitingRoomStatus`, `initializeGameMatch`, `getMatchStatus`, `getGameById` and `gameService.startGameSession`: each only stores or reads a document. Their schema logic is modelled by NewRoom, NewMatch and NewGame.
- The `save` and `update` methods of Game.js: they only write to the document store and change no field.
- Date, uuid and `Math.random`: they become the parameters `now`, the uuids, `dealerIndex`, `picks` and `guestNumber`.
- Console logging.
- The ordering of integer-like keys in JavaScript objects: objects keep insertion order here.
- `Objects.Set`: does not model usernames containing a dot, which Firestore's dotted update paths would split into nested fields.
- `arrayUnion` deduplication of action entries: RecordAction appends, because entries carry a timestamp.
- `FieldValue.increment`: modelled as plain addition.
- `WaitingRoomService.StartGame`: takes the stored roster as entries that carry a username. In the code, `startGame` rebuilds the room through `validatePlayers`, which sets every entry's `id` and `username` to its `username`. The entries `joinWaitingRoom` appends carry an `id` but no `username`, so the started room writes those players back with both undefined. The model does not capture this loss of ids.
- `GameScoreService.RecordRoundScore`: does not model fields of `roundData` other than points, chips and telefunken, which the spread could use to override `roundNumber`.
- `GameSessionService.StartGameSession`: takes the seven rounds as an input and requires them to be well formed. The code never builds `rounds`, and the GameSession schema drops it.
- `GameSessionService.StartGameSession`: takes the roster as a list, so a roster that is not an array is not modelled. In the code that throws (services/gameSessionService.js:6-9, schemas/GameSession.js:20-21). Roster entries without a `username` are not modelled either: a player's username is always a string. In the code, the `validatePlayers` of all three schemas turns such an entry into `username: undefined`.
- Floating point: totals and points are integers, and NaN and -Infinity are modelled by the `Num`, `Score` and `MaxTotal` datatypes. Round data whose fields are not numbers at all (strings, say) is not modelled.
