/** The score ledger of services/gameScoreService.js: checking a round's data, recording it
    in a player's ledger, and deciding whether the match is over (some player reached 1000
    points). */
module GameScoreService {
  import opened Common
  import opened GameMatchSchema

  /** The round data a client sends: the points scored and the chips used (either may be
      absent) and whether the player made a telefunken. */
  datatype RoundData = RoundData(points: Option<int>, fichasUsadas: Option<int>, telefunken: bool)

  datatype ScoreError =
    | MatchNotFound    // 'Match not found'
    | PlayerNotFound   // 'Player not found in match'
    | NegativePoints   // 'Los puntos no pueden ser negativos'
    | NegativeChips    // 'El número de fichas gastadas no puede ser negativo'

  /** The score that ends a match. */
  const WinningScore := 1000

  /** `validateTelefunkenRules`: negative points are refused first, then a negative chip
      count. An absent value passes, since `undefined < 0` is false. */
  function ValidateTelefunkenRules(d: RoundData): (r: Outcome<ScoreError>)
    ensures r == Pass <==> (d.points.None? || d.points.value >= 0) && (d.fichasUsadas.None? || d.fichasUsadas.value >= 0)
    ensures d.points.Some? && d.points.value < 0 ==> r == Fail(NegativePoints)
    ensures ((d.points.None? || d.points.value >= 0) && d.fichasUsadas.Some? && d.fichasUsadas.value < 0)
            ==> r == Fail(NegativeChips)
  {
    if d.points.Some? && d.points.value < 0 then Fail(NegativePoints)
    else if d.fichasUsadas.Some? && d.fichasUsadas.value < 0 then Fail(NegativeChips)
    else Pass
  }

  /** The value of `Math.max(...totals)`: -Infinity for no players, NaN when some entry has
      no numeric total (a roster entry that never got a ledger, or a NaN total), else the
      largest total. */
  datatype MaxTotal = NoTotals | Largest(n: int) | NotANumber

  function MaxOf(a: MaxTotal, b: MaxTotal): MaxTotal {
    if a.NotANumber? || b.NotANumber? then NotANumber
    else if a.NoTotals? then b
    else if b.NoTotals? then a
    else if a.n >= b.n then a else b
  }

  function SlotTotal(slot: MatchSlot): MaxTotal {
    if slot.Ledger? && slot.player.totalScore.Number? then Largest(slot.player.totalScore.n) else NotANumber
  }

  /** Every entry is a ledger holding a numeric total. */
  ghost predicate AllNumeric(players: seq<MatchSlot>) {
    forall i :: 0 <= i < |players| ==> players[i].Ledger? && players[i].player.totalScore.Number?
  }

  /** `Math.max(...players.map(p => p.totalScore))`. */
  function MaxTotalScore(players: seq<MatchSlot>): (m: MaxTotal)
    ensures m.NoTotals? <==> players == []
    ensures m.NotANumber? <==> !AllNumeric(players)
    ensures m.Largest? ==> forall i :: 0 <= i < |players| ==> players[i].player.totalScore.n <= m.n
    ensures m.Largest? ==> exists i :: 0 <= i < |players| && players[i].player.totalScore.n == m.n
  {
    if players == [] then NoTotals
    else
      var rest := MaxTotalScore(players[1..]);
      assert forall i :: 1 <= i < |players| ==> players[1..][i - 1] == players[i];
      MaxOf(SlotTotal(players[0]), rest)
  }

  /** `checkGameStatus`: the match is completed exactly when every entry has a ledger with a
      numeric total and some player's total has reached 1000. */
  function CheckGameStatus(players: seq<MatchSlot>): (status: string)
    ensures status == "completed" || status == "in_progress"
    ensures status == "completed" <==>
              AllNumeric(players) && exists i :: 0 <= i < |players| && players[i].player.totalScore.n >= WinningScore
  {
    var maxScore := MaxTotalScore(players);
    if maxScore.Largest? && maxScore.n >= WinningScore then "completed" else "in_progress"
  }

  /** `players.findIndex(p => p.playerId === playerId)`: the first ledger of that player, or -1. */
  function FindPlayer(players: seq<MatchSlot>, playerId: string): (i: int)
    ensures -1 <= i < |players|
    ensures i >= 0 ==> players[i].Ledger? && players[i].player.playerId == Some(playerId)
    ensures i >= 0 ==> forall j :: 0 <= j < i ==> !(players[j].Ledger? && players[j].player.playerId == Some(playerId))
    ensures i == -1 <==> forall j :: 0 <= j < |players| ==> !(players[j].Ledger? && players[j].player.playerId == Some(playerId))
  {
    if players == [] then -1
    else if players[0].Ledger? && players[0].player.playerId == Some(playerId) then 0
    else
      var i := FindPlayer(players[1..], playerId);
      assert forall j :: 1 <= j < |players| ==> players[1..][j - 1] == players[j];
      if i == -1 then -1 else i + 1
  }

  /** `totalScore += roundData.points`: adding undefined, or adding to NaN, gives NaN. */
  function AddScore(total: Score, points: Option<int>): Score {
    if total.Number? && points.Some? then Number(total.n + points.value) else NaN
  }

  /** The ledger after one round: the round logged, the points, chips (`|| 0`) and
      telefunken added to the running totals. */
  function Recorded(p: MatchPlayer, roundNumber: int, d: RoundData, now: string): MatchPlayer {
    p.(rounds := p.rounds + [RoundEntry(roundNumber, d.points, d.fichasUsadas, d.telefunken, now)],
       totalScore := AddScore(p.totalScore, d.points),
       fichasGastadas := p.fichasGastadas + NumOr(d.fichasUsadas, 0),
       telefunkens := p.telefunkens + (if d.telefunken then 1 else 0))
  }

  /** Round data that passed validation only ever raises a ledger's totals: one more round,
      a score and a chip count no smaller than before, a telefunken count up by one exactly
      when the round was a telefunken. */
  lemma RecordedGrows(p: MatchPlayer, roundNumber: int, d: RoundData, now: string)
    requires ValidateTelefunkenRules(d) == Pass
    ensures |Recorded(p, roundNumber, d, now).rounds| == |p.rounds| + 1
    ensures Recorded(p, roundNumber, d, now).rounds[|p.rounds|].roundNumber == roundNumber
    ensures p.totalScore.Number? && d.points.Some? ==>
              && Recorded(p, roundNumber, d, now).totalScore.Number?
              && Recorded(p, roundNumber, d, now).totalScore.n >= p.totalScore.n
    ensures p.totalScore.NaN? || d.points.None? ==> Recorded(p, roundNumber, d, now).totalScore == NaN
    ensures Recorded(p, roundNumber, d, now).fichasGastadas >= p.fichasGastadas
    ensures Recorded(p, roundNumber, d, now).telefunkens == p.telefunkens + (if d.telefunken then 1 else 0)
    ensures Recorded(p, roundNumber, d, now).playerId == p.playerId
  {
  }

  /** A completed match stays completed when a further valid round with points is recorded. */
  lemma CompletionIsStable(players: seq<MatchSlot>, i: nat, roundNumber: int, d: RoundData, now: string)
    requires i < |players| && players[i].Ledger?
    requires ValidateTelefunkenRules(d) == Pass && d.points.Some?
    requires CheckGameStatus(players) == "completed"
    ensures CheckGameStatus(players[i := Ledger(Recorded(players[i].player, roundNumber, d, now))]) == "completed"
  {
    var after := players[i := Ledger(Recorded(players[i].player, roundNumber, d, now))];
    var k :| 0 <= k < |players| && players[k].player.totalScore.n >= WinningScore;
    assert after[k].player.totalScore.n >= WinningScore;
  }

  /** Round data without points passes validation but turns the player's total into NaN, so
      the match is not completed after it, and stays so whatever is recorded next. */
  lemma MissingPointsBlocksCompletion(players: seq<MatchSlot>, i: nat, roundNumber: int, d: RoundData, now: string)
    requires i < |players| && players[i].Ledger?
    requires d.points.None?
    ensures ValidateTelefunkenRules(d) == Pass <==> d.fichasUsadas.None? || d.fichasUsadas.value >= 0
    ensures var after := players[i := Ledger(Recorded(players[i].player, roundNumber, d, now))];
            after[i].player.totalScore == NaN && CheckGameStatus(after) == "in_progress"
  {
  }

  /** Once some ledger's total is NaN, recording any further round leaves the match in
      progress. */
  lemma NaNTotalStays(players: seq<MatchSlot>, j: nat, i: nat, roundNumber: int, d: RoundData, now: string)
    requires j < |players| && players[j].Ledger? && players[j].player.totalScore.NaN?
    requires i < |players| && players[i].Ledger?
    ensures var after := players[i := Ledger(Recorded(players[i].player, roundNumber, d, now))];
            after[j].Ledger? && after[j].player.totalScore.NaN? && CheckGameStatus(after) == "in_progress"
  {
  }

  /** What `recordRoundScore` returns besides `success: true`. */
  datatype RecordResult = RecordResult(currentRound: int, status: string, playerScore: MatchPlayer)

  /** `recordRoundScore`: fails when the match does not exist, when the player has no ledger
      in it, or when the round data is invalid (in that order); otherwise records the round
      in that player's ledger, recomputes the match status and advances the round unless
      the match is now completed. */
  method RecordRoundScore(m: GameMatch?, playerId: string, roundData: RoundData, now: string)
    returns (r: Result<RecordResult, ScoreError>)
    modifies m
    ensures m == null ==> r == Err(MatchNotFound)
    ensures m != null && FindPlayer(old(m.players), playerId) == -1 ==> r == Err(PlayerNotFound)
    ensures (m != null && FindPlayer(old(m.players), playerId) >= 0 && ValidateTelefunkenRules(roundData).Fail?)
            ==> r == Err(ValidateTelefunkenRules(roundData).error)
    ensures r.Err? && m != null ==> m.ToJson() == old(m.ToJson())
    ensures r.Ok? <==> m != null && FindPlayer(old(m.players), playerId) >= 0 && ValidateTelefunkenRules(roundData) == Pass
    ensures r.Ok? ==>
              var before := old(m.ToJson());
              var i := FindPlayer(before.players, playerId);
              var player := Recorded(before.players[i].player, before.currentRound, roundData, now);
              var players := before.players[i := Ledger(player)];
              var status := CheckGameStatus(players);
              && i >= 0 && ValidateTelefunkenRules(roundData) == Pass
              && m.ToJson() == before.(players := players, status := status, updatedAt := now,
                                       currentRound := if status == "completed" then before.currentRound
                                                       else before.currentRound + 1)
              && r.value == RecordResult(before.currentRound, status, player)
  {
    if m == null {
      return Err(MatchNotFound);
    }
    var playerIndex := FindPlayer(m.players, playerId);
    if playerIndex == -1 {
      return Err(PlayerNotFound);
    }
    var valid := ValidateTelefunkenRules(roundData);
    if valid.Fail? {
      return Err(valid.error);
    }
    var player := Recorded(m.players[playerIndex].player, m.currentRound, roundData, now);
    var updatedPlayers := m.players[playerIndex := Ledger(player)];
    var gameStatus := CheckGameStatus(updatedPlayers);
    var roundNumber := m.currentRound;
    m.players, m.status, m.updatedAt := updatedPlayers, gameStatus, now;
    m.currentRound := if gameStatus == "completed" then roundNumber else roundNumber + 1;
    return Ok(RecordResult(roundNumber, gameStatus, player));
  }
}
