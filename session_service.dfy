/** The game-session state machine of services/gameSessionService.js: starting a session,
    claiming a round with chips, declaring the cards left in hand, approving or rejecting a
    claim, passing the turn, logging actions and computing the final results. Every
    operation reads the stored session and writes some of its fields; here the session is
    a GameSession object and each operation changes only the fields its write names. */
module GameSessionService {
  import opened Common
  import opened Objects
  import opened SessionScoring
  import opened SessionRotation
  import opened GameSessionSchema

  datatype SessionError =
    | NoPlayers                // assignDealerAndStarter indexes an empty roster
    | RoundAlreadyResolved     // 'Esta ronda ya ha sido finalizada'
    | TokenLimitExceeded       // 'Excediste el límite de fichas'
    | NoClaim                  // 'Ningún jugador ha reclamado esta ronda'
    | ClaimantCannotApprove    // 'El reclamante no puede validar su propia jugada'
    | ClaimantCannotDeclare    // 'El reclamante no puede declarar cartas'
    | InvalidCard(card: string) // thrown by calculatePoints
    | SessionNotFound          // 'Sesión no encontrada'

  /** The most chips a player may spend over a game. */
  const TokenCap := 12

  /** The index of the last of the seven rounds. */
  const LastRound := 6

  ghost predicate Seated(players: seq<SessionPlayer>, u: string) {
    exists i :: 0 <= i < |players| && players[i].username == u
  }

  // ---- startGameSession ----

  /** `startGameSession`: picks the dealer (seat `dealerIndex`, the random draw) and the
      starter after it, and stores a new session that is in progress, with no actions, no
      results, no chips spent by anyone and the first round current. The game code is passed
      to the schema, which does not keep it. */
  method StartGameSession(gameId: string, players: seq<RawPlayer>, gameCode: string, dealerIndex: nat,
                          rounds: seq<Round>, now: string)
    returns (r: Result<GameSession, SessionError>)
    requires dealerIndex < |players| || players == []
    requires |rounds| == RoundCount && WellFormedRounds(rounds)
    ensures r.Err? <==> players == []
    ensures r.Ok? ==> fresh(r.value) && r.value.Valid()
    ensures r.Ok? ==>
              var s := r.value;
              var n := |players|;
              && s.dealer == players[dealerIndex].username
              && s.currentTurn == players[SeatAfter(n, dealerIndex)].username
              && Ok(s.players) == ValidatePlayers(List(players), now)
              && s.gameId == gameId && s.status == "in_progress"
              && s.actions == [] && s.jokerUses == [] && s.results == NoResults
              && s.createdAt == now && s.updatedAt == now
              && s.rounds == rounds && s.currentRound == 0
              && (forall u :: u in s.tokensUsed <==> exists i :: 0 <= i < n && players[i].username == u)
              && (forall u :: u in s.tokensUsed ==> s.tokensUsed[u] == 0)
  {
    var seats := seq(|players|, i requires 0 <= i < |players| => players[i].username);
    var chosen := AssignDealerAndStarter(seats, dealerIndex);
    if chosen.Err? {
      return Err(SessionError.NoPlayers);
    }
    var (dealer, starter) := chosen.value;
    var data := SessionData(gameId, dealer, starter, List(players), Some("in_progress"), Some([]), None,
                            Some(NoResults), None);
    var record := NewSession(data, now);
    var tokensUsed := map u | u in seats :: 0;
    assert forall i :: 0 <= i < |players| ==> seats[i] == players[i].username;
    var s := new GameSession(record.value, tokensUsed, rounds, 0);
    return Ok(s);
  }

  // ---- claimRound ----

  /** `tokensUsed[u] || 0`. */
  function TokensOf(ledger: map<string, int>, u: string): int {
    if u in ledger then ledger[u] else 0
  }

  /** Every player's chip count lies between 0 and the cap. */
  ghost predicate LedgerWithinCap(ledger: map<string, int>) {
    forall u :: u in ledger ==> 0 <= ledger[u] <= TokenCap
  }

  /** `claimRound`: refuses a round that is no longer pending and a claim that would take the
      claimant past twelve chips; otherwise adds the chips and records the claimant. The round
      stays pending, so a later claim passes the same gate and replaces this one. */
  method ClaimRound(s: GameSession, username: string, tokenCount: int) returns (r: Outcome<SessionError>)
    requires s.Valid()
    modifies s`tokensUsed, s`rounds
    ensures s.Valid()
    ensures old(s.rounds[s.currentRound].status) != Pending ==> r == Fail(RoundAlreadyResolved)
    ensures (old(s.rounds[s.currentRound].status) == Pending
             && TokensOf(old(s.tokensUsed), username) + tokenCount > TokenCap) ==> r == Fail(TokenLimitExceeded)
    ensures r.Pass? <==> old(s.rounds[s.currentRound].status) == Pending
                         && TokensOf(old(s.tokensUsed), username) + tokenCount <= TokenCap
    ensures r.Fail? ==> s.tokensUsed == old(s.tokensUsed) && s.rounds == old(s.rounds)
    ensures r.Pass? ==>
              && old(s.rounds[s.currentRound].status) == Pending
              && s.tokensUsed == old(s.tokensUsed)[username := TokensOf(old(s.tokensUsed), username) + tokenCount]
              && s.rounds == old(s.rounds)[s.currentRound := old(s.rounds[s.currentRound]).(claimedBy := Some(username))]
    ensures r.Pass? && 0 <= tokenCount && LedgerWithinCap(old(s.tokensUsed)) ==> LedgerWithinCap(s.tokensUsed)
  {
    var round := s.rounds[s.currentRound];
    if round.status != Pending {
      return Fail(RoundAlreadyResolved);
    }
    var used := TokensOf(s.tokensUsed, username);
    if used + tokenCount > TokenCap {
      return Fail(TokenLimitExceeded);
    }
    s.tokensUsed := s.tokensUsed[username := used + tokenCount];
    s.rounds := s.rounds[s.currentRound := round.(claimedBy := Some(username))];
    return Pass;
  }

  /** A claim that is accepted never takes anyone past the cap, whatever the ledger held:
      only the claimant's count changes, and it ends at most at twelve. */
  lemma ClaimStaysUnderCap(ledger: map<string, int>, u: string, tokenCount: int, v: string)
    requires TokensOf(ledger, u) + tokenCount <= TokenCap
    requires v in ledger[u := TokensOf(ledger, u) + tokenCount]
    ensures v == u ==> ledger[u := TokensOf(ledger, u) + tokenCount][v] <= TokenCap
    ensures v != u ==> ledger[u := TokensOf(ledger, u) + tokenCount][v] == ledger[v]
  {
  }

  /** Without a check on the sign of `tokenCount`, a negative claim lowers the claimant's
      chip count below what was spent. */
  lemma NegativeClaimRefunds(ledger: map<string, int>, u: string, tokenCount: int)
    requires tokenCount < 0
    ensures TokensOf(ledger[u := TokensOf(ledger, u) + tokenCount], u) < TokensOf(ledger, u)
  {
  }

  // ---- declareCards ----

  /** `declareCards`: refuses a round that is no longer pending and a declaration by the
      current claimant; otherwise stores the declarant's hand under their username,
      replacing an earlier declaration of theirs. */
  method DeclareCards(s: GameSession, username: string, declarations: Declaration) returns (r: Outcome<SessionError>)
    requires s.Valid()
    modifies s`rounds
    ensures s.Valid()
    ensures old(s.rounds[s.currentRound].status) != Pending ==> r == Fail(RoundAlreadyResolved)
    ensures (old(s.rounds[s.currentRound].status) == Pending
             && old(s.rounds[s.currentRound].claimedBy) == Some(username)) ==> r == Fail(ClaimantCannotDeclare)
    ensures r.Pass? <==> old(s.rounds[s.currentRound].status) == Pending
                         && old(s.rounds[s.currentRound].claimedBy) != Some(username)
    ensures r.Fail? ==> s.rounds == old(s.rounds)
    ensures r.Pass? ==>
              var round := old(s.rounds[s.currentRound]);
              && round.status == Pending && round.claimedBy != Some(username)
              && s.rounds == old(s.rounds)[s.currentRound := round.(declarations := Set(round.declarations, username, declarations))]
  {
    var round := s.rounds[s.currentRound];
    if round.status != Pending {
      return Fail(RoundAlreadyResolved);
    }
    if round.claimedBy == Some(username) {
      return Fail(ClaimantCannotDeclare);
    }
    DeclarationKeepsRoundsWellFormed(s.rounds, s.currentRound, username, declarations);
    s.rounds := s.rounds[s.currentRound := round.(declarations := Set(round.declarations, username, declarations))];
    return Pass;
  }

  /** Assigning a hand keeps every round's keys distinct. */
  lemma DeclarationKeepsRoundsWellFormed(rounds: seq<Round>, cr: nat, username: string, hand: Declaration)
    requires cr < |rounds| && WellFormedRounds(rounds)
    ensures WellFormedRounds(rounds[cr := rounds[cr].(declarations := Set(rounds[cr].declarations, username, hand))])
  {
    assert WellFormedRound(rounds[cr]);
    SetKeepsUnique(rounds[cr].declarations, username, hand);
  }

  /** A declaration replaces the declarant's hand and leaves every other player's as it was. */
  lemma DeclarationReplacesOnlyOwnHand(round: Round, username: string, hand: Declaration, other: string)
    requires other != username
    ensures Get(Set(round.declarations, username, hand), username) == Some(hand)
    ensures Get(Set(round.declarations, username, hand), other) == Get(round.declarations, other)
  {
  }

  // ---- approveRound ----

  /** `currentRound.declarations?.[u] || {}`. */
  function DeclarationOf(round: Round, u: string): Declaration {
    match Get(round.declarations, u)
    case Some(d) => d
    case None => []
  }

  /** Every seated player other than the claimant declared a hand the value table can score. */
  ghost predicate AllScorable(players: seq<SessionPlayer>, round: Round, claimant: string) {
    forall i :: 0 <= i < |players| && players[i].username != claimant ==>
      Scorable(DeclarationOf(round, players[i].username))
  }

  /** The unknown rank `calculatePoints` throws on first: players are scored in seat order,
      each hand in its enumeration order. */
  ghost function FirstScoringError(players: seq<SessionPlayer>, round: Round, claimant: string): (r: Option<string>)
    ensures r.None? <==> AllScorable(players, round, claimant)
  {
    if players == [] then None
    else
      var u := players[0].username;
      assert forall i :: 1 <= i < |players| ==> players[1..][i - 1] == players[i];
      if u != claimant && FirstInvalidCard(DeclarationOf(round, u)).Some? then FirstInvalidCard(DeclarationOf(round, u))
      else FirstScoringError(players[1..], round, claimant)
  }

  /** The claimant's entry: nothing when the claim is approved, a 50-point penalty (with
      their own declared hand) when it is rejected. */
  function ClaimantEntry(round: Round, claimant: string, approved: bool): PointEntry {
    if approved then PointEntry(0, [], 0)
    else PointEntry(50, DeclarationOf(round, claimant), 50)
  }

  /** Another player's entry: the value of the hand they declared, no penalty. */
  ghost function PlayerEntry(round: Round, u: string): PointEntry
    requires Scorable(DeclarationOf(round, u))
  {
    PointEntry(DeclaredTotal(DeclarationOf(round, u)), DeclarationOf(round, u), 0)
  }

  /** Adds the entries of `players` (except the claimant's) to `points`, in seat order. */
  ghost function PointsFrom(points: Obj<PointEntry>, players: seq<SessionPlayer>, round: Round, claimant: string): Obj<PointEntry>
    requires AllScorable(players, round, claimant)
    decreases |players|
  {
    if players == [] then points
    else
      var u := players[0].username;
      assert forall i :: 1 <= i < |players| ==> players[1..][i - 1] == players[i];
      PointsFrom(if u == claimant then points else Set(points, u, PlayerEntry(round, u)), players[1..], round, claimant)
  }

  /** The points object `approveRound` writes for the current round. */
  ghost function RoundPoints(players: seq<SessionPlayer>, round: Round, claimant: string, approved: bool): Obj<PointEntry>
    requires AllScorable(players, round, claimant)
  {
    PointsFrom([(claimant, ClaimantEntry(round, claimant, approved))], players, round, claimant)
  }

  /** A player is seated at a table exactly when they have its first seat or one of the rest. */
  lemma SeatedCons(players: seq<SessionPlayer>, u: string)
    requires players != []
    ensures Seated(players, u) <==> (players[0].username == u || Seated(players[1..], u))
  {
    if Seated(players, u) {
      var i :| 0 <= i < |players| && players[i].username == u;
      if i > 0 { assert players[1..][i - 1].username == u; }
    }
    if Seated(players[1..], u) {
      var i :| 0 <= i < |players[1..]| && players[1..][i].username == u;
      assert players[i + 1].username == u;
    }
  }

  lemma {:induction false} PointsFromContents(points: Obj<PointEntry>, players: seq<SessionPlayer>, round: Round,
                                              claimant: string, k: string)
    requires AllScorable(players, round, claimant)
    decreases |players|
    ensures k != claimant && Seated(players, k) ==>
              Scorable(DeclarationOf(round, k)) && Get(PointsFrom(points, players, round, claimant), k) == Some(PlayerEntry(round, k))
    ensures !(k != claimant && Seated(players, k)) ==> Get(PointsFrom(points, players, round, claimant), k) == Get(points, k)
    ensures UniqueKeys(points) ==> UniqueKeys(PointsFrom(points, players, round, claimant))
  {
    if players != [] {
      var u := players[0].username;
      var rest := players[1..];
      assert forall i :: 1 <= i < |players| ==> rest[i - 1] == players[i];
      assert AllScorable(rest, round, claimant);
      var next := if u == claimant then points else Set(points, u, PlayerEntry(round, u));
      assert PointsFrom(points, players, round, claimant) == PointsFrom(next, rest, round, claimant);
      PointsFromContents(next, rest, round, claimant, k);
      if UniqueKeys(points) && u != claimant {
        SetKeepsUnique(points, u, PlayerEntry(round, u));
      }
      SeatedCons(players, k);
    }
  }

  /** What `approveRound` scores: the claimant's entry (0 approved, a 50-point penalty
      rejected), and for every other seated player the value of their declared hand with
      the hand itself and no penalty; no one else gets an entry, and no key repeats. */
  lemma RoundPointsContents(players: seq<SessionPlayer>, round: Round, claimant: string, approved: bool)
    requires AllScorable(players, round, claimant)
    ensures Get(RoundPoints(players, round, claimant, approved), claimant) == Some(ClaimantEntry(round, claimant, approved))
    ensures forall i :: 0 <= i < |players| && players[i].username != claimant ==>
              Get(RoundPoints(players, round, claimant, approved), players[i].username)
              == Some(PointEntry(DeclaredTotal(DeclarationOf(round, players[i].username)),
                                 DeclarationOf(round, players[i].username), 0))
    ensures forall k :: HasKey(RoundPoints(players, round, claimant, approved), k) <==> k == claimant || Seated(players, k)
    ensures UniqueKeys(RoundPoints(players, round, claimant, approved))
  {
    var start := [(claimant, ClaimantEntry(round, claimant, approved))];
    PointsFromContents(start, players, round, claimant, claimant);
    forall i | 0 <= i < |players| && players[i].username != claimant
      ensures Get(RoundPoints(players, round, claimant, approved), players[i].username)
              == Some(PointEntry(DeclaredTotal(DeclarationOf(round, players[i].username)),
                                 DeclarationOf(round, players[i].username), 0))
    {
      PointsFromContents(start, players, round, claimant, players[i].username);
    }
    forall k ensures HasKey(RoundPoints(players, round, claimant, approved), k) <==> k == claimant || Seated(players, k) {
      PointsFromContents(start, players, round, claimant, k);
    }
  }

  /** The two scoring loops of `approveRound` (they are the same in both branches): the
      claimant's entry first, then every other seated player's declared hand, scored with
      `calculatePoints`; the first unknown rank aborts the approval. */
  method ScoreRound(players: seq<SessionPlayer>, round: Round, claimant: string, approved: bool)
    returns (r: Result<Obj<PointEntry>, SessionError>)
    ensures r.Ok? <==> AllScorable(players, round, claimant)
    ensures r.Ok? ==> r.value == RoundPoints(players, round, claimant, approved)
    ensures r.Err? ==> r.error.InvalidCard? && FirstScoringError(players, round, claimant) == Some(r.error.card)
  {
    var points: Obj<PointEntry> := [(claimant, ClaimantEntry(round, claimant, approved))];
    for i := 0 to |players|
      invariant forall j :: 0 <= j < i && players[j].username != claimant ==>
                  Scorable(DeclarationOf(round, players[j].username))
      invariant FirstScoringError(players, round, claimant) == FirstScoringError(players[i..], round, claimant)
      invariant AllScorable(players[i..], round, claimant) ==>
                  AllScorable(players, round, claimant)
                  && PointsFrom(points, players[i..], round, claimant) == RoundPoints(players, round, claimant, approved)
    {
      var u := players[i].username;
      assert players[i..][1..] == players[i + 1..];
      assert players[i..][0] == players[i];
      if u != claimant {
        var declarations := DeclarationOf(round, u);
        var total := CalculatePoints(declarations);
        if total.Err? {
          return Err(SessionError.InvalidCard(total.error.card));
        }
        points := Set(points, u, PointEntry(total.value, declarations, 0));
      }
      assert AllScorable(players[i + 1..], round, claimant) ==> AllScorable(players[i..], round, claimant) by {
        if AllScorable(players[i + 1..], round, claimant) {
          forall j | 0 <= j < |players[i..]| && players[i..][j].username != claimant
            ensures Scorable(DeclarationOf(round, players[i..][j].username))
          {
            if j > 0 { assert players[i..][j] == players[i + 1..][j - 1]; }
          }
        }
      }
    }
    assert players[|players|..] == [];
    return Ok(points);
  }

  /** The round as `approveRound` leaves it: completed with the claimant as winner, or
      penalized with the winner untouched, and the points written. */
  function Resolved(round: Round, claimant: string, approved: bool, points: Obj<PointEntry>): Round {
    round.(status := if approved then Completed else Penalized,
           winner := if approved then Some(claimant) else round.winner,
           points := Some(points))
  }

  /** Writing a scored round back keeps every round's keys distinct. */
  lemma ResolvedKeepsRoundsWellFormed(rounds: seq<Round>, cr: nat, players: seq<SessionPlayer>, claimant: string, approved: bool)
    requires cr < |rounds| && WellFormedRounds(rounds)
    requires AllScorable(players, rounds[cr], claimant)
    ensures WellFormedRounds(rounds[cr := Resolved(rounds[cr], claimant, approved, RoundPoints(players, rounds[cr], claimant, approved))])
  {
    RoundPointsContents(players, rounds[cr], claimant, approved);
    assert WellFormedRound(rounds[cr]);
  }

  /** `approveRound`: refuses a round nobody claimed and an approval by the claimant, scores
      the round (failing on the first unknown rank), writes the round's new status, winner
      and points, and then either moves on to the next round, which the dealer starts, or,
      after the seventh round, ends the game. The round's status is not consulted. */
  method ApproveRound(s: GameSession, approver: string, approved: bool, now: string) returns (r: Outcome<SessionError>)
    requires s.Valid()
    modifies s`rounds, s`currentRound, s`currentTurn, s`results
    ensures s.Valid()
    ensures var claim := old(s.rounds[s.currentRound].claimedBy);
            claim.None? || claim == Some("") ==> r == Fail(NoClaim)
    ensures var claim := old(s.rounds[s.currentRound].claimedBy);
            claim.Some? && claim.value != "" && approver == claim.value ==> r == Fail(ClaimantCannotApprove)
    ensures r.Fail? && r.error.InvalidCard? ==>
              FirstScoringError(s.players, old(s.rounds[s.currentRound]), old(s.rounds[s.currentRound]).claimedBy.value)
              == Some(r.error.card)
    ensures r.Fail? ==> s.rounds == old(s.rounds) && s.currentRound == old(s.currentRound)
                        && s.currentTurn == old(s.currentTurn) && s.results == old(s.results)
    ensures r.Pass? ==>
              var cr := old(s.currentRound);
              var round := old(s.rounds[s.currentRound]);
              var claimant := round.claimedBy.value;
              && round.claimedBy.Some? && claimant != "" && approver != claimant
              && AllScorable(s.players, round, claimant)
              && s.rounds == old(s.rounds)[cr := Resolved(round, claimant, approved, RoundPoints(s.players, round, claimant, approved))]
              && (cr < LastRound ==> s.currentRound == cr + 1 && s.currentTurn == s.dealer && s.results == old(s.results))
              && (cr >= LastRound ==> s.currentRound == cr && s.currentTurn == old(s.currentTurn)
                                      && IsFinalResults(s.results, s.players, s.rounds, now))
    ensures r.Fail? ==> r.error in {NoClaim, ClaimantCannotApprove} || r.error.InvalidCard?
    ensures r.Pass? <==> var c := old(s.rounds[s.currentRound].claimedBy);
                         c.Some? && c.value != "" && approver != c.value
                         && AllScorable(s.players, old(s.rounds[s.currentRound]), c.value)
  {
    var cr := s.currentRound;
    var round := s.rounds[cr];
    if round.claimedBy.None? || round.claimedBy.value == "" {
      return Fail(NoClaim);
    }
    var claimant := round.claimedBy.value;
    if approver == claimant {
      return Fail(ClaimantCannotApprove);
    }
    var scored := ScoreRound(s.players, round, claimant, approved);
    if scored.Err? {
      return Fail(scored.error);
    }
    var points := scored.value;
    ResolvedKeepsRoundsWellFormed(s.rounds, cr, s.players, claimant, approved);
    s.rounds := s.rounds[cr := Resolved(round, claimant, approved, points)];
    AdvanceRound(s, now);
    return Pass;
  }

  /** What follows a resolved round: the next round, which the dealer starts, or, after the
      seventh round, the end of the game. */
  method AdvanceRound(s: GameSession, now: string)
    requires s.Valid()
    modifies s`currentRound, s`currentTurn, s`results
    ensures s.Valid()
    ensures old(s.currentRound) < LastRound ==>
              s.currentRound == old(s.currentRound) + 1 && s.currentTurn == s.dealer && s.results == old(s.results)
    ensures old(s.currentRound) >= LastRound ==>
              && s.currentRound == old(s.currentRound) && s.currentTurn == old(s.currentTurn)
              && IsFinalResults(s.results, s.players, s.rounds, now)
  {
    if s.currentRound < LastRound {
      s.currentRound := s.currentRound + 1;
      s.currentTurn := s.dealer;
    } else {
      var _ := WriteFinalResults(s, now);
    }
  }

  // ---- endTurn and recordAction ----

  /** `endTurn`: hands the turn to `nextPlayer` and stamps the session. */
  method EndTurn(s: GameSession, nextPlayer: string, now: string)
    modifies s`currentTurn, s`updatedAt
    ensures s.currentTurn == nextPlayer && s.updatedAt == now
  {
    s.currentTurn := nextPlayer;
    s.updatedAt := now;
  }

  /** `recordAction`: appends the action, stamped with the time, to the log. */
  method RecordAction(s: GameSession, username: string, action: string, now: string)
    modifies s`actions
    ensures s.actions == old(s.actions) + [Action(username, action, now)]
  {
    s.actions := s.actions + [Action(username, action, now)];
  }

  // ---- endGameSession ----

  /** `totalPoints[user] += x`: adding to a key never initialised yields NaN, and NaN stays. */
  function AddTotal(current: Option<Num>, x: int): Num {
    match current
    case Some(Finite(a)) => Finite(a + x)
    case _ => NaN
  }

  /** `round.points || {}`. */
  function PointsOf(round: Round): Obj<PointEntry> {
    if round.points.Some? then round.points.value else []
  }

  /** Sets every seated player's total to 0, in seat order. */
  function InitTotals(totals: Obj<Num>, players: seq<SessionPlayer>): Obj<Num>
    decreases |players|
  {
    if players == [] then totals
    else InitTotals(Set(totals, players[0].username, Finite(0)), players[1..])
  }

  /** Adds one round's entries to the totals, in the entries' order. */
  function AddPoints(totals: Obj<Num>, entries: Obj<PointEntry>): Obj<Num>
    decreases |entries|
  {
    if entries == [] then totals
    else
      var (user, pointData) := entries[0];
      AddPoints(Set(totals, user, AddTotal(Get(totals, user), pointData.total)), entries[1..])
  }

  /** Adds every round's entries to the totals, in round order. */
  function AddRounds(totals: Obj<Num>, rounds: seq<Round>): Obj<Num>
    decreases |rounds|
  {
    if rounds == [] then totals
    else AddRounds(AddPoints(totals, PointsOf(rounds[0])), rounds[1..])
  }

  /** The `totalPoints` object `endGameSession` builds. */
  function Totals(players: seq<SessionPlayer>, rounds: seq<Round>): Obj<Num> {
    AddRounds(InitTotals([], players), rounds)
  }

  /** The points a round's entry gives `u` (nothing when the round has no entry for `u`). */
  function PointsFor(round: Round, u: string): int {
    match Get(PointsOf(round), u)
    case Some(e) => e.total
    case None => 0
  }

  /** The sum over the rounds of the points recorded for `u`. */
  function PlayerTotal(rounds: seq<Round>, u: string): int {
    if rounds == [] then 0 else PointsFor(rounds[0], u) + PlayerTotal(rounds[1..], u)
  }

  function Details(rounds: seq<Round>): seq<RoundDetail> {
    seq(|rounds|, i requires 0 <= i < |rounds| => RoundDetail(rounds[i].name, rounds[i].points, rounds[i].winner))
  }

  /** The results `endGameSession` writes: the totals, the winner `determineWinner` picks
      from them, the end time and each round's name, points and winner. */
  ghost predicate IsFinalResults(results: GameResults, players: seq<SessionPlayer>, rounds: seq<Round>, now: string) {
    && results.Results?
    && results.points == Totals(players, rounds)
    && IsWinner(results.points, results.winner)
    && results.endedAt == now
    && results.roundDetails == Details(rounds)
  }

  /** The summing loops of `endGameSession`: every seated player starts at 0, then each
      round's entries are added in order. */
  method SumTotals(players: seq<SessionPlayer>, rounds: seq<Round>) returns (totals: Obj<Num>)
    ensures totals == Totals(players, rounds)
  {
    totals := [];
    for i := 0 to |players|
      invariant InitTotals(totals, players[i..]) == InitTotals([], players)
    {
      assert players[i..][1..] == players[i + 1..];
      totals := Set(totals, players[i].username, Finite(0));
    }
    assert players[|players|..] == [];
    for i := 0 to |rounds|
      invariant AddRounds(totals, rounds[i..]) == Totals(players, rounds)
    {
      assert rounds[i..][1..] == rounds[i + 1..];
      totals := AddRoundPoints(totals, PointsOf(rounds[i]));
    }
    assert rounds[|rounds|..] == [];
  }

  /** The inner loop of `endGameSession`: `totalPoints[user] += pointData.total || 0` for
      each entry of one round. */
  method AddRoundPoints(totals: Obj<Num>, entries: Obj<PointEntry>) returns (result: Obj<Num>)
    ensures result == AddPoints(totals, entries)
  {
    result := totals;
    for j := 0 to |entries|
      invariant AddPoints(result, entries[j..]) == AddPoints(totals, entries)
    {
      assert entries[j..][1..] == entries[j + 1..];
      var (user, pointData) := entries[j];
      result := Set(result, user, AddTotal(Get(result, user), pointData.total));
    }
    assert entries[|entries|..] == [];
  }

  /** The body of `endGameSession` once the session is loaded: sums every round's points per
      player, picks the winner and stores the results. */
  method WriteFinalResults(s: GameSession, now: string) returns (results: GameResults)
    modifies s`results
    ensures s.results == results
    ensures IsFinalResults(results, s.players, s.rounds, now)
  {
    var totals := SumTotals(s.players, s.rounds);
    var winner := DetermineWinner(totals);
    results := Results(totals, winner, now, Details(s.rounds));
    s.results := results;
  }

  /** `endGameSession`: fails when no session has the id (`s` is null); otherwise writes the
      final results and changes nothing else. The session's status is left as it was. */
  method EndGameSession(s: GameSession?, now: string) returns (r: Result<GameResults, SessionError>)
    modifies s
    ensures s == null <==> r == Err(SessionNotFound)
    ensures r.Ok? ==> s.results == r.value && IsFinalResults(r.value, s.players, s.rounds, now)
    ensures s != null ==> && s.ToJson() == old(s.ToJson()).(results := s.results)
                          && s.tokensUsed == old(s.tokensUsed) && s.rounds == old(s.rounds)
                          && s.currentRound == old(s.currentRound)
  {
    if s == null {
      return Err(SessionNotFound);
    }
    var results := WriteFinalResults(s, now);
    return Ok(results);
  }

  // ---- what the totals mean ----

  /** The total is a number (not undefined, not NaN). */
  ghost predicate IsNumber(v: Option<Num>) {
    v.Some? && v.value.Finite?
  }

  lemma {:induction false} InitTotalsContents(totals: Obj<Num>, players: seq<SessionPlayer>, u: string)
    decreases |players|
    ensures Seated(players, u) ==> Get(InitTotals(totals, players), u) == Some(Finite(0))
    ensures !Seated(players, u) ==> Get(InitTotals(totals, players), u) == Get(totals, u)
    ensures UniqueKeys(totals) ==> UniqueKeys(InitTotals(totals, players))
  {
    if players != [] {
      var rest := players[1..];
      var next := Set(totals, players[0].username, Finite(0));
      InitTotalsContents(next, rest, u);
      if UniqueKeys(totals) { SetKeepsUnique(totals, players[0].username, Finite(0)); }
      SeatedCons(players, u);
    }
  }

  lemma UniqueTail<V>(o: Obj<V>)
    requires UniqueKeys(o) && o != []
    ensures UniqueKeys(o[1..])
    ensures !HasKey(o[1..], o[0].0)
  {
    assert forall i :: 1 <= i < |o| ==> o[1..][i - 1] == o[i];
  }

  lemma {:induction false} AddPointsContents(totals: Obj<Num>, entries: Obj<PointEntry>, u: string)
    requires UniqueKeys(entries)
    decreases |entries|
    ensures Get(entries, u).None? ==> Get(AddPoints(totals, entries), u) == Get(totals, u)
    ensures Get(entries, u).Some? ==>
              Get(AddPoints(totals, entries), u) == Some(AddTotal(Get(totals, u), Get(entries, u).value.total))
    ensures UniqueKeys(totals) ==> UniqueKeys(AddPoints(totals, entries))
  {
    if entries != [] {
      var (user, pointData) := entries[0];
      var next := Set(totals, user, AddTotal(Get(totals, user), pointData.total));
      UniqueTail(entries);
      AddPointsContents(next, entries[1..], u);
      if UniqueKeys(totals) { SetKeepsUnique(totals, user, AddTotal(Get(totals, user), pointData.total)); }
      if user == u {
        assert Get(entries[1..], u).None?;
      }
    }
  }

  lemma WellFormedTail(rounds: seq<Round>)
    requires WellFormedRounds(rounds) && rounds != []
    ensures WellFormedRound(rounds[0]) && WellFormedRounds(rounds[1..])
  {
    assert forall i :: 1 <= i < |rounds| ==> rounds[1..][i - 1] == rounds[i];
  }

  lemma {:induction false} AddRoundsContents(totals: Obj<Num>, rounds: seq<Round>, u: string)
    requires WellFormedRounds(rounds)
    decreases |rounds|
    ensures forall a :: Get(totals, u) == Some(Finite(a)) ==>
              Get(AddRounds(totals, rounds), u) == Some(Finite(a + PlayerTotal(rounds, u)))
    ensures !IsNumber(Get(totals, u)) ==> !IsNumber(Get(AddRounds(totals, rounds), u))
    ensures UniqueKeys(totals) ==> UniqueKeys(AddRounds(totals, rounds))
  {
    if rounds != [] {
      var entries := PointsOf(rounds[0]);
      var next := AddPoints(totals, entries);
      AddPointsContents(totals, entries, u);
      WellFormedTail(rounds);
      AddRoundsContents(next, rounds[1..], u);
    }
  }

  /** What `endGameSession` totals up: every seated player gets the sum of their points over
      the rounds, and a key that is not a seated player (an entry for someone not at the
      table) is never a number; no key repeats. */
  lemma TotalsContents(players: seq<SessionPlayer>, rounds: seq<Round>, u: string)
    requires WellFormedRounds(rounds)
    ensures Seated(players, u) ==> Get(Totals(players, rounds), u) == Some(Finite(PlayerTotal(rounds, u)))
    ensures !Seated(players, u) ==> !IsNumber(Get(Totals(players, rounds), u))
    ensures UniqueKeys(Totals(players, rounds))
  {
    InitTotalsContents([], players, u);
    AddRoundsContents(InitTotals([], players), rounds, u);
  }

  /** Every seated player has an entry holding their summed points. */
  lemma SeatedEntry(players: seq<SessionPlayer>, rounds: seq<Round>, p: nat) returns (k: nat)
    requires WellFormedRounds(rounds) && p < |players|
    ensures k < |Totals(players, rounds)|
    ensures Totals(players, rounds)[k] == (players[p].username, Finite(PlayerTotal(rounds, players[p].username)))
  {
    TotalsContents(players, rounds, players[p].username);
    assert Seated(players, players[p].username);
    GetFound(Totals(players, rounds), players[p].username);
    k :| 0 <= k < |Totals(players, rounds)|
         && Totals(players, rounds)[k] == (players[p].username, Finite(PlayerTotal(rounds, players[p].username)));
  }

  /** An entry holding a number belongs to a seated player and holds their summed points. */
  lemma NumericEntry(players: seq<SessionPlayer>, rounds: seq<Round>, k: nat)
    requires WellFormedRounds(rounds) && k < |Totals(players, rounds)| && Totals(players, rounds)[k].1.Finite?
    ensures Seated(players, Totals(players, rounds)[k].0)
    ensures Totals(players, rounds)[k].1.n == PlayerTotal(rounds, Totals(players, rounds)[k].0)
  {
    var t := Totals(players, rounds);
    TotalsContents(players, rounds, t[k].0);
    GetAt(t, k);
  }

  /** The winner of the game is a seated player whose summed points are the fewest; there is
      a winner exactly when someone is seated. */
  lemma WinnerIsSeatedMinimum(players: seq<SessionPlayer>, rounds: seq<Round>, w: Option<string>)
    requires WellFormedRounds(rounds)
    requires IsWinner(Totals(players, rounds), w)
    ensures w.Some? <==> players != []
    ensures w.Some? ==> Seated(players, w.value)
    ensures w.Some? ==> forall i :: 0 <= i < |players| ==>
              PlayerTotal(rounds, w.value) <= PlayerTotal(rounds, players[i].username)
  {
    var t := Totals(players, rounds);
    if players != [] {
      var k := SeatedEntry(players, rounds, 0);
      assert !t[k].1.NaN?;
    } else {
      forall j | 0 <= j < |t| ensures t[j].1.NaN? {
        if t[j].1.Finite? {
          NumericEntry(players, rounds, j);
        }
      }
    }
    if w.Some? {
      var i :| IsFirstMinimum(t, i) && t[i].0 == w.value;
      NumericEntry(players, rounds, i);
      forall p | 0 <= p < |players| ensures PlayerTotal(rounds, w.value) <= PlayerTotal(rounds, players[p].username) {
        var k := SeatedEntry(players, rounds, p);
      }
    }
  }
}
