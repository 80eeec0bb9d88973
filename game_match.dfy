/** schemas/GameMatch.js: the score ledger of a match, with its constructor checks and
    defaults, `initializePlayers` and `toJSON`. */
module GameMatchSchema {
  import opened Common

  /** One round as `recordRoundScore` logs it: the match round it was recorded in, the
      round data the client sent and the time. */
  datatype RoundEntry = RoundEntry(roundNumber: int, points: Option<int>, fichasUsadas: Option<int>, telefunken: bool, timestamp: string)

  /** A ledger's running total: a number, or NaN once a round without points was added to
      it (`totalScore += undefined`). */
  datatype Score = Number(n: int) | NaN

  /** A player's ledger. `playerId` and `playerName` are copied from a roster entry's `id`
      and `name`, which may be missing. */
  datatype MatchPlayer = MatchPlayer(
    playerId: Option<string>,
    playerName: Option<string>,
    rounds: seq<RoundEntry>,
    totalScore: Score,
    fichasGastadas: int,
    telefunkens: int,
    status: string)

  /** An entry of the `players` array as the constructor receives it: a ledger (from a stored
      match) or a roster entry of the game (with an `id` and a `name`, either may be missing). */
  datatype MatchSlot =
    | Ledger(player: MatchPlayer)
    | Entrant(id: Option<string>, name: Option<string>)

  datatype MatchError = MissingGameOrPlayers   // 'Datos insuficientes: se requiere gameId y array de jugadores.'

  /** The constructor's argument. Destructuring defaults apply only to absent fields (None). */
  datatype MatchData = MatchData(
    gameId: Option<string>,
    players: ListInput<MatchSlot>,
    matchId: Option<string>,
    status: Option<string>,
    currentRound: Option<int>,
    startedAt: Option<string>,
    updatedAt: Option<string>)

  /** The object `toJSON` returns. */
  datatype MatchRecord = MatchRecord(
    matchId: string,
    gameId: string,
    status: string,
    currentRound: int,
    players: seq<MatchSlot>,
    startedAt: string,
    updatedAt: string)

  /** The ledger `initializePlayers` opens for a slot: zero totals, no rounds, active. A
      ledger passed here has no `id` or `name` field, so its copy carries neither. */
  function FreshLedger(slot: MatchSlot): MatchPlayer {
    match slot
    case Entrant(id, name) => MatchPlayer(id, name, [], Number(0), 0, 0, "active")
    case Ledger(_) => MatchPlayer(None, None, [], Number(0), 0, 0, "active")
  }

  /** `initializePlayers`: one fresh ledger per entry, in order. */
  function InitializePlayers(players: seq<MatchSlot>): (r: seq<MatchSlot>)
    ensures |r| == |players|
    ensures forall i :: 0 <= i < |r| ==> r[i].Ledger?
    ensures forall i :: 0 <= i < |r| && players[i].Entrant? ==>
              r[i].player == MatchPlayer(players[i].id, players[i].name, [], Number(0), 0, 0, "active")
    ensures forall i :: 0 <= i < |r| ==>
              var p := r[i].player;
              p.rounds == [] && p.totalScore == Number(0) && p.fichasGastadas == 0 && p.telefunkens == 0 && p.status == "active"
  {
    seq(|players|, i requires 0 <= i < |players| => Ledger(FreshLedger(players[i])))
  }

  /** `players[0]?.playerId` is truthy: the list already holds ledgers. */
  predicate StartsWithLedger(players: seq<MatchSlot>) {
    && players != []
    && players[0].Ledger?
    && StrOr(players[0].player.playerId, "") != ""
  }

  /** The GameMatch constructor: rejects a missing game id or a roster that is not an array;
      keeps the roster if it already holds ledgers and opens fresh ledgers otherwise; the
      status defaults to `in_progress` and the round to 1 (only when absent), the id to a
      fresh uuid and the time stamps to now. */
  function NewMatch(data: MatchData, uuid: string, now: string): (r: Result<MatchRecord, MatchError>)
    ensures r.Err? <==> StrOr(data.gameId, "") == "" || !data.players.List?
    ensures r.Ok? ==>
              var m := r.value;
              && m.gameId == data.gameId.value
              && m.matchId == StrOr(data.matchId, uuid)
              && m.status == (if data.status.Some? then data.status.value else "in_progress")
              && m.currentRound == (if data.currentRound.Some? then data.currentRound.value else 1)
              && (StartsWithLedger(data.players.items) ==> m.players == data.players.items)
              && (!StartsWithLedger(data.players.items) ==> m.players == InitializePlayers(data.players.items))
              && m.startedAt == StrOr(data.startedAt, now)
              && m.updatedAt == StrOr(data.updatedAt, now)
  {
    if StrOr(data.gameId, "") == "" || !data.players.List? then Err(MissingGameOrPlayers)
    else
      var items := data.players.items;
      Ok(MatchRecord(
        StrOr(data.matchId, uuid),
        data.gameId.value,
        Pick(data.status, "in_progress"),
        Pick(data.currentRound, 1),
        if StartsWithLedger(items) then items else InitializePlayers(items),
        StrOr(data.startedAt, now),
        StrOr(data.updatedAt, now)))
  }

  /** Rebuilding a stored match (as `findById` does) gives back the same record whenever it
      already holds ledgers. */
  lemma RebuildKeepsMatch(m: MatchRecord, uuid: string, now: string)
    requires m.gameId != "" && m.matchId != "" && m.startedAt != "" && m.updatedAt != ""
    requires StartsWithLedger(m.players)
    ensures NewMatch(MatchData(Some(m.gameId), List(m.players), Some(m.matchId), Some(m.status),
                               Some(m.currentRound), Some(m.startedAt), Some(m.updatedAt)), uuid, now) == Ok(m)
  {
  }

  /** A fresh match over a game's roster opens one ledger per entrant, in order. */
  lemma NewMatchOpensLedgers(gameId: string, roster: seq<MatchSlot>, uuid: string, now: string)
    requires gameId != ""
    requires forall i :: 0 <= i < |roster| ==> roster[i].Entrant?
    ensures var r := NewMatch(MatchData(Some(gameId), List(roster), None, None, None, None, None), uuid, now);
            && r.Ok? && r.value.status == "in_progress" && r.value.currentRound == 1
            && |r.value.players| == |roster|
            && forall i :: 0 <= i < |roster| ==>
                 r.value.players[i] == Ledger(MatchPlayer(roster[i].id, roster[i].name, [], Number(0), 0, 0, "active"))
  {
  }

  class GameMatch {
    var matchId: string
    var gameId: string
    var status: string
    var currentRound: int
    var players: seq<MatchSlot>
    var startedAt: string
    var updatedAt: string

    /** `toJSON`. */
    function ToJson(): MatchRecord
      reads this
    {
      MatchRecord(matchId, gameId, status, currentRound, players, startedAt, updatedAt)
    }

    /** A match holding a record (see NewMatch). */
    constructor (rec: MatchRecord)
      ensures ToJson() == rec
    {
      matchId, gameId, status, currentRound := rec.matchId, rec.gameId, rec.status, rec.currentRound;
      players, startedAt, updatedAt := rec.players, rec.startedAt, rec.updatedAt;
    }
  }
}
