/** schemas/GameSession.js: the game-session record, its constructor defaults,
    `validatePlayers`, `toJSON` and the merge performed by `update`. The session class also
    holds the three fields services/gameSessionService.js reads from the stored document
    (`tokensUsed`, `rounds`, `currentRound`), which the schema itself does not copy. */
module GameSessionSchema {
  import opened Common
  import opened Objects
  import opened SessionScoring

  /** A seated player as `validatePlayers` formats it. */
  datatype SessionPlayer = SessionPlayer(username: string, status: string, joinedAt: string)

  /** The stored round status. The code writes only `pending` (initially), `completed` and
      `penalized`; `claimed` is the design's name for a claimed round, never written. */
  datatype RoundStatus = Pending | Claimed | Completed | Penalized

  /** One player's score for a round, as `approveRound` records it. */
  datatype PointEntry = PointEntry(total: int, declarations: Declaration, penalty: int)

  /** One of the seven rounds: who claimed it, the hands declared by username, the points
      written when the claim was resolved (absent before) and the winner. */
  datatype Round = Round(
    name: string,
    status: RoundStatus,
    claimedBy: Option<string>,
    declarations: Obj<Declaration>,
    points: Option<Obj<PointEntry>>,
    winner: Option<string>)

  /** An entry of the action log. */
  datatype Action = Action(username: string, action: string, timestamp: string)

  datatype RoundDetail = RoundDetail(name: string, points: Option<Obj<PointEntry>>, winner: Option<string>)

  /** `results`: `{}` until `endGameSession` writes the final totals. */
  datatype GameResults =
    | NoResults
    | Results(points: Obj<Num>, winner: Option<string>, endedAt: string, roundDetails: seq<RoundDetail>)

  /** What the constructor reads from its argument; absent optional fields are None. */
  datatype SessionData = SessionData(
    gameId: string,
    dealer: string,
    currentTurn: string,
    players: ListInput<RawPlayer>,
    status: Option<string>,
    actions: Option<seq<Action>>,
    jokerUses: Option<seq<string>>,
    results: Option<GameResults>,
    createdAt: Option<string>)

  /** The object `toJSON` returns. */
  datatype SessionRecord = SessionRecord(
    gameId: string,
    dealer: string,
    currentTurn: string,
    players: seq<SessionPlayer>,
    status: string,
    actions: seq<Action>,
    jokerUses: seq<string>,
    results: GameResults,
    createdAt: string,
    updatedAt: string)

  /** The argument of `update`: the fields it overrides. */
  datatype SessionPatch = SessionPatch(
    gameId: Option<string>,
    dealer: Option<string>,
    currentTurn: Option<string>,
    players: Option<seq<SessionPlayer>>,
    status: Option<string>,
    actions: Option<seq<Action>>,
    jokerUses: Option<seq<string>>,
    results: Option<GameResults>,
    createdAt: Option<string>)

  datatype SchemaError = PlayersNotArray

  /** `validatePlayers`: rejects anything but an array, otherwise keeps each entry's
      username and defaults a missing status to `active` and a missing join time to now. */
  function ValidatePlayers(players: ListInput<RawPlayer>, now: string): (r: Result<seq<SessionPlayer>, SchemaError>)
    ensures r.Err? <==> !players.List?
    ensures r.Ok? ==> |r.value| == |players.items|
    ensures r.Ok? ==> forall i :: 0 <= i < |r.value| ==>
                        && r.value[i].username == players.items[i].username
                        && r.value[i].status == StrOr(players.items[i].status, "active")
                        && r.value[i].joinedAt == StrOr(players.items[i].joinedAt, now)
  {
    if !players.List? then Err(PlayersNotArray)
    else
      var items := players.items;
      Ok(seq(|items|, i requires 0 <= i < |items| =>
        SessionPlayer(items[i].username, StrOr(items[i].status, "active"), StrOr(items[i].joinedAt, now))))
  }

  /** A formatted player read back as a roster entry. */
  function AsRaw(p: SessionPlayer): RawPlayer {
    RawPlayer(p.username, Some(p.status), Some(p.joinedAt))
  }

  /** Formatting an already formatted list again (with the same clock) changes nothing. */
  lemma ValidatePlayersIdempotent(players: seq<RawPlayer>, now: string)
    ensures ValidatePlayers(List(players), now).Ok?
    ensures var once := ValidatePlayers(List(players), now).value;
            ValidatePlayers(List(seq(|once|, i requires 0 <= i < |once| => AsRaw(once[i]))), now) == Ok(once)
  {
    var once := ValidatePlayers(List(players), now).value;
    var again := ValidatePlayers(List(seq(|once|, i requires 0 <= i < |once| => AsRaw(once[i]))), now).value;
    assert |again| == |once|;
    forall i | 0 <= i < |once| ensures again[i] == once[i] {
    }
    assert again == once;
  }

  /** The GameSession constructor: copies the identifying fields and fills in the defaults;
      it throws only when `players` is present but not an array. */
  function NewSession(data: SessionData, now: string): (r: Result<SessionRecord, SchemaError>)
    ensures r.Err? <==> data.players.NotAList?
    ensures r.Ok? ==> && r.value.gameId == data.gameId
                      && r.value.dealer == data.dealer
                      && r.value.currentTurn == data.currentTurn
    ensures r.Ok? && data.players.Missing? ==> r.value.players == []
    ensures r.Ok? && data.players.List? ==> Ok(r.value.players) == ValidatePlayers(data.players, now)
    ensures r.Ok? ==> (data.status.None? || data.status.value == "" ==> r.value.status == "in_progress")
    ensures r.Ok? ==> (data.status.Some? && data.status.value != "" ==> r.value.status == data.status.value)
    ensures r.Ok? ==> r.value.actions == (if data.actions.Some? then data.actions.value else [])
    ensures r.Ok? ==> r.value.jokerUses == (if data.jokerUses.Some? then data.jokerUses.value else [])
    ensures r.Ok? ==> r.value.results == (if data.results.Some? then data.results.value else NoResults)
    ensures r.Ok? ==> r.value.createdAt == StrOr(data.createdAt, now)
    ensures r.Ok? && (data.createdAt.None? || data.createdAt.value == "") ==> r.value.createdAt == now
    ensures r.Ok? ==> r.value.updatedAt == now
  {
    match ValidatePlayers(OrEmpty(data.players), now)
    case Err(e) => Err(e)
    case Ok(players) =>
      Ok(SessionRecord(
        data.gameId,
        data.dealer,
        data.currentTurn,
        players,
        StrOr(data.status, "in_progress"),
        if data.actions.Some? then data.actions.value else [],
        if data.jokerUses.Some? then data.jokerUses.value else [],
        if data.results.Some? then data.results.value else NoResults,
        StrOr(data.createdAt, now),
        now))
  }

  /** `{ ...record, ...patch }`: every field the patch carries replaces the record's. */
  function Overridden(rec: SessionRecord, patch: SessionPatch): SessionRecord {
    SessionRecord(
      Pick(patch.gameId, rec.gameId),
      Pick(patch.dealer, rec.dealer),
      Pick(patch.currentTurn, rec.currentTurn),
      Pick(patch.players, rec.players),
      Pick(patch.status, rec.status),
      Pick(patch.actions, rec.actions),
      Pick(patch.jokerUses, rec.jokerUses),
      Pick(patch.results, rec.results),
      Pick(patch.createdAt, rec.createdAt),
      rec.updatedAt)
  }

  /** The number of rounds of a game (Trío to Escalera). */
  const RoundCount := 7

  /** The stored objects of a round never repeat a key. */
  ghost predicate WellFormedRound(r: Round) {
    && UniqueKeys(r.declarations)
    && (r.points.Some? ==> UniqueKeys(r.points.value))
  }

  ghost predicate WellFormedRounds(rounds: seq<Round>) {
    forall i :: 0 <= i < |rounds| ==> WellFormedRound(rounds[i])
  }

  /** Everything the session holds: the schema's record and the service's own fields. */
  datatype SessionState = SessionState(
    record: SessionRecord,
    tokensUsed: map<string, int>,
    rounds: seq<Round>,
    currentRound: int)

  class GameSession {
    var gameId: string
    var dealer: string
    var currentTurn: string
    var players: seq<SessionPlayer>
    var status: string
    var actions: seq<Action>
    var jokerUses: seq<string>
    var results: GameResults
    var createdAt: string
    var updatedAt: string
    // Read and written by the service; the schema does not carry them.
    var tokensUsed: map<string, int>
    var rounds: seq<Round>
    var currentRound: int

    /** The seven rounds are in place and the current round is one of them. */
    ghost predicate Valid()
      reads this
    {
      && |rounds| == RoundCount
      && 0 <= currentRound < |rounds|
      && WellFormedRounds(rounds)
    }

    /** `toJSON`. */
    function ToJson(): SessionRecord
      reads this
    {
      SessionRecord(gameId, dealer, currentTurn, players, status, actions, jokerUses, results, createdAt, updatedAt)
    }

    ghost function State(): SessionState
      reads this
    {
      SessionState(ToJson(), tokensUsed, rounds, currentRound)
    }

    /** A session holding a normalised record (see NewSession) and the service's fields. */
    constructor (record: SessionRecord, tokensUsed: map<string, int>, rounds: seq<Round>, currentRound: int)
      ensures State() == SessionState(record, tokensUsed, rounds, currentRound)
    {
      gameId, dealer, currentTurn, players := record.gameId, record.dealer, record.currentTurn, record.players;
      status, actions, jokerUses, results := record.status, record.actions, record.jokerUses, record.results;
      createdAt, updatedAt := record.createdAt, record.updatedAt;
      this.tokensUsed, this.rounds, this.currentRound := tokensUsed, rounds, currentRound;
    }

    /** `update`: merges `patch` over `toJSON()`, sets `updatedAt` to now and assigns the
        result back onto the session. */
    method Update(patch: SessionPatch, now: string)
      modifies this`gameId, this`dealer, this`currentTurn, this`players, this`status
      modifies this`actions, this`jokerUses, this`results, this`createdAt, this`updatedAt
      ensures ToJson() == Overridden(old(ToJson()), patch).(updatedAt := now)
    {
      var merged := Overridden(ToJson(), patch).(updatedAt := now);
      gameId, dealer, currentTurn, players, status := merged.gameId, merged.dealer, merged.currentTurn, merged.players, merged.status;
      actions, jokerUses, results, createdAt, updatedAt := merged.actions, merged.jokerUses, merged.results, merged.createdAt, merged.updatedAt;
    }
  }

  /** A patch with no fields leaves the record alone. */
  lemma EmptyPatchKeepsRecord(rec: SessionRecord)
    ensures Overridden(rec, SessionPatch(None, None, None, None, None, None, None, None, None)) == rec
  {
  }

  /** Applying the same patch twice is the same as applying it once. */
  lemma OverriddenIdempotent(rec: SessionRecord, patch: SessionPatch)
    ensures Overridden(Overridden(rec, patch), patch) == Overridden(rec, patch)
  {
  }
}
