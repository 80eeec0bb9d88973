/** schemas/Game.js: the game record, its constructor defaults and `validatePlayers`. The
    class's own methods only write to the document store, so a game is a value here. */
module GameSchema {
  import opened Common

  /** A roster entry as `validatePlayers` formats it: the username doubles as the id. */
  datatype GamePlayer = GamePlayer(id: string, username: string, status: string, joinedAt: string)

  /** What the constructor reads; every field but the roster is copied as given. */
  datatype GameData = GameData(
    code: Option<string>,
    title: Option<string>,
    gameId: Option<string>,
    createdBy: Option<string>,
    creatorType: Option<string>,
    isTemporary: Option<bool>,
    players: ListInput<RawPlayer>,
    createdAt: Option<string>)

  datatype Game = Game(
    code: Option<string>,
    title: Option<string>,
    gameId: Option<string>,
    createdBy: Option<string>,
    creatorType: Option<string>,
    isTemporary: bool,
    players: seq<GamePlayer>,
    createdAt: string)

  datatype GameSchemaError = PlayersNotArray   // 'Players must be an array'

  /** `validatePlayers`: rejects anything but an array, otherwise keeps each entry's username
      (as its id too) and defaults a missing status to `active` and a missing join time to now. */
  function ValidatePlayers(players: ListInput<RawPlayer>, now: string): (r: Result<seq<GamePlayer>, GameSchemaError>)
    ensures r.Err? <==> !players.List?
    ensures r.Ok? ==> |r.value| == |players.items|
    ensures r.Ok? ==> forall i :: 0 <= i < |r.value| ==>
                        && r.value[i].id == players.items[i].username
                        && r.value[i].username == players.items[i].username
                        && r.value[i].status == StrOr(players.items[i].status, "active")
                        && r.value[i].joinedAt == StrOr(players.items[i].joinedAt, now)
  {
    if !players.List? then Err(PlayersNotArray)
    else
      var items := players.items;
      Ok(seq(|items|, i requires 0 <= i < |items| =>
        GamePlayer(items[i].username, items[i].username, StrOr(items[i].status, "active"), StrOr(items[i].joinedAt, now))))
  }

  /** A formatted player read back as a roster entry. */
  function AsRaw(p: GamePlayer): RawPlayer {
    RawPlayer(p.username, Some(p.status), Some(p.joinedAt))
  }

  /** Formatting an already formatted roster again (with the same clock) changes nothing. */
  lemma ValidatePlayersIdempotent(players: seq<RawPlayer>, now: string)
    ensures ValidatePlayers(List(players), now).Ok?
    ensures var once := ValidatePlayers(List(players), now).value;
            ValidatePlayers(List(seq(|once|, i requires 0 <= i < |once| => AsRaw(once[i]))), now) == Ok(once)
  {
    var once := ValidatePlayers(List(players), now).value;
    var again := ValidatePlayers(List(seq(|once|, i requires 0 <= i < |once| => AsRaw(once[i]))), now).value;
    forall i | 0 <= i < |once| ensures again[i] == once[i] {
    }
    assert again == once;
  }

  /** The Game constructor: the roster always goes through `validatePlayers` (an absent one
      counts as empty), `isTemporary` defaults to false and the creation time to now. */
  function NewGame(data: GameData, now: string): (r: Result<Game, GameSchemaError>)
    ensures r.Err? <==> data.players.NotAList?
    ensures r.Ok? ==> Ok(r.value.players) == ValidatePlayers(OrEmpty(data.players), now)
    ensures r.Ok? ==> (r.value.isTemporary <==> data.isTemporary == Some(true))
    ensures r.Ok? ==> && r.value.code == data.code && r.value.title == data.title && r.value.gameId == data.gameId
                      && r.value.createdBy == data.createdBy && r.value.creatorType == data.creatorType
    ensures r.Ok? ==> r.value.createdAt == StrOr(data.createdAt, now)
  {
    match ValidatePlayers(OrEmpty(data.players), now)
    case Err(e) => Err(e)
    case Ok(players) =>
      Ok(Game(data.code, data.title, data.gameId, data.createdBy, data.creatorType,
              data.isTemporary == Some(true), players, StrOr(data.createdAt, now)))
  }

  /** With no roster at all, a game starts with no players and is not temporary unless asked. */
  lemma EmptyGame(now: string)
    ensures var r := NewGame(GameData(None, None, None, None, None, None, Missing, None), now);
            r.Ok? && r.value.players == [] && !r.value.isTemporary && r.value.createdAt == now
  {
  }
}
