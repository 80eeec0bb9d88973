/** schemas/WaitingRoom.js: the lobby where players gather before a game starts, with its
    constructor checks and defaults, `validateStatus`, `validatePlayers`,
    `countActivePlayers`, `isReadyToStart`, `toJSON` and the merge performed by `update`. */
module WaitingRoomSchema {
  import opened Common

  /** An entry of a waiting room's roster. Entries the schema formats carry a username;
      entries `joinWaitingRoom` appends carry a player type and a display name instead;
      rejoining and leaving stamp the entry. */
  datatype LobbyPlayer = LobbyPlayer(
    id: string,
    username: Option<string>,
    kind: Option<string>,
    name: Option<string>,
    status: string,
    joinedAt: string,
    rejoinedAt: Option<string>,
    leftAt: Option<string>)

  datatype RoomError =
    | MissingFields          // 'Datos de sala de espera inválidos: faltan campos requeridos'
    | InvalidStatus(status: string)
    | PlayersNotArray        // 'Los jugadores deben ser un array'

  /** What the constructor reads from its argument; absent fields are None. */
  datatype RoomData = RoomData(
    roomId: Option<string>,
    gameId: string,
    gameCode: Option<string>,
    status: Option<string>,
    minPlayers: Option<int>,
    maxPlayers: Option<int>,
    players: ListInput<RawPlayer>,
    createdAt: Option<string>)

  /** The object `toJSON` returns. */
  datatype RoomRecord = RoomRecord(
    roomId: string,
    gameId: string,
    gameCode: string,
    status: string,
    minPlayers: int,
    maxPlayers: int,
    players: seq<LobbyPlayer>,
    activePlayers: int,
    createdAt: string,
    updatedAt: string)

  /** The argument of `update`: the fields it overrides. */
  datatype RoomPatch = RoomPatch(
    roomId: Option<string>,
    gameId: Option<string>,
    gameCode: Option<string>,
    status: Option<string>,
    minPlayers: Option<int>,
    maxPlayers: Option<int>,
    players: Option<seq<LobbyPlayer>>,
    activePlayers: Option<int>,
    createdAt: Option<string>)

  /** The three states of a room. */
  ghost predicate KnownStatus(status: string) {
    status == "waiting" || status == "ready" || status == "started"
  }

  /** `validateStatus`: accepts exactly the three room states. */
  function ValidateStatus(status: string): (r: Result<string, RoomError>)
    ensures r.Ok? <==> KnownStatus(status)
    ensures r.Ok? ==> r.value == status
    ensures r.Err? ==> r.error == InvalidStatus(status)
  {
    if status in ["waiting", "ready", "started"] then Ok(status) else Err(InvalidStatus(status))
  }

  /** `validatePlayers`: rejects anything but an array, otherwise keeps each entry's username
      (as its id too) and defaults a missing status to `active` and a missing join time to now. */
  function ValidatePlayers(players: ListInput<RawPlayer>, now: string): (r: Result<seq<LobbyPlayer>, RoomError>)
    ensures r.Err? <==> !players.List?
    ensures r.Err? ==> r.error == PlayersNotArray
    ensures r.Ok? ==> |r.value| == |players.items|
    ensures r.Ok? ==> forall i :: 0 <= i < |r.value| ==>
                        && r.value[i].id == players.items[i].username
                        && r.value[i].username == Some(players.items[i].username)
                        && r.value[i].status == StrOr(players.items[i].status, "active")
                        && r.value[i].joinedAt == StrOr(players.items[i].joinedAt, now)
  {
    if !players.List? then Err(PlayersNotArray)
    else
      var items := players.items;
      Ok(seq(|items|, i requires 0 <= i < |items| =>
        var p := items[i];
        LobbyPlayer(p.username, Some(p.username), None, None, StrOr(p.status, "active"), StrOr(p.joinedAt, now), None, None)))
  }

  /** `countActivePlayers`: the number of entries whose status is `active`. */
  function CountActive(players: seq<LobbyPlayer>): (n: nat)
    ensures n <= |players|
    ensures n == 0 <==> forall i :: 0 <= i < |players| ==> players[i].status != "active"
    ensures n == |players| <==> forall i :: 0 <= i < |players| ==> players[i].status == "active"
  {
    if players == [] then 0
    else
      var rest := CountActive(players[1..]);
      assert forall i :: 1 <= i < |players| ==> players[1..][i - 1] == players[i];
      (if players[0].status == "active" then 1 else 0) + rest
  }

  lemma {:induction false} CountActiveAppend(a: seq<LobbyPlayer>, b: seq<LobbyPlayer>)
    ensures CountActive(a + b) == CountActive(a) + CountActive(b)
    decreases |a|
  {
    if a == [] {
      assert a + b == b;
    } else {
      assert (a + b)[1..] == a[1..] + b;
      CountActiveAppend(a[1..], b);
    }
  }

  /** The WaitingRoom constructor. It rejects missing data or a missing code, then a status
      (defaulting to `waiting`) outside the three states, then a roster that is not an
      array; the room id defaults to a fresh uuid, the player limits to 2 and 6 (a 0 also
      falls back), and the active count is computed from the roster. */
  function NewRoom(data: Option<RoomData>, uuid: string, now: string): (r: Result<RoomRecord, RoomError>)
    ensures data.None? || StrOr(data.value.gameCode, "") == "" ==> r == Err(MissingFields)
    ensures (data.Some? && StrOr(data.value.gameCode, "") != "" && !KnownStatus(StrOr(data.value.status, "waiting")))
            ==> r == Err(InvalidStatus(StrOr(data.value.status, "waiting")))
    ensures (data.Some? && StrOr(data.value.gameCode, "") != "" && KnownStatus(StrOr(data.value.status, "waiting"))
             && data.value.players.NotAList?) ==> r == Err(PlayersNotArray)
    ensures r.Ok? ==>
              var d := data.value;
              var room := r.value;
              && room.roomId == StrOr(d.roomId, uuid)
              && room.gameId == d.gameId
              && room.gameCode == d.gameCode.value
              && room.status == StrOr(d.status, "waiting") && KnownStatus(room.status)
              && room.minPlayers == NumOr(d.minPlayers, 2)
              && room.maxPlayers == NumOr(d.maxPlayers, 6)
              && Ok(room.players) == ValidatePlayers(OrEmpty(d.players), now)
              && room.activePlayers == CountActive(room.players)
              && room.createdAt == StrOr(d.createdAt, now)
              && room.updatedAt == now
  {
    if data.None? || StrOr(data.value.gameCode, "") == "" then Err(MissingFields)
    else
      var d := data.value;
      match ValidateStatus(StrOr(d.status, "waiting"))
      case Err(e) => Err(e)
      case Ok(status) =>
        match ValidatePlayers(OrEmpty(d.players), now)
        case Err(e) => Err(e)
        case Ok(players) =>
          Ok(RoomRecord(StrOr(d.roomId, uuid), d.gameId, d.gameCode.value, status, NumOr(d.minPlayers, 2),
                        NumOr(d.maxPlayers, 6), players, CountActive(players), StrOr(d.createdAt, now), now))
  }

  /** A room built from nothing but a code has the default limits, is waiting and is empty. */
  lemma DefaultRoom(code: string, uuid: string, now: string)
    requires code != ""
    ensures var r := NewRoom(Some(RoomData(None, "", Some(code), None, None, None, Missing, None)), uuid, now);
            && r.Ok? && r.value.status == "waiting" && r.value.minPlayers == 2 && r.value.maxPlayers == 6
            && r.value.players == [] && r.value.activePlayers == 0
  {
  }

  /** `{ ...record, ...patch }`: every field the patch carries replaces the record's. */
  function Overridden(rec: RoomRecord, patch: RoomPatch): RoomRecord {
    RoomRecord(
      Pick(patch.roomId, rec.roomId),
      Pick(patch.gameId, rec.gameId),
      Pick(patch.gameCode, rec.gameCode),
      Pick(patch.status, rec.status),
      Pick(patch.minPlayers, rec.minPlayers),
      Pick(patch.maxPlayers, rec.maxPlayers),
      Pick(patch.players, rec.players),
      Pick(patch.activePlayers, rec.activePlayers),
      Pick(patch.createdAt, rec.createdAt),
      rec.updatedAt)
  }

  /** A patch that only changes the status. */
  function StatusPatch(status: string): RoomPatch {
    RoomPatch(None, None, None, Some(status), None, None, None, None, None)
  }

  class WaitingRoom {
    var roomId: string
    var gameId: string
    var gameCode: string
    var status: string
    var minPlayers: int
    var maxPlayers: int
    var players: seq<LobbyPlayer>
    var activePlayers: int
    var createdAt: string
    var updatedAt: string

    /** The stored active count matches the roster. */
    ghost predicate Consistent()
      reads this
    {
      activePlayers == CountActive(players)
    }

    /** `toJSON`. */
    function ToJson(): RoomRecord
      reads this
    {
      RoomRecord(roomId, gameId, gameCode, status, minPlayers, maxPlayers, players, activePlayers, createdAt, updatedAt)
    }

    /** `isReadyToStart`: enough players are active. */
    function IsReadyToStart(): (ready: bool)
      reads this
      ensures Consistent() ==> (ready <==> CountActive(players) >= minPlayers)
    {
      activePlayers >= minPlayers
    }

    /** A room holding a record (see NewRoom). */
    constructor (rec: RoomRecord)
      ensures ToJson() == rec
    {
      roomId, gameId, gameCode, status, minPlayers := rec.roomId, rec.gameId, rec.gameCode, rec.status, rec.minPlayers;
      maxPlayers, players, activePlayers, createdAt, updatedAt := rec.maxPlayers, rec.players, rec.activePlayers, rec.createdAt, rec.updatedAt;
    }

    /** `update`: merges `patch` over `toJSON()`, sets `updatedAt` to now and assigns the
        result back onto the room. */
    method Update(patch: RoomPatch, now: string)
      modifies this
      ensures ToJson() == Overridden(old(ToJson()), patch).(updatedAt := now)
    {
      var merged := Overridden(ToJson(), patch).(updatedAt := now);
      roomId, gameId, gameCode, status, minPlayers := merged.roomId, merged.gameId, merged.gameCode, merged.status, merged.minPlayers;
      maxPlayers, players, activePlayers, createdAt, updatedAt := merged.maxPlayers, merged.players, merged.activePlayers, merged.createdAt, merged.updatedAt;
    }
  }

  /** Updating only the status leaves everything else but the time stamp as it was. */
  lemma StatusPatchChangesOnlyStatus(rec: RoomRecord, status: string, now: string)
    ensures Overridden(rec, StatusPatch(status)).(updatedAt := now) == rec.(status := status, updatedAt := now)
  {
  }
}
