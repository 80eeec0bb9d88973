/** The lobby operations of services/waitingRoomService.js: joining a waiting room (appending
    a new player or reactivating one who left), leaving it, and starting the game once
    enough players are active. The document store's queries are replaced by their results:
    whether the game exists and which room (if any) matched. */
module WaitingRoomService {
  import opened Common
  import opened WaitingRoomSchema

  datatype LobbyError =
    | GameNotFound           // 'Partida no encontrada'
    | RoomNotFound           // 'Sala de espera no encontrada'
    | RoomFull               // 'La sala está llena'
    | RoomNotReady           // 'Sala de espera no encontrada o no está lista para comenzar'
    | NotEnoughPlayers       // 'No hay suficientes jugadores para comenzar'
    | InvalidRoom(reason: RoomError)

  // ---- roster updates ----

  ghost predicate HasId(players: seq<LobbyPlayer>, id: string) {
    exists i :: 0 <= i < |players| && players[i].id == id
  }

  /** `players.find(p => p.id === id)`. */
  function FindById(players: seq<LobbyPlayer>, id: string): (r: Option<LobbyPlayer>)
    ensures r.None? <==> !HasId(players, id)
    ensures r.Some? ==> exists i :: 0 <= i < |players| && players[i] == r.value && r.value.id == id
                                    && forall j :: 0 <= j < i ==> players[j].id != id
  {
    if players == [] then None
    else if players[0].id == id then Some(players[0])
    else
      var r := FindById(players[1..], id);
      assert forall i :: 1 <= i < |players| ==> players[1..][i - 1] == players[i];
      r
  }

  /** The entry `joinWaitingRoom` appends for a newcomer. */
  function Newcomer(id: string, playerType: string, name: string, now: string): LobbyPlayer {
    LobbyPlayer(id, None, Some(playerType), Some(name), "active", now, None, None)
  }

  /** Marks every entry with this id active again, stamping when it rejoined. */
  function Reactivated(players: seq<LobbyPlayer>, id: string, now: string): (r: seq<LobbyPlayer>)
    ensures |r| == |players|
    ensures forall i :: 0 <= i < |players| && players[i].id == id ==>
              r[i] == players[i].(status := "active", rejoinedAt := Some(now))
    ensures forall i :: 0 <= i < |players| && players[i].id != id ==> r[i] == players[i]
  {
    seq(|players|, i requires 0 <= i < |players| =>
      if players[i].id == id then players[i].(status := "active", rejoinedAt := Some(now)) else players[i])
  }

  /** Marks every entry with this id inactive, stamping when it left. */
  function MarkedInactive(players: seq<LobbyPlayer>, id: string, now: string): (r: seq<LobbyPlayer>)
    ensures |r| == |players|
    ensures forall i :: 0 <= i < |players| && players[i].id == id ==>
              r[i] == players[i].(status := "inactive", leftAt := Some(now))
    ensures forall i :: 0 <= i < |players| && players[i].id != id ==> r[i] == players[i]
  {
    seq(|players|, i requires 0 <= i < |players| =>
      if players[i].id == id then players[i].(status := "inactive", leftAt := Some(now)) else players[i])
  }

  /** `activeCount >= minPlayers ? 'ready' : 'waiting'`. */
  function StatusFor(activeCount: int, minPlayers: int): (status: string)
    ensures status == "ready" <==> activeCount >= minPlayers
    ensures status == "waiting" <==> activeCount < minPlayers
  {
    if activeCount >= minPlayers then "ready" else "waiting"
  }

  // ---- what the roster updates do to the active count ----

  /** A newcomer is one more active player. */
  lemma JoinAddsOne(players: seq<LobbyPlayer>, p: LobbyPlayer)
    requires p.status == "active"
    ensures CountActive(players + [p]) == CountActive(players) + 1
  {
    CountActiveAppend(players, [p]);
  }

  /** Reactivating never lowers the active count, and leaves the player active. */
  lemma {:induction false} ReactivateCount(players: seq<LobbyPlayer>, id: string, now: string)
    ensures CountActive(Reactivated(players, id, now)) >= CountActive(players)
    ensures HasId(players, id) ==> CountActive(Reactivated(players, id, now)) >= 1
    decreases |players|
  {
    if players != [] {
      var r := Reactivated(players, id, now);
      assert r[1..] == Reactivated(players[1..], id, now);
      ReactivateCount(players[1..], id, now);
      if HasId(players, id) && players[0].id != id {
        var i :| 0 <= i < |players| && players[i].id == id;
        assert players[1..][i - 1].id == id;
      }
    }
  }

  /** Leaving never raises the active count, removes every entry with that id from it, and
      changes nothing when no entry has that id. */
  lemma {:induction false} LeaveCount(players: seq<LobbyPlayer>, id: string, now: string)
    ensures CountActive(MarkedInactive(players, id, now)) <= CountActive(players)
    ensures forall i :: 0 <= i < |players| && players[i].id == id ==>
              MarkedInactive(players, id, now)[i].status != "active"
    ensures !HasId(players, id) ==> MarkedInactive(players, id, now) == players
    decreases |players|
  {
    if players != [] {
      var r := MarkedInactive(players, id, now);
      assert r[1..] == MarkedInactive(players[1..], id, now);
      LeaveCount(players[1..], id, now);
    }
  }

  /** A newcomer who leaves again brings the active count back to where it was. */
  lemma JoinThenLeave(players: seq<LobbyPlayer>, id: string, playerType: string, name: string, t0: string, t1: string)
    requires !HasId(players, id)
    ensures CountActive(MarkedInactive(players + [Newcomer(id, playerType, name, t0)], id, t1)) == CountActive(players)
  {
    var joined := players + [Newcomer(id, playerType, name, t0)];
    var left := MarkedInactive(joined, id, t1);
    LeaveCount(players, id, t1);
    assert left == MarkedInactive(players, id, t1) + [Newcomer(id, playerType, name, t0).(status := "inactive", leftAt := Some(t1))];
    CountActiveAppend(players, [Newcomer(id, playerType, name, t0).(status := "inactive", leftAt := Some(t1))]);
  }

  // ---- storing a new roster ----

  /** The write every roster change ends with: the new roster, its active count, the status
      that count gives (`ready` once the minimum is met, `waiting` otherwise) and the time. */
  method StoreRoster(room: WaitingRoom, roster: seq<LobbyPlayer>, now: string)
    modifies room`players, room`activePlayers, room`status, room`updatedAt
    ensures room.ToJson() == old(room.ToJson()).(players := roster, activePlayers := CountActive(roster),
                                                 status := StatusFor(CountActive(roster), room.minPlayers),
                                                 updatedAt := now)
    ensures room.Consistent()
  {
    var activeCount := CountActive(roster);
    var newStatus := if activeCount >= room.minPlayers then "ready" else "waiting";
    room.players, room.activePlayers, room.status, room.updatedAt := roster, activeCount, newStatus, now;
  }

  // ---- joinWaitingRoom ----

  /** The roster after a join: the newcomer appended, a player who left made active again, or
      an active player's roster unchanged. */
  function JoinedRoster(players: seq<LobbyPlayer>, id: string, playerType: string, name: string, now: string): seq<LobbyPlayer> {
    match FindById(players, id)
    case None => players + [Newcomer(id, playerType, name, now)]
    case Some(p) => if p.status != "active" then Reactivated(players, id, now) else players
  }

  /** After a join the player has an active entry and no one else's entry changed: a
      newcomer is appended at the end (one more active player), a known player keeps their
      place; the active count never drops. */
  lemma JoinedRosterEffect(players: seq<LobbyPlayer>, id: string, playerType: string, name: string, now: string)
    ensures var r := JoinedRoster(players, id, playerType, name, now);
            exists i :: 0 <= i < |r| && r[i].id == id && r[i].status == "active"
    ensures !HasId(players, id) ==>
              && JoinedRoster(players, id, playerType, name, now) == players + [Newcomer(id, playerType, name, now)]
              && CountActive(JoinedRoster(players, id, playerType, name, now)) == CountActive(players) + 1
    ensures HasId(players, id) ==>
              && |JoinedRoster(players, id, playerType, name, now)| == |players|
              && forall i :: 0 <= i < |players| && players[i].id != id ==>
                   JoinedRoster(players, id, playerType, name, now)[i] == players[i]
    ensures CountActive(JoinedRoster(players, id, playerType, name, now)) >= CountActive(players)
  {
    var r := JoinedRoster(players, id, playerType, name, now);
    match FindById(players, id)
    case None =>
      JoinAddsOne(players, Newcomer(id, playerType, name, now));
      assert r[|players|].id == id;
    case Some(p) =>
      var i :| 0 <= i < |players| && players[i] == p && p.id == id;
      assert r[i].id == id;
      ReactivateCount(players, id, now);
  }

  /** The id a joining player gets: a fresh guest id, or the user's own id. */
  function JoinId(playerType: string, userId: string, guestUuid: string): string {
    if playerType == "guest" then "guest_" + guestUuid else userId
  }

  /** `playerName || 'Invitado_' + n` with the random number `n`. */
  function JoinName(playerName: Option<string>, guestNumber: nat): (name: string)
    ensures name != ""
  {
    StrOr(playerName, "Invitado_" + Decimal(guestNumber))
  }

  /** The roster update of `joinWaitingRoom`: a newcomer is appended (and the new roster is
      also due for the game), a player who left is made active again, an active player
      changes nothing. */
  method JoinRoster(players: seq<LobbyPlayer>, id: string, playerType: string, name: string, now: string)
    returns (updated: seq<LobbyPlayer>, gamePlayers: Option<seq<LobbyPlayer>>)
    ensures updated == JoinedRoster(players, id, playerType, name, now)
    ensures gamePlayers == if HasId(players, id) then None else Some(updated)
  {
    var existing := FindById(players, id);
    updated := players;
    gamePlayers := None;
    if existing.None? {
      updated := updated + [Newcomer(id, playerType, name, now)];
      gamePlayers := Some(updated);
    } else if existing.value.status != "active" {
      updated := Reactivated(updated, id, now);
    }
  }

  /** What `joinWaitingRoom` returns: the room as read, with the new roster, count and status
      (the stored update time is not part of it). */
  datatype JoinResult = JoinResult(room: RoomRecord, gamePlayers: Option<seq<LobbyPlayer>>)

  /** `joinWaitingRoom`: fails when the game or an open room is not found, or when the room's
      stored count has reached its maximum; otherwise updates the roster, recounts the active
      players, sets the room `ready` or `waiting`, and, when a newcomer was appended, writes
      the new roster to the game too. The guest uuid and the random guest number are inputs. */
  method JoinWaitingRoom(gameFound: bool, room: WaitingRoom?, userId: string, playerType: string,
                         playerName: Option<string>, guestUuid: string, guestNumber: nat, now: string)
    returns (r: Result<JoinResult, LobbyError>)
    requires guestNumber < 10000
    modifies room
    ensures !gameFound ==> r == Err(GameNotFound)
    ensures gameFound && room == null ==> r == Err(RoomNotFound)
    ensures gameFound && room != null && old(room.activePlayers) >= old(room.maxPlayers) ==> r == Err(RoomFull)
    ensures r.Ok? <==> gameFound && room != null && old(room.activePlayers) < old(room.maxPlayers)
    ensures r.Err? && room != null ==> room.ToJson() == old(room.ToJson())
    ensures r.Ok? ==>
              var id := JoinId(playerType, userId, guestUuid);
              var before := old(room.ToJson());
              var roster := JoinedRoster(before.players, id, playerType, JoinName(playerName, guestNumber), now);
              var count := CountActive(roster);
              && gameFound && room != null && before.activePlayers < before.maxPlayers
              && room.ToJson() == before.(players := roster, activePlayers := count,
                                          status := StatusFor(count, before.minPlayers), updatedAt := now)
              && r.value.room == room.ToJson().(updatedAt := before.updatedAt)
              && r.value.gamePlayers == (if HasId(before.players, id) then None else Some(roster))
  {
    if !gameFound {
      return Err(GameNotFound);
    }
    if room == null {
      return Err(RoomNotFound);
    }
    if room.activePlayers >= room.maxPlayers {
      return Err(RoomFull);
    }
    var before := room.ToJson();
    var guestId := if playerType == "guest" then "guest_" + guestUuid else userId;
    var finalPlayerName := StrOr(playerName, "Invitado_" + Decimal(guestNumber));
    var updatedPlayers, gamePlayers := JoinRoster(room.players, guestId, playerType, finalPlayerName, now);
    StoreRoster(room, updatedPlayers, now);
    return Ok(JoinResult(room.ToJson().(updatedAt := before.updatedAt), gamePlayers));
  }

  // ---- leaveWaitingRoom ----

  /** What `leaveWaitingRoom` returns besides `success: true`. */
  datatype LeaveResult = LeaveResult(activeCount: nat, status: string)

  /** `leaveWaitingRoom`: fails when no open room matched; otherwise marks the player
      inactive, recounts the active players and sets the room `ready` or `waiting`. */
  method LeaveWaitingRoom(room: WaitingRoom?, userId: string, now: string) returns (r: Result<LeaveResult, LobbyError>)
    modifies room
    ensures room == null <==> r == Err(RoomNotFound)
    ensures room != null ==> r.Ok?
    ensures r.Ok? ==>
              var before := old(room.ToJson());
              var roster := MarkedInactive(before.players, userId, now);
              var count := CountActive(roster);
              && room.ToJson() == before.(players := roster, activePlayers := count,
                                          status := StatusFor(count, before.minPlayers), updatedAt := now)
              && r.value == LeaveResult(count, StatusFor(count, before.minPlayers))
    ensures r.Ok? ==> room.Consistent()
  {
    if room == null {
      return Err(RoomNotFound);
    }
    var updatedPlayers := MarkedInactive(room.players, userId, now);
    StoreRoster(room, updatedPlayers, now);
    return Ok(LeaveResult(room.activePlayers, room.status));
  }

  // ---- startGame ----

  /** `startGame`: fails when no room with this code is `ready`; otherwise rebuilds the room
      through the schema (which may fail), refuses a room without enough active players, and
      marks it `started`. The returned room is the rebuilt one after the update. */
  method StartGame(found: Option<RoomData>, uuid: string, now: string) returns (r: Result<RoomRecord, LobbyError>)
    ensures found.None? ==> r == Err(RoomNotReady)
    ensures found.Some? && NewRoom(found, uuid, now).Err? ==> r == Err(InvalidRoom(NewRoom(found, uuid, now).error))
    ensures found.Some? && NewRoom(found, uuid, now).Ok? ==>
              var rebuilt := NewRoom(found, uuid, now).value;
              && (rebuilt.activePlayers < rebuilt.minPlayers ==> r == Err(NotEnoughPlayers))
              && (rebuilt.activePlayers >= rebuilt.minPlayers ==> r == Ok(rebuilt.(status := "started")))
    ensures r.Ok? ==> r.value.status == "started" && r.value.activePlayers == CountActive(r.value.players)
  {
    if found.None? {
      return Err(RoomNotReady);
    }
    var rebuilt := NewRoom(found, uuid, now);
    if rebuilt.Err? {
      return Err(InvalidRoom(rebuilt.error));
    }
    var waitingRoom := new WaitingRoom(rebuilt.value);
    if !waitingRoom.IsReadyToStart() {
      return Err(NotEnoughPlayers);
    }
    waitingRoom.Update(StatusPatch("started"), now);
    return Ok(waitingRoom.ToJson());
  }
}
