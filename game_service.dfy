/** The game operations of services/gameService.js that the lobby depends on: generating a
    game code, creating a game with its creator as the first player, and joining a game by
    its code. The document store's reads are replaced by their results (whether the user
    exists and their email, which game and which waiting room matched the code), and the
    random draws by inputs. */
module GameService {
  import opened Common
  import opened WaitingRoomSchema
  import opened WaitingRoomService

  datatype GameError =
    | UserNotFound(userId: string)   // 'El usuario registrado con ID … no existe.'
    | GameNotFound                   // 'Partida no encontrada'

  // ---- generateGameCode ----

  /** The characters a game code is drawn from. */
  const Alphabet := "ABCDEFGHIJKLMNOPQRSTUVWXYZ0123456789"

  /** The length of a generated code. */
  const CodeLength := 6

  /** A draw of `Math.floor(Math.random() * 36)`: an index into the alphabet. */
  predicate ValidPicks(picks: seq<nat>) {
    forall i :: 0 <= i < |picks| ==> picks[i] < |Alphabet|
  }

  /** The code spelled by a sequence of draws. */
  function CodeFor(picks: seq<nat>): string
    requires ValidPicks(picks)
  {
    if picks == [] then "" else CodeFor(picks[..|picks| - 1]) + [Alphabet[picks[|picks| - 1]]]
  }

  /** `generateGameCode`: appends one drawn character six times. */
  method GenerateGameCode(picks: seq<nat>) returns (code: string)
    requires |picks| == CodeLength && ValidPicks(picks)
    ensures code == CodeFor(picks)
    ensures |code| == CodeLength
    ensures forall i :: 0 <= i < |code| ==> code[i] in Alphabet
  {
    code := "";
    for i := 0 to CodeLength
      invariant code == CodeFor(picks[..i])
      invariant |code| == i
      invariant forall k :: 0 <= k < |code| ==> code[k] == Alphabet[picks[k]]
    {
      assert picks[..i + 1][..i] == picks[..i];
      code := code + [Alphabet[picks[i]]];
    }
    assert picks[..CodeLength] == picks;
  }

  /** Each position of a code is the drawn character. */
  lemma {:induction false} CodeForChars(picks: seq<nat>)
    requires ValidPicks(picks)
    ensures |CodeFor(picks)| == |picks|
    ensures forall i :: 0 <= i < |picks| ==> CodeFor(picks)[i] == Alphabet[picks[i]]
  {
    if picks != [] {
      var init := picks[..|picks| - 1];
      CodeForChars(init);
      assert forall i :: 0 <= i < |init| ==> init[i] == picks[i];
    }
  }

  /** The position of a code character in the alphabet: letters first, then digits. */
  function AlphabetIndex(c: char): int {
    if 'A' <= c <= 'Z' then c as int - 'A' as int
    else if '0' <= c <= '9' then 26 + (c as int - '0' as int)
    else -1
  }

  /** The alphabet is the 26 capital letters followed by the ten digits, so every character
      names its own position. */
  lemma AlphabetPositions()
    ensures forall k :: 0 <= k < |Alphabet| ==> AlphabetIndex(Alphabet[k]) == k
  {
  }

  /** Reading a code back character by character recovers the draws: distinct draws give
      distinct codes. */
  lemma CodeRoundTrip(picks: seq<nat>)
    requires ValidPicks(picks)
    ensures var code := CodeFor(picks);
            |code| == |picks| && forall i :: 0 <= i < |code| ==> AlphabetIndex(code[i]) == picks[i]
  {
    CodeForChars(picks);
    AlphabetPositions();
  }

  lemma CodesDetermineDraws(a: seq<nat>, b: seq<nat>)
    requires ValidPicks(a) && ValidPicks(b)
    requires CodeFor(a) == CodeFor(b)
    ensures a == b
  {
    CodeRoundTrip(a);
    CodeRoundTrip(b);
    assert |a| == |b|;
    forall i | 0 <= i < |a| ensures a[i] == b[i] {
      assert AlphabetIndex(CodeFor(a)[i]) == a[i];
    }
  }

  // ---- createGame ----

  /** The creator's entry in a new game's roster. */
  datatype CreatorEntry = CreatorEntry(id: string, kind: string, name: string, joinedAt: string)

  /** The game document `createGame` stores and returns. */
  datatype NewGameDoc = NewGameDoc(
    code: string,
    title: string,
    gameId: string,
    createdBy: string,
    creatorType: string,
    isTemporary: bool,
    status: string,
    players: seq<CreatorEntry>,
    createdAt: string)

  /** The creator's display name: a registered user's email (or a placeholder), anyone else
      `Invitado_` followed by the random number. */
  function CreatorName(creatorType: string, email: Option<string>, guestNumber: nat): (name: string)
    ensures name != ""
    ensures creatorType == "registered" ==> name == StrOr(email, "Usuario Sin Email")
    ensures creatorType != "registered" ==> |name| > 9 && name[..9] == "Invitado_"
    ensures creatorType != "registered" ==> forall i :: 9 <= i < |name| ==> '0' <= name[i] <= '9'
  {
    if creatorType == "registered" then StrOr(email, "Usuario Sin Email")
    else "Invitado_" + Decimal(guestNumber)
  }

  /** `createGame`: refuses a registered creator who is not a stored user; otherwise stores a
      game in the lobby whose only player is the creator (a guest gets a fresh guest id), with
      the given code or a generated one. `userExists` and `email` stand for the user lookup,
      `guestUuid` and `gameUuid` for the two uuids, `picks` and `guestNumber` for the random
      draws. */
  function CreateGame(userExists: bool, email: Option<string>, userId: string, creatorType: string,
                      isTemporary: bool, gameCode: string, guestUuid: string, gameUuid: string,
                      picks: seq<nat>, guestNumber: nat, now: string): (r: Result<NewGameDoc, GameError>)
    requires |picks| == CodeLength && ValidPicks(picks)
    requires guestNumber < 10000
    ensures r.Err? <==> !userExists && creatorType == "registered"
    ensures r.Err? ==> r.error == UserNotFound(userId)
    ensures r.Ok? ==>
              var g := r.value;
              && g.players == [CreatorEntry(g.createdBy, creatorType, CreatorName(creatorType, email, guestNumber), now)]
              && g.createdBy == JoinId(creatorType, userId, guestUuid)
              && (gameCode != "" ==> g.code == gameCode)
              && (gameCode == "" ==> g.code == CodeFor(picks))
              && g.code != ""
              && g.title == "Partida " + g.code
              && g.gameId == gameUuid && g.creatorType == creatorType && g.isTemporary == isTemporary
              && g.status == "lobby" && g.createdAt == now
  {
    if !userExists && creatorType == "registered" then Err(UserNotFound(userId))
    else
      var userName := CreatorName(creatorType, email, guestNumber);
      var guestId := JoinId(creatorType, userId, guestUuid);
      var code := if gameCode != "" then gameCode else CodeFor(picks);
      CodeForChars(picks);
      Ok(NewGameDoc(code, "Partida " + code, gameUuid, guestId, creatorType, isTemporary, "lobby",
                    [CreatorEntry(guestId, creatorType, userName, now)], now))
  }

  /** A game created without a code gets a six-character code over the alphabet. */
  lemma GeneratedCodeShape(picks: seq<nat>)
    requires |picks| == CodeLength && ValidPicks(picks)
    ensures |CodeFor(picks)| == CodeLength
    ensures forall i :: 0 <= i < CodeLength ==> 0 <= AlphabetIndex(CodeFor(picks)[i]) < |Alphabet|
  {
    CodeRoundTrip(picks);
  }

  // ---- joinGame ----

  /** What `joinGame` returns: the game as read and the waiting room as read (neither shows
      the update), plus the roster written to both documents when a newcomer was added. */
  datatype JoinGameResult<G> = JoinGameResult(game: G, waitingRoom: Option<RoomRecord>, written: Option<seq<LobbyPlayer>>)

  /** `joinGame`: fails when no game has the code. When a waiting room has the code and the
      player (by id) is not in it, appends the player as active, recounts the active players,
      sets the room `ready` or `waiting` and writes the same roster to the game. A player
      already in the room, active or not, changes nothing, and there is no capacity check.
      `game` is the matching game's data, passed through untouched; `room` the first
      matching room. */
  method JoinGame<G>(game: Option<G>, room: WaitingRoom?, userId: string, playerType: string,
                     playerName: Option<string>, guestUuid: string, guestNumber: nat, now: string)
    returns (r: Result<JoinGameResult<G>, GameError>)
    requires guestNumber < 10000
    modifies room
    ensures game.None? <==> r == Err(GameError.GameNotFound)
    ensures game.None? && room != null ==> room.ToJson() == old(room.ToJson())
    ensures game.Some? && room == null ==> r == Ok(JoinGameResult(game.value, None, None))
    ensures game.Some? && room != null && HasId(old(room.players), JoinId(playerType, userId, guestUuid)) ==>
              && room.ToJson() == old(room.ToJson())
              && r == Ok(JoinGameResult(game.value, Some(old(room.ToJson())), None))
    ensures game.Some? && room != null && !HasId(old(room.players), JoinId(playerType, userId, guestUuid)) ==>
              var before := old(room.ToJson());
              var roster := before.players + [Newcomer(JoinId(playerType, userId, guestUuid), playerType,
                                                       JoinName(playerName, guestNumber), now)];
              var count := CountActive(roster);
              && room.ToJson() == before.(players := roster, activePlayers := count,
                                          status := StatusFor(count, before.minPlayers), updatedAt := now)
              && count == CountActive(before.players) + 1
              && room.Consistent()
              && r == Ok(JoinGameResult(game.value, Some(before), Some(roster)))
  {
    if game.None? {
      return Err(GameError.GameNotFound);
    }
    var guestId := if playerType == "guest" then "guest_" + guestUuid else userId;
    var finalPlayerName := StrOr(playerName, "Invitado_" + Decimal(guestNumber));
    if room == null {
      return Ok(JoinGameResult(game.value, None, None));
    }
    var waitingRoomData := room.ToJson();
    var existing := FindById(room.players, guestId);
    if existing.Some? {
      return Ok(JoinGameResult(game.value, Some(waitingRoomData), None));
    }
    var newPlayer := Newcomer(guestId, playerType, finalPlayerName, now);
    var updatedPlayers := room.players + [newPlayer];
    JoinAddsOne(room.players, newPlayer);
    StoreRoster(room, updatedPlayers, now);
    return Ok(JoinGameResult(game.value, Some(waitingRoomData), Some(updatedPlayers)));
  }
}
