/** Turn order and dealer choice of services/gameSessionService.js (`nextTurn`,
    `assignDealerAndStarter`). Both read only the players' usernames, so a table is given
    here by its usernames in seating order. */
module SessionRotation {
  import opened Common

  /** Indexing an empty roster reads `undefined.username`, which throws. */
  datatype RotationError = NoPlayers

  /** `players.findIndex(p => p.username === u)`: the first seat holding `u`, or -1. */
  function FindSeat(seats: seq<string>, u: string): (i: int)
    ensures -1 <= i < |seats|
    ensures i >= 0 ==> seats[i] == u && forall j :: 0 <= j < i ==> seats[j] != u
    ensures i == -1 <==> u !in seats
  {
    if seats == [] then -1
    else if seats[0] == u then 0
    else
      var i := FindSeat(seats[1..], u);
      assert forall j :: 1 <= j < |seats| ==> seats[1..][j - 1] == seats[j];
      if i == -1 then -1 else i + 1
  }

  /** The seat after seat `i`, wrapping from the last seat to the first. */
  function SeatAfter(n: nat, i: nat): nat
    requires i < n
  {
    if i + 1 == n then 0 else i + 1
  }

  /** `nextTurn`: the player seated after the current one; a username that is not seated
      counts as seat -1, so the first seat follows it. */
  function NextTurn(currentTurn: string, seats: seq<string>): (r: Result<string, RotationError>)
    ensures r.Err? <==> seats == []
    ensures r.Ok? && currentTurn !in seats ==> r.value == seats[0]
    ensures r.Ok? ==> forall i :: 0 <= i < |seats| && seats[i] == currentTurn
                        && (forall j :: 0 <= j < i ==> seats[j] != currentTurn)
                        ==> r.value == seats[SeatAfter(|seats|, i)]
  {
    if seats == [] then Err(NoPlayers)
    else
      var currentIndex := FindSeat(seats, currentTurn);
      var next := (currentIndex + 1) % |seats|;
      assert next == if currentIndex + 1 == |seats| then 0 else currentIndex + 1 by {
        ModBelow(currentIndex + 1, |seats|);
      }
      Ok(seats[next])
  }

  /** `assignDealerAndStarter` with the random choice `Math.floor(Math.random() * n)` given
      as `dealerIndex` (which is 0 for an empty roster). */
  function AssignDealerAndStarter(seats: seq<string>, dealerIndex: nat): (r: Result<(string, string), RotationError>)
    requires dealerIndex < |seats| || seats == []
    ensures r.Err? <==> seats == []
    ensures r.Ok? ==> r.value.0 == seats[dealerIndex]
    ensures r.Ok? ==> r.value.1 == seats[SeatAfter(|seats|, dealerIndex)]
  {
    if seats == [] then Err(NoPlayers)
    else
      var starterIndex := (dealerIndex + 1) % |seats|;
      ModBelow(dealerIndex + 1, |seats|);
      Ok((seats[dealerIndex], seats[starterIndex]))
  }

  /** `x mod n` for `0 <= x <= n`. */
  lemma ModBelow(x: int, n: int)
    requires 0 <= x <= n && 0 < n
    ensures x % n == if x == n then 0 else x
  {
  }

  /** Adding `n` does not change a residue modulo `n`. */
  lemma ShiftMod(x: int, n: int)
    requires 0 <= x && 0 < n
    ensures (x + n) % n == x % n
  {
    ModUnique(x + n, n, x / n + 1, x % n);
  }

  /** The remainder is determined by any quotient-remainder decomposition. */
  lemma ModUnique(y: int, n: int, q: int, r: int)
    requires 0 < n && 0 <= r < n && y == q * n + r
    ensures y % n == r
  {
    var d := q - y / n;
    assert d * n == y % n - r;
    assert d >= 1 ==> d * n >= n;
    assert d <= -1 ==> d * n <= -n;
  }

  ghost predicate DistinctSeats(seats: seq<string>) {
    forall i, j :: 0 <= i < j < |seats| ==> seats[i] != seats[j]
  }

  /** With distinct usernames, the starter is the player whose turn follows the dealer's. */
  lemma StarterFollowsDealer(seats: seq<string>, dealerIndex: nat)
    requires DistinctSeats(seats) && dealerIndex < |seats|
    ensures NextTurn(AssignDealerAndStarter(seats, dealerIndex).value.0, seats)
            == Ok(AssignDealerAndStarter(seats, dealerIndex).value.1)
  {
    assert FindSeat(seats, seats[dealerIndex]) == dealerIndex;
  }

  /** With distinct usernames, the turn passes from seat `i` to the seat after it. */
  lemma NextOfSeat(seats: seq<string>, i: nat)
    requires DistinctSeats(seats) && i < |seats|
    ensures NextTurn(seats[i], seats) == Ok(seats[SeatAfter(|seats|, i)])
  {
    assert FindSeat(seats, seats[i]) == i;
  }

  /** The player whose turn it is after `k` further turns starting from `u`. */
  function TurnAfter(seats: seq<string>, u: string, k: nat): string
    requires seats != []
    decreases k
  {
    if k == 0 then u else TurnAfter(seats, NextTurn(u, seats).value, k - 1)
  }

  /** With distinct usernames, `k` turns after seat `i` it is seat `(i + k) mod n`'s turn. */
  lemma {:induction false} TurnRotation(seats: seq<string>, i: nat, k: nat)
    requires DistinctSeats(seats) && i < |seats|
    ensures TurnAfter(seats, seats[i], k) == seats[(i + k) % |seats|]
    decreases k
  {
    var n := |seats|;
    if k == 0 {
      ModBelow(i, n);
    } else {
      var next := SeatAfter(n, i);
      NextOfSeat(seats, i);
      assert TurnAfter(seats, seats[i], k) == TurnAfter(seats, seats[next], k - 1);
      TurnRotation(seats, next, k - 1);
      if i + 1 == n {
        ShiftMod(k - 1, n);
        assert i + k == (k - 1) + n;
        assert (i + k) % n == (next + (k - 1)) % n;
      } else {
        assert i + k == next + (k - 1);
      }
    }
  }

  /** Seat `j` lies fewer than `n` steps ahead of seat `i`. */
  lemma SeatDistance(n: nat, i: nat, j: nat) returns (k: nat)
    requires i < n && j < n
    ensures k < n && (i + k) % n == j
  {
    ModBelow(j, n);
    if i <= j {
      k := j - i;
    } else {
      k := j + n - i;
      ShiftMod(j, n);
      assert i + k == j + n;
    }
  }

  /** A full round of turns returns to the player it started from. */
  lemma TurnsComeBack(seats: seq<string>, i: nat)
    requires DistinctSeats(seats) && i < |seats|
    ensures TurnAfter(seats, seats[i], |seats|) == seats[i]
  {
    var n := |seats|;
    TurnRotation(seats, i, n);
    FullCircle(i, n);
    assert seats[(i + n) % n] == seats[i];
  }

  lemma FullCircle(i: nat, n: nat)
    requires i < n
    ensures (i + n) % n == i
  {
    ShiftMod(i, n);
    ModBelow(i, n);
  }

  /** Within a full round of turns, every player gets the turn. */
  lemma EveryPlayerGetsATurn(seats: seq<string>, i: nat, j: nat)
    requires DistinctSeats(seats) && i < |seats| && j < |seats|
    ensures exists k :: 0 <= k < |seats| && TurnAfter(seats, seats[i], k) == seats[j]
  {
    var k := SeatDistance(|seats|, i, j);
    TurnRotation(seats, i, k);
  }
}
