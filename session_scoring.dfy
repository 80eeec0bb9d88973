/** The scoring engine of services/gameSessionService.js: the card-rank value table,
    `calculatePoints` over a declared hand and `determineWinner` over score totals. */
module SessionScoring {
  import opened Common
  import opened Objects

  /** A declared hand: card rank to the number of such cards left in the hand. */
  type Declaration = Obj<int>

  datatype ScoringError = InvalidCard(card: string)

  /** The points one card of a rank is worth, or None for a rank the game does not know. */
  function RankValue(card: string): Option<int> {
    if card in {"2", "3", "4", "5", "6", "7", "8", "9"} then Some(5)
    else if card in {"10", "J", "Q", "K"} then Some(10)
    else if card == "A" then Some(15)
    else if card == "Joker" then Some(50)
    else None
  }

  /** Every declared rank is one the value table knows. */
  ghost predicate Scorable(d: Declaration) {
    forall i :: 0 <= i < |d| ==> RankValue(d[i].0).Some?
  }

  /** The sum over the declared ranks of count times the rank's value. */
  ghost function DeclaredTotal(d: Declaration): int
    requires Scorable(d)
  {
    if d == [] then 0 else d[0].1 * RankValue(d[0].0).value + DeclaredTotal(d[1..])
  }

  /** The first rank, in enumeration order, that the value table does not know. */
  ghost function FirstInvalidCard(d: Declaration): (r: Option<string>)
    ensures r.None? <==> Scorable(d)
    ensures r.Some? ==> exists i :: 0 <= i < |d| && d[i].0 == r.value && RankValue(d[i].0).None?
                                    && forall j :: 0 <= j < i ==> RankValue(d[j].0).Some?
  {
    if d == [] then None
    else if RankValue(d[0].0).None? then Some(d[0].0)
    else
      var r := FirstInvalidCard(d[1..]);
      assert forall i :: 1 <= i < |d| ==> d[1..][i - 1] == d[i];
      r
  }

  /** `calculatePoints`: accumulates count times value over the declaration's entries and
      throws on the first unknown rank. */
  method CalculatePoints(declarations: Declaration) returns (r: Result<int, ScoringError>)
    ensures r.Ok? <==> Scorable(declarations)
    ensures r.Ok? ==> r.value == DeclaredTotal(declarations)
    ensures r.Err? ==> FirstInvalidCard(declarations) == Some(r.error.card)
  {
    var total := 0;
    var i := 0;
    while i < |declarations|
      invariant 0 <= i <= |declarations|
      invariant forall j :: 0 <= j < i ==> RankValue(declarations[j].0).Some?
      invariant FirstInvalidCard(declarations) == FirstInvalidCard(declarations[i..])
      invariant Scorable(declarations[i..]) ==>
                  Scorable(declarations) && total + DeclaredTotal(declarations[i..]) == DeclaredTotal(declarations)
    {
      var card, count := declarations[i].0, declarations[i].1;
      assert declarations[i..][1..] == declarations[i + 1..];
      if card in {"2", "3", "4", "5", "6", "7", "8", "9"} {
        total := total + count * 5;
      } else if card in {"10", "J", "Q", "K"} {
        total := total + count * 10;
      } else if card == "A" {
        total := total + count * 15;
      } else if card == "Joker" {
        total := total + count * 50;
      } else {
        return Err(InvalidCard(card));
      }
      i := i + 1;
    }
    assert declarations[i..] == [];
    r := Ok(total);
  }

  /** The worked example of the game rules: two aces and a joker are worth 80 points. */
  lemma AcesAndJoker()
    ensures Scorable([("A", 2), ("Joker", 1)])
    ensures DeclaredTotal([("A", 2), ("Joker", 1)]) == 80
  {
  }

  /** An empty hand is worth nothing. */
  lemma EmptyHandScoresZero()
    ensures Scorable([]) && DeclaredTotal([]) == 0
  {
  }

  lemma {:induction false} DeclaredTotalAppend(a: Declaration, b: Declaration)
    requires Scorable(a) && Scorable(b)
    ensures Scorable(a + b)
    ensures DeclaredTotal(a + b) == DeclaredTotal(a) + DeclaredTotal(b)
  {
    if a == [] {
      assert a + b == b;
    } else {
      assert (a + b)[1..] == a[1..] + b;
      DeclaredTotalAppend(a[1..], b);
    }
  }

  /** Reordering a hand keeps every rank known. */
  lemma ScorablePermutation(a: Declaration, b: Declaration)
    requires Scorable(a) && multiset(a) == multiset(b)
    ensures Scorable(b)
  {
    forall i | 0 <= i < |b| ensures RankValue(b[i].0).Some? {
      assert b[i] in multiset(a);
    }
  }

  /** The score of a hand does not depend on the order in which its ranks are enumerated. */
  lemma {:induction false} DeclaredTotalPermutation(a: Declaration, b: Declaration)
    requires Scorable(a) && multiset(a) == multiset(b)
    ensures Scorable(b) && DeclaredTotal(a) == DeclaredTotal(b)
  {
    ScorablePermutation(a, b);
    if a != [] {
      assert a[0] in multiset(b);
      var k :| 0 <= k < |b| && b[k] == a[0];
      PermutationTail(a, b, k);
      DeclaredTotalPermutation(a[1..], RemoveEntry(b, k));
      RemoveEntryTotal(b, k);
    }
  }

  /** Taking the first entry of a hand and a matching entry of a reordering leaves two
      reorderings of each other. */
  lemma PermutationTail(a: Declaration, b: Declaration, k: int)
    requires Scorable(a) && multiset(a) == multiset(b)
    requires a != [] && 0 <= k < |b| && b[k] == a[0]
    ensures Scorable(a[1..]) && multiset(a[1..]) == multiset(RemoveEntry(b, k))
  {
    assert a == [a[0]] + a[1..];
    RemoveEntryMultiset(b, k);
    forall i | 0 <= i < |a[1..]| ensures RankValue(a[1..][i].0).Some? {
      assert a[1..][i] == a[i + 1];
    }
  }

  function RemoveEntry(b: Declaration, k: int): Declaration
    requires 0 <= k < |b|
  {
    b[..k] + b[k + 1..]
  }

  lemma RemoveEntryMultiset(b: Declaration, k: int)
    requires 0 <= k < |b|
    ensures multiset(RemoveEntry(b, k)) == multiset(b) - multiset{b[k]}
  {
    assert b == b[..k] + [b[k]] + b[k + 1..];
  }

  /** Takes entry `k` out of a hand: the rest has one entry fewer and scores the rest. */
  lemma {:induction false} RemoveEntryTotal(b: Declaration, k: int)
    requires Scorable(b) && 0 <= k < |b|
    ensures multiset(RemoveEntry(b, k)) == multiset(b) - multiset{b[k]}
    ensures Scorable(RemoveEntry(b, k))
    ensures DeclaredTotal(b) == b[k].1 * RankValue(b[k].0).value + DeclaredTotal(RemoveEntry(b, k))
  {
    var front, mid, back := b[..k], [b[k]], b[k + 1..];
    assert b == front + mid + back;
    RemoveEntryMultiset(b, k);
    assert Scorable(front) by {
      forall i | 0 <= i < |front| ensures RankValue(front[i].0).Some? {
        assert front[i] == b[i];
      }
    }
    assert Scorable(back) by {
      forall i | 0 <= i < |back| ensures RankValue(back[i].0).Some? {
        assert back[i] == b[k + 1 + i];
      }
    }
    assert Scorable(mid) by {
      assert mid[0] == b[k];
    }
    assert DeclaredTotal(mid) == b[k].1 * RankValue(b[k].0).value;
    DeclaredTotalAppend(front, mid);
    DeclaredTotalAppend(front + mid, back);
    DeclaredTotalAppend(front, back);
  }

  /** The number of cards declared. */
  function CardCount(d: Declaration): int {
    if d == [] then 0 else d[0].1 + CardCount(d[1..])
  }

  /** With non-negative counts every card is worth between 5 and 50 points. */
  lemma {:induction false} DeclaredTotalBounds(d: Declaration)
    requires Scorable(d)
    requires forall i :: 0 <= i < |d| ==> d[i].1 >= 0
    ensures 5 * CardCount(d) <= DeclaredTotal(d) <= 50 * CardCount(d)
  {
    if d != [] {
      assert forall i :: 1 <= i < |d| ==> d[1..][i - 1] == d[i];
      DeclaredTotalBounds(d[1..]);
    }
  }

  // ---- determineWinner ----

  /** A score total: a number, or NaN where the code adds to a key it never initialised. */
  datatype Num = Finite(n: int) | NaN

  /** Entry `i` holds a total no larger than any other total, and strictly smaller than
      every total enumerated before it. */
  ghost predicate IsFirstMinimum(points: Obj<Num>, i: int) {
    && 0 <= i < |points|
    && points[i].1.Finite?
    && (forall j :: 0 <= j < |points| && points[j].1.Finite? ==> points[i].1.n <= points[j].1.n)
    && (forall j :: 0 <= j < i && points[j].1.Finite? ==> points[i].1.n < points[j].1.n)
  }

  /** `w` is what `determineWinner` returns for these totals: null when no total is a
      number, otherwise the key of the first minimal total. */
  ghost predicate IsWinner(points: Obj<Num>, w: Option<string>) {
    && (w.None? <==> forall j :: 0 <= j < |points| ==> points[j].1.NaN?)
    && (w.Some? ==> exists i :: IsFirstMinimum(points, i) && points[i].0 == w.value)
  }

  /** The first minimum is unique, so `IsWinner` determines the result. */
  lemma FirstMinimumUnique(points: Obj<Num>, i: int, j: int)
    requires IsFirstMinimum(points, i) && IsFirstMinimum(points, j)
    ensures i == j
  {
  }

  /** `determineWinner`: a scan that keeps the smallest total seen so far (starting from
      Infinity) and replaces it only on a strictly smaller one. */
  method DetermineWinner(points: Obj<Num>) returns (winner: Option<string>)
    ensures IsWinner(points, winner)
  {
    var minPoints: Option<int> := None;  // None stands for Infinity
    winner := None;
    ghost var best := -1;
    for i := 0 to |points|
      invariant minPoints.None? <==> forall j :: 0 <= j < i ==> points[j].1.NaN?
      invariant minPoints.None? ==> winner.None?
      invariant minPoints.Some? ==>
                  && 0 <= best < i && points[best].1 == Finite(minPoints.value)
                  && winner == Some(points[best].0)
                  && (forall j :: 0 <= j < i && points[j].1.Finite? ==> minPoints.value <= points[j].1.n)
                  && (forall j :: 0 <= j < best && points[j].1.Finite? ==> minPoints.value < points[j].1.n)
    {
      var (username, value) := points[i];
      if value.Finite? && (minPoints.None? || value.n < minPoints.value) {
        minPoints := Some(value.n);
        winner := Some(username);
        best := i;
      }
    }
    assert minPoints.Some? ==> IsFirstMinimum(points, best);
  }
}
