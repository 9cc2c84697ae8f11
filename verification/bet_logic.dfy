/**
 * The pure part of the bet service: the records it stores, the payout
 * rounding, the store's bet filters and the statistics computed over a
 * user's bets.
 */
module BetLogic {
  import opened Wrappers
  import MatchService

  type UserId = string
  type MatchId = MatchService.MatchId

  /** A bet's id is its position in creation order. */
  type BetId = nat

  /** Every account starts with this balance. */
  const InitialPoints: int := 100

  datatype User = User(points: int, totalBets: nat, wonBets: nat)

  /** `pending`, `won`, `lost`, or any other text the store may hold. */
  datatype BetStatus = Pending | Won | Lost | Other(name: string)

  datatype Bet = Bet(
    id: BetId, user: UserId, matchId: MatchId, teamBet: string,
    amount: int, potentialWin: int, status: BetStatus, result: int)

  /**
   * `calculatePotentialWin`: no payout for a missing, zero or negative
   * stake or odds; otherwise the stake times the odds, rounded to the
   * nearest integer with halves rounded up (`Math.round`).
   */
  function CalculatePotentialWin(amount: real, odds: real): (r: int)
    ensures amount <= 0.0 || odds <= 0.0 ==> r == 0
    ensures amount > 0.0 && odds > 0.0 ==> r as real - 0.5 <= amount * odds < r as real + 0.5
    ensures r >= 0
  {
    if amount == 0.0 || odds == 0.0 || amount <= 0.0 || odds <= 0.0 then 0
    else (amount * odds + 0.5).Floor
  }

  /** A conjunction of optional equality constraints, as in the store's filter strings. */
  datatype Filter = Filter(user: Option<UserId>, matchId: Option<MatchId>, status: Option<BetStatus>)

  predicate Accepts(f: Filter, b: Bet) {
    (f.user.None? || b.user == f.user.value) &&
    (f.matchId.None? || b.matchId == f.matchId.value) &&
    (f.status.None? || b.status == f.status.value)
  }

  /** Bets listed oldest first: ids strictly increase. */
  predicate Chronological(bets: seq<Bet>) {
    forall i, j | 0 <= i < j < |bets| :: bets[i].id < bets[j].id
  }

  /** Bets listed newest first (`sort: '-created'`): ids strictly decrease. */
  predicate NewestFirst(bets: seq<Bet>) {
    forall i, j | 0 <= i < j < |bets| :: bets[i].id > bets[j].id
  }

  /**
   * The store's `getFullList` with a filter: exactly the bets the filter
   * accepts, newest first when the store holds them in creation order.
   */
  function Selected(bets: seq<Bet>, f: Filter): (r: seq<Bet>)
    ensures |r| <= |bets|
    ensures forall b :: b in r <==> b in bets && Accepts(f, b)
  {
    if bets == [] then []
    else
      assert bets == [bets[0]] + bets[1..];
      Selected(bets[1..], f) + (if Accepts(f, bets[0]) then [bets[0]] else [])
  }

  /** A store kept in creation order yields its filtered lists newest first. */
  lemma {:induction false} SelectedNewestFirst(bets: seq<Bet>, f: Filter)
    requires Chronological(bets)
    ensures NewestFirst(Selected(bets, f))
  {
    if bets != [] {
      assert Chronological(bets[1..]) by {
        forall i, j | 0 <= i < j < |bets[1..]| ensures bets[1..][i].id < bets[1..][j].id {
          assert bets[1..][i] == bets[i + 1] && bets[1..][j] == bets[j + 1];
        }
      }
      SelectedNewestFirst(bets[1..], f);
      forall e | e in Selected(bets[1..], f) ensures e.id > bets[0].id {
        var k :| 0 <= k < |bets[1..]| && bets[1..][k] == e;
        assert bets[k + 1] == e;
      }
    }
  }

  /** Only the bets with the given status. */
  function StatusIs(st: BetStatus): Filter {
    Filter(None, None, Some(st))
  }

  /** The sum of `amount` over a list of bets. */
  function TotalAmount(bets: seq<Bet>): int {
    if bets == [] then 0 else bets[0].amount + TotalAmount(bets[1..])
  }

  /** The sum of `result` over a list of bets. */
  function TotalResult(bets: seq<Bet>): int {
    if bets == [] then 0 else bets[0].result + TotalResult(bets[1..])
  }

  /** The statistics of `getUserBetStats`, before display rounding. */
  datatype BetStats = BetStats(
    totalBets: nat, totalWon: nat, totalLost: nat, pending: nat,
    winRate: real, totalAmountBet: int, totalAmountWon: int, roi: real,
    currentPoints: int)

  /** Each bet carries one of the three statuses the services write. */
  predicate KnownStatuses(bets: seq<Bet>) {
    forall b | b in bets :: b.status == Pending || b.status == Won || b.status == Lost
  }

  /** Won, lost and pending bets together are all the bets when no other status occurs. */
  lemma {:induction false} StatusCountsAddUp(bets: seq<Bet>)
    requires KnownStatuses(bets)
    ensures |Selected(bets, StatusIs(Won))| + |Selected(bets, StatusIs(Lost))|
            + |Selected(bets, StatusIs(Pending))| == |bets|
  {
    if bets != [] {
      assert bets == [bets[0]] + bets[1..];
      assert bets[0] in bets;
      StatusCountsAddUp(bets[1..]);
    }
  }

  /** With positive stakes the total staked is at least the number of bets. */
  lemma {:induction false} PositiveStakesTotal(bets: seq<Bet>)
    requires forall b | b in bets :: b.amount > 0
    ensures TotalAmount(bets) >= |bets|
  {
    if bets != [] {
      assert bets[0] in bets;
      assert forall b | b in bets[1..] :: b in bets;
      PositiveStakesTotal(bets[1..]);
    }
  }

  /** With non-negative results the total won is non-negative. */
  lemma {:induction false} NonNegativeResultsTotal(bets: seq<Bet>)
    requires forall b | b in bets :: b.result >= 0
    ensures TotalResult(bets) >= 0
  {
    if bets != [] {
      assert bets[0] in bets;
      assert forall b | b in bets[1..] :: b in bets;
      NonNegativeResultsTotal(bets[1..]);
    }
  }

  /** A share of a positive whole, as a percentage, lies between 0 and 100. */
  lemma Percentage(part: nat, whole: nat)
    requires part <= whole
    ensures whole > 0 ==> 0.0 <= part as real / whole as real * 100.0 <= 100.0
  {
  }

  /** Winning nothing back loses at most the whole stake. */
  lemma ReturnFloor(won: int, staked: int)
    requires won >= 0 && staked > 0
    ensures (won - staked) as real / staked as real * 100.0 >= -100.0
  {
  }

  /**
   * `getUserBetStats`' aggregation over all of a user's bets and their
   * current balance.
   */
  function Aggregate(all: seq<Bet>, points: int): (s: BetStats)
    ensures s.totalBets == |all| && s.currentPoints == points
    ensures s.totalWon <= s.totalBets && s.totalLost <= s.totalBets && s.pending <= s.totalBets
    ensures KnownStatuses(all) ==> s.totalWon + s.totalLost + s.pending == s.totalBets
    ensures s.totalBets == 0 ==> s.winRate == 0.0
    ensures 0.0 <= s.winRate <= 100.0
    ensures s.totalAmountBet <= 0 ==> s.roi == 0.0
    ensures (forall b | b in all :: b.amount > 0) ==> (s.totalAmountBet == 0 <==> s.totalBets == 0)
    ensures (forall b | b in all :: b.result >= 0) ==> s.totalAmountWon >= 0 && s.roi >= -100.0
  {
    var won := Selected(all, StatusIs(Won));
    var totalBets := |all|;
    var totalWon := |won|;
    var totalLost := |Selected(all, StatusIs(Lost))|;
    var pending := |Selected(all, StatusIs(Pending))|;
    var totalAmountBet := TotalAmount(all);
    var totalAmountWon := TotalResult(won);
    var winRate := if totalBets > 0 then totalWon as real / totalBets as real * 100.0 else 0.0;
    var roi := if totalAmountBet > 0
      then (totalAmountWon - totalAmountBet) as real / totalAmountBet as real * 100.0
      else 0.0;
    assert KnownStatuses(all) ==> totalWon + totalLost + pending == totalBets by {
      if KnownStatuses(all) { StatusCountsAddUp(all); }
    }
    Percentage(totalWon, totalBets);
    assert (forall b | b in all :: b.amount > 0) ==> (totalAmountBet == 0 <==> totalBets == 0) by {
      if forall b | b in all :: b.amount > 0 { PositiveStakesTotal(all); }
    }
    assert (forall b | b in all :: b.result >= 0) ==> totalAmountWon >= 0 && roi >= -100.0 by {
      if forall b | b in all :: b.result >= 0 {
        NonNegativeResultsTotal(won);
        if totalAmountBet > 0 { ReturnFloor(totalAmountWon, totalAmountBet); }
      }
    }
    BetStats(totalBets, totalWon, totalLost, pending, winRate,
             totalAmountBet, totalAmountWon, roi, points)
  }
}
